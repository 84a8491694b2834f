/**
 * The TP1 background watcher (TP1WatcherManager in
 * backend/app/services/mt5_service.py). One tick reconciles the list of
 * open positions with two maps keyed by ticket: whether TP1 already fired,
 * and a snapshot of the position kept for stop-loss detection once it is
 * gone. An application-owned position whose price reached TP1 is partly
 * closed and its stop moved to break-even, once per ticket.
 *
 * The terminal's answers are the `Broker` snapshot and the position list;
 * the outcomes of `partial_close` and `move_to_be`, the deal history and
 * the profit calculator are functions supplied by the caller.
 */
module Tp1Watcher {
  import opened Wrappers
  import opened Text
  import opened Models
  import opened Broker
  import opened Mt5Service
  import ExecutionGuard

  // ---------------------------------------------------------------------------
  // Values
  // ---------------------------------------------------------------------------

  /** Only positions with the application's magic number and comment prefix are watched. */
  predicate AppOwned(p: Position) {
    p.magic == MAGIC && StartsWith(p.comment, ORDER_COMMENT)
  }

  /** `live_tickets`: the tickets of the application's positions in a listing. */
  function LiveTickets(listed: seq<Position>): set<int> {
    set i | 0 <= i < |listed| && AppOwned(listed[i]) :: listed[i].ticket
  }

  /** The snapshot kept in `_tracked_positions` (its display copies of the direction and type are dropped). */
  datatype Cached = Cached(
    ticket: int,
    symbol: string,
    isBuy: bool,
    entry: real,
    sl: real,
    volume: real,
    pipInPrice: real,
    digits: int)

  /** The snapshot of a listed position, with the pip size of its symbol. */
  function Snapshot(p: Position, b: Broker): (c: Cached)
    ensures c.ticket == p.ticket && c.symbol == p.symbol && c.isBuy == p.isBuy
    ensures c.entry == p.priceOpen && c.sl == p.sl && c.volume == p.volume
    ensures c.pipInPrice == PipOf(b, p.symbol) > 0.0 && c.digits == DigitsOf(b, p.symbol)
  {
    Cached(p.ticket, p.symbol, p.isBuy, p.priceOpen, p.sl, p.volume, PipOf(b, p.symbol), DigitsOf(b, p.symbol))
  }

  /** The watcher's settings: `tp1_pips_default`, `tp1_percent_default` and `tp1_be_buffer_pips`. */
  datatype WatcherSettings = WatcherSettings(tp1Pips: real, tp1Percent: real, beBufferPips: real)

  /** The settings' declared defaults. */
  const DefaultSettings := WatcherSettings(30.0, 50.0, 0.0)

  /** The requests the watcher builds must pass their schemas' field constraints. */
  predicate ValidSettings(cfg: WatcherSettings) {
    ValidPartialCloseRequest(Tp1Request(0, cfg, false)) && ValidMoveToBERequest(BeRequest(0, cfg, false))
  }

  /** The partial close of a triggered position. */
  function Tp1Request(ticket: int, cfg: WatcherSettings, armed: bool): PartialCloseRequest {
    PartialCloseRequest(Some(ticket), Some(cfg.tp1Percent), None, None, armed)
  }

  /** The break-even move that follows it. */
  function BeRequest(ticket: int, cfg: WatcherSettings, armed: bool): MoveToBERequest {
    MoveToBERequest(ticket, cfg.beBufferPips, armed)
  }

  /** The TP1 price, recomputed from the entry on every tick: `tp1_pips` pips towards profit. */
  function Tp1Price(c: Cached, tp1Pips: real): real {
    if c.isBuy then c.entry + tp1Pips * c.pipInPrice else c.entry - tp1Pips * c.pipInPrice
  }

  /** The price the position would close at: the bid for a buy, the ask for a sell. */
  function ClosePrice(c: Cached, q: Quote): real {
    if c.isBuy then q.bid else q.ask
  }

  /** The spread-safe trigger: the closing price has reached TP1. */
  predicate Hit(c: Cached, tp1Pips: real, q: Quote) {
    if c.isBuy then q.bid >= Tp1Price(c, tp1Pips) else q.ask <= Tp1Price(c, tp1Pips)
  }

  /** Pips gained by closing at `price`. */
  function PipsGained(c: Cached, price: real): real
    requires c.pipInPrice > 0.0
  {
    if c.isBuy then (price - c.entry) / c.pipInPrice else (c.entry - price) / c.pipInPrice
  }

  /** The trigger holds exactly when closing now would gain at least `tp1_pips` pips. */
  lemma HitIffPipsReached(c: Cached, tp1Pips: real, q: Quote)
    requires c.pipInPrice > 0.0
    ensures Hit(c, tp1Pips, q) <==> PipsGained(c, ClosePrice(c, q)) >= tp1Pips
  {
    var move := if c.isBuy then q.bid - c.entry else c.entry - q.ask;
    var g := move / c.pipInPrice;
    assert PipsGained(c, ClosePrice(c, q)) == g;
    assert move == g * c.pipInPrice;
    assert Hit(c, tp1Pips, q) <==> move >= tp1Pips * c.pipInPrice;
    if g >= tp1Pips {
      assert g * c.pipInPrice >= tp1Pips * c.pipInPrice;
    } else {
      assert g * c.pipInPrice < tp1Pips * c.pipInPrice;
    }
  }

  /** A listed position that TP1 would act on: app-owned, quoted, and at its TP1 price. */
  predicate Triggers(p: Position, b: Broker, cfg: WatcherSettings) {
    AppOwned(p) && p.symbol in b.quotes && Hit(Snapshot(p, b), cfg.tp1Pips, b.quotes[p.symbol])
  }

  /** A triggered position that the guard lets through and whose partial close succeeds. */
  predicate Fires(p: Position, b: Broker, cfg: WatcherSettings, allowed: bool, armed: bool,
                  closeOutcome: PartialCloseRequest -> PartialCloseResponse) {
    Triggers(p, b, cfg) && allowed && closeOutcome(Tp1Request(p.ticket, cfg, armed)).success
  }

  /** `_tp1_done.get(ticket, False)` */
  predicate WasDone(done: map<int, bool>, t: int) {
    t in done && done[t]
  }

  /** The arguments of `order_calc_profit`: symbol, buy or sell, volume, open and close price. */
  datatype ProfitQuery = ProfitQuery(symbol: string, isBuy: bool, volume: real, priceOpen: real, priceClose: real)

  /** How the break-even move after a TP1 close went (`be_status`). */
  datatype BeStatus = BeOk | BeFailed(error: Option<ServiceError>)

  /** `_last_tp1_event`, without its timestamp's clock. */
  datatype Tp1Event = Tp1Event(
    ticket: int,
    symbol: string,
    isBuy: bool,
    entry: real,
    tp1Price: real,
    closePrice: real,
    closeVolume: real,
    pipsProfit: real,
    profitMoney: Option<real>,
    beStatus: BeStatus,
    timestamp: real)

  /** `_last_sl_event` */
  datatype SlEvent = SlEvent(
    ticket: int,
    symbol: string,
    isBuy: bool,
    entry: real,
    slPrice: real,
    volume: real,
    pipsLoss: real,
    profitMoney: Option<real>,
    timestamp: real)

  /** `_last_error` */
  datatype WatcherError =
    | PartialCloseFailed(ticket: int, error: Option<ServiceError>)  // "Partial close failed #..."
    | BeMoveFailed(ticket: int, error: Option<ServiceError>)        // "BE move failed #..."

  /** The event recorded after a TP1 close of `closed.close_volume` lots and a break-even attempt. */
  function Tp1EventOf(c: Cached, tp1Pips: real, q: Quote, closed: PartialCloseResponse, be: OrderResponse,
                      calcProfit: ProfitQuery -> Option<real>, now: real): Tp1Event
    requires c.pipInPrice > 0.0
  {
    var closeVolume := closed.closeVolume.GetOr(0.0);
    var price := ClosePrice(c, q);
    Tp1Event(c.ticket, c.symbol, c.isBuy, c.entry, Tp1Price(c, tp1Pips), price, closeVolume,
             PipsGained(c, price), calcProfit(ProfitQuery(c.symbol, c.isBuy, closeVolume, c.entry, price)),
             if be.success then BeOk else BeFailed(be.error), now)
  }

  /** A TP1 event reports at least the TP1 distance in pips, and the break-even outcome. */
  lemma Tp1EventReportsGain(c: Cached, tp1Pips: real, q: Quote, closed: PartialCloseResponse, be: OrderResponse,
                            calcProfit: ProfitQuery -> Option<real>, now: real)
    requires c.pipInPrice > 0.0 && Hit(c, tp1Pips, q)
    ensures var e := Tp1EventOf(c, tp1Pips, q, closed, be, calcProfit, now);
      && e.pipsProfit >= tp1Pips
      && (e.beStatus == BeOk <==> be.success)
      && e.closePrice == ClosePrice(c, q)
  {
    HitIffPipsReached(c, tp1Pips, q);
  }

  /** `sl_pips`: the stop's distance from the entry in pips, signed towards a loss; 0 without a stop or a pip size. */
  function SlPips(c: Cached): real {
    if c.sl > 0.0 && c.pipInPrice > 0.0 then
      if c.isBuy then (c.entry - c.sl) / c.pipInPrice else (c.sl - c.entry) / c.pipInPrice
    else 0.0
  }

  /**
   * The event of a position that vanished without TP1: the deal history's
   * profit, or the profit calculator's at the stop when there is a stop.
   */
  function SlEventOf(c: Cached, dealProfit: Option<real>, calcProfit: ProfitQuery -> Option<real>, now: real)
    : SlEvent
  {
    var profit :=
      if dealProfit.Some? then dealProfit
      else if c.sl > 0.0 then calcProfit(ProfitQuery(c.symbol, c.isBuy, c.volume, c.entry, c.sl))
      else None;
    var loss := SlPips(c);
    SlEvent(c.ticket, c.symbol, c.isBuy, c.entry, c.sl, c.volume, if loss < 0.0 then -loss else loss, profit, now)
  }

  /**
   * The reported pip loss is the distance between entry and stop in pips,
   * whichever side the position is on; the deal history's profit wins over
   * the calculator, which is consulted only with a stop.
   */
  lemma SlEventMeasuresStop(c: Cached, dealProfit: Option<real>, calcProfit: ProfitQuery -> Option<real>, now: real)
    ensures var e := SlEventOf(c, dealProfit, calcProfit, now);
      && e.pipsLoss >= 0.0
      && (c.sl > 0.0 && c.pipInPrice > 0.0 ==>
            e.pipsLoss * c.pipInPrice == (if c.entry >= c.sl then c.entry - c.sl else c.sl - c.entry))
      && (c.sl <= 0.0 || c.pipInPrice <= 0.0 ==> e.pipsLoss == 0.0)
      && (dealProfit.Some? ==> e.profitMoney == dealProfit)
      && (dealProfit.None? && c.sl <= 0.0 ==> e.profitMoney.None?)
  {
    if c.sl > 0.0 && c.pipInPrice > 0.0 {
      var d := if c.entry >= c.sl then c.entry - c.sl else c.sl - c.entry;
      var s := SlPips(c);
      assert s * c.pipInPrice == d || s * c.pipInPrice == -d;
      assert (if s < 0.0 then -s else s) * c.pipInPrice == d;
    }
  }

  /** A vanished ticket whose stop-loss closure is reported: cached and not closed by TP1. */
  predicate Reportable(t: int, done: map<int, bool>, cache: map<int, Cached>) {
    t in cache && !WasDone(done, t)
  }

  /**
   * The stop-loss event after checking the tickets in `candidates`: one of
   * the reportable candidates' events when there is one, the previous event
   * otherwise.
   */
  ghost predicate SlOutcome(event: Option<SlEvent>, before: Option<SlEvent>, candidates: set<int>,
                            done: map<int, bool>, cache: map<int, Cached>, io: Io) {
    if exists t :: t in candidates && Reportable(t, done, cache) then
      exists t :: t in candidates && Reportable(t, done, cache)
                  && event == Some(SlEventOf(cache[t], io.dealHistory(t), io.calcProfit, io.now))
    else event == before
  }

  /**
   * The stop-loss event after checking the tickets of `order` one after
   * another: the event of the last reportable ticket when there is one, the
   * previous event otherwise.
   */
  ghost predicate SlLast(event: Option<SlEvent>, before: Option<SlEvent>, order: seq<int>,
                         done: map<int, bool>, cache: map<int, Cached>, io: Io) {
    if exists i :: 0 <= i < |order| && Reportable(order[i], done, cache) then
      exists i :: 0 <= i < |order| && Reportable(order[i], done, cache)
                  && (forall j :: i < j < |order| ==> !Reportable(order[j], done, cache))
                  && event == Some(SlEventOf(cache[order[i]], io.dealHistory(order[i]), io.calcProfit, io.now))
    else event == before
  }

  /** The result of `start`. */
  datatype StartResult =
    | AlreadyRunning            // {"running": True, ..., "message": "already_running"}
    | AlreadyRunningElsewhere   // {"running": False, ..., "reason": "already_running_elsewhere"}
    | Started                   // {"running": True, "locked": True, ...}

  /** The dictionary `status` returns, without the lock file's owner and age. */
  datatype WatcherStatus = WatcherStatus(
    running: bool,
    watchedPositions: nat,
    tp1DoneCount: nat,
    lastError: Option<WatcherError>,
    lastTp1Event: Option<Tp1Event>,
    lastSlEvent: Option<SlEvent>)


  /** The terminal's answers, the outcomes of the service calls a tick makes, and the clock. */
  datatype Io = Io(
    b: Broker,
    closeOutcome: PartialCloseRequest -> PartialCloseResponse,
    beOutcome: MoveToBERequest -> OrderResponse,
    dealHistory: int -> Option<real>,
    calcProfit: ProfitQuery -> Option<real>,
    now: real)

  /** A tick's inputs: the answers, the settings, the guard's verdict and the UI flag. */
  datatype Env = Env(io: Io, cfg: WatcherSettings, allowed: bool, armed: bool)

  // ---------------------------------------------------------------------------
  // Ticket lists
  // ---------------------------------------------------------------------------

  function Elems(s: seq<int>): set<int> {
    set t | t in s
  }

  /** No ticket occurs twice in `s`. */
  predicate Distinct(s: seq<int>) {
    s == [] || (s[|s| - 1] !in s[..|s| - 1] && Distinct(s[..|s| - 1]))
  }

  /** The tickets of `order` that are not in `gone`, in order. */
  function Without(order: seq<int>, gone: set<int>): (r: seq<int>)
    ensures forall t :: t in r <==> t in order && t !in gone
  {
    if order == [] then []
    else Without(order[..|order| - 1], gone) + (if order[|order| - 1] in gone then [] else [order[|order| - 1]])
  }

  /** Filtering keeps the tickets distinct. */
  lemma {:induction false} WithoutDistinct(order: seq<int>, gone: set<int>)
    requires Distinct(order)
    ensures Distinct(Without(order, gone))
    decreases |order|
  {
    if order != [] {
      var init := order[..|order| - 1];
      WithoutDistinct(init, gone);
      var r := Without(order, gone);
      if order[|order| - 1] !in gone {
        assert r[..|r| - 1] == Without(init, gone);
      } else {
        assert r == Without(init, gone);
      }
    }
  }

  lemma LiveTicketsSnoc(listed: seq<Position>, i: int)
    requires 0 <= i < |listed|
    ensures LiveTickets(listed[..i + 1]) ==
      LiveTickets(listed[..i]) + (if AppOwned(listed[i]) then {listed[i].ticket} else {})
  {
    var a, b := listed[..i + 1], listed[..i];
    forall t | t in LiveTickets(a)
      ensures t in LiveTickets(b) + (if AppOwned(listed[i]) then {listed[i].ticket} else {})
    {
      var j :| 0 <= j < |a| && AppOwned(a[j]) && a[j].ticket == t;
      if j < i { assert b[j] == a[j]; }
    }
    forall t | t in LiveTickets(b) ensures t in LiveTickets(a) {
      var j :| 0 <= j < |b| && AppOwned(b[j]) && b[j].ticket == t;
      assert a[j] == b[j];
    }
    if AppOwned(listed[i]) {
      assert a[i] == listed[i];
    }
  }

  // ---------------------------------------------------------------------------
  // One tick, as a function of the watcher's state
  // ---------------------------------------------------------------------------

  /** What a tick reads and changes: both maps, their keys' insertion order, the last error and the last events. */
  datatype WatchState = WatchState(
    done: map<int, bool>,
    tracked: map<int, Cached>,
    tickets: seq<int>,
    lastError: Option<WatcherError>,
    lastTp1Event: Option<Tp1Event>,
    lastSlEvent: Option<SlEvent>)

  /** Both maps are keyed by the same tickets, each listed once in `tickets`. */
  predicate Keyed(st: WatchState) {
    st.done.Keys == st.tracked.Keys && st.done.Keys == Elems(st.tickets) && Distinct(st.tickets)
  }

  /** The bookkeeping of the position loop: an app-owned position's snapshot is refreshed and a new ticket tracked as not done. */
  function Track(st: WatchState, p: Position, b: Broker): WatchState {
    if !AppOwned(p) then st
    else if p.ticket in st.done then st.(tracked := st.tracked[p.ticket := Snapshot(p, b)])
    else st.(tracked := st.tracked[p.ticket := Snapshot(p, b)], done := st.done[p.ticket := false],
             tickets := st.tickets + [p.ticket])
  }

  /**
   * The TP1 step of the position loop: a position whose closing price
   * reached TP1 is partly closed when the guard allows it, then moved to
   * break-even. A successful close marks the ticket done even when the
   * break-even move fails; a failed close is recorded as the last error.
   */
  function Fire(st: WatchState, p: Position, e: Env): (WatchState, bool) {
    var c := Snapshot(p, e.io.b);
    if p.symbol !in e.io.b.quotes || !Hit(c, e.cfg.tp1Pips, e.io.b.quotes[p.symbol]) || !e.allowed then (st, false)
    else
      var closed := e.io.closeOutcome(Tp1Request(p.ticket, e.cfg, e.armed));
      if !closed.success then (st.(lastError := Some(PartialCloseFailed(p.ticket, closed.error))), false)
      else
        var be := e.io.beOutcome(BeRequest(p.ticket, e.cfg, e.armed));
        var event := Tp1EventOf(c, e.cfg.tp1Pips, e.io.b.quotes[p.symbol], closed, be, e.io.calcProfit, e.io.now);
        (st.(lastError := if be.success then st.lastError else Some(BeMoveFailed(p.ticket, be.error)),
             done := st.done[p.ticket := true],
             lastTp1Event := Some(event)), true)
  }

  /** One iteration of the position loop: `Track`, then `Fire` unless the ticket is done. */
  function Step(st: WatchState, p: Position, e: Env): (WatchState, bool) {
    var s := Track(st, p, e.io.b);
    if !AppOwned(p) || WasDone(s.done, p.ticket) then (s, false) else Fire(s, p, e)
  }

  /** The position loop over `listed`, with the tickets whose TP1 fired, in order. */
  function Scan(st: WatchState, listed: seq<Position>, e: Env): (WatchState, seq<int>)
    decreases |listed|
  {
    if listed == [] then (st, [])
    else
      var prev := Scan(st, listed[..|listed| - 1], e);
      var p := listed[|listed| - 1];
      var next := Step(prev.0, p, e);
      (next.0, if next.1 then prev.1 + [p.ticket] else prev.1)
  }

  /** `_detect_sl_closure(t)` */
  function Detect(st: WatchState, t: int, io: Io): WatchState {
    if Reportable(t, st.done, st.tracked) then
      st.(lastSlEvent := Some(SlEventOf(st.tracked[t], io.dealHistory(t), io.calcProfit, io.now)))
    else st
  }

  /** `_detect_sl_closure` on every ticket of `order`, in order, leaving the maps as they are. */
  function DetectEach(st: WatchState, order: seq<int>, io: Io): WatchState
    decreases |order|
  {
    if order == [] then st else Detect(DetectEach(st, order[..|order| - 1], io), order[|order| - 1], io)
  }

  /** Checks each ticket of `order` that is in `gone` and removes it from both maps. */
  function SweepEach(st: WatchState, order: seq<int>, gone: set<int>, io: Io): WatchState
    decreases |order|
  {
    if order == [] then st
    else
      var s := SweepEach(st, order[..|order| - 1], gone, io);
      var t := order[|order| - 1];
      if t in gone then
        var d := Detect(s, t, io);
        d.(done := d.done - {t}, tracked := d.tracked - {t})
      else s
  }

  /** The closing sweep, over the tickets in insertion order. */
  function Sweep(st: WatchState, gone: set<int>, io: Io): WatchState {
    SweepEach(st, st.tickets, gone, io).(tickets := Without(st.tickets, gone))
  }

  /**
   * `_tick`. Disconnected, nothing happens. With no positions listed every
   * ticket is checked for a stop-loss closure and both maps are cleared.
   * Otherwise the listed positions are scanned, then every ticket no
   * longer listed is swept. Also returns the tickets whose TP1 fired.
   */
  function Ticked(st: WatchState, listed: seq<Position>, e: Env): (WatchState, seq<int>) {
    if !e.io.b.connected then (st, [])
    else if listed == [] then (DetectEach(st, st.tickets, e.io).(done := map[], tracked := map[], tickets := []), [])
    else
      var scanned := Scan(st, listed, e);
      (Sweep(scanned.0, scanned.0.done.Keys - LiveTickets(listed), e.io), scanned.1)
  }

  // ---------------------------------------------------------------------------
  // What a tick guarantees
  // ---------------------------------------------------------------------------

  /** The TP1 step leaves the snapshots, the key order and the stop-loss event alone, and marks a firing ticket done. */
  lemma FireFrame(st: WatchState, p: Position, e: Env)
    ensures var (r, fired) := Fire(st, p, e);
      && r.tickets == st.tickets && r.tracked == st.tracked && r.lastSlEvent == st.lastSlEvent
      && r.done == (if fired then st.done[p.ticket := true] else st.done)
  {
  }

  /** One position: both maps change at its ticket only, where the snapshot is refreshed and the done flag set once TP1 fires. */
  lemma StepMaps(st: WatchState, p: Position, e: Env)
    ensures var (r, fired) := Step(st, p, e);
      && (!AppOwned(p) ==> !fired)
      && r.tickets == Track(st, p, e.io.b).tickets
      && r.tracked == (if AppOwned(p) then st.tracked[p.ticket := Snapshot(p, e.io.b)] else st.tracked)
      && r.done == (if AppOwned(p) then st.done[p.ticket := WasDone(st.done, p.ticket) || fired] else st.done)
  {
    FireFrame(Track(st, p, e.io.b), p, e);
  }

  lemma DistinctSnoc(s: seq<int>, t: int)
    requires Distinct(s) && t !in s
    ensures Distinct(s + [t])
  {
    assert (s + [t])[..|s|] == s;
  }

  lemma ElemsSnoc(s: seq<int>, t: int)
    ensures Elems(s + [t]) == Elems(s) + {t}
  {
  }

  /** Refreshing the snapshot of a tracked ticket keeps the maps keyed alike. */
  lemma KeyedRefresh(st: WatchState, t: int, c: Cached)
    requires Keyed(st) && t in st.done
    ensures Keyed(st.(tracked := st.tracked[t := c]))
  {
    assert st.tracked[t := c].Keys == st.tracked.Keys;
  }

  /** A new ticket, tracked as not done and appended to the insertion order, keeps the maps keyed alike. */
  lemma KeyedInsert(st: WatchState, t: int, c: Cached)
    requires Keyed(st) && t !in st.done
    ensures Keyed(st.(tracked := st.tracked[t := c], done := st.done[t := false], tickets := st.tickets + [t]))
  {
    assert t !in st.tickets by { assert t !in Elems(st.tickets); }
    DistinctSnoc(st.tickets, t);
    ElemsSnoc(st.tickets, t);
  }

  /** A new ticket is appended to the insertion order, so the maps stay keyed alike. */
  lemma TrackKeyed(st: WatchState, p: Position, b: Broker)
    requires Keyed(st)
    ensures Keyed(Track(st, p, b))
  {
    if AppOwned(p) && p.ticket in st.done {
      KeyedRefresh(st, p.ticket, Snapshot(p, b));
    } else if AppOwned(p) {
      KeyedInsert(st, p.ticket, Snapshot(p, b));
    }
  }

  /** One position keeps both maps keyed alike, appending a new ticket to the insertion order. */
  lemma StepKeyed(st: WatchState, p: Position, e: Env)
    requires Keyed(st)
    ensures Keyed(Step(st, p, e).0)
  {
    StepMaps(st, p, e);
    TrackKeyed(st, p, e.io.b);
  }

  /** TP1 fires for a position only when its ticket is not done yet and the attempt succeeds. */
  lemma StepFires(st: WatchState, p: Position, e: Env)
    ensures Step(st, p, e).1 <==>
      !WasDone(st.done, p.ticket) && Fires(p, e.io.b, e.cfg, e.allowed, e.armed, e.io.closeOutcome)
  {
  }

  /** A firing records its TP1 event, an error names the position, and the stop-loss event is untouched. */
  lemma StepReports(st: WatchState, p: Position, e: Env)
    ensures var (r, fired) := Step(st, p, e);
      && (fired ==> r.lastTp1Event.Some? && r.lastTp1Event.value.ticket == p.ticket)
      && (!fired ==> r.lastTp1Event == st.lastTp1Event)
      && (r.lastError != st.lastError ==>
            AppOwned(p) && e.allowed && r.lastError.Some? && r.lastError.value.ticket == p.ticket)
      && r.lastSlEvent == st.lastSlEvent
  {
  }

  /**
   * What a TP1 attempt reports: a failed close leaves the ticket not done
   * and names it in the error; a successful one marks it done, reports at
   * least the TP1 distance in pips and how the break-even move went.
   */
  lemma FireReports(st: WatchState, p: Position, e: Env)
    ensures var (r, fired) := Step(st, p, e);
      var closed := e.io.closeOutcome(Tp1Request(p.ticket, e.cfg, e.armed));
      var be := e.io.beOutcome(BeRequest(p.ticket, e.cfg, e.armed));
      var attempted := AppOwned(p) && !WasDone(st.done, p.ticket) && Triggers(p, e.io.b, e.cfg) && e.allowed;
      && (!attempted ==> !fired && r.lastError == st.lastError)
      && (attempted && !closed.success ==>
            !fired && !r.done[p.ticket] && r.lastError == Some(PartialCloseFailed(p.ticket, closed.error)))
      && (fired ==>
            && r.done[p.ticket] && r.lastTp1Event.Some?
            && r.lastTp1Event.value.pipsProfit >= e.cfg.tp1Pips
            && (r.lastTp1Event.value.beStatus == BeOk <==> be.success)
            && (be.success ==> r.lastError == st.lastError)
            && (!be.success ==> r.lastError == Some(BeMoveFailed(p.ticket, be.error))))
  {
    if AppOwned(p) && p.symbol in e.io.b.quotes {
      var closed := e.io.closeOutcome(Tp1Request(p.ticket, e.cfg, e.armed));
      var be := e.io.beOutcome(BeRequest(p.ticket, e.cfg, e.armed));
      var c := Snapshot(p, e.io.b);
      if Hit(c, e.cfg.tp1Pips, e.io.b.quotes[p.symbol]) {
        Tp1EventReportsGain(c, e.cfg.tp1Pips, e.io.b.quotes[p.symbol], closed, be, e.io.calcProfit, e.io.now);
      }
    }
  }

  /** The scan keeps the book consistent. */
  lemma {:induction false} ScanKeyed(st: WatchState, listed: seq<Position>, e: Env)
    requires Keyed(st)
    ensures Keyed(Scan(st, listed, e).0)
    decreases |listed|
  {
    if listed != [] {
      var n := |listed| - 1;
      ScanKeyed(st, listed[..n], e);
      StepKeyed(Scan(st, listed[..n], e).0, listed[n], e);
    }
  }

  /** The scan tracks every listed app-owned ticket and leaves the other tickets' entries alone. */
  lemma {:induction false} ScanKeys(st: WatchState, listed: seq<Position>, e: Env)
    ensures var r := Scan(st, listed, e).0;
      && r.done.Keys == st.done.Keys + LiveTickets(listed)
      && r.tracked.Keys == st.tracked.Keys + LiveTickets(listed)
      && (forall t :: t in st.done && t !in LiveTickets(listed) ==> r.done[t] == st.done[t])
      && (forall t :: t in st.tracked && t !in LiveTickets(listed) ==> r.tracked[t] == st.tracked[t])
    decreases |listed|
  {
    if listed != [] {
      var n := |listed| - 1;
      ScanKeys(st, listed[..n], e);
      StepMaps(Scan(st, listed[..n], e).0, listed[n], e);
      LiveTicketsSnoc(listed, n);
      assert listed[..n + 1] == listed;
    }
  }

  /** Every listed app-owned ticket is tracked with the snapshot of one of its listings. */
  lemma {:induction false} ScanSnapshots(st: WatchState, listed: seq<Position>, e: Env)
    ensures var r := Scan(st, listed, e).0;
      forall t :: t in LiveTickets(listed) ==>
        t in r.tracked
        && exists j :: 0 <= j < |listed| && AppOwned(listed[j]) && listed[j].ticket == t
                       && r.tracked[t] == Snapshot(listed[j], e.io.b)
    decreases |listed|
  {
    if listed != [] {
      var n := |listed| - 1;
      var init := listed[..n];
      ScanSnapshots(st, init, e);
      var prev := Scan(st, init, e).0;
      var p := listed[n];
      StepMaps(prev, p, e);
      LiveTicketsSnoc(listed, n);
      assert listed[..n + 1] == listed;
      var r := Scan(st, listed, e).0;
      forall t | t in LiveTickets(listed)
        ensures t in r.tracked
          && exists j :: 0 <= j < |listed| && AppOwned(listed[j]) && listed[j].ticket == t
                         && r.tracked[t] == Snapshot(listed[j], e.io.b)
      {
        if AppOwned(p) && t == p.ticket {
          assert AppOwned(listed[n]) && listed[n].ticket == t && r.tracked[t] == Snapshot(listed[n], e.io.b);
        } else {
          var j :| 0 <= j < |init| && AppOwned(init[j]) && init[j].ticket == t
                   && t in prev.tracked && prev.tracked[t] == Snapshot(init[j], e.io.b);
          assert listed[j] == init[j];
        }
      }
    }
  }

  /** After the scan a ticket is done exactly when it was before or fired now. */
  lemma {:induction false} ScanDone(st: WatchState, listed: seq<Position>, e: Env)
    ensures var (r, fired) := Scan(st, listed, e);
      forall t :: WasDone(r.done, t) <==> WasDone(st.done, t) || t in fired
    decreases |listed|
  {
    if listed != [] {
      var n := |listed| - 1;
      ScanDone(st, listed[..n], e);
      StepMaps(Scan(st, listed[..n], e).0, listed[n], e);
    }
  }

  /** No ticket fires twice in one scan. */
  lemma {:induction false} ScanFiredOnce(st: WatchState, listed: seq<Position>, e: Env)
    ensures Distinct(Scan(st, listed, e).1)
    decreases |listed|
  {
    if listed != [] {
      var n := |listed| - 1;
      ScanFiredOnce(st, listed[..n], e);
      ScanDone(st, listed[..n], e);
      var (prev, f0) := Scan(st, listed[..n], e);
      StepFires(prev, listed[n], e);
      var fired := Scan(st, listed, e).1;
      if Step(prev, listed[n], e).1 {
        assert fired[..|fired| - 1] == f0;
      }
    }
  }

  /** Some listing of ticket `t` would fire. */
  predicate AnyFires(listed: seq<Position>, t: int, e: Env) {
    exists j :: 0 <= j < |listed| && listed[j].ticket == t
                && Fires(listed[j], e.io.b, e.cfg, e.allowed, e.armed, e.io.closeOutcome)
  }

  /** One more listing fires for `t` exactly when it is a listing of `t` that fires. */
  lemma AnyFiresSnoc(listed: seq<Position>, t: int, e: Env)
    requires listed != []
    ensures var n := |listed| - 1;
      AnyFires(listed, t, e) <==>
        AnyFires(listed[..n], t, e)
        || (listed[n].ticket == t && Fires(listed[n], e.io.b, e.cfg, e.allowed, e.armed, e.io.closeOutcome))
  {
    var n := |listed| - 1;
    var init := listed[..n];
    if AnyFires(init, t, e) {
      var j :| 0 <= j < |init| && init[j].ticket == t
               && Fires(init[j], e.io.b, e.cfg, e.allowed, e.armed, e.io.closeOutcome);
      assert listed[j] == init[j];
    }
    if AnyFires(listed, t, e) {
      var j :| 0 <= j < |listed| && listed[j].ticket == t
               && Fires(listed[j], e.io.b, e.cfg, e.allowed, e.armed, e.io.closeOutcome);
      if j < n {
        assert init[j] == listed[j];
      }
    }
  }

  /** The tickets that fire: exactly the listed ones not done before whose TP1 attempt succeeds. */
  lemma {:induction false} ScanFired(st: WatchState, listed: seq<Position>, e: Env)
    ensures var fired := Scan(st, listed, e).1;
      forall t :: t in fired <==> !WasDone(st.done, t) && AnyFires(listed, t, e)
    decreases |listed|
  {
    if listed != [] {
      var n := |listed| - 1;
      var init := listed[..n];
      ScanFired(st, init, e);
      ScanDone(st, init, e);
      var (prev, f0) := Scan(st, init, e);
      var p := listed[n];
      StepFires(prev, p, e);
      var fired := Scan(st, listed, e).1;
      if Step(prev, p, e).1 {
        assert fired[..|fired| - 1] == f0;
      }
      forall t
        ensures t in fired <==> !WasDone(st.done, t) && AnyFires(listed, t, e)
      {
        AnyFiresSnoc(listed, t, e);
      }
    }
  }

  /** The scan's reports: the last TP1 event is the last firing's, an error names a listed ticket, and the stop-loss event is untouched. */
  lemma {:induction false} ScanEvents(st: WatchState, listed: seq<Position>, e: Env)
    ensures var (r, fired) := Scan(st, listed, e);
      && (fired == [] ==> r.lastTp1Event == st.lastTp1Event)
      && (fired != [] ==> r.lastTp1Event.Some? && r.lastTp1Event.value.ticket == fired[|fired| - 1])
      && (r.lastError != st.lastError ==>
            e.allowed && r.lastError.Some? && r.lastError.value.ticket in LiveTickets(listed))
      && r.lastSlEvent == st.lastSlEvent
    decreases |listed|
  {
    if listed != [] {
      var n := |listed| - 1;
      var init := listed[..n];
      ScanEvents(st, init, e);
      var prev := Scan(st, init, e).0;
      StepReports(prev, listed[n], e);
      LiveTicketsSnoc(listed, n);
      assert listed[..n + 1] == listed;
    }
  }

  /** A stop-loss check of one more ticket keeps `SlOutcome` true over the tickets checked so far. */
  lemma SlOutcomeStep(event: Option<SlEvent>, next: Option<SlEvent>, before: Option<SlEvent>, candidates: set<int>,
                      t: int, done: map<int, bool>, cache: map<int, Cached>, io: Io)
    requires SlOutcome(event, before, candidates, done, cache, io)
    requires Reportable(t, done, cache) ==> next == Some(SlEventOf(cache[t], io.dealHistory(t), io.calcProfit, io.now))
    requires !Reportable(t, done, cache) ==> next == event
    ensures SlOutcome(next, before, candidates + {t}, done, cache, io)
  {
    if !Reportable(t, done, cache) {
      assert (exists u :: u in candidates + {t} && Reportable(u, done, cache))
         <==> (exists u :: u in candidates && Reportable(u, done, cache));
    }
  }

  /** The stop-loss outcome over `candidates` reads the maps only at the candidates. */
  lemma SlOutcomeFrame(event: Option<SlEvent>, before: Option<SlEvent>, candidates: set<int>,
                       done1: map<int, bool>, cache1: map<int, Cached>, done2: map<int, bool>, cache2: map<int, Cached>,
                       io: Io)
    requires forall t :: t in candidates ==>
      (t in done1 <==> t in done2) && (t in done1 ==> done1[t] == done2[t])
      && (t in cache1 <==> t in cache2) && (t in cache1 ==> cache1[t] == cache2[t])
    requires SlOutcome(event, before, candidates, done1, cache1, io)
    ensures SlOutcome(event, before, candidates, done2, cache2, io)
  {
    assert forall t :: t in candidates ==> (Reportable(t, done1, cache1) <==> Reportable(t, done2, cache2));
  }

  /** Checking every ticket of `order` reports one of the reportable ones, and changes nothing else. */
  lemma {:induction false} DetectEachFacts(st: WatchState, order: seq<int>, io: Io)
    ensures var r := DetectEach(st, order, io);
      && r.(lastSlEvent := st.lastSlEvent) == st
      && SlOutcome(r.lastSlEvent, st.lastSlEvent, Elems(order), st.done, st.tracked, io)
    decreases |order|
  {
    if order != [] {
      var n := |order| - 1;
      var init := order[..n];
      DetectEachFacts(st, init, io);
      var s := DetectEach(st, init, io);
      SlOutcomeStep(s.lastSlEvent, Detect(s, order[n], io).lastSlEvent, st.lastSlEvent, Elems(init), order[n],
                    st.done, st.tracked, io);
      assert order == init + [order[n]];
      assert Elems(order) == Elems(init) + {order[n]};
    } else {
      assert Elems(order) == {};
    }
  }

  /** Checking one more ticket after `order` keeps `SlLast` true over the longer order. */
  lemma SlLastSnoc(event: Option<SlEvent>, next: Option<SlEvent>, before: Option<SlEvent>, order: seq<int>,
                   t: int, done: map<int, bool>, cache: map<int, Cached>, io: Io)
    requires SlLast(event, before, order, done, cache, io)
    requires Reportable(t, done, cache) ==> next == Some(SlEventOf(cache[t], io.dealHistory(t), io.calcProfit, io.now))
    requires !Reportable(t, done, cache) ==> next == event
    ensures SlLast(next, before, order + [t], done, cache, io)
  {
    var o := order + [t];
    var n := |order|;
    assert forall j :: 0 <= j < n ==> o[j] == order[j];
    assert o[n] == t;
    if Reportable(t, done, cache) {
      assert Reportable(o[n], done, cache);
    } else if exists i :: 0 <= i < n && Reportable(order[i], done, cache) {
      var i :| 0 <= i < n && Reportable(order[i], done, cache)
               && (forall j :: i < j < n ==> !Reportable(order[j], done, cache))
               && event == Some(SlEventOf(cache[order[i]], io.dealHistory(order[i]), io.calcProfit, io.now));
      assert Reportable(o[i], done, cache);
      assert forall j :: i < j < |o| ==> !Reportable(o[j], done, cache);
    } else {
      assert forall j :: 0 <= j < |o| ==> !Reportable(o[j], done, cache);
    }
  }

  /** Checking tickets for stop-loss closures changes neither map. */
  lemma {:induction false} DetectEachKeepsMaps(st: WatchState, order: seq<int>, io: Io)
    ensures DetectEach(st, order, io).done == st.done && DetectEach(st, order, io).tracked == st.tracked
    decreases |order|
  {
    if order != [] {
      DetectEachKeepsMaps(st, order[..|order| - 1], io);
    }
  }

  /** Checking the tickets of `order` in order leaves the event of the last reportable one. */
  lemma {:induction false} DetectEachLast(st: WatchState, order: seq<int>, io: Io)
    ensures SlLast(DetectEach(st, order, io).lastSlEvent, st.lastSlEvent, order, st.done, st.tracked, io)
    decreases |order|
  {
    if order != [] {
      var n := |order| - 1;
      var init := order[..n];
      DetectEachLast(st, init, io);
      DetectEachKeepsMaps(st, init, io);
      var s := DetectEach(st, init, io);
      SlLastSnoc(s.lastSlEvent, Detect(s, order[n], io).lastSlEvent, st.lastSlEvent, init, order[n],
                 st.done, st.tracked, io);
      assert order == init + [order[n]];
    }
  }

  /** Sweeping `order` removes its tickets in `gone` from both maps and touches nothing but the stop-loss report. */
  lemma {:induction false} SweepEachMaps(st: WatchState, order: seq<int>, gone: set<int>, io: Io)
    ensures var r := SweepEach(st, order, gone, io);
      && r.done == st.done - (gone * Elems(order))
      && r.tracked == st.tracked - (gone * Elems(order))
      && r.tickets == st.tickets && r.lastError == st.lastError && r.lastTp1Event == st.lastTp1Event
    decreases |order|
  {
    if order == [] {
      assert gone * Elems(order) == {};
    } else {
      var n := |order| - 1;
      SweepEachMaps(st, order[..n], gone, io);
      assert order == order[..n] + [order[n]];
      assert Elems(order) == Elems(order[..n]) + {order[n]};
    }
  }

  /** Sweeping `order` reports one of the reportable stop-loss closures among its tickets in `gone`, if any. */
  lemma {:induction false} SweepEachStop(st: WatchState, order: seq<int>, gone: set<int>, io: Io)
    ensures SlOutcome(SweepEach(st, order, gone, io).lastSlEvent, st.lastSlEvent, gone * Elems(order),
                      st.done, st.tracked, io)
    decreases |order|
  {
    if order == [] {
      assert gone * Elems(order) == {};
    } else {
      var n := |order| - 1;
      var init := order[..n];
      var t := order[n];
      SweepEachStop(st, init, gone, io);
      SweepEachMaps(st, init, gone, io);
      var s := SweepEach(st, init, gone, io);
      assert order == init + [t];
      assert Elems(order) == Elems(init) + {t};
      if t in gone {
        if t in Elems(init) {
          assert gone * Elems(order) == gone * Elems(init);
        } else {
          SlOutcomeStep(s.lastSlEvent, Detect(s, t, io).lastSlEvent, st.lastSlEvent, gone * Elems(init), t,
                        st.done, st.tracked, io);
          assert gone * Elems(order) == gone * Elems(init) + {t};
        }
      } else {
        assert gone * Elems(order) == gone * Elems(init);
      }
    }
  }

  /** The sweep removes exactly `gone` from both maps and from the ticket order. */
  lemma SweepFacts(st: WatchState, gone: set<int>, io: Io)
    requires Keyed(st) && gone <= st.done.Keys
    ensures var r := Sweep(st, gone, io);
      && Keyed(r) && r.done == st.done - gone && r.tracked == st.tracked - gone
      && r.lastError == st.lastError && r.lastTp1Event == st.lastTp1Event
      && SlOutcome(r.lastSlEvent, st.lastSlEvent, gone, st.done, st.tracked, io)
  {
    SweepEachMaps(st, st.tickets, gone, io);
    SweepEachStop(st, st.tickets, gone, io);
    WithoutDistinct(st.tickets, gone);
    assert gone * Elems(st.tickets) == gone;
  }

  /**
   * A tick leaves exactly the listed app-owned tickets tracked, each with
   * the snapshot of one of its listings, and done exactly when it was
   * before or fired now; a disconnected tick changes nothing.
   */
  lemma TickBook(st: WatchState, listed: seq<Position>, e: Env)
    requires Keyed(st)
    ensures var (r, fired) := Ticked(st, listed, e);
      && Keyed(r)
      && (!e.io.b.connected ==> r == st && fired == [])
      && (e.io.b.connected ==> r.done.Keys == LiveTickets(listed) && r.tracked.Keys == LiveTickets(listed))
  {
    if e.io.b.connected && listed == [] {
      assert LiveTickets(listed) == {};
    } else if e.io.b.connected {
      var s := Scan(st, listed, e).0;
      ScanKeyed(st, listed, e);
      ScanKeys(st, listed, e);
      SweepFacts(s, s.done.Keys - LiveTickets(listed), e.io);
    }
  }

  /** After a connected tick, each listed ticket is done iff it was done before or fired now, and is tracked with one of its listings. */
  lemma TickEntries(st: WatchState, listed: seq<Position>, e: Env)
    requires Keyed(st) && e.io.b.connected
    ensures var (r, fired) := Ticked(st, listed, e);
      forall t :: t in LiveTickets(listed) ==>
        && t in r.done && t in r.tracked
        && (r.done[t] <==> WasDone(st.done, t) || t in fired)
        && exists i :: 0 <= i < |listed| && AppOwned(listed[i]) && listed[i].ticket == t
                       && r.tracked[t] == Snapshot(listed[i], e.io.b)
  {
    if listed == [] {
      assert LiveTickets(listed) == {};
    } else {
      var s := Scan(st, listed, e).0;
      ScanKeyed(st, listed, e);
      ScanKeys(st, listed, e);
      ScanSnapshots(st, listed, e);
      ScanDone(st, listed, e);
      SweepFacts(s, s.done.Keys - LiveTickets(listed), e.io);
    }
  }

  /** TP1 fires once per ticket: for the listed tickets not done before whose attempt succeeds, and only while connected. */
  lemma TickFired(st: WatchState, listed: seq<Position>, e: Env)
    ensures var fired := Ticked(st, listed, e).1;
      && (forall t :: t in fired <==>
            e.io.b.connected && !WasDone(st.done, t)
            && exists i :: 0 <= i < |listed| && listed[i].ticket == t
                           && Fires(listed[i], e.io.b, e.cfg, e.allowed, e.armed, e.io.closeOutcome))
      && Distinct(fired)
  {
    if e.io.b.connected && listed != [] {
      ScanFired(st, listed, e);
      ScanFiredOnce(st, listed, e);
    }
  }

  /** A ticket that vanished from the listing without TP1 yields the stop-loss event, if any did. */
  lemma TickStopLoss(st: WatchState, listed: seq<Position>, e: Env)
    requires Keyed(st) && e.io.b.connected
    ensures SlOutcome(Ticked(st, listed, e).0.lastSlEvent, st.lastSlEvent, st.done.Keys - LiveTickets(listed),
                      st.done, st.tracked, e.io)
    ensures listed == [] ==> SlLast(Ticked(st, listed, e).0.lastSlEvent, st.lastSlEvent, st.tickets, st.done, st.tracked, e.io)
  {
    if listed == [] {
      DetectEachFacts(st, st.tickets, e.io);
      DetectEachLast(st, st.tickets, e.io);
      assert LiveTickets(listed) == {};
    } else {
      var s := Scan(st, listed, e).0;
      ScanKeyed(st, listed, e);
      ScanKeys(st, listed, e);
      ScanEvents(st, listed, e);
      var gone := s.done.Keys - LiveTickets(listed);
      assert gone == st.done.Keys - LiveTickets(listed);
      SweepFacts(s, gone, e.io);
      SlOutcomeFrame(Sweep(s, gone, e.io).lastSlEvent, st.lastSlEvent, gone, s.done, s.tracked, st.done, st.tracked, e.io);
    }
  }

  /** The last TP1 event is the last firing's. */
  lemma TickTp1Event(st: WatchState, listed: seq<Position>, e: Env)
    ensures var (r, fired) := Ticked(st, listed, e);
      && (fired == [] ==> r.lastTp1Event == st.lastTp1Event)
      && (fired != [] ==> r.lastTp1Event.Some? && r.lastTp1Event.value.ticket == fired[|fired| - 1])
  {
    if e.io.b.connected && listed == [] {
      DetectEachFacts(st, st.tickets, e.io);
    } else if e.io.b.connected {
      var s := Scan(st, listed, e).0;
      ScanEvents(st, listed, e);
      SweepEachMaps(s, s.tickets, s.done.Keys - LiveTickets(listed), e.io);
    }
  }

  /** A new error names a listed ticket the guard let through. */
  lemma TickError(st: WatchState, listed: seq<Position>, e: Env)
    ensures var r := Ticked(st, listed, e).0;
      r.lastError != st.lastError ==>
        e.allowed && r.lastError.Some? && r.lastError.value.ticket in LiveTickets(listed)
  {
    if e.io.b.connected && listed == [] {
      DetectEachFacts(st, st.tickets, e.io);
    } else if e.io.b.connected {
      var s := Scan(st, listed, e).0;
      ScanEvents(st, listed, e);
      SweepEachMaps(s, s.tickets, s.done.Keys - LiveTickets(listed), e.io);
    }
  }

  // ---------------------------------------------------------------------------
  // The manager
  // ---------------------------------------------------------------------------

  class Tp1WatcherManager {
    /** `_tp1_done`: ticket to whether TP1 fired for it. */
    var tp1Done: map<int, bool>
    /** `_tracked_positions`: ticket to its last snapshot. */
    var tracked: map<int, Cached>
    /** The keys of `_tp1_done` in insertion order, the order a dictionary is iterated in. */
    var tickets: seq<int>
    var uiArmed: bool
    var running: bool
    var lastError: Option<WatcherError>
    var startedAt: Option<real>
    var lastTp1Event: Option<Tp1Event>
    var lastSlEvent: Option<SlEvent>

    /** The part of the manager's state a tick reads and changes. */
    function State(): WatchState
      reads this
    {
      WatchState(tp1Done, tracked, tickets, lastError, lastTp1Event, lastSlEvent)
    }

    ghost predicate Valid()
      reads this
    {
      Keyed(State())
    }

    constructor ()
      ensures Valid() && State() == WatchState(map[], map[], [], None, None, None)
      ensures !uiArmed && !running && startedAt.None?
    {
      tp1Done := map[];
      tracked := map[];
      tickets := [];
      uiArmed := false;
      running := false;
      lastError := None;
      startedAt := None;
      lastTp1Event := None;
      lastSlEvent := None;
    }

    /**
     * `start(ui_armed)`: nothing changes when the watcher thread is already
     * alive or another process holds the lock; otherwise the flag is stored,
     * the error cleared and the start time recorded. `threadAlive` and
     * `lockAcquired` are the thread's and the lock file's answers.
     */
    method Start(armed: bool, threadAlive: bool, lockAcquired: bool, now: real) returns (r: StartResult)
      modifies this
      ensures old(running) && threadAlive ==> r == AlreadyRunning && unchanged(this)
      ensures !(old(running) && threadAlive) && !lockAcquired ==> r == AlreadyRunningElsewhere && unchanged(this)
      ensures !(old(running) && threadAlive) && lockAcquired ==>
        && r == Started && running && uiArmed == armed && startedAt == Some(now)
        && State() == old(State()).(lastError := None)
    {
      if running && threadAlive {
        return AlreadyRunning;
      }
      if !lockAcquired {
        return AlreadyRunningElsewhere;
      }
      uiArmed := armed;
      lastError := None;
      startedAt := Some(now);
      running := true;
      r := Started;
    }

    /** `stop`: the watcher is no longer running; the maps and events are kept. */
    method Stop()
      modifies this
      ensures !running && State() == old(State()) && uiArmed == old(uiArmed) && startedAt == old(startedAt)
    {
      running := false;
    }

    /** `set_ui_armed` */
    method SetUiArmed(armed: bool)
      modifies this
      ensures uiArmed == armed && State() == old(State()) && running == old(running) && startedAt == old(startedAt)
    {
      uiArmed := armed;
    }

    /**
     * `status`: running only while the thread is alive; every tracked ticket
     * is counted once, as watched or as TP1-done.
     */
    function Status(threadAlive: bool): (s: WatcherStatus)
      reads this
      ensures s.running <==> running && threadAlive
      ensures s.watchedPositions + s.tp1DoneCount == |tp1Done|
      ensures s.watchedPositions == 0 <==> forall t :: t in tp1Done ==> tp1Done[t]
      ensures s.tp1DoneCount == 0 <==> forall t :: t in tp1Done ==> !tp1Done[t]
      ensures s.watchedPositions == |set t | t in tp1Done && !tp1Done[t]|
      ensures s.tp1DoneCount == |set t | t in tp1Done && tp1Done[t]|
      ensures s.lastError == lastError && s.lastTp1Event == lastTp1Event && s.lastSlEvent == lastSlEvent
    {
      var watched := set t | t in tp1Done && !tp1Done[t];
      var done := set t | t in tp1Done && tp1Done[t];
      assert watched + done == tp1Done.Keys && watched * done == {};
      assert |watched| == 0 <==> forall t :: t in tp1Done ==> tp1Done[t] by {
        if forall t :: t in tp1Done ==> tp1Done[t] {
          assert watched == {};
        } else {
          var t :| t in tp1Done && !tp1Done[t];
          assert t in watched;
        }
      }
      assert |done| == 0 <==> forall t :: t in tp1Done ==> !tp1Done[t] by {
        if forall t :: t in tp1Done ==> !tp1Done[t] {
          assert done == {};
        } else {
          var t :| t in tp1Done && tp1Done[t];
          assert t in done;
        }
      }
      WatcherStatus(running && threadAlive, |watched|, |done|, lastError, lastTp1Event, lastSlEvent)
    }

    /**
     * `_detect_sl_closure(ticket)`: a ticket that is cached and not TP1-done
     * replaces the last stop-loss event with the deal history's realised
     * profit, or the calculator's at the stop.
     */
    method DetectSlClosure(t: int, io: Io)
      modifies this
      ensures State() == Detect(old(State()), t, io)
      ensures uiArmed == old(uiArmed) && running == old(running) && startedAt == old(startedAt)
    {
      var wasTp1 := t in tp1Done && tp1Done[t];
      if t !in tracked || wasTp1 {
        return;
      }
      lastSlEvent := Some(SlEventOf(tracked[t], io.dealHistory(t), io.calcProfit, io.now));
    }

    /** The bookkeeping step of the position loop of `_tick`. */
    method TrackPosition(p: Position, b: Broker) returns (owned: bool)
      modifies this
      ensures owned == AppOwned(p) && State() == Track(old(State()), p, b)
      ensures uiArmed == old(uiArmed) && running == old(running) && startedAt == old(startedAt)
    {
      if !AppOwned(p) {
        return false;
      }
      tracked := tracked[p.ticket := Snapshot(p, b)];
      if p.ticket !in tp1Done {
        tp1Done := tp1Done[p.ticket := false];
        tickets := tickets + [p.ticket];
      }
      owned := true;
    }

    /** The TP1 step of the position loop of `_tick`. */
    method TryTp1(p: Position, e: Env) returns (fired: bool)
      modifies this
      ensures (State(), fired) == Fire(old(State()), p, e)
      ensures uiArmed == old(uiArmed) && running == old(running) && startedAt == old(startedAt)
    {
      var t := p.ticket;
      var c := Snapshot(p, e.io.b);
      if p.symbol !in e.io.b.quotes {
        return false;
      }
      var q := e.io.b.quotes[p.symbol];
      if !Hit(c, e.cfg.tp1Pips, q) {
        return false;
      }
      if !e.allowed {
        return false;
      }
      var closed := e.io.closeOutcome(Tp1Request(t, e.cfg, e.armed));
      if !closed.success {
        lastError := Some(PartialCloseFailed(t, closed.error));
        return false;
      }
      var be := e.io.beOutcome(BeRequest(t, e.cfg, e.armed));
      if !be.success {
        lastError := Some(BeMoveFailed(t, be.error));
      }
      tp1Done := tp1Done[t := true];
      lastTp1Event := Some(Tp1EventOf(c, e.cfg.tp1Pips, q, closed, be, e.io.calcProfit, e.io.now));
      fired := true;
    }

    /** One iteration of the position loop of `_tick`. */
    method TickPosition(p: Position, e: Env) returns (fired: bool)
      modifies this
      ensures (State(), fired) == Step(old(State()), p, e)
      ensures uiArmed == old(uiArmed) && running == old(running) && startedAt == old(startedAt)
    {
      var owned := TrackPosition(p, e.io.b);
      if !owned || tp1Done[p.ticket] {
        return false;
      }
      fired := TryTp1(p, e);
    }

    /** The position loop of `_tick`, in listing order. */
    method ScanPositions(listed: seq<Position>, e: Env) returns (fired: seq<int>)
      modifies this
      ensures (State(), fired) == Scan(old(State()), listed, e)
      ensures uiArmed == old(uiArmed) && running == old(running) && startedAt == old(startedAt)
    {
      fired := [];
      var i := 0;
      while i < |listed|
        invariant 0 <= i <= |listed|
        invariant (State(), fired) == Scan(old(State()), listed[..i], e)
        invariant uiArmed == old(uiArmed) && running == old(running) && startedAt == old(startedAt)
      {
        var p := listed[i];
        assert listed[..i + 1][..i] == listed[..i];
        var f := TickPosition(p, e);
        if f {
          fired := fired + [p.ticket];
        }
        i := i + 1;
      }
      assert listed[..i] == listed;
    }

    /** The loop of `_tick` for an empty listing, over a copy of the keys in insertion order. */
    method DetectAll(io: Io)
      modifies this
      ensures State() == DetectEach(old(State()), old(tickets), io)
      ensures uiArmed == old(uiArmed) && running == old(running) && startedAt == old(startedAt)
    {
      var order := tickets;
      var k := 0;
      while k < |order|
        invariant 0 <= k <= |order|
        invariant State() == DetectEach(old(State()), order[..k], io)
        invariant uiArmed == old(uiArmed) && running == old(running) && startedAt == old(startedAt)
      {
        assert order[..k + 1][..k] == order[..k];
        DetectSlClosure(order[k], io);
        k := k + 1;
      }
      assert order[..k] == order;
    }

    /** The closing sweep of `_tick`: each ticket of `gone` is checked and removed from both maps. */
    method SweepGone(gone: set<int>, io: Io)
      modifies this
      ensures State() == Sweep(old(State()), gone, io)
      ensures uiArmed == old(uiArmed) && running == old(running) && startedAt == old(startedAt)
    {
      var order := tickets;
      var kept: seq<int> := [];
      var k := 0;
      while k < |order|
        invariant 0 <= k <= |order|
        invariant State() == SweepEach(old(State()), order[..k], gone, io)
        invariant kept == Without(order[..k], gone)
        invariant uiArmed == old(uiArmed) && running == old(running) && startedAt == old(startedAt)
      {
        var t := order[k];
        assert order[..k + 1][..k] == order[..k];
        if t in gone {
          DetectSlClosure(t, io);
          tp1Done := tp1Done - {t};
          tracked := tracked - {t};
        } else {
          kept := kept + [t];
        }
        k := k + 1;
      }
      assert order[..k] == order;
      tickets := kept;
    }

    /**
     * `_tick`. The guard is asked once for its verdict on the UI flag: the
     * tick changes neither, so each triggered position would get the same
     * answer.
     */
    method Tick(guard: ExecutionGuard.Guard, cfg: WatcherSettings, listed: seq<Position>, io: Io)
      returns (fired: seq<int>)
      requires Valid() && ValidSettings(cfg)
      modifies this
      ensures Valid()
      ensures (State(), fired) ==
        Ticked(old(State()), listed, Env(io, cfg, guard.IsExecutionAllowed(uiArmed).allowed, uiArmed))
      ensures uiArmed == old(uiArmed) && running == old(running) && startedAt == old(startedAt)
    {
      var e := Env(io, cfg, guard.IsExecutionAllowed(uiArmed).allowed, uiArmed);
      TickBook(State(), listed, e);
      fired := [];
      if !io.b.connected {
        return;
      }
      if listed == [] {
        DetectAll(io);
        tp1Done := map[];
        tracked := map[];
        tickets := [];
        return;
      }
      fired := ScanPositions(listed, e);
      SweepGone(tp1Done.Keys - LiveTickets(listed), io);
    }
  }
}
