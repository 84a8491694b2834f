/**
 * The decision logic of the MetaTrader 5 service
 * (backend/app/services/mt5_service.py): volume normalisation to the
 * broker's lot grid, the block checks of a partial close, the TP1
 * management sequence and the break-even stop arithmetic. Every terminal
 * read comes from a `Broker` snapshot; every `order_send` is returned in
 * `sent`, in order.
 */
module Mt5Service {
  import opened Wrappers
  import opened Text
  import opened Steps
  import opened Models
  import opened Broker
  import PipSpecs

  // ---------------------------------------------------------------------------
  // Volume helpers
  // ---------------------------------------------------------------------------

  /** `_floor_to_step`: ROUND_FLOOR of `value / step`, times `step`; 0 for a non-positive step. */
  function FloorToStep(value: real, step: real): (r: real)
    ensures step <= 0.0 ==> r == 0.0
    ensures step > 0.0 ==> IsMultiple(r, step) && r <= value < r + step
  {
    if step <= 0.0 then 0.0 else FloorSteps(value, step)
  }

  /** No whole number of steps between `FloorToStep(value, step)` and `value`: it is the largest one not above. */
  lemma FloorToStepIsGreatest(value: real, step: real, k: int)
    requires step > 0.0 && Scaled(k, step) <= value
    ensures Scaled(k, step) <= FloorToStep(value, step)
  {
    FloorStepsIsGreatest(value, step, k);
  }

  /** A volume already on the grid is returned unchanged. */
  lemma FloorToStepOfMultiple(value: real, step: real)
    requires step > 0.0 && IsMultiple(value, step)
    ensures FloorToStep(value, step) == value
  {
    FloorStepsOfMultiple(value, step);
  }

  /** The cases in which `_normalize_volume_floor` gives 0. */
  predicate VolumeFloorRejects(requested: real, volumeMin: real, volumeStep: real) {
    requested <= 0.0 || volumeMin <= 0.0 || volumeStep <= 0.0 || requested < volumeMin
    || FloorSteps(requested, volumeStep) < volumeMin
  }

  /**
   * `_normalize_volume_floor`: the requested volume floored to the step,
   * capped at a positive maximum; 0 when an input is not positive or the
   * request does not reach the minimum, before or after flooring.
   */
  function NormalizeVolumeFloor(requested: real, volumeMin: real, volumeStep: real, volumeMax: real): (r: real)
    ensures r == 0.0 <==> VolumeFloorRejects(requested, volumeMin, volumeStep)
    ensures r >= 0.0 && (r > 0.0 ==> r <= requested)
    ensures r > 0.0 && volumeMax > 0.0 ==> r <= volumeMax
    ensures r > 0.0 && !(volumeMax > 0.0 && FloorSteps(requested, volumeStep) > volumeMax) ==>
      r == FloorSteps(requested, volumeStep) && r >= volumeMin && IsMultiple(r, volumeStep)
  {
    if requested <= 0.0 || volumeMin <= 0.0 || volumeStep <= 0.0 then 0.0
    else if requested < volumeMin then 0.0
    else
      var normalized := FloorSteps(requested, volumeStep);
      if normalized < volumeMin then 0.0
      else if volumeMax > 0.0 && normalized > volumeMax then volumeMax
      else normalized
  }

  /**
   * Without a cap, the normalised volume is the largest executable volume
   * (a whole number of steps, at least the minimum) not above the request.
   */
  lemma NormalizeVolumeFloorIsLargest(requested: real, volumeMin: real, volumeStep: real, k: int)
    requires volumeStep > 0.0 && volumeMin > 0.0
    requires volumeMin <= Scaled(k, volumeStep) <= requested
    ensures NormalizeVolumeFloor(requested, volumeMin, volumeStep, 0.0) >= Scaled(k, volumeStep)
  {
    FloorStepsIsGreatest(requested, volumeStep, k);
  }

  /** `_is_volume_exact_step`: the request is a whole number of steps (never, for a non-positive step). */
  function IsVolumeExactStep(requested: real, volumeStep: real): (b: bool)
    ensures b <==> volumeStep > 0.0 && IsMultiple(requested, volumeStep)
  {
    if volumeStep <= 0.0 then false
    else
      MultipleIffIntegral(requested, volumeStep);
      IsIntegral(requested / volumeStep)
  }

  /** The dictionary returned by `normalize_close_volume`. */
  datatype CloseNormalization = CloseNormalization(
    requestedVolume: real,
    closeVolume: real,
    remainingVolume: real,
    blockedReason: Option<BlockedReason>,
    volumeMin: real,
    volumeStep: real)

  /** `max(0.0, x)` */
  function NonNegative(x: real): (r: real)
    ensures r >= 0.0 && r >= x && (r == x || r == 0.0)
  {
    if x > 0.0 then x else 0.0
  }

  /**
   * `normalize_close_volume` with the symbol's `(volume_min, volume_step)`:
   * a close of 100 percent or more closes the whole position, anything less
   * is floored to the step; the first applicable block is reported.
   */
  function NormalizeCloseVolume(positionVolume: real, percent: real, volumeMin: real, volumeStep: real)
    : (n: CloseNormalization)
    ensures n.requestedVolume == positionVolume * (percent / 100.0)
    ensures n.remainingVolume == NonNegative(positionVolume - n.closeVolume)
    ensures n.volumeMin == volumeMin && n.volumeStep == volumeStep
  {
    var requested := positionVolume * (percent / 100.0);
    var close := if percent >= 100.0 then positionVolume else FloorToStep(requested, volumeStep);
    var remaining := positionVolume - close;
    var blocked :=
      if positionVolume <= 0.0 then Some(PositionVolumeInvalid)
      else if volumeMin <= 0.0 || volumeStep <= 0.0 then Some(SymbolSpecsUnavailable)
      else if percent < 100.0 && close < volumeMin then Some(RequestedCloseBelowMinLot)
      else if remaining > 0.0 && remaining < volumeMin then Some(RemainingBelowMinLot)
      else if percent < 100.0 && close >= positionVolume then Some(WouldCloseFullPosition)
      else None;
    CloseNormalization(requested, close, NonNegative(remaining), blocked, volumeMin, volumeStep)
  }

  /** The close volume: the whole position from 100 percent, otherwise the step-floor of the requested share. */
  lemma CloseVolumeRule(positionVolume: real, percent: real, volumeMin: real, volumeStep: real)
    ensures var n := NormalizeCloseVolume(positionVolume, percent, volumeMin, volumeStep);
      && (percent >= 100.0 ==> n.closeVolume == positionVolume)
      && (percent < 100.0 && volumeStep > 0.0 ==>
            IsMultiple(n.closeVolume, volumeStep) && n.closeVolume <= n.requestedVolume < n.closeVolume + volumeStep)
      && (percent < 100.0 && volumeStep <= 0.0 ==> n.closeVolume == 0.0)
  {}

  /**
   * The blocked reason is the first, in the order invalid position, missing
   * specs, close below minimum, remainder below minimum, full close, whose
   * condition holds.
   */
  lemma BlockedReasonPriority(positionVolume: real, percent: real, volumeMin: real, volumeStep: real)
    ensures var n := NormalizeCloseVolume(positionVolume, percent, volumeMin, volumeStep);
      var close, rest := n.closeVolume, positionVolume - n.closeVolume;
      var specsOk := positionVolume > 0.0 && volumeMin > 0.0 && volumeStep > 0.0;
      && (n.blockedReason == Some(PositionVolumeInvalid) <==> positionVolume <= 0.0)
      && (n.blockedReason == Some(SymbolSpecsUnavailable) <==>
            positionVolume > 0.0 && (volumeMin <= 0.0 || volumeStep <= 0.0))
      && (n.blockedReason == Some(RequestedCloseBelowMinLot) <==> specsOk && percent < 100.0 && close < volumeMin)
      && (n.blockedReason == Some(RemainingBelowMinLot) <==>
            specsOk && !(percent < 100.0 && close < volumeMin) && 0.0 < rest < volumeMin)
      && (n.blockedReason == Some(WouldCloseFullPosition) <==>
            specsOk && !(percent < 100.0 && close < volumeMin) && !(0.0 < rest < volumeMin)
            && percent < 100.0 && close >= positionVolume)
  {}

  /**
   * An unblocked close of less than 100 percent is executable and leaves an
   * executable remainder: at least the minimum, below the position, on the
   * grid, and what remains is at least the minimum.
   */
  lemma UnblockedPartialCloseIsSafe(positionVolume: real, percent: real, volumeMin: real, volumeStep: real)
    requires percent < 100.0
    requires NormalizeCloseVolume(positionVolume, percent, volumeMin, volumeStep).blockedReason.None?
    ensures var n := NormalizeCloseVolume(positionVolume, percent, volumeMin, volumeStep);
      && volumeMin <= n.closeVolume < positionVolume
      && IsMultiple(n.closeVolume, volumeStep)
      && n.remainingVolume >= volumeMin
      && n.closeVolume + n.remainingVolume == positionVolume
  {
    var n := NormalizeCloseVolume(positionVolume, percent, volumeMin, volumeStep);
    assert positionVolume > 0.0 && volumeMin > 0.0 && volumeStep > 0.0;
    assert n.closeVolume == FloorToStep(n.requestedVolume, volumeStep);
  }

  /** An unblocked close of 100 percent or more closes the whole, valid position and leaves nothing. */
  lemma UnblockedFullClose(positionVolume: real, percent: real, volumeMin: real, volumeStep: real)
    requires percent >= 100.0
    requires NormalizeCloseVolume(positionVolume, percent, volumeMin, volumeStep).blockedReason.None?
    ensures var n := NormalizeCloseVolume(positionVolume, percent, volumeMin, volumeStep);
      n.closeVolume == positionVolume > 0.0 && n.remainingVolume == 0.0
  {}

  // ---------------------------------------------------------------------------
  // Broker error messages
  // ---------------------------------------------------------------------------

  /** The known `order_send` return codes and their messages. */
  const ErrorMessages: map<int, string> := map[
    10004 := "Requote - Price changed, try again",
    10006 := "Order rejected by broker",
    10014 := "Invalid volume - Check minimum lot size",
    10015 := "Invalid price - Check symbol specifications",
    10016 := "Invalid stops - Check stop levels",
    10019 := "Not enough money - Insufficient account balance",
    10020 := "Prices changed - Market conditions changed",
    10021 := "Too many requests - Slow down order placement",
    10025 := "No changes made - Order already in requested state",
    10026 := "Auto trading disabled - Enable auto trading in MT5",
    10027 := "Client disabled - Contact broker",
    10030 := "Invalid request - Check order parameters",
    10031 := "Market closed - Trading hours restriction"]

  const FallbackPrefix: string := "MT5 Error "

  /** `_map_mt5_error`: the known message, or "MT5 Error {code}". */
  function MapMt5Error(retcode: int): (m: string)
    ensures retcode in ErrorMessages ==> m == ErrorMessages[retcode]
    ensures retcode !in ErrorMessages ==> m == FallbackPrefix + IntToString(retcode)
  {
    if retcode in ErrorMessages then ErrorMessages[retcode] else FallbackPrefix + IntToString(retcode)
  }

  /**
   * Exactly thirteen return codes have their own message; every other code,
   * DONE among them, gets the generic message naming the code.
   */
  lemma KnownCodes(retcode: int)
    ensures retcode in ErrorMessages <==>
      retcode in {10004, 10006, 10014, 10015, 10016, 10019, 10020, 10021, 10025, 10026, 10027, 10030, 10031}
    ensures DONE !in ErrorMessages
  {}

  // ---------------------------------------------------------------------------
  // Operations
  // ---------------------------------------------------------------------------

  /** A response together with the trade requests sent to obtain it, in order. */
  datatype Outcome<R> = Outcome(response: R, sent: seq<TradeRequest>)

  /** The rejection message of a failed `order_send`. */
  function Rejected(res: SendResult): (e: ServiceError)
    ensures e.BrokerRejected? && e.retcode == res.retcode
  {
    BrokerRejected(res.retcode, MapMt5Error(res.retcode))
  }

  /** The pip size of a position's symbol, as the service looks it up. */
  function PipOf(b: Broker, symbol: string): (p: real)
    ensures p > 0.0
    ensures var u := Upper(symbol);
      && (PipSpecs.IsGold(u) ==> p == 0.1)
      && (!PipSpecs.IsGold(u) && PipSpecs.IsBitcoin(u) ==> p == 1.0)
      && (!PipSpecs.IsGold(u) && !PipSpecs.IsBitcoin(u) ==> p == PipSpecs.ForexPip(DigitsOf(b, symbol)))
  {
    PipSpecs.PipInPriceForSymbol(Some(symbol), DigitsOf(b, symbol))
  }

  /** `int(request.position_ticket or request.ticket or 0)`: a zero or missing ticket falls through. */
  function RequestTicket(request: PartialCloseRequest): (t: int)
    ensures request.positionTicket.Some? && request.positionTicket.value != 0 ==> t == request.positionTicket.value
    ensures !(request.positionTicket.Some? && request.positionTicket.value != 0) ==>
      t == (if request.ticket.Some? && request.ticket.value != 0 then request.ticket.value else 0)
  {
    if request.positionTicket.Some? && request.positionTicket.value != 0 then request.positionTicket.value
    else if request.ticket.Some? && request.ticket.value != 0 then request.ticket.value
    else 0
  }

  /** The close percentage: the explicit one, or the legacy volume as a share of the position. */
  function RequestPercent(request: PartialCloseRequest, positionVolume: real): (p: Option<real>)
    ensures request.percent.Some? ==> p == request.percent
    ensures request.percent.None? && request.volume.Some? && positionVolume > 0.0 ==>
      p.Some? && p.value * positionVolume == request.volume.value * 100.0
    ensures p.None? <==> request.percent.None? && (request.volume.None? || positionVolume <= 0.0)
  {
    if request.percent.Some? then request.percent
    else if request.volume.Some? && positionVolume > 0.0 then Some(request.volume.value / positionVolume * 100.0)
    else None
  }

  /** A failed partial close carrying only an error. */
  function PartialCloseError(positionTicket: Option<int>, e: ServiceError): PartialCloseResponse {
    PartialCloseResponse(
      success := false, orderTicket := None, positionTicket := positionTicket, symbol := None,
      positionVolume := None, percent := None, requestedVolume := None, closeVolume := None,
      remainingVolume := None, blockedReason := None, volumeMin := None, volumeStep := None,
      mt5Retcode := None, mt5Comment := None, error := Some(e))
  }

  /**
   * The closing deal of position `p` under the ticket `ticket`: the opposite
   * side at the price that side trades.
   */
  function CloseDeal(ticket: int, p: Position, volume: real, q: Quote, comment: DealComment): (d: TradeRequest)
    ensures d.Deal? && d.symbol == p.symbol && d.volume == volume && d.position == ticket
    ensures d.sell == p.isBuy && d.price == (if p.isBuy then q.bid else q.ask) && d.magic == MAGIC
  {
    Deal(p.symbol, volume, p.isBuy, ticket, if p.isBuy then q.bid else q.ask, MAGIC, comment)
  }

  /** The block of `partial_close`: that of the normalisation, or a full close without an explicit percent. */
  function PartialCloseBlock(request: PartialCloseRequest, positionVolume: real, n: CloseNormalization)
    : (r: Option<BlockedReason>)
    ensures n.blockedReason.Some? ==> r == n.blockedReason
    ensures n.blockedReason.None? ==>
      (r.Some? <==> request.percent.None? && n.closeVolume >= positionVolume)
    ensures r.Some? && n.blockedReason.None? ==> r == Some(WouldCloseFullPosition)
  {
    if request.percent.None? && n.closeVolume >= positionVolume then
      if n.blockedReason.Some? then n.blockedReason else Some(WouldCloseFullPosition)
    else n.blockedReason
  }

  /** `partial_close` */
  function PartialClose(request: PartialCloseRequest, b: Broker): (o: Outcome<PartialCloseResponse>)
    ensures |o.sent| <= 1
    ensures o.response.success ==> o.response.error.None? && o.response.blockedReason.None?
    ensures o.response.blockedReason.Some? ==> o.sent == [] && !o.response.success
  {
    if !b.connected then Outcome(PartialCloseError(None, NotConnected), [])
    else
      var t := RequestTicket(request);
      if t <= 0 then Outcome(PartialCloseError(None, PartialCloseRequiresPositionTicket), [])
      else if t !in b.positions then Outcome(PartialCloseError(Some(t), PositionNotFound(t)), [])
      else
        var p := b.positions[t];
        var percent := RequestPercent(request, p.volume);
        if percent.None? then
          Outcome(PartialCloseError(Some(t), PartialCloseRequiresAmount).(
                    symbol := Some(p.symbol), positionVolume := Some(p.volume)), [])
        else
          var specs := VolumeSpecs(b, p.symbol);
          var n := NormalizeCloseVolume(p.volume, percent.value, specs.0, specs.1);
          var blocked := PartialCloseBlock(request, p.volume, n);
          var filled := PartialCloseResponse(
            success := false, orderTicket := None, positionTicket := Some(t), symbol := Some(p.symbol),
            positionVolume := Some(p.volume), percent := percent, requestedVolume := Some(n.requestedVolume),
            closeVolume := Some(n.closeVolume), remainingVolume := Some(n.remainingVolume), blockedReason := None,
            volumeMin := Some(n.volumeMin), volumeStep := Some(n.volumeStep), mt5Retcode := None,
            mt5Comment := None, error := None);
          if blocked.Some? then
            Outcome(filled.(blockedReason := blocked, error := Some(PartialCloseBlocked(blocked.value))), [])
          else if p.symbol !in b.quotes then
            Outcome(filled.(error := Some(NoTickData(p.symbol))), [])
          else
            var deal := CloseDeal(t, p, n.closeVolume, b.quotes[p.symbol], PartialCloseComment);
            var res := b.send(deal);
            var answered := filled.(orderTicket := NonZero(res.order), mt5Retcode := Some(res.retcode),
                                    mt5Comment := Some(res.comment));
            if res.retcode != DONE then Outcome(answered.(error := Some(Rejected(res))), [deal])
            else Outcome(answered.(success := true), [deal])
  }

  /** `move_sl_to_be`: the stop moves to the entry, shifted by the buffer towards profit. */
  function MoveSlToBe(request: MoveSLToBERequest, b: Broker): (o: Outcome<OrderResponse>)
    ensures |o.sent| <= 1
    ensures o.response.success <==> o.sent != [] && b.send(o.sent[0]).retcode == DONE
  {
    if !b.connected then Outcome(OrderResponse(false, None, Some(NotConnected)), [])
    else if request.ticket !in b.resolved then
      Outcome(OrderResponse(false, None, Some(PositionNotFound(request.ticket))), [])
    else
      var p := b.resolved[request.ticket];
      var buffer := request.beBufferPips * PipOf(b, p.symbol);
      var sl := if p.isBuy then p.priceOpen + buffer else p.priceOpen - buffer;
      var change := SlTp(p.symbol, sl, p.tp, p.ticket);
      var res := b.send(change);
      if res.retcode != DONE then Outcome(OrderResponse(false, None, Some(Rejected(res))), [change])
      else Outcome(OrderResponse(true, Some(p.ticket), None), [change])
  }

  /** `max(stops_level, freeze_level) * point`, or 0 without a positive point. */
  function MinStopDistance(b: Broker, symbol: string): (d: real)
    ensures !(symbol in b.symbols && b.symbols[symbol].point > 0.0) ==> d == 0.0
    ensures symbol in b.symbols && b.symbols[symbol].point > 0.0 ==>
      var s := b.symbols[symbol];
      && d >= s.stopsLevel as real * s.point && d >= s.freezeLevel as real * s.point
      && (d == s.stopsLevel as real * s.point || d == s.freezeLevel as real * s.point)
  {
    var point := if symbol in b.symbols then b.symbols[symbol].point else 0.0;
    var stops := if symbol in b.symbols then b.symbols[symbol].stopsLevel else 0;
    var freeze := if symbol in b.symbols then b.symbols[symbol].freezeLevel else 0;
    if point > 0.0 then (if stops >= freeze then stops else freeze) as real * point else 0.0
  }

  /**
   * The break-even stop of `move_to_be`: entry plus (buy) or minus (sell)
   * the buffer, then kept at least `minDistance` away from the price the
   * position would close at.
   */
  function BreakEvenStop(isBuy: bool, entry: real, bufferPrice: real, minDistance: real, q: Quote): (sl: real)
    ensures var raw := if isBuy then entry + bufferPrice else entry - bufferPrice;
      && (minDistance <= 0.0 ==> sl == raw)
      && (minDistance > 0.0 && isBuy ==> sl <= q.bid - minDistance && (sl == raw || sl == q.bid - minDistance))
      && (minDistance > 0.0 && !isBuy ==> sl >= q.ask + minDistance && (sl == raw || sl == q.ask + minDistance))
      && (minDistance > 0.0 && isBuy && raw <= q.bid - minDistance ==> sl == raw)
      && (minDistance > 0.0 && !isBuy && raw >= q.ask + minDistance ==> sl == raw)
  {
    var raw := if isBuy then entry + bufferPrice else entry - bufferPrice;
    if minDistance > 0.0 then
      if isBuy then (var maxSl := q.bid - minDistance; if raw <= maxSl then raw else maxSl)
      else (var minSl := q.ask + minDistance; if raw >= minSl then raw else minSl)
    else raw
  }

  /** The stop change `move_to_be` sends for a position: its take-profit kept, its stop at the break-even price. */
  function BreakEvenChange(p: Position, bufferPips: real, b: Broker): (r: TradeRequest)
    requires p.symbol in b.quotes
    ensures r.SlTp? && r.symbol == p.symbol && r.tp == p.tp && r.position == p.ticket
    ensures r.sl == BreakEvenStop(p.isBuy, p.priceOpen, bufferPips * PipOf(b, p.symbol),
                                  MinStopDistance(b, p.symbol), b.quotes[p.symbol])
  {
    SlTp(p.symbol, BreakEvenStop(p.isBuy, p.priceOpen, bufferPips * PipOf(b, p.symbol),
                                 MinStopDistance(b, p.symbol), b.quotes[p.symbol]), p.tp, p.ticket)
  }

  /** `move_to_be` */
  function MoveToBe(request: MoveToBERequest, b: Broker): (o: Outcome<OrderResponse>)
    ensures |o.sent| <= 1
    ensures o.response.success <==> o.sent != [] && b.send(o.sent[0]).retcode == DONE
    ensures o.sent != [] ==>
      && request.positionTicket in b.positions
      && b.positions[request.positionTicket].symbol in b.quotes
      && o.sent[0] == BreakEvenChange(b.positions[request.positionTicket], request.bufferPips, b)
  {
    if !b.connected then Outcome(OrderResponse(false, None, Some(NotConnected)), [])
    else if request.positionTicket !in b.positions then
      Outcome(OrderResponse(false, None, Some(PositionNotFound(request.positionTicket))), [])
    else
      var p := b.positions[request.positionTicket];
      if p.symbol !in b.quotes then Outcome(OrderResponse(false, None, Some(NoTickData(p.symbol))), [])
      else
        var change := BreakEvenChange(p, request.bufferPips, b);
        var res := b.send(change);
        if res.retcode != DONE then Outcome(OrderResponse(false, None, Some(Rejected(res))), [change])
        else Outcome(OrderResponse(true, Some(p.ticket), None), [change])
  }

  /** How far `manage_tp1` got before a break-even move would be attempted. */
  datatype Tp1Stage =
    | Stopped(response: TP1ManageResponse, sent: seq<TradeRequest>)
    | Closed(position: Position, requested: real, normalized: real, sent: seq<TradeRequest>)

  /** `manage_tp1` up to and including its closing deal. */
  function Tp1Close(request: TP1ManageRequest, b: Broker): (s: Tp1Stage)
    ensures s.Closed? ==> |s.sent| == 1 && b.send(s.sent[0]).retcode == DONE
    ensures s.Stopped? ==> !s.response.success && |s.sent| <= 1
  {
    if !b.connected then Stopped(TP1ManageResponse(false, None, None, None, None, Some(NotConnected)), [])
    else if request.ticket !in b.resolved then
      Stopped(TP1ManageResponse(false, None, None, None, None, Some(PositionNotFound(request.ticket))), [])
    else
      var p := b.resolved[request.ticket];
      var specs := VolumeSpecs(b, p.symbol);
      var requested := p.volume * (request.partialPercent / 100.0);
      var normalized := NormalizeVolumeFloor(requested, specs.0, specs.1, specs.2);
      var tried := TP1ManageResponse(false, Some(p.ticket), Some(requested), Some(normalized), None, None);
      if normalized <= 0.0 || !IsVolumeExactStep(requested, specs.1) then
        Stopped(tried.(error := Some(CloseVolumeNotExecutable(requested, normalized, specs.0, specs.1))), [])
      else if normalized > p.volume then
        Stopped(tried.(error := Some(CloseExceedsPosition(p.volume))), [])
      else if p.symbol !in b.quotes then
        Stopped(TP1ManageResponse(false, None, None, None, None, Some(NoTickData(p.symbol))), [])
      else
        var deal := CloseDeal(p.ticket, p, normalized, b.quotes[p.symbol], Tp1CloseComment(normalized));
        var res := b.send(deal);
        if res.retcode != DONE then Stopped(tried.(error := Some(Rejected(res))), [deal])
        else Closed(p, requested, normalized, [deal])
  }

  /**
   * `manage_tp1`, with the break-even step done by `move_sl_to_be` on a
   * MoveSLToBERequest (see Findings in README.md for the request the source builds).
   */
  function ManageTp1(request: TP1ManageRequest, b: Broker): (o: Outcome<TP1ManageResponse>)
    ensures o.response.success ==> o.response.error.None? && Tp1Close(request, b).Closed?
    ensures Tp1Close(request, b).Closed? ==> |o.sent| >= 1 && o.sent[0] == Tp1Close(request, b).sent[0]
  {
    match Tp1Close(request, b)
    case Stopped(response, sent) => Outcome(response, sent)
    case Closed(p, requested, normalized, sent) =>
      var done := TP1ManageResponse(true, Some(p.ticket), Some(requested), Some(normalized), None, None);
      if !request.moveToBeEnabled then Outcome(done, sent)
      else
        var be := MoveSlToBe(MoveSLToBERequest(p.ticket, request.beBufferPips, true), b);
        if be.response.success then
          var slSet := if p.ticket in b.refetched && b.refetched[p.ticket].sl != 0.0
                       then Some(b.refetched[p.ticket].sl) else None;
          Outcome(done.(slPriceSet := slSet), sent + be.sent)
        else
          Outcome(done.(success := false, error := Some(PartialCloseDoneBeFailed(be.response.error))), sent + be.sent)
  }

  /** What `manage_tp1` as written ends in: a response, or the validation error of the request it builds. */
  datatype Tp1Result =
    | Returned(response: TP1ManageResponse, sent: seq<TradeRequest>)
    | RaisedValidationError(sent: seq<TradeRequest>)

  /**
   * `manage_tp1` as written: its break-even step builds a MoveToBERequest
   * from `ticket` and `be_buffer_pips`, which that schema does not have, so
   * the required `position_ticket` is missing and building it raises.
   */
  function ManageTp1AsWritten(request: TP1ManageRequest, b: Broker): (r: Tp1Result)
    ensures r.RaisedValidationError? <==> Tp1Close(request, b).Closed? && request.moveToBeEnabled
  {
    match Tp1Close(request, b)
    case Stopped(response, sent) => Returned(response, sent)
    case Closed(p, requested, normalized, sent) =>
      if !request.moveToBeEnabled then
        Returned(TP1ManageResponse(true, Some(p.ticket), Some(requested), Some(normalized), None, None), sent)
      else RaisedValidationError(sent)
  }
}
