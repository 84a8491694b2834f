/**
 * Pip and tick specifications (backend/app/services/pip_specs.py): the pip
 * size of a symbol in price units, the tick value picked from the broker's
 * symbol information, and the pip value per lot derived from them. The
 * broker's reads (`symbol_info`, `symbol_info_tick`, `order_calc_profit`)
 * are parameters.
 */
module PipSpecs {
  import opened Wrappers
  import opened Text

  /** `pip_in_price_for_symbol` when the symbol names no metal or coin: by the price digits. */
  function ForexPip(digits: int): (p: real)
    ensures p == 0.01 <==> digits == 3 || digits == 2
    ensures p == 0.0001 <==> !(digits == 3 || digits == 2)
  {
    if digits == 3 then 0.01
    else if digits == 5 then 0.0001
    else if digits == 2 then 0.01
    else 0.0001
  }

  /** The symbol names gold. */
  predicate IsGold(u: string) {
    Contains(u, "XAU") || Contains(u, "GOLD")
  }

  /** The symbol names bitcoin. */
  predicate IsBitcoin(u: string) {
    Contains(u, "BTC") || Contains(u, "XBT")
  }

  /**
   * `pip_in_price_for_symbol(symbol, digits)`: the markers are looked for in
   * the upper-cased symbol (a missing symbol counts as empty), gold before
   * bitcoin, and the digits decide otherwise.
   */
  function PipInPriceForSymbol(symbol: Option<string>, digits: int): (p: real)
    ensures p == 0.1 || p == 1.0 || p == 0.01 || p == 0.0001
    ensures p > 0.0
    ensures var u := Upper(symbol.GetOr(""));
      && (IsGold(u) ==> p == 0.1)
      && (!IsGold(u) && IsBitcoin(u) ==> p == 1.0)
      && (!IsGold(u) && !IsBitcoin(u) ==> p == ForexPip(digits))
  {
    var s := Upper(symbol.GetOr(""));
    if IsGold(s) then 0.1
    else if IsBitcoin(s) then 1.0
    else ForexPip(digits)
  }

  /** The pip size does not depend on the case of the symbol. */
  lemma PipInPriceIgnoresCase(symbol: string, digits: int)
    ensures PipInPriceForSymbol(Some(Upper(symbol)), digits) == PipInPriceForSymbol(Some(symbol), digits)
  {
    UpperIdempotent(symbol);
  }

  /** The fields of the broker's `symbol_info` that are read, each already `or`-ed with its default 0. */
  datatype SymbolInfo = SymbolInfo(
    digits: int,
    point: real,
    tradeTickSize: real,
    tradeTickValue: real,
    tradeTickValueProfit: real,
    tradeTickValueLoss: real)

  /** Where the tick value came from (the `tick_value_source` debug entry). */
  datatype TickValueSource =
    | TradeTickValue
    | TradeTickValueProfit
    | AbsTradeTickValueLoss
    | TradeTickValueLoss
    | NoTickValue

  /**
   * `_pick_tick_value`: the first positive of the tick value and the profit
   * tick value, else the magnitude of a non-zero loss tick value, else 0.
   */
  function PickTickValue(info: SymbolInfo): (r: (real, TickValueSource))
    ensures r.0 >= 0.0
    ensures r.1 == NoTickValue <==> r.0 == 0.0
    ensures r.1 == NoTickValue <==>
      info.tradeTickValue <= 0.0 && info.tradeTickValueProfit <= 0.0 && info.tradeTickValueLoss == 0.0
    ensures info.tradeTickValue > 0.0 ==> r == (info.tradeTickValue, TradeTickValue)
    ensures info.tradeTickValue <= 0.0 && info.tradeTickValueProfit > 0.0 ==>
      r == (info.tradeTickValueProfit, TradeTickValueProfit)
    ensures info.tradeTickValue <= 0.0 && info.tradeTickValueProfit <= 0.0 && info.tradeTickValueLoss != 0.0 ==>
      r.0 == (if info.tradeTickValueLoss < 0.0 then -info.tradeTickValueLoss else info.tradeTickValueLoss)
  {
    var tv := info.tradeTickValue;
    var tvp := info.tradeTickValueProfit;
    var tvl := info.tradeTickValueLoss;
    if tv > 0.0 then (tv, TradeTickValue)
    else if tvp > 0.0 then (tvp, TradeTickValueProfit)
    else if tvl < 0.0 then (-tvl, AbsTradeTickValueLoss)
    else if tvl > 0.0 then (tvl, TradeTickValueLoss)
    else (0.0, NoTickValue)
  }

  /** The tick size: the broker's, or the point when the broker leaves it empty. */
  function TickSize(info: SymbolInfo): (t: real)
    ensures info.tradeTickSize > 0.0 ==> t == info.tradeTickSize
    ensures info.tradeTickSize <= 0.0 ==> t == info.point
  {
    if info.tradeTickSize <= 0.0 then info.point else info.tradeTickSize
  }

  /** PipSpec, without its debug dictionary. */
  datatype PipSpec = PipSpec(
    symbol: string,
    pipInPrice: real,
    tickSize: real,
    tickValue: real,
    pipValuePerLot: real)

  /** `abs(float(profit))` */
  function Abs(x: real): (a: real)
    ensures a >= 0.0 && (a == x || a == -x)
  {
    if x < 0.0 then -x else x
  }

  /**
   * The profit the broker's profit calculator gives for one lot moving one
   * pip, when it is asked: `ask` is the tick's ask price (None without a
   * tick), `profit` the calculator's answer (None when it returns nothing or
   * raises). It is asked only for a positive ask.
   */
  function CalcProfitPipValue(ask: Option<real>, profit: Option<real>): (v: real)
    ensures v >= 0.0
    ensures v > 0.0 ==> ask.Some? && ask.value > 0.0 && profit.Some? && v == Abs(profit.value)
    ensures ask.Some? && ask.value > 0.0 && profit.Some? ==> v == Abs(profit.value)
  {
    if ask.Some? && ask.value > 0.0 && profit.Some? then Abs(profit.value) else 0.0
  }

  /**
   * `pip_spec_from_mt5(symbol)` once the terminal is initialised and the
   * symbol is known: the profit-based pip value wins; the tick-size formula
   * is the fallback, used only with a positive tick size and tick value.
   */
  function PipSpecFromInfo(symbol: string, info: SymbolInfo, ask: Option<real>, profit: Option<real>): (spec: PipSpec)
    ensures spec.symbol == symbol
    ensures spec.pipInPrice == PipInPriceForSymbol(Some(symbol), info.digits)
    ensures spec.tickSize == TickSize(info) && spec.tickValue == PickTickValue(info).0
    ensures spec.pipValuePerLot >= 0.0
    ensures CalcProfitPipValue(ask, profit) > 0.0 ==> spec.pipValuePerLot == CalcProfitPipValue(ask, profit)
    ensures CalcProfitPipValue(ask, profit) <= 0.0 ==>
      spec.pipValuePerLot == if spec.tickSize > 0.0 && spec.tickValue > 0.0
                             then spec.pipInPrice / spec.tickSize * spec.tickValue else 0.0
  {
    var pip := PipInPriceForSymbol(Some(symbol), info.digits);
    var tickSize := TickSize(info);
    var tickValue := PickTickValue(info).0;
    var fromProfit := CalcProfitPipValue(ask, profit);
    var pipValue :=
      if fromProfit <= 0.0 && tickSize > 0.0 && tickValue > 0.0 then
        assert pip / tickSize > 0.0;
        pip / tickSize * tickValue
      else fromProfit;
    PipSpec(symbol, pip, tickSize, tickValue, pipValue)
  }

  /** `pip_spec_from_mt5`: None when the terminal does not initialise or does not know the symbol. */
  function PipSpecFromMt5(symbol: string, initialized: bool, info: Option<SymbolInfo>,
                          ask: Option<real>, profit: Option<real>): (spec: Option<PipSpec>)
    ensures spec.Some? <==> initialized && info.Some?
    ensures spec.Some? ==> spec.value == PipSpecFromInfo(symbol, info.value, ask, profit)
  {
    if !initialized then None
    else if info.None? then None
    else Some(PipSpecFromInfo(symbol, info.value, ask, profit))
  }

  /**
   * The derived pip value is positive exactly when the profit calculator gave
   * a non-zero answer or the tick size and a tick value are both available.
   */
  lemma PipValuePositiveIff(symbol: string, info: SymbolInfo, ask: Option<real>, profit: Option<real>)
    ensures var spec := PipSpecFromInfo(symbol, info, ask, profit);
      spec.pipValuePerLot > 0.0 <==>
        CalcProfitPipValue(ask, profit) > 0.0 || (TickSize(info) > 0.0 && PickTickValue(info).0 > 0.0)
  {
    var spec := PipSpecFromInfo(symbol, info, ask, profit);
    if CalcProfitPipValue(ask, profit) <= 0.0 && spec.tickSize > 0.0 && spec.tickValue > 0.0 {
      var q := spec.pipInPrice / spec.tickSize;
      assert q > 0.0;
      assert spec.pipValuePerLot == q * spec.tickValue;
    }
  }
}
