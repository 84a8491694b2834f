/**
 * What the backend reads from and sends to the MetaTrader 5 terminal, as
 * values. The terminal itself is not modelled: each operation receives a
 * `Broker` snapshot of the answers the terminal would give and returns the
 * trade requests it would send.
 */
module Broker {
  import opened Wrappers

  /** `mt5.TRADE_RETCODE_DONE`, MetaTrader 5's code for an executed request. */
  const DONE: int := 10009
  /** The magic number stamped on the application's orders. */
  const MAGIC: int := 123456
  /** The comment prefix of the application's orders. */
  const ORDER_COMMENT: string := "POI-Tracker"

  /** An open position as `positions_get` lists it (fields already defaulted by `or`). */
  datatype Position = Position(
    ticket: int,
    symbol: string,
    isBuy: bool,          // type == POSITION_TYPE_BUY
    volume: real,
    priceOpen: real,
    sl: real,             // 0 when the position has no stop
    tp: real,
    magic: int,
    comment: string)

  /** The fields of `symbol_info` the service reads (each already `or`-ed with 0). */
  datatype SymbolSpec = SymbolSpec(
    volumeMin: real,
    volumeStep: real,
    volumeMax: real,
    digits: int,
    point: real,
    stopsLevel: int,
    freezeLevel: int)

  /** `symbol_info_tick`: the current bid and ask. */
  datatype Quote = Quote(bid: real, ask: real)

  /** The `comment` of a closing deal. */
  datatype DealComment =
    | PartialCloseComment          // "POI-Tracker|PartialClose"
    | Tp1CloseComment(volume: real) // "TP1 partial close {volume} lots"

  /** A request passed to `order_send`. */
  datatype TradeRequest =
    | Deal(symbol: string, volume: real, sell: bool, position: int, price: real, magic: int, comment: DealComment)
    | SlTp(symbol: string, sl: real, tp: real, position: int)

  /** The fields of an `order_send` result that are read. */
  datatype SendResult = SendResult(retcode: int, order: int, comment: string)

  /**
   * The terminal's answers. `positions` is `positions_get(ticket=…)`,
   * `resolved` is `_resolve_position` (which also searches the deal
   * history), `refetched` is `positions_get(ticket=…)` read again after a
   * stop modification, and `send` is the outcome `order_send` gives a request.
   */
  datatype Broker = Broker(
    connected: bool,
    positions: map<int, Position>,
    resolved: map<int, Position>,
    refetched: map<int, Position>,
    symbols: map<string, SymbolSpec>,
    quotes: map<string, Quote>,
    send: TradeRequest -> SendResult)

  /** `int(getattr(info, "digits", 5) or 5) if info else 5` */
  function DigitsOf(b: Broker, symbol: string): (d: int)
    ensures d != 0
    ensures symbol in b.symbols && b.symbols[symbol].digits != 0 ==> d == b.symbols[symbol].digits
    ensures !(symbol in b.symbols && b.symbols[symbol].digits != 0) ==> d == 5
  {
    if symbol in b.symbols && b.symbols[symbol].digits != 0 then b.symbols[symbol].digits else 5
  }

  /** `_symbol_volume_specs`: (volume_min, volume_step, volume_max), all 0 for an unknown symbol. */
  function VolumeSpecs(b: Broker, symbol: string): (r: (real, real, real))
    ensures symbol !in b.symbols ==> r == (0.0, 0.0, 0.0)
    ensures symbol in b.symbols ==>
      r == (b.symbols[symbol].volumeMin, b.symbols[symbol].volumeStep, b.symbols[symbol].volumeMax)
  {
    if symbol in b.symbols then
      var s := b.symbols[symbol];
      (s.volumeMin, s.volumeStep, s.volumeMax)
    else (0.0, 0.0, 0.0)
  }

  /** `int(x or 0) or None` for an order ticket. */
  function NonZero(n: int): (r: Option<int>)
    ensures r.None? <==> n == 0
    ensures r.Some? ==> r.value == n
  {
    if n == 0 then None else Some(n)
  }
}
