/**
 * What the service's operations promise about the trades they send: a
 * partial close never sends a blocked or non-executable volume, TP1
 * management sends only an exact step of the position, and the break-even
 * stop honours the broker's minimum distance.
 */
module Mt5Properties {
  import opened Wrappers
  import opened Steps
  import opened Models
  import opened Broker
  import opened Mt5Service

  // ---------------------------------------------------------------------------
  // partial_close
  // ---------------------------------------------------------------------------

  /**
   * A partial close sends at most one deal: the unblocked normalised close
   * volume of the position the request names, on the opposite side. Without
   * an explicit percent that volume is below the whole position.
   */
  lemma PartialCloseSendsUnblockedClose(request: PartialCloseRequest, b: Broker)
    requires PartialClose(request, b).sent != []
    ensures var t := RequestTicket(request);
      && b.connected && t > 0 && t in b.positions
      && var p := b.positions[t];
      && RequestPercent(request, p.volume).Some?
      && var specs := VolumeSpecs(b, p.symbol);
      && var n := NormalizeCloseVolume(p.volume, RequestPercent(request, p.volume).value, specs.0, specs.1);
      && n.blockedReason.None?
      && (request.percent.None? ==> n.closeVolume < p.volume)
      && p.symbol in b.quotes
      && PartialClose(request, b).sent == [CloseDeal(t, p, n.closeVolume, b.quotes[p.symbol], PartialCloseComment)]
  {
    var t := RequestTicket(request);
    var p := b.positions[t];
    var percent := RequestPercent(request, p.volume);
    var specs := VolumeSpecs(b, p.symbol);
    var n := NormalizeCloseVolume(p.volume, percent.value, specs.0, specs.1);
    assert PartialCloseBlock(request, p.volume, n).None?;
  }

  /**
   * A partial close of less than the whole position that is sent leaves an
   * executable position behind: the close is on the volume grid, at least
   * the minimum lot and below the position, and so is what remains.
   */
  lemma PartialCloseLeavesExecutableRemainder(request: PartialCloseRequest, b: Broker)
    requires PartialClose(request, b).sent != []
    requires var t := RequestTicket(request);
      t in b.positions && RequestPercent(request, b.positions[t].volume).Some?
      && RequestPercent(request, b.positions[t].volume).value < 100.0
    ensures var p := b.positions[RequestTicket(request)];
      var specs := VolumeSpecs(b, p.symbol);
      var deal := PartialClose(request, b).sent[0];
      && deal.Deal? && deal.position == RequestTicket(request) && deal.sell == p.isBuy
      && specs.0 <= deal.volume < p.volume
      && IsMultiple(deal.volume, specs.1)
      && p.volume - deal.volume >= specs.0
  {
    PartialCloseSendsUnblockedClose(request, b);
    var p := b.positions[RequestTicket(request)];
    var percent := RequestPercent(request, p.volume).value;
    var specs := VolumeSpecs(b, p.symbol);
    UnblockedPartialCloseIsSafe(p.volume, percent, specs.0, specs.1);
  }

  /** The legacy volume form never closes the whole position. */
  lemma LegacyVolumeNeverClosesAll(request: PartialCloseRequest, b: Broker)
    requires request.percent.None? && PartialClose(request, b).sent != []
    ensures var deal := PartialClose(request, b).sent[0];
      deal.Deal? && deal.volume < b.positions[RequestTicket(request)].volume
  {
    PartialCloseSendsUnblockedClose(request, b);
  }

  /** A partial close succeeds exactly when its deal was sent and the broker executed it. */
  lemma PartialCloseSuccessIffExecuted(request: PartialCloseRequest, b: Broker)
    ensures var o := PartialClose(request, b);
      o.response.success <==> o.sent != [] && b.send(o.sent[0]).retcode == DONE
  {}

  /** A failed `order_send` is reported with its return code and the mapped message. */
  lemma PartialCloseRejectionReported(request: PartialCloseRequest, b: Broker)
    requires PartialClose(request, b).sent != []
    requires b.send(PartialClose(request, b).sent[0]).retcode != DONE
    ensures var o := PartialClose(request, b);
      var code := b.send(o.sent[0]).retcode;
      && !o.response.success
      && o.response.mt5Retcode == Some(code)
      && o.response.error == Some(BrokerRejected(code, MapMt5Error(code)))
  {}

  /** A disconnected terminal receives nothing from any operation. */
  lemma DisconnectedSendsNothing(b: Broker, pc: PartialCloseRequest, sl: MoveSLToBERequest,
                                 be: MoveToBERequest, tp1: TP1ManageRequest)
    requires !b.connected
    ensures PartialClose(pc, b) == Outcome(PartialCloseError(None, NotConnected), [])
    ensures MoveSlToBe(sl, b).sent == [] && MoveSlToBe(sl, b).response.error == Some(NotConnected)
    ensures MoveToBe(be, b).sent == [] && MoveToBe(be, b).response.error == Some(NotConnected)
    ensures ManageTp1(tp1, b).sent == [] && ManageTp1(tp1, b).response.error == Some(NotConnected)
  {}

  // ---------------------------------------------------------------------------
  // manage_tp1
  // ---------------------------------------------------------------------------

  /**
   * The TP1 close is sent only for an exact step of the requested share
   * that the broker accepts as a volume and that the position holds; it is
   * the requested share itself unless the broker's maximum caps it.
   */
  lemma Tp1CloseVolumeIsExecutable(request: TP1ManageRequest, b: Broker)
    requires Tp1Close(request, b).Closed?
    ensures var s := Tp1Close(request, b);
      var p := s.position;
      var specs := VolumeSpecs(b, p.symbol);
      && b.connected && request.ticket in b.resolved && p == b.resolved[request.ticket]
      && s.requested == p.volume * (request.partialPercent / 100.0)
      && IsMultiple(s.requested, specs.1)
      && 0.0 < s.normalized <= s.requested && s.normalized <= p.volume
      && (specs.2 <= 0.0 || s.requested <= specs.2 ==> s.normalized == s.requested)
      && p.symbol in b.quotes
      && s.sent == [CloseDeal(p.ticket, p, s.normalized, b.quotes[p.symbol], Tp1CloseComment(s.normalized))]
  {
    var s := Tp1Close(request, b);
    var p := s.position;
    var specs := VolumeSpecs(b, p.symbol);
    var requested := p.volume * (request.partialPercent / 100.0);
    assert s.requested == requested;
    assert s.normalized == NormalizeVolumeFloor(requested, specs.0, specs.1, specs.2);
    assert IsVolumeExactStep(requested, specs.1);
    if specs.2 <= 0.0 || requested <= specs.2 {
      FloorStepsOfMultiple(requested, specs.1);
    }
  }

  /**
   * With the break-even move enabled, a completed TP1 close whose position
   * can be resolved again by its own ticket is followed by exactly one stop
   * change, and the whole operation succeeds exactly when the broker
   * executes both.
   */
  lemma ManageTp1ClosesThenMovesStop(request: TP1ManageRequest, b: Broker)
    requires request.moveToBeEnabled && Tp1Close(request, b).Closed?
    requires Tp1Close(request, b).position.ticket in b.resolved
    ensures var o := ManageTp1(request, b);
      && |o.sent| == 2
      && o.sent[0] == Tp1Close(request, b).sent[0]
      && o.sent[1].SlTp? && o.sent[1].position == b.resolved[Tp1Close(request, b).position.ticket].ticket
      && (o.response.success <==> b.send(o.sent[1]).retcode == DONE)
      && (!o.response.success ==> o.response.error.Some? && o.response.error.value.PartialCloseDoneBeFailed?)
  {}

  /** Without the break-even move, TP1 management is its close alone. */
  lemma ManageTp1WithoutBe(request: TP1ManageRequest, b: Broker)
    requires !request.moveToBeEnabled
    ensures ManageTp1(request, b).sent == Tp1Close(request, b).sent
    ensures ManageTp1(request, b).response.success <==> Tp1Close(request, b).Closed?
  {}

  // ---------------------------------------------------------------------------
  // Break-even stops
  // ---------------------------------------------------------------------------

  /**
   * The stop `move_to_be` sends keeps the broker's minimum distance from the
   * closing price, and otherwise sits at the entry shifted by the buffer.
   */
  lemma MoveToBeRespectsStopLevel(request: MoveToBERequest, b: Broker)
    requires MoveToBe(request, b).sent != []
    ensures var p := b.positions[request.positionTicket];
      var q := b.quotes[p.symbol];
      var md := MinStopDistance(b, p.symbol);
      var change := MoveToBe(request, b).sent[0];
      && change.SlTp? && change.position == p.ticket && change.tp == p.tp
      && (md > 0.0 && p.isBuy ==> change.sl <= q.bid - md)
      && (md > 0.0 && !p.isBuy ==> change.sl >= q.ask + md)
      && (md <= 0.0 ==> change.sl == (if p.isBuy then p.priceOpen + request.bufferPips * PipOf(b, p.symbol)
                                      else p.priceOpen - request.bufferPips * PipOf(b, p.symbol)))
  {}

  /**
   * With a non-negative buffer and no stop level in the way, the break-even
   * stop never puts the position at a loss: at or above the entry for a buy,
   * at or below it for a sell.
   */
  lemma BreakEvenStopLocksEntry(isBuy: bool, entry: real, bufferPrice: real, minDistance: real, q: Quote)
    requires bufferPrice >= 0.0
    requires minDistance <= 0.0
      || (isBuy && entry + bufferPrice <= q.bid - minDistance)
      || (!isBuy && entry - bufferPrice >= q.ask + minDistance)
    ensures isBuy ==> BreakEvenStop(isBuy, entry, bufferPrice, minDistance, q) >= entry
    ensures !isBuy ==> BreakEvenStop(isBuy, entry, bufferPrice, minDistance, q) <= entry
  {}

  /** `move_sl_to_be` sets the stop to the entry, shifted towards profit by the buffer in pips. */
  lemma MoveSlToBeStop(request: MoveSLToBERequest, b: Broker)
    requires MoveSlToBe(request, b).sent != []
    ensures var p := b.resolved[request.ticket];
      var change := MoveSlToBe(request, b).sent[0];
      && change.SlTp? && change.position == p.ticket && change.tp == p.tp
      && change.sl == (if p.isBuy then p.priceOpen + request.beBufferPips * PipOf(b, p.symbol)
                       else p.priceOpen - request.beBufferPips * PipOf(b, p.symbol))
  {
    var p := b.resolved[request.ticket];
    var buffer := request.beBufferPips * PipOf(b, p.symbol);
    var sl := if p.isBuy then p.priceOpen + buffer else p.priceOpen - buffer;
    assert MoveSlToBe(request, b).sent == [SlTp(p.symbol, sl, p.tp, p.ticket)];
  }

  // ---------------------------------------------------------------------------
  // The break-even request of manage_tp1
  // ---------------------------------------------------------------------------

  /**
   * As written, every TP1 close with the break-even move enabled ends in a
   * validation error, raised after the closing deal was sent and executed.
   */
  lemma ManageTp1AsWrittenRaisesAfterClose(request: TP1ManageRequest, b: Broker)
    requires request.moveToBeEnabled && Tp1Close(request, b).Closed?
    ensures var r := ManageTp1AsWritten(request, b);
      && r.RaisedValidationError?
      && |r.sent| == 1 && r.sent[0].Deal? && b.send(r.sent[0]).retcode == DONE
  {}

  /** Everywhere else the corrected operation agrees with the one as written. */
  lemma ManageTp1AgreesElsewhere(request: TP1ManageRequest, b: Broker)
    requires !(request.moveToBeEnabled && Tp1Close(request, b).Closed?)
    ensures ManageTp1AsWritten(request, b) ==
      Returned(ManageTp1(request, b).response, ManageTp1(request, b).sent)
  {}

  /** A one-position terminal that executes every request. */
  function ExampleBroker(): Broker {
    var position := Position(7, "EURUSD", true, 0.02, 1.1, 0.0, 1.3, MAGIC, ORDER_COMMENT);
    Broker(
      connected := true,
      positions := map[7 := position],
      resolved := map[7 := position],
      refetched := map[7 := position.(sl := 1.1)],
      symbols := map["EURUSD" := SymbolSpec(0.01, 0.01, 100.0, 5, 0.00001, 0, 0)],
      quotes := map["EURUSD" := Quote(1.2, 1.2001)],
      send := (r: TradeRequest) => SendResult(DONE, 1, "done"))
  }

  /** On the example terminal the default TP1 request closes 0.01 of the 0.02 lots. */
  lemma ExampleTp1Closes()
    ensures Tp1Close(NewTP1ManageRequest(7), ExampleBroker()).Closed?
  {
    var requested := 0.02 * (50.0 / 100.0);
    assert requested == 0.01;
    assert requested / 0.01 == 1.0;
    assert Floor(1.0) == 1;
    assert IsVolumeExactStep(requested, 0.01);
    assert FloorSteps(requested, 0.01) == 0.01;
    assert NormalizeVolumeFloor(requested, 0.01, 0.01, 100.0) == 0.01;
  }

  /** The default TP1 request on a 0.02-lot position: as written it raises, corrected it succeeds. */
  lemma DefaultTp1RequestExample()
    ensures ManageTp1AsWritten(NewTP1ManageRequest(7), ExampleBroker()).RaisedValidationError?
    ensures ManageTp1(NewTP1ManageRequest(7), ExampleBroker()).response.success
    ensures ManageTp1(NewTP1ManageRequest(7), ExampleBroker()).response.slPriceSet == Some(1.1)
  {
    ExampleTp1Closes();
  }
}
