/**
 * Request and response schemas of the trade-planner API (backend/app/models.py).
 * Pydantic field constraints become validity predicates; a request value that
 * reaches a service has passed them, so the services take them as `requires`.
 * Error and warning strings become datatypes (their float formatting is not
 * modelled).
 */
module Models {
  import opened Wrappers

  datatype Direction = Buy | Sell

  /** RiskCalcInput */
  datatype RiskCalcInput = RiskCalcInput(
    accountBalance: real,
    riskPercent: real,
    symbol: string,
    direction: Direction,
    entryPrice: real,
    stopPips: real,
    maxStopPips: real,
    tp1Pips: Option<real>,
    partialPercent: real,
    moveToBeEnabled: bool,
    beBufferPips: real,
    pipValuePerLot: real,
    minVolume: real,
    volumeStep: real)

  /** The field constraints of RiskCalcInput (gt / ge / le bounds). */
  predicate ValidRiskCalcInput(i: RiskCalcInput) {
    && i.accountBalance > 0.0
    && 0.0 < i.riskPercent <= 100.0
    && i.entryPrice > 0.0
    && i.stopPips > 0.0
    && i.maxStopPips > 0.0
    && (i.tp1Pips.Some? ==> i.tp1Pips.value >= 0.0)
    && 0.0 <= i.partialPercent <= 100.0
    && i.beBufferPips >= 0.0
    && i.pipValuePerLot > 0.0
    && i.minVolume > 0.0
    && i.volumeStep > 0.0
  }

  /** A RiskCalcInput built from its required fields, the others at their declared defaults. */
  function NewRiskCalcInput(
    accountBalance: real, riskPercent: real, symbol: string, direction: Direction,
    entryPrice: real, stopPips: real, maxStopPips: real, pipValuePerLot: real): (i: RiskCalcInput)
    ensures i.tp1Pips == None && i.partialPercent == 50.0 && i.moveToBeEnabled
    ensures i.beBufferPips == 0.0 && i.minVolume == 0.01 && i.volumeStep == 0.01
    ensures ValidRiskCalcInput(i) <==>
      accountBalance > 0.0 && 0.0 < riskPercent <= 100.0 && entryPrice > 0.0 &&
      stopPips > 0.0 && maxStopPips > 0.0 && pipValuePerLot > 0.0
  {
    RiskCalcInput(accountBalance, riskPercent, symbol, direction, entryPrice, stopPips,
                  maxStopPips, None, 50.0, true, 0.0, pipValuePerLot, 0.01, 0.01)
  }

  /** The entries of RiskCalcOutput.warnings, in the order they are appended. */
  datatype RiskWarning =
    | StopExceedsMax(stopPips: real, maxStopPips: real)
    | VolumeFlooredToMinimum(minValid: real)
    | ActualRiskExceedsTarget(actualRiskPercent: real, riskPercent: real)

  /** RiskCalcOutput */
  datatype RiskCalcOutput = RiskCalcOutput(
    allowed: bool,
    volumeRaw: real,
    volume: real,
    targetRiskAmount: real,
    actualRiskAmount: real,
    targetRiskPercent: real,
    actualRiskPercent: real,
    tp1Pips: Option<real>,
    partialPercent: real,
    remainingVolume: real,
    beSlPrice: Option<real>,
    warnings: seq<RiskWarning>)

  /** PartialCloseRequest: the preferred {position_ticket, percent} or the legacy {ticket, volume}. */
  datatype PartialCloseRequest = PartialCloseRequest(
    positionTicket: Option<int>,
    percent: Option<real>,
    ticket: Option<int>,
    volume: Option<real>,
    uiArmed: bool)

  datatype RequestError =
    | PercentOutOfRange       // percent: gt=0, le=100
    | VolumeNotPositive       // volume: gt=0
    | MissingPositionTicket   // "partial-close requires position_ticket (preferred) or ticket (legacy)"
    | MissingPercentOrVolume  // "partial-close requires percent (preferred) or volume (legacy)"

  /**
   * Validation of a PartialCloseRequest: the field constraints are checked
   * first, then the model validator, which looks for a ticket before it looks
   * for an amount. The first failure is reported.
   */
  function ValidatePartialCloseRequest(r: PartialCloseRequest): (e: Option<RequestError>)
    ensures e == None <==>
      && (r.percent.Some? ==> 0.0 < r.percent.value <= 100.0)
      && (r.volume.Some? ==> r.volume.value > 0.0)
      && (r.positionTicket.Some? || r.ticket.Some?)
      && (r.percent.Some? || r.volume.Some?)
    ensures e == Some(MissingPositionTicket) <==>
      && (r.percent.Some? ==> 0.0 < r.percent.value <= 100.0)
      && (r.volume.Some? ==> r.volume.value > 0.0)
      && r.positionTicket.None? && r.ticket.None?
    ensures e == Some(MissingPercentOrVolume) ==> r.positionTicket.Some? || r.ticket.Some?
  {
    if r.percent.Some? && !(0.0 < r.percent.value <= 100.0) then Some(PercentOutOfRange)
    else if r.volume.Some? && !(r.volume.value > 0.0) then Some(VolumeNotPositive)
    else if r.positionTicket.None? && r.ticket.None? then Some(MissingPositionTicket)
    else if r.percent.None? && r.volume.None? then Some(MissingPercentOrVolume)
    else None
  }

  predicate ValidPartialCloseRequest(r: PartialCloseRequest) {
    ValidatePartialCloseRequest(r).None?
  }

  /** MoveSLToBERequest (legacy break-even move by order or position ticket). */
  datatype MoveSLToBERequest = MoveSLToBERequest(ticket: int, beBufferPips: real, uiArmed: bool)

  predicate ValidMoveSLToBERequest(r: MoveSLToBERequest) {
    r.beBufferPips >= 0.0
  }

  /** MoveToBERequest (break-even move by position ticket). */
  datatype MoveToBERequest = MoveToBERequest(positionTicket: int, bufferPips: real, uiArmed: bool)

  predicate ValidMoveToBERequest(r: MoveToBERequest) {
    r.bufferPips >= 0.0
  }

  /** A MoveToBERequest with buffer_pips and ui_armed at their defaults. */
  function NewMoveToBERequest(positionTicket: int): (r: MoveToBERequest)
    ensures ValidMoveToBERequest(r) && r.positionTicket == positionTicket
    ensures r.bufferPips == 0.0 && !r.uiArmed
  {
    MoveToBERequest(positionTicket, 0.0, false)
  }

  /** TP1ManageRequest */
  datatype TP1ManageRequest = TP1ManageRequest(
    ticket: int,
    partialPercent: real,
    moveToBeEnabled: bool,
    beBufferPips: real,
    uiArmed: bool)

  predicate ValidTP1ManageRequest(r: TP1ManageRequest) {
    0.0 < r.partialPercent <= 100.0 && r.beBufferPips >= 0.0
  }

  /** A TP1ManageRequest with every optional field at its default. */
  function NewTP1ManageRequest(ticket: int): (r: TP1ManageRequest)
    ensures ValidTP1ManageRequest(r) && r.ticket == ticket
    ensures r.partialPercent == 50.0 && r.moveToBeEnabled && r.beBufferPips == 0.0 && !r.uiArmed
  {
    TP1ManageRequest(ticket, 50.0, true, 0.0, false)
  }

  /** The blocked_reason values of a partial close, in the order they are checked. */
  datatype BlockedReason =
    | PositionVolumeInvalid
    | SymbolSpecsUnavailable
    | RequestedCloseBelowMinLot
    | RemainingBelowMinLot
    | WouldCloseFullPosition

  /** The `error` field of the service responses. */
  datatype ServiceError =
    | NotConnected                                  // "MT5 not connected"
    | PartialCloseRequiresPositionTicket            // "partial-close requires position_ticket"
    | PositionNotFound(ticket: int)                 // "Position not found for ticket ..."
    | PartialCloseRequiresAmount                    // "partial-close requires percent or volume"
    | PartialCloseBlocked(reason: BlockedReason)    // "Partial close blocked: ..."
    | NoTickData(symbol: string)                    // "No tick data for ..."
    | BrokerRejected(retcode: int, message: string) // _map_mt5_error(retcode)
    | CloseVolumeNotExecutable(requested: real, normalized: real, volumeMin: real, volumeStep: real)
    | CloseExceedsPosition(positionVolume: real)
    | PartialCloseDoneBeFailed(beError: Option<ServiceError>)

  /** OrderResponse (only the fields the break-even operations fill in). */
  datatype OrderResponse = OrderResponse(success: bool, ticket: Option<int>, error: Option<ServiceError>)

  /** PartialCloseResponse; its legacy `ticket` field always equals `order_ticket` and is not repeated. */
  datatype PartialCloseResponse = PartialCloseResponse(
    success: bool,
    orderTicket: Option<int>,
    positionTicket: Option<int>,
    symbol: Option<string>,
    positionVolume: Option<real>,
    percent: Option<real>,
    requestedVolume: Option<real>,
    closeVolume: Option<real>,
    remainingVolume: Option<real>,
    blockedReason: Option<BlockedReason>,
    volumeMin: Option<real>,
    volumeStep: Option<real>,
    mt5Retcode: Option<int>,
    mt5Comment: Option<string>,
    error: Option<ServiceError>)

  /** TP1ManageResponse */
  datatype TP1ManageResponse = TP1ManageResponse(
    success: bool,
    positionTicket: Option<int>,
    closedVolumeRequested: Option<real>,
    closedVolumeNormalized: Option<real>,
    slPriceSet: Option<real>,
    error: Option<ServiceError>)
}
