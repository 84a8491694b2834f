# POITracker MT5 backend core, in Dafny

This project models the trade-management core of the POITracker backend.
That backend is a FastAPI service that sizes trades and manages them through
the MetaTrader 5 (MT5) terminal. The model covers:

- **Risk engine** (`RiskEngine`, `RiskProperties`). The position-size
  calculator turns a balance, a risk percent, a stop distance and a pip
  value into a volume on the broker's lot grid. It also computes the actual
  risk, the warnings, the remaining volume after TP1 and the break-even
  price.
- **Request schemas** (`Models`). These are the pydantic field constraints
  and the partial-close model validator.
- **Pip specifications** (`PipSpecs`) and **symbol defaults**
  (`SymbolDefaults`). These give the pip size per symbol, the choice of
  tick value, the pip value per lot, and the per-symbol default stops.
- **Execution guard** (`ExecutionGuard`). Execution needs both the backend
  switch and the UI "armed" flag.
- **MT5 service decisions** (`Mt5Service`, `Mt5Properties`).
  - Volume normalisation: `_floor_to_step`, `_normalize_volume_floor`,
    `normalize_close_volume` and `_is_volume_exact_step`.
  - Broker error messages.
  - The decision logic of `partial_close`, `manage_tp1`, `move_to_be` and
    `move_sl_to_be`.
- **TP1 watcher** (`Tp1Watcher`). `TP1WatcherManager` is a class holding
  the `_tp1_done` and `_tracked_positions` maps.
  - One `_tick` reconciles the open positions with both maps.
  - It partly closes each app-owned position whose price reached TP1, then
    moves its stop to break-even, once per ticket.
  - It reports a stop-loss closure for positions that vanished without TP1.

The terminal is never called. Each operation receives a `Broker.Broker`
snapshot that holds:

- the positions;
- the symbol specifications;
- the quotes;
- a function giving the answer `order_send` returns for a request.

Each service operation returns the requests it sent, in order
(`Mt5Service.Outcome`). Inside the watcher, the outcomes of `partial_close`
and `move_to_be`, the deal history, the profit calculator and the clock are
functions and values in `Tp1Watcher.Io`.

Python's `Decimal` volume arithmetic and its floats are modelled as exact
reals. Flooring to a step is `Steps.FloorSteps`, and "a whole number of
steps" is `Steps.IsMultiple`.

The watcher's methods are proved against pure functions of its state:

- `Track`, `Fire` and `Step` cover one position;
- `Scan` is the position loop;
- `Sweep` removes the positions that are gone;
- `Ticked` is the whole tick.

Each method's `ensures` ties the new state to one of these functions. The
lemmas `TickBook`, `TickEntries`, `TickFired`, `TickStopLoss`,
`TickTp1Event` and `TickError` state what a tick promises.

## Behaviour of the code worth knowing

- `_tick` recomputes the TP1 price from the entry on every tick
  (mt5_service.py:1078). `Tp1Watcher.Tp1Price` stores nothing.
- The risk engine sets `allowed` from the stop rule alone
  (risk_engine.py:60). A non-positive pip value is rejected by the input
  schema (models.py:29), not by `allowed`.
- The risk engine's remaining volume is `volume * (1 - p/100)` rounded to 2
  decimals (risk_engine.py:74). It is not normalised to the volume grid.
- The risk engine's break-even price adds the buffer to the entry as a
  price, without a pip scaling, whenever the move is enabled and the entry
  is positive (risk_engine.py:76-84). It does not look at `tp1_pips`.
- The watcher's `start` stores the UI flag without checking it
  (mt5_service.py:912-929).
- When a request's `ui_armed` is false, the execution guard falls back to
  the flag stored by `toggle` (execution_guard.py:34).
- Where the symbol is unknown or its `digits` is 0, the service uses 5
  digits (mt5_service.py:352). `pip_spec_from_mt5` uses 0 there
  (pip_specs.py:81).

## Model

| member | source | states |
|---|---|---|
| Models.NewRiskCalcInput | backend/app/models.py:16-31 | The optional fields take their declared defaults (no TP1, 50 percent, break-even on, buffer 0, minimum and step 0.01). The input is valid exactly when each required field meets its bound. |
| Models.ValidatePartialCloseRequest | backend/app/models.py:77-102 | No error exactly when the percent lies in (0, 100], the volume is positive, a ticket is given and an amount is given. The missing-ticket error is reported exactly when the fields are fine and both tickets are absent. The missing-amount error arises only when a ticket is present. |
| Models.NewMoveToBERequest | backend/app/models.py:181-185 | A request built from a position ticket is valid, with buffer 0 and not armed. |
| Models.NewTP1ManageRequest | backend/app/models.py:188-194 | A request built from a ticket is valid, with 50 percent, break-even on, buffer 0 and not armed. |
| RiskEngine.Quantize4 | backend/app/services/risk_engine.py:53 | The ROUND_DOWN quantisation to 0.0001 is on the 0.0001 grid and within one grid step below its argument. |
| RiskEngine.FinalVolume | backend/app/services/risk_engine.py:37-52 | The chosen volume is on the step grid and at least both the stepped raw volume and the step-aligned minimum. |
| RiskEngine.RefloorKeepsVolume | backend/app/services/risk_engine.py:50 | The second floor of the chosen volume to the step returns it unchanged. |
| RiskEngine.RemainingOf | backend/app/services/risk_engine.py:74 | The remaining volume is on the cent grid and within half a cent of the exact open share. |
| RiskEngine.RemainingOfNonNegative | backend/app/services/risk_engine.py:74 | The remaining volume of a positive volume is never negative. |
| RiskEngine.RemainingOfAtMost | backend/app/services/risk_engine.py:74 | The remaining volume of a cent-aligned volume never exceeds that volume. |
| RiskEngine.Calculate | backend/app/services/risk_engine.py:14-99 | `allowed` holds exactly when the stop is within the maximum. The volume is on the step grid. The target percent, TP1 distance and partial percent are passed through. |
| RiskProperties.RawVolumeSpendsTarget | backend/app/services/risk_engine.py:21-30 | The raw volume times the risk per lot is exactly the target risk amount. |
| RiskProperties.ReportedRawVolumeTruncated | backend/app/services/risk_engine.py:53 | The reported raw volume is the raw volume truncated to 4 decimals. |
| RiskProperties.VolumeIsStepFloorOrMinimum | backend/app/services/risk_engine.py:37-52 | The volume is the larger of the step-floor of the raw volume and the step-ceiling of the minimum. |
| RiskProperties.VolumeAtLeastMinimum | backend/app/services/risk_engine.py:45-49 | The rounded minimum is at least the broker minimum, less than one step above it, and the least whole number of steps reaching it. The volume is never below it. |
| RiskProperties.AllowedIffStopWithinMax | backend/app/services/risk_engine.py:59-65 | `allowed` holds iff the stop is within the maximum. A refused stop's warning comes first, and an allowed trade has no stop warning. |
| RiskProperties.WarningsContent | backend/app/services/risk_engine.py:62-69 | At most three warnings, in the order stop, minimum, risk. The floored-to-minimum warning appears iff the volume is at most the rounded minimum and the reported raw volume is below it. The risk warning appears iff the actual percent exceeds 1.1 times the target. |
| RiskProperties.MinimumLiftsRisk | backend/app/services/risk_engine.py:45-57 | When the raw volume is below the rounded minimum, the volume is that minimum and the actual risk exceeds the target. |
| RiskProperties.FlooredRiskWithinOneStep | backend/app/services/risk_engine.py:37-57 | Otherwise the volume is the step-floor and the actual risk is at most the target. It falls short by less than one step's worth of risk. |
| RiskProperties.ExceedsWarningOnlyWhenMinimumForced | backend/app/services/risk_engine.py:56-69 | Without the minimum lifting the volume, the actual risk percent is at most the target and there is no risk-exceeds warning. |
| RiskProperties.FlooredWarningIffMinimumForced | backend/app/services/risk_engine.py:66-67 | For a minimum on the 0.0001 grid, the floored-to-minimum warning appears iff the raw volume is below the minimum. |
| RiskProperties.BreakEvenPrice | backend/app/services/risk_engine.py:76-84 | There is no break-even price without the move. With it, the price is the entry plus the raw buffer for a buy and minus it for a sell. |
| RiskProperties.RemainingVolumeIsRoundedShare | backend/app/services/risk_engine.py:74 | The reported remaining volume is the rounded open share of the chosen volume. |
| RiskProperties.VolumePositive | backend/app/services/risk_engine.py:45-52 | The volume of a valid input is positive. |
| PipSpecs.ForexPip | backend/app/services/pip_specs.py:42-50 | The forex pip is 0.01 exactly for 3 or 2 digits, and 0.0001 otherwise. |
| PipSpecs.PipInPriceForSymbol | backend/app/services/pip_specs.py:27-50 | Gold symbols give 0.1, bitcoin symbols otherwise give 1.0, and the digits decide the rest. The markers are matched on the upper-cased symbol and the pip is positive. |
| PipSpecs.PipInPriceIgnoresCase | backend/app/services/pip_specs.py:29 | The pip size does not depend on the symbol's case. |
| PipSpecs.PickTickValue | backend/app/services/pip_specs.py:53-69 | The first positive of the tick value and the profit tick value, else the magnitude of a non-zero loss tick value, else 0 with source "none". |
| PipSpecs.TickSize | backend/app/services/pip_specs.py:84-87 | The broker's tick size when positive, the point otherwise. |
| PipSpecs.CalcProfitPipValue | backend/app/services/pip_specs.py:93-112 | The profit-based pip value is the calculator's answer's magnitude exactly when asked with a positive ask and there is an answer, and 0 otherwise. |
| PipSpecs.PipSpecFromInfo | backend/app/services/pip_specs.py:81-138 | The profit-based pip value wins. Otherwise the pip value is pip / tick size times tick value, used only when both are positive, and else 0. |
| PipSpecs.PipSpecFromMt5 | backend/app/services/pip_specs.py:72-80 | A spec exists exactly when the terminal initialises and knows the symbol. |
| PipSpecs.PipValuePositiveIff | backend/app/services/pip_specs.py:93-116 | The pip value is positive iff the calculator gave a non-zero answer, or the tick size and tick value are both positive. |
| SymbolDefaults.FindExact | backend/app/services/symbol_defaults.py:33-34 | Finds the key's entry if and only if the table contains the key. |
| SymbolDefaults.FindPrefix | backend/app/services/symbol_defaults.py:37-39 | Returns the first entry, in table order, whose key starts the symbol, and nothing iff no key does. |
| SymbolDefaults.GetSymbolDefaults | backend/app/services/symbol_defaults.py:21-41 | The result is one of the gold, bitcoin or forex defaults. |
| SymbolDefaults.DefaultsIgnoreCase | backend/app/services/symbol_defaults.py:31 | The lookup does not depend on the symbol's case. |
| SymbolDefaults.ExactMatchIsFirstPrefix | backend/app/services/symbol_defaults.py:33-39 | The exact lookup never decides differently from the prefix search alone. |
| SymbolDefaults.PrefixDecides | backend/app/services/symbol_defaults.py:21-41 | A symbol starting with XAUUSD gets the gold defaults and one starting with BTCUSD the bitcoin defaults. Every other symbol gets the forex defaults. |
| SymbolDefaults.SuffixedBitcoin | backend/app/services/symbol_defaults.py:36-39 | "btcusd.m" gets the bitcoin defaults. |
| ExecutionGuard.Settings.constructor | backend/app/config.py:26 | Execution is disabled by default. |
| ExecutionGuard.Guard.constructor | backend/app/services/execution_guard.py:16-17 | A new guard is not armed. |
| ExecutionGuard.Guard.IsExecutionAllowed | backend/app/services/execution_guard.py:19-38 | Allowed iff the backend switch is on and the request flag or, failing it, the stored flag is set. The reason is "authorized" iff allowed. The backend reason takes priority over the UI reason. |
| ExecutionGuard.Guard.SetExecutionEnabled | backend/app/services/execution_guard.py:40-42 | Sets the backend switch and nothing else. |
| ExecutionGuard.Guard.Toggle | backend/app/services/execution_guard.py:44-46 | Sets the stored UI flag and nothing else. |
| ExecutionGuard.Guard.GetExecutionStatus | backend/app/services/execution_guard.py:48-53 | Both entries equal the backend switch. They report allowed iff an armed request would pass. |
| ExecutionGuard.StatusIgnoresUi | backend/app/services/execution_guard.py:48-53 | Guards sharing a backend switch report the same status whatever their UI flags. |
| ExecutionGuard.AllowedImpliesStatus | backend/app/services/execution_guard.py:19-53 | A granted request implies the status reports execution allowed. |
| ExecutionGuard.FreshGuardDenies | backend/app/services/execution_guard.py:16-31 | A fresh guard over default settings denies every request, for the backend reason. |
| ExecutionGuard.ArmedThroughToggle | backend/app/services/execution_guard.py:30-46 | Switching the backend on and arming the UI through `toggle` lets a request without the flag through, as authorized. |
| Broker.DigitsOf | backend/app/services/mt5_service.py:352 | The symbol's digits when it is known and they are non-zero, and 5 otherwise. |
| Broker.VolumeSpecs | backend/app/services/mt5_service.py:132-139 | Gives the symbol's (min, step, max), or zeros for an unknown symbol. |
| Broker.NonZero | backend/app/services/mt5_service.py:546-549 | An order ticket of 0 is reported as none. |
| Mt5Service.FloorToStep | backend/app/services/mt5_service.py:164-170 | A positive step gives a whole number of steps within one step below the value. A non-positive step gives 0. |
| Mt5Service.FloorToStepIsGreatest | backend/app/services/mt5_service.py:164-170 | No whole number of steps lies between the floor and the value. |
| Mt5Service.FloorToStepOfMultiple | backend/app/services/mt5_service.py:164-170 | A value on the grid is returned unchanged. |
| Mt5Service.NormalizeVolumeFloor | backend/app/services/mt5_service.py:141-162 | Gives 0 exactly in the rejecting cases (non-positive input, below the minimum before or after flooring). Otherwise it gives the step-floor, capped by a positive maximum, never above the request. |
| Mt5Service.NormalizeVolumeFloorIsLargest | backend/app/services/mt5_service.py:141-162 | Without a cap, the result is at least every executable grid volume not above the request. |
| Mt5Service.IsVolumeExactStep | backend/app/services/mt5_service.py:210-216 | Holds iff the step is positive and the request is a whole number of steps. |
| Mt5Service.NonNegative | backend/app/services/mt5_service.py:204 | `max(0, x)` is non-negative, at least x, and one of the two. |
| Mt5Service.NormalizeCloseVolume | backend/app/services/mt5_service.py:172-208 | The requested volume is the percent share. The remaining volume is the non-negative rest after the close. The specs are echoed. |
| Mt5Service.CloseVolumeRule | backend/app/services/mt5_service.py:181-185 | From 100 percent the whole position is closed. Below that the close is the step-floor of the share, or 0 without a step. |
| Mt5Service.BlockedReasonPriority | backend/app/services/mt5_service.py:188-199 | Each blocked reason is reported iff its condition holds and no earlier one does. |
| Mt5Service.UnblockedPartialCloseIsSafe | backend/app/services/mt5_service.py:172-208 | An unblocked close below 100 percent is on the grid, at least the minimum and below the position. It leaves at least the minimum open. |
| Mt5Service.UnblockedFullClose | backend/app/services/mt5_service.py:182-199 | An unblocked close from 100 percent closes the whole, positive position and leaves nothing. |
| Mt5Service.MapMt5Error | backend/app/services/mt5_service.py:108-125 | A known code gives its message. Any other code gives "MT5 Error " followed by the code. |
| Mt5Service.KnownCodes | backend/app/services/mt5_service.py:110-125 | Exactly the thirteen listed codes have their own message, and DONE is not among them. |
| Mt5Service.Rejected | backend/app/services/mt5_service.py:541-543 | A rejection carries the broker's return code. |
| Mt5Service.PipOf | backend/app/services/mt5_service.py:350-353 | The service's pip size is 0.1 for gold, 1.0 for bitcoin, and otherwise the forex pip at the service's digits (always positive). |
| Mt5Service.RequestTicket | backend/app/services/mt5_service.py:445 | The non-zero position ticket, else the non-zero legacy ticket, else 0. |
| Mt5Service.RequestPercent | backend/app/services/mt5_service.py:457-459 | The explicit percent, else the legacy volume as a share of a positive position, else none. |
| Mt5Service.CloseDeal | backend/app/services/mt5_service.py:508-523 | The closing deal is on the opposite side, at the bid for a buy and the ask for a sell, for the given volume, with the application's magic number, and carries the position ticket it is given (partial_close passes the request's ticket, mt5_service.py:516). |
| Mt5Service.PartialCloseBlock | backend/app/services/mt5_service.py:472-474 | The normalisation's block is kept. Without one, a full close without an explicit percent is blocked as a full close. |
| Mt5Service.PartialClose | backend/app/services/mt5_service.py:436-564 | At most one deal is sent. Success has neither error nor block, and a blocked close sends nothing. |
| Mt5Service.MoveSlToBe | backend/app/services/mt5_service.py:342-375 | At most one change is sent. The move succeeds iff one was sent and the broker executed it. |
| Mt5Service.MinStopDistance | backend/app/services/mt5_service.py:396-400 | The minimum stop distance is 0 without a known symbol of positive point, and otherwise the larger of the stops level and the freeze level times the point. |
| Mt5Service.BreakEvenStop | backend/app/services/mt5_service.py:402-418 | The stop is the entry shifted by the buffer, moved just enough to keep the minimum distance from the closing price. It is unchanged when already far enough. |
| Mt5Service.BreakEvenChange | backend/app/services/mt5_service.py:422-428 | The change keeps the take-profit and sets the break-even stop for the position. |
| Mt5Service.MoveToBe | backend/app/services/mt5_service.py:377-434 | At most one change is sent, and only the break-even change of a quoted listed position. The move succeeds iff the broker executed it. |
| Mt5Service.Tp1Close | backend/app/services/mt5_service.py:566-633 | A completed close sent exactly one executed deal. A stopped one failed after at most one. |
| Mt5Service.ManageTp1 | backend/app/services/mt5_service.py:566-658 | Success needs a completed close and carries no error. The close deal is always the first request sent. |
| Mt5Service.ManageTp1AsWritten | backend/app/services/mt5_service.py:635-650 | As written, the operation raises iff the close completed and the break-even move is enabled. |
| Mt5Properties.PartialCloseSendsUnblockedClose | backend/app/services/mt5_service.py:445-525 | A deal is sent only for a connected, positive, listed ticket with a percent, an unblocked normalisation and a quote. It is the closing deal of the normalised volume. Without an explicit percent that volume is below the position. |
| Mt5Properties.PartialCloseLeavesExecutableRemainder | backend/app/services/mt5_service.py:464-525 | A sent close below 100 percent is on the grid, at least the minimum and below the position, and is for the request's ticket. The remainder is at least the minimum. |
| Mt5Properties.LegacyVolumeNeverClosesAll | backend/app/services/mt5_service.py:472-474 | The legacy volume form never closes the whole position. |
| Mt5Properties.PartialCloseSuccessIffExecuted | backend/app/services/mt5_service.py:525-564 | A partial close succeeds iff its deal was sent and executed. |
| Mt5Properties.PartialCloseRejectionReported | backend/app/services/mt5_service.py:526-544 | A rejected deal reports its return code and the mapped message. |
| Mt5Properties.DisconnectedSendsNothing | backend/app/services/mt5_service.py:442-443 | Disconnected, partial close, both break-even moves and TP1 management send nothing and report the connection error. |
| Mt5Properties.Tp1CloseVolumeIsExecutable | backend/app/services/mt5_service.py:574-625 | The TP1 close is sent only for an exact-step share that is positive and within the position. It is the share itself unless the maximum caps it. |
| Mt5Properties.ManageTp1ClosesThenMovesStop | backend/app/services/mt5_service.py:635-658 | With the move enabled, a completed close whose position resolves again by its ticket is followed by exactly one stop change. The operation succeeds iff that change executes, and a failure is reported as "close done, break-even failed". |
| Mt5Properties.ManageTp1WithoutBe | backend/app/services/mt5_service.py:635-658 | With the move disabled, TP1 management is the close alone and succeeds iff the close completes. |
| Mt5Properties.MoveToBeRespectsStopLevel | backend/app/services/mt5_service.py:396-428 | The sent stop keeps the minimum distance from the closing price. Without a stop level it is the entry plus or minus the buffer in pips. |
| Mt5Properties.BreakEvenStopLocksEntry | backend/app/services/mt5_service.py:402-418 | With a non-negative buffer and no stop level in the way, a buy's stop is at or above the entry and a sell's at or below it. |
| Mt5Properties.MoveSlToBeStop | backend/app/services/mt5_service.py:350-369 | The legacy move sets the stop to the entry shifted towards profit by the buffer in pips, keeping the take-profit. |
| Mt5Properties.ManageTp1AsWrittenRaisesAfterClose | backend/app/services/mt5_service.py:636-637 | As written, every completed TP1 close with the move enabled raises after the deal was executed. |
| Mt5Properties.ManageTp1AgreesElsewhere | backend/app/services/mt5_service.py:566-658 | Elsewhere the corrected operation returns what the one as written returns. |
| Mt5Properties.DefaultTp1RequestExample | backend/app/services/mt5_service.py:636-637 | On a 0.02-lot position, the default TP1 request raises as written. Corrected, it succeeds and reports the refetched stop. |
| Tp1Watcher.Snapshot | backend/app/services/mt5_service.py:1044-1067 | The cached snapshot copies the position's fields, with the symbol's positive pip size and digits. |
| Tp1Watcher.HitIffPipsReached | backend/app/services/mt5_service.py:1078-1088 | The spread-safe trigger holds iff closing now gains at least the TP1 distance in pips. |
| Tp1Watcher.Tp1EventReportsGain | backend/app/services/mt5_service.py:1108-1145 | A TP1 event reports at least the TP1 distance in pips, the closing price, and "ok" iff the break-even move succeeded. |
| Tp1Watcher.SlEventMeasuresStop | backend/app/services/mt5_service.py:1162-1194 | The pip loss is the entry-to-stop distance in pips on either side, and 0 without a stop. The deal history's profit wins, and the calculator is asked only with a stop. |
| Tp1Watcher.FireFrame | backend/app/services/mt5_service.py:1077-1145 | A TP1 attempt leaves the snapshots, the key order and the stop-loss event alone, and marks a firing ticket done. |
| Tp1Watcher.StepMaps | backend/app/services/mt5_service.py:1031-1075 | A position changes both maps at its ticket only, refreshing the snapshot and setting done once TP1 fires. A foreign position changes nothing. |
| Tp1Watcher.TrackKeyed | backend/app/services/mt5_service.py:1056-1075 | Tracking keeps both maps keyed alike, with a new ticket appended to the insertion order. |
| Tp1Watcher.StepKeyed | backend/app/services/mt5_service.py:1031-1145 | One loop iteration keeps the book consistent. |
| Tp1Watcher.StepFires | backend/app/services/mt5_service.py:1069-1106 | TP1 fires for a position iff its ticket is not done and it triggers, the guard allows it and the partial close succeeds. |
| Tp1Watcher.StepReports | backend/app/services/mt5_service.py:1099-1145 | A firing records its event. A new error names the position and was let through by the guard. The stop-loss event is untouched. |
| Tp1Watcher.FireReports | backend/app/services/mt5_service.py:1099-1145 | A failed close leaves the ticket not done and records the close error. A firing marks it done, reports at least the TP1 pips, and records a break-even failure as the error, with "ok" otherwise. |
| Tp1Watcher.ScanKeyed | backend/app/services/mt5_service.py:1031-1145 | The position loop keeps the book consistent. |
| Tp1Watcher.ScanKeys | backend/app/services/mt5_service.py:1031-1075 | After the loop both maps' keys are the old keys plus the listed app-owned tickets. Other entries are unchanged. |
| Tp1Watcher.ScanSnapshots | backend/app/services/mt5_service.py:1044-1067 | Every listed app-owned ticket is tracked with the snapshot of one of its listings. |
| Tp1Watcher.ScanDone | backend/app/services/mt5_service.py:1069-1130 | After the loop a ticket is done iff it was done before or fired now. |
| Tp1Watcher.ScanFiredOnce | backend/app/services/mt5_service.py:1069-1130 | No ticket fires twice in one loop. |
| Tp1Watcher.ScanFired | backend/app/services/mt5_service.py:1031-1130 | A ticket fires iff it was not done and one of its listings fires. |
| Tp1Watcher.ScanEvents | backend/app/services/mt5_service.py:1099-1145 | The last TP1 event is the last firing's, a new error names a listed ticket the guard let through, and the stop-loss event is untouched. |
| Tp1Watcher.DetectEachFacts | backend/app/services/mt5_service.py:1021-1024 | Checking every ticket changes only the stop-loss event, which becomes the event of one reportable ticket when there is one. |
| Tp1Watcher.DetectEachLast | backend/app/services/mt5_service.py:1021-1024 | Checking the tickets in insertion order leaves the event of the last reportable ticket, or the previous event when none is reportable. |
| Tp1Watcher.SweepEachMaps | backend/app/services/mt5_service.py:1147-1152 | The sweep removes exactly the gone tickets from both maps and touches no error or TP1 event. |
| Tp1Watcher.SweepEachStop | backend/app/services/mt5_service.py:1147-1150 | The sweep reports the stop-loss closure of one reportable gone ticket, when there is one. |
| Tp1Watcher.SweepFacts | backend/app/services/mt5_service.py:1147-1152 | On a consistent book, the sweep removes exactly the gone tickets from both maps and from the key order, keeping it consistent. |
| Tp1Watcher.TickBook | backend/app/services/mt5_service.py:1016-1152 | A tick keeps the book consistent. Disconnected it changes nothing. Connected, both maps end up keyed by exactly the listed app-owned tickets. |
| Tp1Watcher.TickEntries | backend/app/services/mt5_service.py:1031-1152 | After a connected tick, each listed ticket is done iff it was done before or fired now. It is tracked with one of its listings' snapshots. |
| Tp1Watcher.TickFired | backend/app/services/mt5_service.py:1031-1130 | TP1 fires, once per ticket, exactly for the listed tickets not done before whose attempt succeeds, and only while connected. |
| Tp1Watcher.TickStopLoss | backend/app/services/mt5_service.py:1016-1197 | A connected tick reports the stop-loss closure of one ticket that vanished without TP1, when one did. Otherwise it keeps the previous event. With an empty listing the event is the last reportable ticket's in insertion order. |
| Tp1Watcher.TickTp1Event | backend/app/services/mt5_service.py:1132-1145 | The last TP1 event is the last firing's, and is unchanged when nothing fires. |
| Tp1Watcher.TickError | backend/app/services/mt5_service.py:1103-1127 | A new error names a listed ticket that the guard let through. |
| Tp1Watcher.Tp1WatcherManager.constructor | backend/app/services/mt5_service.py:899-910 | A new manager has empty maps, no events or error, and is neither armed nor running. |
| Tp1Watcher.Tp1WatcherManager.Start | backend/app/services/mt5_service.py:912-929 | A live thread or a lock held elsewhere changes nothing. Otherwise the flag is stored, the error cleared, the start time recorded and running set, with the book kept. |
| Tp1Watcher.Tp1WatcherManager.Stop | backend/app/services/mt5_service.py:931-938 | The manager stops running and keeps its maps and events. |
| Tp1Watcher.Tp1WatcherManager.SetUiArmed | backend/app/services/mt5_service.py:953-954 | Sets the UI flag and nothing else. |
| Tp1Watcher.Tp1WatcherManager.Status | backend/app/services/mt5_service.py:940-951 | Running iff the flag is set and the thread is alive. The watched count is the number of tracked tickets not done, and the done count the number done. They add up to the tracked tickets, and each is 0 iff every ticket is in the other state. |
| Tp1Watcher.Tp1WatcherManager.DetectSlClosure | backend/app/services/mt5_service.py:1154-1197 | The new state is that of `Detect`: only a cached, not-done ticket replaces the stop-loss event. |
| Tp1Watcher.Tp1WatcherManager.TrackPosition | backend/app/services/mt5_service.py:1036-1075 | Reports ownership, and the new state is that of `Track`. |
| Tp1Watcher.Tp1WatcherManager.TryTp1 | backend/app/services/mt5_service.py:1077-1145 | The new state and the firing are those of `Fire`. |
| Tp1Watcher.Tp1WatcherManager.TickPosition | backend/app/services/mt5_service.py:1031-1145 | The new state and the firing are those of `Step`. |
| Tp1Watcher.Tp1WatcherManager.ScanPositions | backend/app/services/mt5_service.py:1031-1145 | The loop's state and firings are those of `Scan` over the listing. |
| Tp1Watcher.Tp1WatcherManager.DetectAll | backend/app/services/mt5_service.py:1021-1024 | Checks every tracked ticket in insertion order, as `DetectEach`. |
| Tp1Watcher.Tp1WatcherManager.SweepGone | backend/app/services/mt5_service.py:1147-1152 | Checks and removes the gone tickets, as `Sweep`. |
| Tp1Watcher.Tp1WatcherManager.Tick | backend/app/services/mt5_service.py:1016-1152 | Keeps the book consistent. The new state and the firings are those of `Ticked`, under the guard's verdict on the stored flag. The flag, running and the start time are unchanged. |

## Left out

- The MT5 terminal is not modelled. Its answers are the `Broker.Broker` snapshot and the functions in `Tp1Watcher.Io`. `connect`, `_ensure_connected`, login and `get_status` reduce to the `connected` flag.
- `_resolve_position` is not modelled. It and its search of the deal history are the `resolved` map of the snapshot.
- `_lock_path`, `_FileLock` and the file lock are left out: the process id, stale-lock reclaim and OS locking are operating-system state. `start` receives the lock's answer as a parameter, and `status` omits the lock owner and age.
- The watcher thread and `_run_loop` are left out: the polling interval, the stop event and `join` are concurrency. `start` and `status` receive whether the thread is alive. A tick is one call of `Tick`.
- An exception raised inside a tick, which `_run_loop` stores as the last error, is not modelled.
- The clock is an input: `now` in `Start` and `Tp1Watcher.Io`.
- Display rounding is not modelled. This covers `round(..., 2)` of the risk amounts and percent, `round(sl_price, digits)` of the break-even stops, and `round(..., 1)` of the pips in the events. These values are exact. The 2-decimal rounding of profits is inside the profit functions of `Tp1Watcher.Io`.
- Error and warning strings are datatypes (`Models.ServiceError`, `Models.RiskWarning`, `Tp1Watcher.WatcherError`). Their float formatting is not modelled, except for `_map_mt5_error`'s messages.
- Mt5Service.MapMt5Error: the unknown-code message is stated as the prefix followed by `Text.IntToString(code)`. That this string reads back as the code is not proved.
- The `debug` dictionary of `PipSpec` is not modelled, apart from the tick-value source.
- The `deviation`, `type_time` and `type_filling` fields of the requests sent are fixed constants and are not modelled.
- The `direction` and `mt5_type` copies in the watcher's snapshot are not modelled; `isBuy` carries the same information.
- Tp1Watcher.TickStopLoss: the watcher sweeps the gone tickets of a non-empty listing in insertion order, but Python iterates the `gone` set in hash order (mt5_service.py:1148-1149). For that case the lemma therefore only says the SL event is *one* reportable candidate's. The event the source reports depends on that order. With an empty listing the source iterates the dictionary's keys in insertion order, and the lemma names the last reportable ticket.
- Tp1Watcher.Tp1WatcherManager.Tick: the guard is asked once per tick, not once per triggered position. Nothing in a tick changes the guard or the UI flag, so every ask gets the same answer.
- Tp1Watcher.Tp1WatcherManager.Tick requires settings that pass the request schemas (`ValidSettings`). Settings that fail them would raise a pydantic `ValidationError` inside the tick, and that path is not modelled.
- The outcome of the watcher's own `partial_close` and `move_to_be` calls is a function in `Tp1Watcher.Io`. It is not tied to `Mt5Service.PartialClose` and `Mt5Service.MoveToBe`, which model those operations.
- `place_order`, `modify_sl`, the position-listing queries, `lookup_position` and the FastAPI routers are outside this model.
- Text.Upper: case mapping is ASCII only. Python's `str.upper` maps by Unicode (for instance 'ſ' to 'S' and 'ß' to "SS"), so `get_symbol_defaults` (symbol_defaults.py:31) and `pip_in_price_for_symbol` (pip_specs.py:29) can differ on non-ASCII symbols.
- Mt5Service.MoveSlToBe, Mt5Service.MoveToBe, Mt5Service.PartialClose, Mt5Service.Tp1Close: `order_send` can return None. The source then reads `result.retcode` without a check (mt5_service.py:371-372, 430-431, 525-526, 625-626) and raises AttributeError. The broker's `send` always returns a result, so this raised path is not modelled.
- Python floats are not modelled: `Decimal(str(x))` and float arithmetic are exact reals, with no binary rounding.

## Findings

| source | as written | input that shows it | evidently intended | confidence | as-written member | corrected member |
|---|---|---|---|---|---|---|
| backend/app/services/mt5_service.py:636-637 | `manage_tp1` builds `MoveToBERequest(ticket=..., be_buffer_pips=...)`. That schema (models.py:181-185) requires `position_ticket` and has neither field, so building it raises a validation error after the closing deal has been executed. | A default `TP1ManageRequest` (break-even enabled) on a 0.02-lot position whose 50 percent close executes (`Mt5Properties.DefaultTp1RequestExample`). | Build a `MoveSLToBERequest(ticket, be_buffer_pips)` for `move_sl_to_be`, the operation it calls. | high (by reading the schema; not executed) | Mt5Service.ManageTp1AsWritten, Mt5Properties.ManageTp1AsWrittenRaisesAfterClose | Mt5Service.ManageTp1, Mt5Properties.ManageTp1ClosesThenMovesStop |
