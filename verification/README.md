# Trading back-end: verified model

A Dafny model of the stateful core of the trading back-end, with proofs of what it keeps over whole
runs. Decimals and floats are reals, with the services' own tolerance of 1e-9 kept as `EPSILON`;
clocks are parameters; identifiers are taken as already trimmed and case-folded.

| file | models |
|---|---|
| `PositionEngine.dfy` | the netted average-cost position ledger |
| `OrderStatus.dfy`, `FillReconciliation.dfy` | order states, the priority join, fill reconciliation |
| `PortfolioSnapshot.dfy`, `OmsLifecycle.dfy`, `OrderAndPositionViews.dfy` | marking to market, the order-management worker and its runs |
| `RiskRules.dfy` | pre-trade limits |
| `ExecutionLifecycle.dfy`, `ExecutionRuns.dfy` | the tracker of live orders and its runs |
| `OrderBook.dfy`, `BookStream.dfy` | the order-book replica and its convergence |
| `KlineValidator.dfy` | the candle validator and gap finder |
| `RateLimiter.dfy`, `PolicyRouter.dfy`, `RouterRuns.dfy` | the sliding-window limiter and the notification router |
| `RiskControls.dfy` | kill switch, circuit breaker and their event log |
| `MemoryValues.dfy`, `DecisionMemory.dfy` | value normalization and the expiring cache over the decision archive |
| `Basics.dfy`, `Sums.dfy`, `StableSort.dfy`, `SlidingWindow.dfy` | shared vocabulary |

Each stateful component is a class whose methods are proved equal to a transition function on a
`State` value; runs are folds of that function, and the theorems are about all runs. Dictionaries
whose iteration order matters are kept in insertion order.

`dafny verify dfyconfig.toml` checks everything.

## Where the code falls short of what one might expect

Each of these is a lemma with a concrete input, next to the exact condition under which the
expected property does hold.

- A canceled order is reopened as partially filled by a Filled event whose quantity falls short
  (`CanceledOrderReopened`; exactly when: `StatusFallsExactly`).
- Reconciling an unchanged log a second time can change the status (`ReconcilingAgainCancels`;
  exactly when: `ReconcilingAgainConfirms`). The worker's own records never meet that case
  (`WorkerRecordsAreSettled`).
- A redelivered fill is dropped by the reconciler but applied to the position
  (`RedeliveryDoublesPosition`), so the two views differ by exactly the redelivered quantity
  (`ViewsDifferByRedeliveries`).
- A bare Filled status followed by the total it anticipated publishes the quantity twice
  (`BareFilledIsPublishedTwice`; exactly when an event reports the growth: `EventReportsGrowthExactly`).
- A slot written after a decision was concluded hides its summary once the summary has expired
  (`LaterSlotHidesSummary`; exactly when: `SummaryReadExactly` for one read, `SummaryMissedExactly`
  over whole runs).

## Model

| member | source | states |
|---|---|---|
| PositionEngine.AcceptedFill | services/oms/position_engine.py:109-145 | a fill is applied iff its quantity exceeds EPSILON, its side is BUY or SELL and mode and symbol match; the update's profit is the difference of the two positions |
| PositionEngine.FirstFillMeetsEmptyPosition | services/oms/position_engine.py:52-55 | a first fill gives what it would give on the empty position of its mode and symbol |
| PositionEngine.NettingMovesValue | services/oms/position_engine.py:63-90 | across open, add, reduce, flip and dust close, realized plus marked open value moves by signed quantity times (mark - price), less the marked value of forgotten dust, at every mark |
| PositionEngine.StepMovesValue | services/oms/position_engine.py:48-106 | one fill moves the marked value by its cash flow after the fee, less forgotten dust; a refused fill moves nothing |
| PositionEngine.StepMovesQuantity | services/oms/position_engine.py:59-90 | one fill moves the quantity by its signed quantity, less forgotten dust |
| PositionEngine.ReplayAgreesWithCashFlow | services/oms/position_engine.py:48-106 | for every fill sequence, start and mark: marked value and quantity equal the plain cash-flow ledger less dust, and the dust is within its bound |
| PositionEngine.ReplayStaysSettled | services/oms/position_engine.py:85-94 | in every reachable position the quantity is zero or above EPSILON in magnitude, the status is Open iff it is non-zero, and a flat position has average zero |
| PositionEngine.DustFreeLosesNothing | services/oms/position_engine.py:85-90 | without dust closes nothing is forgotten |
| PositionEngine.LedgerTheorem | services/oms/position_engine.py:48-106 | from an empty position, at every mark, the engine is off the cash-flow ledger by at most EPSILON times the distance of the mark from the reference price per dust close, and exact without dust closes |
| OrderStatus.OmsStateMachine.Apply | services/oms/state_machine.py:58-71 | the machine stays or moves along an allowed transition, and refuses otherwise with the state unchanged |
| OrderStatus.OmsStateMachine.CanTransition | services/oms/state_machine.py:52-56 | can_transition is true exactly of the states apply accepts |
| OrderStatus.PickStatus | services/oms/fill_reconciliation.py:169-178 | the loop returns the priority join, the dominating status of the list or New |
| OrderStatus.JoinIgnoresDelivery | services/oms/fill_reconciliation.py:169-178 | the join depends only on the set of statuses |
| OrderStatus.LegalRunClimbs | services/oms/state_machine.py:17-30 | along every legal run priority never falls, the final state dominates all requested ones, and stage plus remaining changes is at most four |
| OrderStatus.JoinAgreesWithMachine | services/oms/state_machine.py:19-71 | every legal run from New changes state at most four times and ends in the join of its states delivered in any order |
| FillReconciliation.DedupeFills | services/oms/fill_reconciliation.py:238-246 | the loop keeps the first fill of every id, in order |
| FillReconciliation.WeightedAveragePrice | services/oms/fill_reconciliation.py:253-262 | the loop returns notional over quantity, or nothing at or below EPSILON |
| FillReconciliation.Reconcile | services/oms/fill_reconciliation.py:87-157 | the loops, the fallback and the final status compute the reconciliation function that the lemmas below are about |
| FillReconciliation.RedeliveryChangesNothing | services/oms/fill_reconciliation.py:98-106 | appending an event already in the log changes no part of the outcome, with or without a snapshot |
| FillReconciliation.DedupeKeepsDistinct | services/oms/fill_reconciliation.py:238-246 | when equal ids carry equal fills, deduplication keeps every distinct unseen fill exactly once |
| FillReconciliation.DeliveryDoesNotMatter | services/oms/fill_reconciliation.py:98-140 | logs with the same events in any order and repetition reconcile alike in everything but the order of the listed fills, with or without a snapshot |
| FillReconciliation.KeptGrows | services/oms/fill_reconciliation.py:105-127 | the kept fills of a log are a prefix of those of every longer log |
| FillReconciliation.TrackedQuantity | services/workers/oms_lifecycle.py:119-144 | after every event of a fresh order's log the recorded quantity is the kept quantity, or zero while that is within EPSILON |
| FillReconciliation.FilledQuantityNeverDecreases | services/workers/oms_lifecycle.py:119-144 | over a growing log the filled quantity never decreases, and once it reaches the requested quantity the order is Filled for good |
| FillReconciliation.QuantityFallsExactly | services/oms/fill_reconciliation.py:121-127 | one reconciliation lowers the recorded quantity iff the log's fills exceed EPSILON and add up to less than the record |
| FillReconciliation.StatusFallsExactly | services/oms/fill_reconciliation.py:209-224 | one reconciliation lowers the status priority iff the order is terminal and the joined status is a Filled that the quantity contradicts |
| FillReconciliation.CanceledOrderReopened | services/oms/fill_reconciliation.py:216-222 | a concrete order, fresh at first, is Canceled by a cancel event and PartiallyFilled again by a Filled event that falls short |
| FillReconciliation.StatusNeverFalls | services/workers/oms_lifecycle.py:119-144 | when every Filled claim is backed by quantity, status priority never falls over a fresh order's whole log |
| FillReconciliation.FallbackExactly | services/oms/fill_reconciliation.py:181-206 | the exchange is consulted iff it is ahead in quantity by more than the gap or in a terminal state that outranks the queue's |
| FillReconciliation.SnapshotKeepsQueueFills | services/oms/fill_reconciliation.py:108-119 | a snapshot never removes or reorders the fills kept from the log |
| FillReconciliation.TerminalSnapshotIsHeard | services/oms/fill_reconciliation.py:108-140 | a terminal exchange status always enters the join, whether or not fallback is used |
| FillReconciliation.ReconcilingAgainConfirms | services/oms/fill_reconciliation.py:94-157 | a second reconciliation of the same log confirms the first and reports no change, iff the order is not an unbacked Filled whose log knows another terminal state |
| FillReconciliation.ReconcilingAgainCancels | services/oms/fill_reconciliation.py:209-224 | a concrete record given as Filled becomes PartiallyFilled and, with the same log once more, Canceled |
| FillReconciliation.WorkerRecordsAreSettled | services/workers/oms_lifecycle.py:119-144 | for every log of an order that started fresh, reconciling the log again changes no part of the record and reports no change |
| PortfolioSnapshot.FirstProblem | services/oms/portfolio_snapshot.py:52-66 | a snapshot is refused iff some position has another mode or is open without a mark, and the error names such a position |
| PortfolioSnapshot.BuildSnapshot | services/oms/portfolio_snapshot.py:29-86 | the loop returns the first problem, or the balances with summed unrealized and realized profit |
| PortfolioSnapshot.PnlIsMarkedValue | services/oms/portfolio_snapshot.py:52-73 | unrealized plus realized profit of settled positions is the sum of their marked values |
| OmsLifecycle.Worker.RunOnce | services/workers/oms_lifecycle.py:84-187 | handling one envelope changes the in-memory dictionaries exactly as the transition function says, also when it raises half way, and returns its outcome |
| OmsLifecycle.Worker.RecordOrderEvent | services/workers/oms_lifecycle.py:101-142 | the event is logged and the order record replaced by the reconciliation of its whole log |
| OmsLifecycle.Worker.RecordFill | services/workers/oms_lifecycle.py:146-168 | the fill is applied to its symbol's position and becomes its mark, or the engine's refusal leaves both alone |
| OmsLifecycle.RunReplaysPositions | services/workers/oms_lifecycle.py:146-168 | over every clean run a symbol's position is the engine's replay of that symbol's fills and its mark the last of their prices |
| OmsLifecycle.FlowsRegroup | services/workers/oms_lifecycle.py:173-187 | summing cash flows per symbol and along the stream is the same |
| OmsLifecycle.PnlTheorem | services/workers/oms_lifecycle.py:84-187 | over every single-mode run of bookable fills every effective envelope is handled and its snapshot builds; total profit is the cash flow of all fills at their symbols' last prices after fees, less dust, and exactly that without dust closes |
| OrderAndPositionViews.RunTracksOrders | services/workers/oms_lifecycle.py:102-142 | over every run, several modes and refused fills included, each order record is, up to symbol and mode, the reconciler's account of that order's own log |
| OrderAndPositionViews.WorkerOrdersProgress | services/workers/oms_lifecycle.py:102-142 | over every run an order's requested quantity is fixed, its filled quantity never decreases, a reached order is Filled for good, and with backed Filled claims its status never falls |
| OrderAndPositionViews.SeenIsDelivered | services/workers/oms_lifecycle.py:49-59 | the reconciler has seen a fill id iff a fill of that order and timestamp was delivered before |
| OrderAndPositionViews.ViewsDifferByRedeliveries | services/workers/oms_lifecycle.py:119-171 | over every clean run a symbol's position is the sum of the fills kept for all orders, each signed by the envelope that first delivered it, plus redelivered fills, less dust |
| OrderAndPositionViews.ViewsAgree | services/workers/oms_lifecycle.py:119-171 | with distinct timestamps per order the position is the signed sum of the fills the reconciler keeps, less dust |
| OrderAndPositionViews.NothingForgotten | services/oms/position_engine.py:85-90 | without dust closes that agreement is exact |
| OrderAndPositionViews.RedeliveryDoublesPosition | services/workers/oms_lifecycle.py:119-171 | a concrete fill delivered twice leaves an order record of one unit and a position of two |
| OrderAndPositionViews.RecordedViewsAgree | services/workers/oms_lifecycle.py:119-171 | when each order keeps one symbol and side, the position is the signed sum of the filled quantities in the order records, dust aside |
| RiskRules.BlockedBy | services/oms/risk_rules.py:159-162 | the blocking names are exactly those of failed checks, and none iff all pass |
| RiskRules.PositionLimitMeaning | services/oms/risk_rules.py:77-111 | the position limit does not block iff the projected quantity is within it |
| RiskRules.AllowedExactly | services/oms/risk_rules.py:77-169 | an order is allowed iff quantity, notional, exposure against equity, daily loss and drawdown are within every enabled limit |
| RiskRules.ExposureFollowsPosition | services/oms/risk_rules.py:86-94 | the projected exposure replaces exactly the current position's notional |
| RiskRules.SameSideReplay | services/oms/position_engine.py:63-90 | after any fills on one side the engine's quantity is exact or has lost at most EPSILON once |
| RiskRules.PositionStaysWithinLimit | services/oms/risk_rules.py:77-111 | an order that passes the limit from a position within it keeps the engine within the limit plus EPSILON after every prefix of any partial fills on its side of at most its quantity |
| ExecutionLifecycle.ResolutionExactly | services/workers/execution_lifecycle.py:512-542 | a snapshot goes to the first order with its exchange id if one is tracked, else to the first with its client id, else to the only order tracked for its exchange and symbol, if there is exactly one |
| ExecutionLifecycle.Retained | services/workers/execution_lifecycle.py:544-559 | eviction keeps exactly the orders that are open or, unless forced, marked within the retention time |
| ExecutionLifecycle.Worker.EvictTerminalOrders | services/workers/execution_lifecycle.py:544-559 | the loop leaves the retained orders |
| ExecutionLifecycle.Worker.TrackExecutionIntent | services/workers/execution_lifecycle.py:320-385 | an intent is refused, renews its order, or is added, evicting finished orders when full |
| ExecutionLifecycle.Worker.ApplySnapshot | services/workers/execution_lifecycle.py:418-510 | a snapshot updates the order it resolves to and publishes at most one event; true is returned iff one was published |
| ExecutionLifecycle.ResolutionIsStable | services/workers/execution_lifecycle.py:512-542 | a snapshot resolves to the same order after attaching its ids to it |
| ExecutionLifecycle.RepeatedSnapshot | services/workers/execution_lifecycle.py:418-452 | applying a snapshot twice in a row resolves to one order, publishes at most one event, and the second application changes nothing |
| ExecutionRuns.RunIsSound | services/workers/execution_lifecycle.py:348-385 | in every reachable state the capacity bound holds, keys are distinct and every finished order carries its finishing time |
| ExecutionRuns.OpenOrdersStayTracked | services/workers/execution_lifecycle.py:544-559 | no action makes an open order disappear |
| ExecutionRuns.RefusedOnlyWhenFull | services/workers/execution_lifecycle.py:361-364 | a valid new intent is refused only when every slot holds an open order that was tracked before |
| ExecutionRuns.BooksBalance | services/workers/execution_lifecycle.py:428-494 | for every tracked order of every run published fees add up to the reported fee, fill events to the reported fill plus backfills minus absorbed growth, and events are numbered consecutively |
| ExecutionRuns.BooksArePublished | services/workers/execution_lifecycle.py:458-489 | the events in an order's book are the latest ones published under its key |
| ExecutionRuns.ReportsNeverDecrease | services/workers/execution_lifecycle.py:429-437 | reported fill and fee totals never decrease while an order stays tracked |
| ExecutionRuns.EventReportsGrowthExactly | services/workers/execution_lifecycle.py:444-456 | an event reports exactly the growth of the cumulative fill iff its status is a fill exactly when there is growth |
| ExecutionRuns.BareFilledIsPublishedTwice | services/workers/execution_lifecycle.py:448-452 | in every run of an intent for one unit, a bare Filled snapshot and one with the total, two units of fill events are published |
| OrderBook.SyncEngine.LoadSnapshot | services/market_ingestion/order_book_sync.py:35-40 | a snapshot in scope replaces book and sequence, keeping only positive amounts; out of scope nothing changes |
| OrderBook.SyncEngine.LoadLevels | services/market_ingestion/order_book_sync.py:37-38 | the last positive amount given for a price is loaded, other rows are skipped |
| OrderBook.SyncEngine.ApplyDelta | services/market_ingestion/order_book_sync.py:42-65 | a delta is refused, skipped, reported as a gap or applied as the transition function says |
| OrderBook.SyncEngine.ApplySideUpdates | services/market_ingestion/order_book_sync.py:82-88 | the loop applies absolute updates in order |
| OrderBook.SyncEngine.MaterializeSide | services/market_ingestion/order_book_sync.py:67-69 | the listed levels are the book's best, best first, as many as the depth allows |
| OrderBook.ListingLoadsBack | services/market_ingestion/order_book_sync.py:35-40 | loading a full-depth listing restores the book |
| OrderBook.DeltasKeepPositive | services/market_ingestion/order_book_sync.py:82-88 | one delta, whatever it says, keeps every stored amount positive |
| OrderBook.UpdateAllEffect | services/market_ingestion/order_book_sync.py:82-88 | after a list of updates a price holds the last positive amount given for it, nothing if that was not positive, and is untouched otherwise |
| OrderBook.ParseLevels | services/market_ingestion/contracts.py:34-54 | parsing keeps the admissible rows, sorted best first and stable, so the net effect per price is that of the rows |
| OrderBook.OracleAgreesWithReplica | services/market_ingestion/gap_detection.py:18-63 | the gap oracle accepts, ignores or asks to resync exactly when the replica applies, skips or reports a gap of that size |
| BookStream.OverlapIsHarmless | services/market_ingestion/order_book_sync.py:82-88 | re-applying absolute updates that overlap what a side contains changes only what is new |
| BookStream.AnyDeliveryStaysOnStream | services/market_ingestion/order_book_sync.py:42-65 | fed any deltas of a stream in any order, repeated, overlapping or with gaps, the replica holds the stream's book at its sequence number, which never moves back |
| BookStream.ReplicaConverges | services/market_ingestion/order_book_sync.py:42-65 | fed the stream in order from any starting point, no delta is an error, exactly the stale ones are skipped, and the replica ends at the stream's last book |
| BookStream.ReplayFromAnywhere | services/market_ingestion/order_book_sync.py:35-65 | loading the book at any sequence number and then the whole stream ends as replaying the stream from the start |
| BookStream.ReplicaStaysPositive | services/market_ingestion/order_book_sync.py:35-88 | from any loaded snapshot and through any deltas at all every stored amount is positive |
| KlineValidator.Validate | services/market_ingestion/kline_validator.py:28-67 | the loops compute the validation function, or nothing when they divide by zero |
| KlineValidator.CheckOrder | services/market_ingestion/kline_validator.py:35-38 | one error iff some open time is not after the one before |
| KlineValidator.CheckBars | services/market_ingestion/kline_validator.py:40-46 | the price and volume errors of every bar, in order |
| KlineValidator.FindGaps | services/market_ingestion/kline_validator.py:49-60 | the mismatches and missing times between neighbouring sorted bars, or nothing when a zero interval meets a gap |
| KlineValidator.RaisesExactly | services/market_ingestion/kline_validator.py:48-56 | validation raises iff the interval is zero and two bars have different open times |
| KlineValidator.GapsAreAbsentTimes | services/market_ingestion/kline_validator.py:49-60 | on sorted bars of one grid the gaps found are exactly the absent grid points, increasing |
| KlineValidator.MissingTimesAreExact | services/market_ingestion/kline_validator.py:48-60 | for bars in any order on one grid the missing times are the increasing list of exactly the grid points between the earliest and latest bar that no bar has |
| KlineValidator.ValidExactly | services/market_ingestion/kline_validator.py:35-62 | a list is valid iff its times are consecutive as given and every bar is consistent in price and volume |
| RateLimiter.Limiter.IsAllowed | services/api/rate_limiter.py:39-68 | one call cleans up, expires and decides as the transition function says |
| RateLimiter.Limiter.CleanUp | services/api/rate_limiter.py:44-48 | cleanup removes exactly the stale buckets |
| RateLimiter.PoppingIsFiltering | services/api/rate_limiter.py:59-61 | on timestamps in order, popping from the front leaves exactly those at or after the cutoff |
| RateLimiter.CleanupKeepsWindows | services/api/rate_limiter.py:43-48 | cleanup changes no key's in-window timestamps |
| RateLimiter.LimiterRefinesLog | services/api/rate_limiter.py:39-68 | over every run each bucket agrees with the log of accepted requests on the whole window |
| RateLimiter.AdmittedExactly | services/api/rate_limiter.py:50-68 | unless the bucket cap refuses it a request is admitted iff fewer than the maximum accepted requests of its key lie in the window ending now |
| RateLimiter.NoWindowOverflows | services/api/rate_limiter.py:59-68 | no window, wherever it ends, holds more than the maximum of accepted requests of a key |
| RateLimiter.BucketsStayCapped | services/api/rate_limiter.py:50-57 | the number of buckets never exceeds the cap |
| PolicyRouter.Router.Route | services/notification_service/policy_router.py:37-85 | the nested loops make one attempt per gateway of every matching preference, in order, and return the messages sent |
| PolicyRouter.Router.Offer | services/notification_service/policy_router.py:50-62 | one attempt is suppressed as duplicate, suppressed by rate, or recorded and sent |
| PolicyRouter.Router.ConsumeRateBudget | services/notification_service/policy_router.py:90-98 | entries older than a minute are dropped, and the budget is granted and recorded iff fewer than the limit remain |
| RouterRuns.MessagesAreSent | services/notification_service/policy_router.py:62-85 | the messages returned by a list of attempts are those of the log of sent attempts, in order |
| RouterRuns.CallsAreAttempts | services/notification_service/policy_router.py:37-85 | successive route calls end in the state, and return one after another the messages, of one run over all their attempts |
| RouterRuns.EveryAttemptIsCounted | services/notification_service/policy_router.py:49-83 | every attempt is sent, suppressed as duplicate or suppressed by rate, and the counters add up |
| RouterRuns.RateListsAreTheLog | services/notification_service/policy_router.py:90-98 | over every run the rate lists agree with the log of sent messages on the last minute |
| RouterRuns.DedupeMapIsLatest | services/notification_service/policy_router.py:50-62 | over every run the dedupe map holds, for every key, the time of the latest message sent under it |
| RouterRuns.OutcomeExactly | services/notification_service/policy_router.py:50-62 | an attempt is a duplicate iff its key was sent less than the window ago, rate-suppressed iff otherwise a full budget was sent in the last minute, and sent otherwise |
| RouterRuns.RepeatsAreSpaced | services/notification_service/policy_router.py:50-62 | messages with one user, gateway and idempotency key are at least the dedupe window apart |
| RouterRuns.NoMinuteOverflows | services/notification_service/policy_router.py:90-98 | no minute, wherever it ends, sees more than the limit sent to one user and gateway |
| RouterRuns.RoutingRunTheorem | services/notification_service/policy_router.py:37-98 | for every run of route calls the messages returned are those of the sent log, in order, and all three guarantees hold of it |
| RiskControls.ControlPlane.EnableKillSwitch | services/oms/risk_controls.py:54-67 | enabling sets the switch with one event, and does nothing when it is on |
| RiskControls.ControlPlane.DisableKillSwitch | services/oms/risk_controls.py:69-82 | disabling clears the switch with one event, and does nothing when it is off |
| RiskControls.ControlPlane.RecordSuccess | services/oms/risk_controls.py:100-101 | a success clears the failure count and nothing else |
| RiskControls.ControlPlane.AutoResetIfExpired | services/oms/risk_controls.py:185-201 | an expired breaker is cleared with one event, and nothing else changes |
| RiskControls.ControlPlane.TakeSnapshot | services/oms/risk_controls.py:160-173 | the snapshot resets an expired breaker and reports switch, breaker, failures and deadline |
| RiskControls.ControlPlane.RecordFailure | services/oms/risk_controls.py:84-98 | a failure is counted and logged, and trips the breaker at the threshold |
| RiskControls.ControlPlane.TripCircuitBreaker | services/oms/risk_controls.py:103-130 | tripping sets and logs the deadline, or is refused for a negative cooldown |
| RiskControls.ControlPlane.ResetCircuitBreaker | services/oms/risk_controls.py:132-146 | resetting clears deadline and failures with one event, and does nothing when there is nothing to clear |
| RiskControls.ControlPlane.EvaluateOrderAllowed | services/oms/risk_controls.py:148-158 | evaluation resets an expired breaker and names what blocks |
| RiskControls.ControlPlane.DrainEvents | services/oms/risk_controls.py:175-178 | draining returns the pending events and clears them |
| RiskControls.HistoryTellsState | services/oms/risk_controls.py:54-201 | over every run of control calls, reading all drained and pending events yields the kill switch and the breaker deadline, and enables and disables alternate |
| RiskControls.NeighbouringSwitchesDiffer | services/oms/risk_controls.py:54-82 | neighbouring kill-switch events in such a log are one enable and one disable |
| RiskControls.AllowedByTheLog | services/oms/risk_controls.py:148-158 | an order is allowed at a time iff the log's switch is off and its deadline is not later |
| RiskControls.ThresholdTrips | services/oms/risk_controls.py:84-98 | in every run, after the failure that reaches the threshold and any calls that neither reset the breaker nor set an earlier deadline, no order is allowed before the cooldown is over |
| MemoryValues.NormalizeIsIdempotent | services/agent_orchestrator/memory_layer.py:215-231 | normalizing nested values twice is normalizing once, and so is ensuring a mapping |
| MemoryValues.NormalizeIsPlain | services/agent_orchestrator/memory_layer.py:222-231 | a normalized value has only scalars, lists and dictionaries with distinct string keys |
| MemoryValues.PlainIsFixed | services/agent_orchestrator/memory_layer.py:222-231 | a value already in that form is left alone |
| MemoryValues.AsDictFirst | services/agent_orchestrator/memory_layer.py:223-224 | converting dataclasses up front gives the same normal form |
| DecisionMemory.TtlStore.WriteSlot | services/agent_orchestrator/sqlalchemy_memory_store.py:23-35 | a slot is replaced and lives for the given time, at least a second |
| DecisionMemory.TtlStore.ReadSlots | services/agent_orchestrator/sqlalchemy_memory_store.py:37-57 | reading removes exactly the expired slots and returns the scope's remaining ones |
| DecisionMemory.MemoryLayer.ReadDecisionMemory | services/agent_orchestrator/memory_layer.py:99-146 | reading answers from the cache, or refills it from the archive, or finds nothing |
| DecisionMemory.MemoryLayer.PersistDecisionSummary | services/agent_orchestrator/memory_layer.py:166-208 | concluding archives the normalized summary and caches it |
| DecisionMemory.MemoryLayer.WriteDecisionSlot | services/agent_orchestrator/memory_layer.py:148-164 | a slot is cached as a normalized mapping |
| DecisionMemory.SummarySurvivesExpiry | services/agent_orchestrator/memory_layer.py:99-146 | once a decision is concluded, and until its scope is written or it is concluded again, every read returns the persisted summary whatever has expired |
| DecisionMemory.SummaryReadExactly | services/agent_orchestrator/memory_layer.py:99-146 | with the decision archived, a read returns a summary slot iff the cached summary is unexpired or every slot of the scope is expired |
| DecisionMemory.SummaryMissedExactly | services/agent_orchestrator/memory_layer.py:99-208 | over every run, whatever is written beside the summary, a later read misses it iff some such write is still alive when the summary, counted from its last caching, is not; otherwise it returns the persisted summary |
| DecisionMemory.LaterSlotHidesSummary | services/agent_orchestrator/memory_layer.py:106-119 | a concrete run with a later slot makes a read answer without the summary |

## Left out

- HTTP, exchange, chat, mail and queue adapters, SQL stores, migrations, task workers and the Go entry point: input and output.
- The Redis limiter: it depends on an external server.
- Authentication, settings, prompts, agents, metrics and logging: wrappers and single branches.
- String trimming and case folding, unknown order-state words, UUIDs, ISO timestamps and message digests: identifiers and states enter the model normalized.
- Decimal rounding, float error, NaN and infinite inputs: reals throughout; infinite leverage is a value of its own.
- Several workers at once: every call is one atomic step. Tracked orders are values in the tracker's list, so aliasing of a returned order object is not modelled.
- The poll scheduling of the live-order tracker: it decides when snapshots are fetched, not what they do.
- OmsLifecycle.PnlTheorem: single-mode runs, because in-memory positions are keyed by symbol only and a second mode makes the services raise; fills are BUY or SELL above EPSILON, because the position engine refuses others.
- OrderAndPositionViews.ViewsAgree: likewise for single-mode runs of bookable fills.
- OrderAndPositionViews.RecordedViewsAgree: additionally every order keeps one symbol and one side, since an order record carries no side and only the latest symbol.
- DecisionMemory.SummaryMissedExactly: for a clock that does not go back, and until the decision is concluded again or its summary slot is overwritten by hand, when there is another summary to return.
- RateLimiter.LimiterRefinesLog: for a clock that does not go back.
- RouterRuns.RoutingRunTheorem: for a clock that does not go back and fixed preferences.
- KlineValidator.MissingTimesAreExact: for positive intervals, on which alone a grid makes sense.
- KlineValidator.ValidExactly: likewise for positive intervals.
- RateLimiter.Limiter.IsAllowed: a limit that is not positive, which makes the service read an empty queue, and a zero cleanup interval are excluded.
