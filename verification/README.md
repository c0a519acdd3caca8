# Models of a trading terminal

Dafny models of the stateful parts of the terminal, and proofs of what they promise over whole runs. Each component is a `...Model.dfy`
with its state and steps as values, files of lemmas over those steps and over runs of any length, and a class with the fields and methods
of the program, whose methods are proved against the steps. What a step computes is also said without its functions, in terms of fields
and of what happened before, in the files `...Meaning`, `...Checks`, `...Keys`, `...Quotes`, `...Sizes` and `...Endings`. `dafny verify dfyconfig.toml` checks everything.

| files | component |
|---|---|
| `Executor*.dfy` | the continuous quoting engine: reservations, pricing, request windows |
| `Event*.dfy`, `ByteLines.dfy` | event envelopes, per-stream logs and their fold by entity; byte logs and lines |
| `Outbox*.dfy`, `Adapter.dfy` | the log reader and the transactional outbox |
| `Store*.dfy` | the client's stream store |
| `Pipeline*.dfy` | log, adapter, channel and client as one system |
| `Operations*.dfy` | durable operations of supervisor and worker |
| `Runs*.dfy` | which runs may start |
| `Curve*.dfy` | the equity-curve reader and its bounded summary |
| `Inference*.dfy` | the inference queue |
| `Flatten*.dfy` | operator controls and the flatten task |
| `Releases*.dfy` | model publication |
| `Device*.dfy` | signed requests and refresh tokens |

What is taken from outside:

- Decimal amounts are exact reals. Clocks, random identifiers, engine reports and file contents are parameters of the steps.
- Venue (`ExecutorBooks.VenueFill`): a fill of an open order is on its side, no worse than its limit, no more than what remains, and its
  commission is at most the maker rate; a closed status appears only after the order's fills. Weights are nonnegative, as the worker
  checks when it loads them.
- Channel (`Pipeline.Channel`): any staged event whose publication was tried may arrive at any time, any number of times or never.
  Watermarks are of a prefix of the staged log, and a snapshot row is the latest event of its entity there; rows may be missing.
- Log files only grow, and a file keeps its device and inode. A parsed line is a function of its bytes.
- Socket (`OperationsModel.System`): commands and answers may be lost, late or repeated. Other clients of a worker's socket do not use
  identifiers of the supervisor. Transactions on the two journals do not fail.
- Runs (`RunsModel.Enabled`): a process lookup is exact, a spawn ends within 30 seconds of its row, creation times are distinct, and a
  status check is one step. The clock may otherwise be set forward and back. A start is not one step: other checks, exits and controls
  may fall between its checks.
- A model call raises or returns one value per request (`InferenceProofs.IsRun`); what happens otherwise is said below. Answers are sent
  without raising.
- Hashing is injective, and signatures are a predicate of key, message and signature.

Where the code falls short of what its structure suggests, a lemma gives the exact condition, and another an input:

- A buy price that rounds to zero ends the quoting cycle: `ExecutorPricing.IntentsRaisesBelowOneTick` and `ExecutorRaises.DriveRaisesIff`,
  with `ExecutorRaises.CycleCanRaise`.
- Events that arrive during a snapshot are delivered again after it: `Pipeline.CriticalEventsExactlyOnceIff`, with
  `PipelineRewind.CriticalEventTwice`.
- A completed receipt is overwritten while its execution still waits: `OperationsProofs.CompletedIsPermanentIff`, with
  `OperationsProofs.CompletedCanBeLost`.
- A process born but not yet recorded is forgotten by a crash, and also when recording its pid raises, since `launch` then marks the run
  as failed and leaves the process: `RunsLosses.StepIsSafeIff`, with `RunsLosses.TwoProcessesAfterLoss`.
- A clock set back over 20 starts of a group hides a run from the checks of the next start: `RunsLosses.StepIsSafeIff`, with
  `RunsClock.TwoProcessesAfterClock`.
- A flatten that raises while strategies stop or orders are cancelled leaves the run reducing without a task:
  `FlattenProofs.ApplyKeeps`.
- A model that gives fewer or more values than there were requests: `InferenceProofs.ReturnOnceIff`, with
  `InferenceProofs.OneValueForTwo`. The shipped `predict_batch` (apps/web/engine/model_release.py:275-302) returns one value per row of
  the model's output, so that they match is a contract of the model and nothing checks it before values are told.

## Model

| member | source | states |
|---|---|---|
| ExecutorRuns.RunIsSafe | apps/web/engine/alpha_execution.py:44-187 | over every run of cycles, quotes, acknowledgements, partial fills, rejections, denials, exceptions and metrics: BUY reservations cost at most the cash, each SELL reservation with its fee is at most the position, nothing is negative, at most one open order per instrument and side, every open order is inside the bound it was priced for, every request window is inside its limit, every order sent was admissible |
| ExecutorRuns.AdvanceFixesBounds | apps/web/engine/alpha_execution.py:106-132 | the inventory bound recorded for an order at submission is never rewritten, so the band holds for the whole life of the order |
| ExecutorRuns.AdvanceKeeps | apps/web/engine/alpha_execution.py:31-90 | each single step keeps books, band, rate windows and admissibility, given only what the venue promises about fills and a clock that does not go back |
| ExecutorRuns.DriveKeeps | apps/web/engine/alpha_execution.py:134-187 | a whole cycle over all instruments and both sides keeps them, also when an exception cuts it short |
| ExecutorRuns.SideStepKeeps | apps/web/engine/alpha_execution.py:157-185 | one turn of the inner loop keeps them, whether it cancels, resizes, submits or skips |
| ExecutorRuns.SubmissionKeeps | apps/web/engine/alpha_execution.py:176-185 | a submission keeps them whether the venue takes it, denies it on the spot or raises |
| ExecutorRuns.AffordableFits | apps/web/engine/alpha_execution.py:169-172 | resizing a BUY to free cash keeps lot, tick, cap and band, and makes the sum of reservations with the new order affordable |
| ExecutorRuns.CancelKeeps | apps/web/engine/alpha_execution.py:97-104 | a cancel request keeps the books and the cancel window |
| ExecutorRuns.InitialHolds | apps/web/engine/alpha_execution.py:18-29 | the starting state satisfies the invariant for any nonnegative allocation |
| ExecutorBooks.InvariantMeansSolvent | apps/web/engine/alpha_execution.py:44-87 | the book invariant implies solvency and uniqueness of the open order per place |
| ExecutorBooks.FillKeepsBook | apps/web/engine/alpha_execution.py:44-55 | a partial or full fill on either side, with its commission in either currency, keeps reservations covered and both sides in their bands |
| ExecutorBooks.RefreshKeepsBook | apps/web/engine/alpha_execution.py:73-78 | forgetting every order with a closed status keeps pending and reservations mutually inverse |
| ExecutorBooks.ReleaseKeepsBook | apps/web/engine/alpha_execution.py:63-68 | a rejection or failed submission releases exactly its own place and keeps the book |
| ExecutorBooks.ReserveKeepsBook | apps/web/engine/alpha_execution.py:176-178 | a new reservation on a free place that the free cash or inventory covers keeps the book |
| ExecutorBooks.ReservedTakesAny | apps/web/engine/alpha_execution.py:80-82 | the reserved sum does not depend on the order in which reservations are visited |
| ExecutorPricing.IntentsAreAdmissible | apps/web/engine/alpha_execution.py:106-132 | every wanted quote is whole lots of at least the minimum, on a tick, no better than bid or ask, within the notional cap and inside the band; a reducing run never buys |
| ExecutorQuotes.IntentsMean | apps/web/engine/alpha_execution.py:106-132 | the target is the most whole lots whose worth at the middle price is within weight times net value; the band lies so many minimum sizes with the fee to either side of it, cut at zero; each side is quoted at the best tick that best price, fee and half edge allow, in the greatest size that minimum, quote size, band, fee and notional cap allow, and is missing only when there is none |
| ExecutorMeaning.InstrumentAims | apps/web/engine/alpha_execution.py:106-109 | a turn sets the target of a quotable instrument to that number of lots, and of no other |
| ExecutorMeaning.WantedMeans | apps/web/engine/alpha_execution.py:147-155 | an instrument is priced exactly when its quote is at most five seconds old, not from the future, positive and not crossed, and no backoff runs |
| ExecutorMeaning.SideSends | apps/web/engine/alpha_execution.py:166-185 | an order goes out exactly when its place is free, a quote is wanted and allowed, and at least the minimum remains; a purchase is the greatest number of lots that free cash pays for with its fee |
| ExecutorMeaning.SalesComeFirst | apps/web/engine/alpha_execution.py:157-185 | a turn sends at most one sale and after it at most one purchase, and none for an instrument that is not quotable |
| ExecutorMeaning.StaleIff | apps/web/engine/alpha_execution.py:160-164 | an open quote is given up exactly when none is wanted, it has expired, it is too large, or the price has moved by the threshold |
| ExecutorMeaning.CancelIff | apps/web/engine/alpha_execution.py:97-104 | a cancel is sent and recorded exactly when none was before, the window has room and the venue knows the order |
| ExecutorMeaning.OpenSideCancels | apps/web/engine/alpha_execution.py:159-165 | a side with an open quote sends nothing and cancels it exactly when it is stale |
| ExecutorMeaning.DrivenMoves | apps/web/engine/alpha_execution.py:134-138 | a cycle runs exactly when the interval is over, and moves the cursor on by one |
| ExecutorMeaning.RefreshMeans | apps/web/engine/alpha_execution.py:73-78 | exactly the orders whose status is unknown or open are kept |
| ExecutorMeaning.NavMeans | apps/web/engine/alpha_execution.py:139-144 | the net value of a cycle is the cash and each position at the middle of its quote, or of the snapshot without one |
| ExecutorMeaning.EachLeadsOnce | apps/web/engine/alpha_execution.py:138-138 | of as many due cycles in a row as there are instruments, each instrument leads exactly one |
| ExecutorMeaning.MoneyIsConserved | apps/web/engine/alpha_execution.py:44-55 | in every run cash and positions are what they were at first and what the fills have moved, commissions in either currency included |
| ExecutorPricing.IntentsRaisesBelowOneTick | apps/web/engine/alpha_execution.py:117-128 | pricing raises a division by zero exactly when the passive buy price it wants is nonnegative and below one tick; the test of the price comes after the division |
| ExecutorRaises.DriveRaisesIff | apps/web/engine/alpha_execution.py:134-187 | while the venue takes submissions, a cycle raises exactly when it is due and some instrument with a fresh valid quote and no backoff cannot be priced at its opening |
| ExecutorRaises.RaisingCycleSkipsTheRest | apps/web/engine/alpha_execution.py:145-187 | a cycle that raises, for whatever reason, passes the instruments before one that raises, and every instrument after that one in the rotation gets no order, cancel, target or reason |
| ExecutorRaises.CycleCanRaise | apps/web/engine/alpha_execution.py:117-128 | a valid configuration and quote with which a whole cycle raises |
| ExecutorPricing.FloorBounds | apps/web/engine/alpha_execution.py:13-14 | rounding down gives the multiple of the quantum within one quantum below the value |
| ExecutorPricing.CeilingBounds | apps/web/engine/alpha_execution.py:13-14 | rounding up gives the multiple within one quantum above the value |
| ExecutorRates.InvariantMeansRates | apps/web/engine/alpha_execution.py:84-95 | against the log of every request ever made: any one-second window holds at most the limit per kind, any two-second window at most 60 per instrument and kind |
| ExecutorRates.AllowedMeansRoom | apps/web/engine/alpha_execution.py:84-91 | on pruned deques, a request is allowed if and only if the full log still has room in both windows |
| ExecutorRates.RecordKeepsMeter | apps/web/engine/alpha_execution.py:93-95 | recording an allowed request keeps both windows |
| ExecutorRates.MetricsKeepMeter | apps/web/engine/alpha_execution.py:189-197 | pruning by metrics loses nothing that either window needs |
| Executor.ContinuousExecutor.constructor | apps/web/engine/alpha_execution.py:18-29 | builds the starting state |
| Executor.ContinuousExecutor.OnQuote | apps/web/engine/alpha_execution.py:31-35 | replaces the quote of a known instrument only |
| Executor.ContinuousExecutor.OnAccepted | apps/web/engine/alpha_execution.py:37-42 | marks the reservation acknowledged and nothing else |
| Executor.ContinuousExecutor.OnFilled | apps/web/engine/alpha_execution.py:44-55 | new positions, cash and remaining quantity after a fill and its commission; a fill the venue may report keeps the book invariant |
| Executor.ContinuousExecutor.OnRejected | apps/web/engine/alpha_execution.py:63-68 | releases the place, sets the one-second backoff and keeps the book invariant |
| Executor.ContinuousExecutor.RefreshPending | apps/web/engine/alpha_execution.py:73-78 | the loop removes exactly the reservations whose status is closed, in both maps |
| Executor.ContinuousExecutor.ReservedCash | apps/web/engine/alpha_execution.py:80-82 | the loop returns the sum over all BUY reservations |
| Executor.ContinuousExecutor.Allowed | apps/web/engine/alpha_execution.py:84-91 | prunes both deques and gives the verdict |
| Executor.ContinuousExecutor.RecordRequest | apps/web/engine/alpha_execution.py:93-95 | appends to both deques |
| Executor.ContinuousExecutor.CancelSlot | apps/web/engine/alpha_execution.py:97-104 | which branches cancel, and that only a sent cancel is recorded |
| Executor.ContinuousExecutor.SubmitOrder | apps/web/engine/alpha_execution.py:173-185 | reserve, submit, record; an exception gives the reservation back and propagates |
| Executor.ContinuousExecutor.QuoteSide | apps/web/engine/alpha_execution.py:158-185 | the inner loop body against its step |
| Executor.ContinuousExecutor.QuoteInstrument | apps/web/engine/alpha_execution.py:147-187 | the outer loop body against its step, SELL before BUY; a quotable instrument gets the target that its weight and net value call for |
| Executor.ContinuousExecutor.DriveCycle | apps/web/engine/alpha_execution.py:134-187 | the whole cycle: interval test, refresh, rotation of the starting instrument, valuation, both loops; it keeps books, bands, rate windows and admissibility |
| Executor.ContinuousExecutor.MetricsDue | apps/web/engine/alpha_execution.py:189-197 | prunes every deque at most once a second |
| Events.LatestMeans | packages/sdk-ts/src/streamStore.ts:103-106 | the fold by entity holds exactly the entities with an event up to the positions, each with its last such event |
| EventKeys.KeysAreEntities | packages/sdk-ts/src/streamStore.ts:120-135 | two events share a key exactly when they are of one stream and describe one quote, book or position of an instrument, one client order, route, fill, alert or receipt, one P&L of a run and instrument, one run state, or are one event |
| EventKeys.LatestShowsLast | packages/sdk-ts/src/streamStore.ts:97-106 | the fold shows exactly the last covered event of every such entity, and no entity twice |
| EventKeys.PayloadOfType | adapters/nautilus/src/lib.rs:158-363 | which payload each event type has, and which identifier it takes from the record |
| Events.LatestAdvances | packages/sdk-ts/src/streamStore.ts:97-106 | moving one stream on by its next event changes exactly that entity of the fold |
| Events.LatestIgnoresLater | packages/sdk-ts/src/streamStore.ts:90-106 | events beyond the positions do not change the fold |
| Events.SequenceIsUnique | adapters/nautilus/src/lib.rs:41-53 | no number of a stream is given twice |
| Events.CountReached | adapters/nautilus/src/lib.rs:41-53 | no number of a stream is skipped |
| Events.MarketByKey | packages/sdk-ts/src/streamStore.ts:98-106 | an event has a market type exactly when its key is a market key |
| ByteLines.LinesAppend | adapters/nautilus/src/main.rs:123-149 | reading one more line after a line boundary adds exactly that line to the complete lines |
| ByteLines.ChunkAppend | apps/web/server/group_views.py:332-350 | a chunk read under a limit extends the unfinished line or finishes it |
| OutboxProofs.StageOneKeepsTables | adapters/nautilus/src/outbox.rs:104-122 | staging a record keeps keys rising, event identifiers distinct, numbering without gaps and every row equal to its staging |
| OutboxProofs.StageOneKeepsLog | adapters/nautilus/src/outbox.rs:104-122 | staging the next line keeps the history equal to the complete lines up to the offset |
| OutboxProofs.StageAllKeepsLog | adapters/nautilus/src/outbox.rs:87-129 | a committed batch leaves the offset at its end and the history equal to the lines up to there |
| OutboxProofs.StageAllKeepsOthers | adapters/nautilus/src/outbox.rs:87-129 | staging for one source leaves the offset and history of every other alone |
| OutboxProofs.AcknowledgeKeepsTables | adapters/nautilus/src/outbox.rs:151-161 | acknowledging deletes rows one by one and keeps every other staging waiting unchanged |
| OutboxMeaning.MapEventMeans | adapters/nautilus/src/lib.rs:89-154 | a record maps exactly when it has a positive time, a supported type, no number or the next one, and a payload that maps; the envelope takes stream, run, instrument, identifier, times and payload from it or their defaults; and which error comes first |
| OutboxMeaning.ReadLineMeans | adapters/nautilus/src/main.rs:139-147 | a line is its parsed record, for the run of the adapter where it names none |
| OutboxMeaning.StageOneMeans | adapters/nautilus/src/outbox.rs:104-122 | a record is staged exactly when it ends beyond the offset, maps, and no waiting row has its identifier; it becomes the last row under the next key |
| OutboxMeaning.PendingMeans | adapters/nautilus/src/outbox.rs:131-149 | the pending rows are those of the source with the lowest keys, in their order, at most 256 |
| OutboxClass.Checkpoint.NextSequence | adapters/nautilus/src/lib.rs:41-53 | accepts exactly the next number or none supplied, and changes only that stream |
| OutboxClass.MapEvent | adapters/nautilus/src/lib.rs:89-154 | the error cases in order, and the envelope with its defaults |
| OutboxClass.Outbox.Open | adapters/nautilus/src/outbox.rs:25-59 | a new source starts at offset 0; everything else is as it was stored |
| OutboxClass.Outbox.BindFile | adapters/nautilus/src/outbox.rs:69-85 | succeeds if and only if the source is unbound or bound to this file |
| OutboxClass.Outbox.Stage | adapters/nautilus/src/outbox.rs:87-129 | the loop commits the whole batch or, on any error, changes nothing |
| OutboxClass.Outbox.Pending | adapters/nautilus/src/outbox.rs:131-149 | the first rows of the source in key order, at most 256 |
| OutboxClass.Outbox.Acknowledge | adapters/nautilus/src/outbox.rs:151-161 | the loop deletes the named rows of this source only |
| Adapter.Adapter.ReadBatch | adapters/nautilus/src/main.rs:119-150 | under the 256-record, 1 MiB and partial-line rules, while the log grows: the batch is the next complete lines, the reader stands at their end, and a batch short of both limits means no complete line was left; it stops only when, after complete lines from the offset on, the very next line is over-long or does not parse |
| Adapter.Adapter.Publish | adapters/nautilus/src/main.rs:71-112 | the tries end at the first failed publication or with the last row, and the identifiers returned are those of the rows that were published and acknowledged by the bus, in order |
| Adapter.Adapter.ReadAndStage | adapters/nautilus/src/main.rs:119-155 | staging commits exactly the batch that was read; the adapter stops, with the tables unchanged, only at a line it cannot take or when the batch it had read is refused |
| Adapter.Adapter.Turn | adapters/nautilus/src/main.rs:68-156 | at every loop head the reader stands at the durable offset, and the history is the lines up to it; a drain deletes exactly the acknowledged rows, and a stop has one of the two causes |
| Pipeline.ClientShowsTheLog | packages/sdk-ts/src/streamStore.ts:37-118 | end to end, in every run with crashes and a channel that drops, repeats and reorders: the client view is a submap of the latest-by-entity fold of the staged log at its positions, and equal to it until an eviction or a partial snapshot |
| Pipeline.ClientShowsEntities | packages/sdk-ts/src/streamStore.ts:37-118 | the same said of entities: whatever the client shows is the last staged event of its entity up to the positions, no entity is shown twice, and while the view is complete every one is shown |
| Pipeline.StagingIsExact | adapters/nautilus/src/outbox.rs:87-129 | in every run, drains interrupted before the deletion included: the stagings of a source are the complete lines of its log up to the offset once each, numbered from 1 per stream; each one waits unchanged or was acknowledged by the bus, only acknowledged ones are ever deleted, and only tried ones acknowledged; the reader stands at the offset |
| Pipeline.StagingsAreFixed | adapters/nautilus/src/outbox.rs:87-129 | what is staged keeps its identifier and content through every later crash and restart |
| Pipeline.StagingsTellTheirRecords | adapters/nautilus/src/lib.rs:89-154 | in every run each staged envelope takes its fields from the record it was staged for |
| Pipeline.CriticalEventsExactlyOnce | packages/sdk-ts/src/streamStore.ts:90-107 | while every finished snapshot passes over no critical event, the listeners of each stream get exactly the critical events of its log up to the position, in order |
| Pipeline.CriticalEventsExactlyOnceIff | packages/sdk-ts/src/streamStore.ts:61-107 | a run delivers every critical event exactly once at all times if and only if each of its finished snapshots passes over no critical event |
| Pipeline.TurnIsAMove | adapters/nautilus/src/main.rs:68-156 | a turn of the adapter loop, as its method guarantees it, is a move of the whole system: a living turn is a drain or a fill, with exactly the tried publications counted as sent, and a turn that stops the adapter is a crash that changes no table |
| Pipeline.DrainDeletesAcknowledged | adapters/nautilus/src/main.rs:69-117 | a drain deletes exactly the tried rows whose publication the bus acknowledged |
| StoreProofs.StepKeeps | packages/sdk-ts/src/streamStore.ts:28-118 | every message, flush, disconnect and connect keeps the view a submap of the fold at the positions, equal while complete |
| StoreProofs.AcceptKeeps | packages/sdk-ts/src/streamStore.ts:90-108 | an authentic event, in order or not, keeps it, including the eviction above 20 000 entities |
| StoreProofs.StagedRowsKeep | packages/sdk-ts/src/streamStore.ts:53-58 | staged snapshot rows stay a submap of the fold at the snapshot watermarks, also when a row throws |
| StoreProofs.InstallKeeps | packages/sdk-ts/src/streamStore.ts:61-67 | a finished snapshot leaves a view that is a submap of the fold at its own watermarks, and equal to it when its rows cover every entity |
| StoreProofs.GrowthKeeps | packages/sdk-ts/src/streamStore.ts:90-108 | the log growing behind the store does not disturb the view |
| StoreProofs.PouringKeepsOverlay | packages/sdk-ts/src/streamStore.ts:28-33 | pouring pending quotes into the working map leaves the overlay as it was |
| StoreMeaning.AcceptMeans | packages/sdk-ts/src/streamStore.ts:90-107 | which events are thrown, ignored, missed or taken, and everything that each of these changes |
| StoreMeaning.TakenMeans | packages/sdk-ts/src/streamStore.ts:97-106 | a market event adds one to what is waiting or conflated; a critical one goes to the listeners at once |
| StoreMeaning.TrimmedMeans | packages/sdk-ts/src/streamStore.ts:104-105 | above 20 000 entities exactly the one that came first is dropped |
| StoreMeaning.SetMeans | packages/sdk-ts/src/streamStore.ts:97-106 | an entity keeps the place at which it came first |
| StoreMeaning.BeginMeans | packages/sdk-ts/src/streamStore.ts:39-45 | a snapshot is refused exactly when a watermark lies behind a position, and is staged empty otherwise |
| StoreMeaning.NoticesMean | packages/sdk-ts/src/streamStore.ts:75-89 | what a reported gap, an error of either kind and a heartbeat change |
| StoreMeaning.RowsMean | packages/sdk-ts/src/streamStore.ts:53-58 | rows are staged up to the first that does not decode or lies beyond its watermark; the last row of an entity counts |
| StoreMeaning.BatchMeans | packages/sdk-ts/src/streamStore.ts:46-60 | which batches are refused |
| StoreMeaning.EndMeans | packages/sdk-ts/src/streamStore.ts:61-74 | when the end of a snapshot or replay throws, and what it leaves otherwise |
| StoreMeaning.FlushMeans | packages/sdk-ts/src/streamStore.ts:109-117 | a flush pours, counts one version and publishes the store as it then is; a disconnect pours and publishes nothing |
| StoreDelivery.StepDeliversOnce | packages/sdk-ts/src/streamStore.ts:90-107 | one step keeps deliveries equal to the critical events up to the position |
| StoreDelivery.PositionsMoveByOne | packages/sdk-ts/src/streamStore.ts:90-107 | outside a finished snapshot a position moves only by its very next event |
| StoreRecovery.GapIsMadeGood | packages/sdk-ts/src/streamStore.ts:90-107 | an event that comes too early changes neither positions nor view and asks for what follows the position; when just those events arrive in order, the stream stands at that event and its listeners have had every critical event once |
| StoreDelivery.InstallDeliversOnceIff | packages/sdk-ts/src/streamStore.ts:61-67 | finishing a snapshot keeps deliveries in step with the positions exactly when no critical event lies between the old position and the watermark |
| PipelineRewind.SnapshotRedelivers | packages/sdk-ts/src/streamStore.ts:39-74 | from every reachable state whose next critical event has been sent: a snapshot begins, the event arrives, the snapshot ends, the position goes back, and the event is delivered again |
| PipelineRewind.CriticalEventTwice | packages/sdk-ts/src/streamStore.ts:61-67 | for any record that can be first in a log and is critical: a run from the empty system that delivers its event twice |
| StoreTiming.FlushTimingIsUnobservable | packages/sdk-ts/src/streamStore.ts:109-117 | two runs that differ only in when flush ticks fall, neither of which evicts, agree on view, positions, deliveries, phase, gaps and recovery requests |
| StoreTiming.RunAgrees | packages/sdk-ts/src/streamStore.ts:97-117 | in every run that evicts nothing, the conflating store agrees with a store that never conflates |
| StoreTiming.PublishedIsOverlayAtFlush | packages/sdk-ts/src/streamStore.ts:112-117 | a flush publishes exactly the overlay, and nothing else touches the published copy |
| StoreClass.TerminalStreamStore.constructor | packages/sdk-ts/src/streamStore.ts:14-23 | the published maps are objects of their own from the start |
| StoreClass.TerminalStreamStore.Accept | packages/sdk-ts/src/streamStore.ts:90-108 | the accept branches over maps changed in place |
| StoreClass.TerminalStreamStore.Begin | packages/sdk-ts/src/streamStore.ts:39-45 | a stale watermark throws; otherwise fresh staged maps |
| StoreClass.TerminalStreamStore.Batch | packages/sdk-ts/src/streamStore.ts:46-60 | the limits and the rows staged one by one until one throws |
| StoreClass.TerminalStreamStore.End | packages/sdk-ts/src/streamStore.ts:61-74 | watermarks must match; the staged maps become the working maps; without staging, replay completion never moves positions |
| StoreClass.TerminalStreamStore.Tick | packages/sdk-ts/src/streamStore.ts:109-117 | the published maps are new objects that no working map aliases |
| StoreClass.TerminalStreamStore.OnDisconnected | packages/sdk-ts/src/streamStore.ts:28-33 | drops staged snapshots and pours pending quotes |
| StoreClass.TerminalStreamStore.OnConnecting | packages/sdk-ts/src/streamStore.ts:34-34 | changes the phase only |
| StoreClass.TerminalStreamStore.Ingest | packages/sdk-ts/src/streamStore.ts:37-89 | every message case against its step, maps kept separate |
| OperationsProofs.ReceiptsAgree | apps/web/server/group_runtime.py:961-1049 | for every control action: a completed receipt means the worker journal says completed, and a failed one means the handler never ran and never will, in any run |
| OperationsEndings.CompletedMeansReturned | apps/web/server/group_runtime.py:961-1049 | held against the handlers and not the journals: a completed receipt of a control action means that the handler of that operation has returned at the worker of its run, and a failed one that none has started or will |
| OperationsEndings.CompletedIffReturned | apps/web/engine/control.py:99-119 | in every run the row of a worker is completed exactly when its handler has returned |
| OperationsEndings.FailedIsUnknown | apps/web/engine/control.py:99-119 | a handler that raised or was cancelled leaves its row unknown for good |
| OperationsEndings.CutIsUnknown | apps/web/engine/control.py:51-53 | a handler that was killed leaves its row processing until the journal is opened again, and unknown for good from then on |
| OperationsEndings.StoredMeans | apps/web/server/group_runtime.py:1026-1037 | the journal of a worker that is gone answers only with a stored result |
| OperationsProofs.HandlersStartAtMostOnce | apps/web/engine/control.py:65-119 | each worker starts a handler at most once per operation, and an operation of the supervisor runs only at its own run, under its one command |
| OperationsProofs.DeadStaysDead | apps/web/server/group_runtime.py:961-994 | an operation keeps its request for good, and one that was refused or never sent stays so |
| OperationsProofs.CompletedIsPermanentIff | apps/web/server/group_runtime.py:977-1024 | in every run, a completed receipt of a control action stays for good exactly when no execution is waiting for that operation any more; a receipt query does not take the lock |
| OperationsProofs.TimeoutLosesCompleted | apps/web/server/group_runtime.py:977-983 | while an execution waits, its timeout is possible and overwrites the completed receipt |
| OperationsProofs.CompletedCanBeLost | apps/web/server/group_runtime.py:996-1024 | a run from the start in which a completed receipt is overwritten by unknown |
| OperationsProofs.AdmitKeeps | apps/web/engine/control.py:65-98 | admitting a command starts a handler only for an identifier without a row |
| OperationsProofs.FinishKeeps | apps/web/engine/control.py:99-119 | the end of a handler settles its own row only |
| OperationsProofs.RestartKeeps | apps/web/engine/control.py:51-53 | opening the journal turns what was processing into unknown and settles nothing else |
| Operations.ControlServer.constructor | apps/web/engine/control.py:32-53 | nothing is processing after a restart |
| Operations.ControlServer.Receipt | apps/web/engine/control.py:55-63 | a settled status is answered only when the journal has it; an identifier that is malformed or has no row is answered unknown |
| Operations.ControlServer.Dispatch | apps/web/engine/control.py:65-98 | a handler starts exactly for a known action, a proper new identifier and an open server; a repeat is answered from its row, another command under the identifier is refused, and while closing a new one fails for good |
| Operations.ControlServer.HandlerEnds | apps/web/engine/control.py:99-119 | only a return is journalled as completed, an exception and a cancellation as unknown; every other row stays; a cancellation is not answered |
| Operations.ControlServer.Quiesce | apps/web/engine/control.py:134-138 | sets the closing flag and waits for the lock: a running handler ends first, nothing is processing afterwards, and no handler has started |
| OperationsProofs.QuiescedIsFinal | apps/web/engine/control.py:134-138 | in every run: from closing until its restart a worker starts no handler, and once its last handler has ended no row of its journal changes |
| Operations.GroupSupervisor.constructor | apps/web/server/group_runtime.py:649-655 | an unanswered intent becomes unknown |
| Operations.GroupSupervisor.Execute | apps/web/server/group_runtime.py:961-976 | a known identifier is answered or refused; a new one leaves its intent first |
| Operations.GroupSupervisor.Send | apps/web/server/group_runtime.py:1170-1175 | the command of the stored request, and that it may have left |
| Operations.GroupSupervisor.End | apps/web/server/group_runtime.py:977-994 | how each outcome becomes a receipt |
| Operations.GroupSupervisor.Abandon | apps/web/server/group_runtime.py:984-994 | an execution cancelled while the supervisor lives leaves its row as it is, and nothing waits |
| Operations.GroupSupervisor.Ask | apps/web/server/group_runtime.py:996-1007 | which receipts are asked of the worker |
| Operations.GroupSupervisor.Resolve | apps/web/server/group_runtime.py:1016-1024 | only a settled receipt of the same operation is recorded |
| RunsProofs.RunsAreExclusive | apps/web/server/group_runtime.py:854-908 | in every run, with supervisor crashes at any moment and a clock that may be set back, as long as no process is forgotten between its birth and the record of its pid and no start is dated before 20 others of its group: at most one live process per group, at most one per live account, model processes within their slots, and every live run among the 20 newest rows in an active state |
| RunsLosses.StepIsSafeIff | apps/web/server/group_runtime.py:1079-1100 | after a step, exclusivity holds in every continuation exactly when the step neither forgot a process nor dated a start before 20 others of its group |
| RunsLosses.LossBreaksExclusivity | apps/web/server/group_runtime.py:1079-1100 | from every reachable state in which a crash or a failed record forgets a process, a continuation without any further loss has two live processes of one group |
| RunsLosses.HiddenBreaksExclusivity | apps/web/server/group_runtime.py:699-700 | a start dated before 20 others of its group gets a process that the rows a start looks at do not show |
| RunsClock.HiddenGetsCompany | apps/web/server/group_runtime.py:699-700 | unless the group is live or needs a model slot, a continuation without any loss puts a second process of the group beside the hidden one |
| RunsClock.TwoProcessesAfterClock | apps/web/server/group_runtime.py:699-700 | a run from the empty table in which that happens, after twenty failed starts and a clock that goes back to zero |
| RunsLosses.TwoProcessesAfterLoss | apps/web/server/group_runtime.py:713-720 | a run from the empty table in which that happens |
| RunsProofs.CrashKeeps | apps/web/server/group_runtime.py:649-655 | a crash that forgets no process keeps the invariant, also between the row of a start and the birth of its process |
| RunsProofs.ClearedIsAlone | apps/web/server/group_runtime.py:879-907 | a start that passed its checks has no process beside it in its group or account |
| RunsProofs.StatusKeepsPresent | apps/web/server/group_runtime.py:713-760 | a status check never takes a run with a process out of the active states |
| RunsMeaning.StatusMeans | apps/web/server/group_runtime.py:713-760 | a run that is over stays so, one with neither process nor spawn is interrupted, one with a process is what its engine reports unless it is stopping |
| RunsMeaning.SlotsMean | apps/web/server/group_runtime.py:766-782 | which runs hold a model slot, and that a start has room while fewer are held than there are |
| RunsMeaning.ClearedMeans | apps/web/server/group_runtime.py:879-908 | exactly which checks a start needs before it writes its row |
| RunsProofs.OccupiedIsUsed | apps/web/server/group_runtime.py:766-777 | every process that runs a model is counted |
| RunsProofs.ReloadFindsNothing | apps/web/server/group_runtime.py:662-682 | the registry is replaced only while no process lives |
| Runs.RunTable.RunStatus | apps/web/server/group_runtime.py:713-760 | the state a check leaves behind |
| Runs.RunTable.RequireIdle | apps/web/server/group_runtime.py:885-887 | the loop accepts if and only if no recent row is active with a process or a spawn, and then all of them are inactive |
| Runs.RunTable.ModelCapacity | apps/web/server/group_runtime.py:766-777 | the loop counts exactly the active model runs that spawn or live |
| Runs.RunTable.RequireModelCapacity | apps/web/server/group_runtime.py:779-782 | passes exactly when a slot is free |
| Runs.RunTable.Launch | apps/web/server/group_runtime.py:1051-1079 | the row is there before the process, and nothing alive competes with it |
| Curve.GroupViews.ReadCurve | apps/web/server/group_views.py:313-371 | whatever the budget, partial tails, over-long lines and appends in between: the state is the one-pass result of the consumed prefix, samples a summary of at most 1600; a read that ends with nothing left has the result of the whole log, and any other read has moved on |
| Curve.GroupViews.ReadOne | apps/web/server/group_views.py:330-350 | one turn of the loop under what is left of the budget |
| Curve.GroupViews.Take | apps/web/server/group_views.py:336-350 | discarding, partial, over-long and complete lines; an unfinished short line leaves the offset |
| Curve.GroupViews.Observe | apps/web/server/group_views.py:351-369 | a refused line is only counted; an accepted one is the last sample with its own time and value, the recorded drawdown in per cent or the distance below the peak, and the peak is the least that bounds the old one and what the line shows; at most 3200 samples meanwhile |
| Curve.GroupViews.Reset | apps/web/server/group_views.py:323-326 | a new or shortened file starts from nothing |
| Curve.GroupViews.ReduceSamples | apps/web/server/group_views.py:296-311 | the bucket loop against its function |
| CurveProofs.ScanChunk | apps/web/server/group_views.py:330-350 | what one chunk does to the one-pass result, in each of the reader states |
| CurveMeaning.FoldCharts | apps/web/server/group_views.py:351-369 | each sample comes from a line of its own, in order and with rising times; its drawdown is the recorded one times 100 or solves (d + 100) P = 100 nav for the peak P, the least upper bound of zero and of nav and nav - pnl so far; every other line is unfit, and counted |
| CurveMeaning.ScanCharts | apps/web/server/group_views.py:330-369 | one pass over any log charts its complete lines in that sense |
| CurveMeaning.DrawdownIs | apps/web/server/group_views.py:361-363 | the drawdown of one reading under its peak |
| CurveProofs.CaughtUp | apps/web/server/group_views.py:332-350 | with only a short unfinished line left the one-pass results of prefix and log are the same |
| CurveProofs.ReducedIsSummary | apps/web/server/group_views.py:296-311 | a reduction keeps order, first, last and the least and greatest of both axes |
| CurveProofs.ReducedSize | apps/web/server/group_views.py:296-311 | a reduction has at most 1600 samples |
| CurveProofs.SummaryCompose | apps/web/server/group_views.py:364-371 | reducing again and again loses nothing more |
| CurveProofs.SummaryIsSubsequence | apps/web/server/group_views.py:296-311 | kept samples are a subsequence of all accepted ones |
| InferenceProofs.NothingIsLost | apps/web/engine/model_inference_worker.py:54-131 | with submissions between any two waits: every request has one terminal response or is owed once, the counters add up, completed ones leave in acceptance order, batches have one contract, and the unfinished count is zero exactly when nothing is owed |
| InferenceProofs.ReturnBalancedIff | apps/web/engine/model_inference_worker.py:107-131 | the counters stay balanced under the same condition |
| InferenceProofs.ReturnOnceIff | apps/web/engine/model_inference_worker.py:107-131 | one terminal response per request survives a returning prediction exactly when the model gave one value per request or none |
| InferenceProofs.OneValueForTwo | apps/web/engine/model_inference_worker.py:107-131 | for any limits of at least two: a run to a batch of two requests for which one value comes back, so that the first is answered completed and then failed |
| InferenceProofs.CollectedIsOwed | apps/web/engine/model_inference_worker.py:78-91 | collecting a batch with carry loses, repeats and reorders nothing |
| InferenceProofs.ReturnCompletesInOrder | apps/web/engine/model_inference_worker.py:107-125 | completed responses follow acceptance order whatever the number of values |
| InferenceProofs.ScreenedTells | apps/web/engine/model_inference_worker.py:92-100 | a request of the batch is answered as late or becomes active, once |
| InferenceMeaning.SubmitMeans | apps/web/engine/model_inference_worker.py:54-73 | late is expired, malformed is failed, too many is rejected, each at once; any other waits last in the queue |
| InferenceMeaning.CollectedMeans | apps/web/engine/model_inference_worker.py:78-91 | a batch is the front of what waits, of one contract and within the limit, and ends short of it only with the queue or at another contract, which is carried |
| InferenceMeaning.ReturnMeans | apps/web/engine/model_inference_worker.py:107-131 | each request of a batch has its one answer, in order: completed in time, expired after its deadline, failed when the call raised |
| InferenceMeaning.CountersTell | apps/web/engine/model_inference_worker.py:54-131 | in every run each counter is the number of responses of its kind |
| Inference.InferenceService.Submit | apps/web/engine/model_inference_worker.py:54-73 | late, invalid, full or queued |
| Inference.InferenceService.TakeBatch | apps/web/engine/model_inference_worker.py:78-91 | carry first, one contract, the first of another is carried |
| Inference.InferenceService.Gather | apps/web/engine/model_inference_worker.py:78-102 | the loop up to the model call |
| Inference.InferenceService.Return | apps/web/engine/model_inference_worker.py:104-131 | pairs, discards, failures and task counts after the model call |
| Inference.InferenceService.JoinedMeansNothingOwed | apps/web/engine/model_inference_worker.py:163-163 | waiting for the queue ends exactly when queue, carry and batch are empty |
| FlattenProofs.OrdersFit | apps/web/engine/live_controls.py:137-201 | over every run: at most 16 orders per symbol and task, each sent with no own order open, at the highest tick a tenth of a per cent below the bid, and of the greatest size that fits allocation, free balance, fee and the notional of the release |
| FlattenProofs.PollKeeps | apps/web/engine/live_controls.py:137-201 | a poll moves the phase only forward, leaves a finished task alone and sends at most one order |
| FlattenProofs.DeadlineIsFinal | apps/web/engine/live_controls.py:148-153 | in every run: after the first effective poll past its deadline a task stays incomplete and sends nothing more, until another flatten |
| FlattenProofs.CompletesIff | apps/web/engine/live_controls.py:154-201 | a poll completes the task exactly when no own order is open and every selected symbol is below its minimum |
| FlattenProofs.ResumeIsOver | apps/web/engine/live_controls.py:89-96 | after an accepted flatten every resume of the run is refused |
| FlattenProofs.ApplyKeeps | apps/web/engine/live_controls.py:89-128 | no control replaces an ongoing task or removes one; a refusal changes nothing; a flatten has a task exactly when it is done, and one that raises leaves the run reducing without it |
| FlattenProofs.ReductionFits | apps/web/engine/live_controls.py:20-23 | the size is the largest number of lots whose quantity with fee fits, or zero if that is below the minimum |
| FlattenProofs.SaleFits | apps/web/engine/live_controls.py:177-187 | the notional limit keeps it on lots and within what fits |
| FlattenSizes.SaleIsBest | apps/web/engine/live_controls.py:177-187 | an order is of the greatest number of lots that fits with its fee and is within the size the release allows, cut in proportion when the bid is above the ask; none is sent only when nothing of the minimum does |
| FlattenSizes.SalePriceIs | apps/web/engine/live_controls.py:190-190 | its price is the highest tick at least a tenth of a per cent below the bid |
| FlattenProofs.VisitMeans | apps/web/engine/live_controls.py:160-196 | exactly when a visit sends an order, and what it notes otherwise |
| FlattenProofs.ApplyMeans | apps/web/engine/live_controls.py:89-128 | exactly which controls are refused, the mode each leaves, and the task that a flatten begins |
| Flatten.NativeControls.Apply | apps/web/engine/live_controls.py:89-128 | the refusals and effects of each control, and what is left when stopping strategies, cancelling orders or starting strategies raises |
| Flatten.NativeControls.Visit | apps/web/engine/live_controls.py:160-196 | one symbol: the finding recorded, and whether an order went out |
| Flatten.NativeControls.Round | apps/web/engine/live_controls.py:156-196 | the loop over symbols up to the first order |
| Flatten.NativeControls.Poll | apps/web/engine/live_controls.py:137-201 | the whole poll against its step |
| ReleasesProofs.HistoryIsAChain | apps/web/server/model_releases.py:464-535 | in every run of concurrent executors with crashes: each receipt names the release current before it, the active pointer is the last receipt of the runner and a stored release of it, and no two releases share runner and version |
| ReleasesProofs.ReplayAddsNothing | apps/web/server/model_releases.py:469-495 | a committed operation is answered with its original receipt in either phase, with no new link |
| ReleasesChecks.ReviewedIsActive | apps/web/server/model_releases.py:464-535 | in every run each committed operation made active a stored release with exactly the manifest its request had reviewed, and for a rollback exactly the release it named |
| ReleasesChecks.PreparedIff | apps/web/server/model_releases.py:419-434 | an execution is prepared exactly when its operation is new, its subject is there, and manifest and active release are the reviewed ones |
| ReleasesChecks.KnownIsAnswered | apps/web/server/model_releases.py:469-476 | a known operation is answered with its receipt to the same request, and refused to any other |
| ReleasesChecks.CommittedIff | apps/web/server/model_releases.py:489-535 | the transaction adds a receipt exactly when operation, active release, stored content, room and files allow it |
| ReleasesProofs.CommitKeepsChain | apps/web/server/model_releases.py:489-535 | the transaction adds one link to one chain, or nothing |
| ReleasesProofs.CommitKeepsReleases | apps/web/server/model_releases.py:500-513 | a stored release is what its manifest says and is never changed |
| ReleasesProofs.PreparingKeeps | apps/web/server/model_releases.py:464-487 | preparing an execution keeps the chain, the active pointers and the stored releases |
| Releases.ModelReleaseStore.Prepare | apps/web/server/model_releases.py:419-434 | replay, inspection and comparison with the reviewed request |
| Releases.ModelReleaseStore.Execute | apps/web/server/model_releases.py:489-535 | the transaction with its second comparison of the active pointer |
| DeviceProofs.RequestsAreAcceptedOnce | services/gateway/src/auth.rs:419-469 | with a clock that does not go back, no signed request is accepted twice although nonces are deleted after 60 seconds |
| DeviceProofs.OneRefreshTokenEach | services/gateway/src/auth.rs:371-418 | in every run each device has exactly one refresh token that is not consumed |
| DeviceChecks.CallIsAcceptedIff | services/gateway/src/auth.rs:419-469 | in every run a signed request is let through exactly when it is in time, its nonce has a proper length and was used by no request or rotation in the last minute, its device is not revoked and was paired with the key that verifies it, and its token is a good access token of that device |
| DeviceChecks.AcceptedIsAuthentic | services/gateway/src/auth.rs:419-469 | every accepted request was signed under the key its device was paired with, within half a minute of its timestamp, with an access token issued to that device less than five minutes before |
| DeviceChecks.CallIff | services/gateway/src/auth.rs:434-460 | the same for one call, over the tables |
| DeviceChecks.RotateIff | services/gateway/src/auth.rs:371-418 | exactly when a rotation issues tokens, and when it is taken for reuse |
| DeviceChecks.PairIff | services/gateway/src/auth.rs:339-370 | exactly when an exchange makes a device, and when it has to wait for approval |
| DeviceChecks.RevokedIff | services/gateway/src/auth.rs:397-406 | in every run a device is revoked exactly when it was revoked by hand or a used refresh token of it came back |
| DeviceChecks.TokenWasIssued | services/gateway/src/auth.rs:479-493 | every token was issued by an exchange or rotation of its device and expires five minutes or thirty days after |
| DeviceChecks.ApprovalWasGiven | services/gateway/src/auth.rs:331-338 | whoever is named as approver approved that authorization within ten minutes of its beginning |
| DeviceProofs.CallKeepsOnce | services/gateway/src/auth.rs:434-457 | accepting a request keeps device, nonce and timestamp of all accepted requests distinct, although old nonces have been forgotten |
| DeviceProofs.RotateKeepsTokens | services/gateway/src/auth.rs:371-418 | rotation replaces the one unspent token by the new one |
| DeviceProofs.PairKeepsTokens | services/gateway/src/auth.rs:339-370 | an exchange gives the new device its one token and touches no other device |
| DeviceProofs.ReuseRevokesForGood | services/gateway/src/auth.rs:397-406 | in every run: once a consumed refresh token has come back, its device is refused whatever it signs or presents |
| DeviceProofs.RevokedForGood | services/gateway/src/auth.rs:419-469 | a revoked device is never let through again |
| DeviceClass.DeviceStore.VerifyRequest | services/gateway/src/auth.rs:419-469 | lets a request through exactly when time, nonce, device, access token, signature and the nonces of the last minute allow it; the nonce an accepted request leaves |
| DeviceClass.DeviceStore.Refresh | services/gateway/src/auth.rs:371-418 | issues exactly when the signed, unspent, unexpired refresh token of a living device is presented with an unused nonce; revokes exactly on reuse |
| DeviceClass.DeviceStore.Exchange | services/gateway/src/auth.rs:339-370 | makes one device exactly for an open, approved authorization whose key verifies the message |
| DeviceClass.DeviceStore.IssueTokens | services/gateway/src/auth.rs:479-493 | two new tokens or, on a collision, nothing |

## Left out

- The executor's `external_fill`, journal, fees, counters, acknowledgement times and the metrics it reports; the fill deque of the rates.
- Decimal precision and rounding of the executor's divisions; a `cancel_order` that raises.
- JetStream and the gateway: only what `Pipeline.Channel` allows of them; subjects, headers and acknowledgement order on the bus.
- Reads that see a file grow inside one `read_until` or `readline`; a log growing between two such reads is modelled.
- Account, group, correlation and causation fields of an envelope, and the mapping of payload contents beyond the entity's identifier.
- Entity keys are tuples; the program joins the parts with slashes, which distinguishes them only if the parts hold no slash.
- The text of log records: parsing is a function from lines to records.
- Listeners of the store, `dispose`, Arrow and protobuf decoding, which may throw per row and is modelled by that.
- Receipts of `start` and `stop`, whose effect is not a worker handler; the socket framing and size limits of both servers.
- Status fields other than the one the start checks read: engine readiness, capabilities, model warm-up, and the automatic shutdown flag.
- Validation of registry, manifests, run settings, account inventory and artifacts before a start or a publication.
- `ReleasesModel.Commit`: whether the release limits leave room, and whether the files still hash to what they should, are parameters.
- The accounting ledger of the equity curve, which is taken as absent, and the cached interval between two reads.
- Batches of requests with more than one value each, and latency figures of the inference service.
- `Flatten.NativeControls.Apply`: instruments are kept once each in the order given, not sorted; which strategies are paused and which
  orders are cancelled is not part of the state.
- Liveness of cancels, and the total quantity a flatten sells: the code does not establish them.
- Expiry and capacity of device authorizations beyond what an exchange reads; Web sessions.
