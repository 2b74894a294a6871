# Load generator coordination, modelled and proved

This project models the parts of a cache load generator whose correctness rests on several
functions or tasks agreeing with each other, and proves what they promise over every run.

- `SaturationSearch`, `SaturationRuns`, `SaturationFloor`: the search for the highest rate that meets
  a latency objective: climbing, bisecting, confirming failures and detecting a latency floor.
- `TraceRows`, `TraceLedger`, `TraceSafety`, `TraceRuns`, `TraceOrder`, `TraceRollback`,
  `TraceCharges`, `TraceReader`, `TraceBackfill`: replaying a trace. Rows go from a reader through a
  channel to workers' claims and connections' pipelines, with failed sends, lost connections and rows
  given up. The queue operations are classes; the whole replay is a state machine over every
  interleaving of the reader, the workers and the runner.
- `KvDispatch`, `KvRuns`, `KvLedger`: handing a worker's key-value requests to its connections, with
  requests held until due, handed back within two budgets, or failed when nothing is connected.
- `KvRequest`: looking up, loading and storing one request's objects.
- `KeyQueues`, `KeyMoves`, `KeyPipeline`, `KeyLedger`: the keys of prefill and of the append stream,
  from their queues through pipelines to confirmation, and the head the runner publishes.
- `Recency`: the sampler that reads below that head.
- `RoutedQueues`, `Spread`: a node's request queue and its waiting connections, and the spread of
  connections over workers and nodes that the routed mode needs.
- `KeyShare`, `Interleave`: sharing connections out by key traffic and dealing them in a balanced order.
- `Seeds`: the seed of each connection's random stream.
- `Discovery`, `Utf8`: the incremental parser and read loop of the cluster discovery exchange.
- `InFlightTimer`: the requests in flight on a connection and the deadline timer.
- `Ledgers`, `Numbers`, `Options`: counting items over queues, shared arithmetic, and an optional value.

A state machine's events are pieces of code between two awaits that touch shared state at most
once. Fields marked as read by no code record what has happened, for the theorems to speak about.
The methods of the classes are proved against the same functions the state machines use.

## Model

The main results come first, then the lemmas and operations they rest on, and last the one-line
mutators and constructors.

| member | source | states |
|---|---|---|
| `TraceRuns.EachRowOnce` | src/tracereplay.rs:403-880 | in every run a row is on the wire at most once, never if given up, given up only after exactly three refused sends, and counted done at most once |
| `TraceRuns.FinishedMeansAllDone` | src/tracereplay.rs:268-290 | once the three separate loads of the finish question say yes, the reader has stopped and every counted row was answered, lost in flight or given up, exactly once |
| `TraceRuns.NothingWaitingFinishes` | src/tracereplay.rs:268-271 | with the reader stopped and nothing waiting, asking is answered yes |
| `TraceReader.FinishedMeansWholeTrace` | src/tracereplay.rs:403-480 | a replay that is called finished has done exactly as many rows as were read, unless the reader panicked |
| `TraceRuns.DoneMeansNothingWaits` | src/tracereplay.rs:268-271 | `done >= sent` holds exactly when no counted row waits anywhere |
| `TraceOrder.WireInFileOrder` | src/tracereplay.rs:486-521 | while no connection is lost, each worker puts its rows on the wire in file order, and what it has claimed comes after, whatever sends fail |
| `TraceRollback.FailedSendTakesBack` | src/tracereplay.rs:683-757 | after any run of fires from any sources, a failed fire or flush, charged in any way, takes back exactly those requests and the one in hand: the claim is what it was and what was newly claimed, up to given-up rows and one more failed send on the row a fire was refused for, or on every row of a refused flush, and on no other; what was flushed stays in flight and nothing reaches the wire |
| `TraceRollback.FailedFlushUndoesBatch` | src/tracereplay.rs:748-757 | after firing any number of claimed rows and failing to flush them with no charge, the whole replay is what it was before |
| `TraceCharges.ThirdRefusalGivesUp` | src/tracereplay.rs:745-757 | a batch of fresh rows whose flush is refused for good goes back whole twice and is given up, all of it, at the third refusal; nothing else changes |
| `TraceCharges.RefusedRowGoesAlone` | src/tracereplay.rs:716-728 | a fresh row refused for good is given up at its third refusal, and the rows discarded with it each time are neither charged nor moved |
| `TraceBackfill.MissesAreFilledInOrder` | src/tracereplay.rs:654-806 | over any run of a connection, what it fills, in order, and what it has queued are the misses, and the queue keeps to its bound |
| `KvLedger.EachRequestOnce` | src/kvreplay.rs:343-992 | in every run each counted request is in exactly one place or finished exactly once, and one a connection has was due, by the schedule it was counted with, when it got it, and is within its hand-over bound |
| `KvLedger.FinishedMeansAllDone` | src/kvreplay.rs:242-277 | the replay is called finished only when every counted request has finished exactly once |
| `KvLedger.NothingWaitingFinishes` | src/kvreplay.rs:242-245 | with the reader stopped and nothing waiting, asking is answered yes |
| `KvLedger.DoneMeansNothingWaits` | src/kvreplay.rs:242-245 | `finished >= sent` holds exactly when no counted request waits anywhere |
| `KvLedger.NoSleepOnWork` | src/kvreplay.rs:825-856 | in every reachable state a dispatcher that sleeps beside a waiting connection has nothing to hand it |
| `KvRuns.UnreachableDrains` | src/kvreplay.rs:709-799 | a server that cannot be reached holds up no request: a turn, one more failed connect and another turn fail everything a worker holds |
| `KvRequest.RunRequest` | src/kvreplay.rs:1028-1237 | cached + new = input, with at least one new token of a non-empty prompt; every object of the hit chunks was returned and one of the next was not; the objects set, in order, are all from the first missing chunk on, or exactly the missing ones |
| `KvRequest.SecondReplayFindsAll` | src/kvreplay.rs:1064-1182 | after one request under either rule a server that keeps what it is given holds every object, so every chunk hits and nothing is to be set |
| `KvRequest.LookupIsMinimumOverRanks` | src/kvreplay.rs:430-435 | the hit prefix is the smallest of the per-rank prefixes, attained by some rank |
| `KeyLedger.PrefillWritesEachKeyOnce` | src/runner.rs:597-619 | in every prefill run each key is in exactly one place or acknowledged exactly once; the gate opens exactly when nothing waits, and then every key was acknowledged once |
| `KeyLedger.HeadIsWritten` | src/runner.rs:813-878 | in every run of the append stream every id below the head was prefilled or acknowledged exactly once, and what waits is of the one batch that starts at the head |
| `KeyLedger.HeadAdvancesByBatch` | src/runner.rs:813-878 | the head moves by exactly one batch, only when that batch is acknowledged to the last id |
| `KeyLedger.CommitsExactly` | src/runner.rs:813-878 | with a batch open the runner may commit it exactly when none of its keys waits |
| `Recency.ReadersTargetWrittenKeys` | src/keydist.rs:221-245 | at any moment of any append run with a positive head, a sampled id was prefilled or its SET was acknowledged |
| `Recency.WindowsTile` | src/keydist.rs:228-236 | an id is in the window of its own generation and in no other |
| `Recency.BodyIsTheRest` | src/keydist.rs:225-245 | the body is exactly the ids in no hot window |
| `KeyPipeline.FillSendsAllItCan` | src/worker.rs:1950-2018 | with nothing in its way the fill loop sends, in order, as many keys as the queue has and the pipeline has room for |
| `KeyPipeline.FillStops` | src/worker.rs:1950-2018 | the fill loop ends because the pipeline is full, the queue is empty, the pacer refused or a send failed; after a failed send only what was flushed before is in flight, otherwise everything sent is |
| `KeyPipeline.FillKeepsKeys` | src/worker.rs:1950-2018 | whatever routes change, pacers refuse and sends fail, the fill loop loses and doubles no key |
| `KeyPipeline.FillRoutes` | src/worker.rs:1950-2018 | whatever moves, is refused or fails: each key the loop gets past that routes elsewhere goes, in order, behind what is queued where it routes, and the others and the rest of the queue keep their order |
| `KeyPipeline.FillInOrder` | src/worker.rs:1950-2018 | where no key moved endpoint, pipeline followed by queue is unchanged as a sequence, sends failed or not |
| `SaturationRuns.SearchEnds` | src/saturation.rs:145-246 | whatever the measurements answer, every search ends, within a bound fixed at the start |
| `SaturationRuns.KneeIsBestPass` | src/saturation.rs:145-246 | the reported knee is exactly the highest rate that measured as passing, none if none did; a detected floor means none did |
| `SaturationRuns.SearchIsAccurate` | src/saturation.rs:183-246 | when a rate passes exactly up to K: every state of the search brackets K, every bisecting state has halved the bracket at each step since it opened, and unless the search stopped on a latency floor the knee is K, within tolerance of it, or short of it only by what the allowed steps could not halve away |
| `SaturationRuns.BisectionHalves` | src/saturation.rs:209-246 | against any answers, from where a bisection opens to any later state at most ceil(opening width / 2^steps) of the interval is left |
| `SaturationRuns.ClimbsByMultiple` | src/saturation.rs:193-206 | a search begins at the start rate and climbs from each rate that passes to its multiple, rounded down but higher than it, or the top rate; it ends when that has passed |
| `SaturationRuns.NoiseIsAbsorbed` | src/saturation.rs:145-234 | with c confirmations, a run in which each visit to a passing rate fails at most c times, and which no latency floor stops, measures the same rates, once repeats are collapsed, and reports the same knee as the noise-free search without confirmations |
| `SaturationFloor.FloorIsLatency` | src/saturation.rs:160-182 | a search stops on a latency floor exactly when nothing passed and its last measurement is a confirmed failure whose rate is at most half that of the latest recorded failure while the latency fell by less than the configured fraction; no measurement before the last is one |
| `SaturationFloor.ImprovementGoesOn` | src/saturation.rs:160-182 | where each recorded failure improves by the configured fraction on the one before, no search stops on a floor |
| `RoutedQueues.NoWakeIsLost` | src/worker.rs:631-759 | in every interleaving, while a connection waits the queued requests number at most the woken connections yet to look |
| `RoutedQueues.FirstInFirstOut` | src/worker.rs:631-759 | in every interleaving, from what callers are answered alone: a push is refused exactly when the queue holds its capacity of accepted and not yet popped requests, a pop returns the oldest of those and nothing exactly when there is none, a wait is ready exactly when there is one or the queue was closed |
| `Spread.NodeCheckIsExact` | src/runner.rs:1301-1317 | connections >= threads x nodes holds exactly when every worker has a connection to every node |
| `Spread.NodeCheckGivesRoom` | src/runner.rs:1301-1317 | the check passes exactly when every worker's queue for every node has room |
| `KeyShare.Allot` | src/worker.rs:1453-1484 | counts sum to the total; endpoints with keys get at least one, others none, nobody one more than its target; all are within one of their target exactly when the first allotments fit the total |
| `Interleave.KeyShareEndpoints` | src/worker.rs:1442-1492 | the whole assignment; with too few connections for every endpoint with keys, one each to the first of them; with no keys anywhere, round-robin |
| `Interleave.PrefixIsBalanced` | src/worker.rs:1431-1436 | in every prefix two endpoints have theirs in proportion to within half a connection of each |
| `Interleave.SliceIsBalanced` | src/worker.rs:1431-1436 | every contiguous slice carries a proportional mix, to within one connection of each |
| `Seeds.SeedsNeverCollide` | src/worker.rs:3703-3718 | within a run different positions get different seeds |
| `Seeds.RunsNeverCollide` | src/worker.rs:3703-3718 | at one position different run seeds give different seeds |
| `Seeds.RunsMeetExactly` | src/worker.rs:3715-3718 | connections of different runs share a seed exactly when the run seeds differ by what their mixed positions differ by |
| `Seeds.BoundsAreTight` | src/worker.rs:3715-3718 | one past either bound two positions do share a seed |
| `Seeds.SplitMixIsBijection` | src/worker.rs:3720-3726 | the finalizer is a bijection on 64-bit words |
| `Discovery.DecidedStays` | src/autodiscovery.rs:246-281 | once a buffer parses to a response or an error, every extension parses to the same |
| `Discovery.BlockReadsBack` | src/autodiscovery.rs:246-281 | a rendered CONFIG or VALUE response parses to its data block, even one containing END |
| `Discovery.PrefixIsIncomplete` | src/autodiscovery.rs:246-281 | every proper prefix of a rendered response is incomplete |
| `Discovery.CutsDoNotMatter` | src/autodiscovery.rs:207-239 | up to the size limit the reply is the same however the bytes are cut into reads |
| `Discovery.AnswerIsWhole` | src/autodiscovery.rs:207-239 | the reply is that of all the bytes at once, unless some read leaves the buffer past the limit and undecided: then the size error |
| `Discovery.AnswerToFault` | src/autodiscovery.rs:211-239 | a read that times out or fails ends the exchange with the deadline and the bytes received, or with the read error when none were, unless the bytes had decided it or overrun |
| `Discovery.PastTheLimitCutsMatter` | src/autodiscovery.rs:207-239 | past the limit it is not: the same response is accepted or refused by where a read ends |
| `InFlightTimer.InFlight.Receive` | src/worker.rs:4443-4509 | a timeout means the oldest request outlived the timeout and counts all in flight; a bounded wait is never left pending past the deadline; the timer that was running, or armed now, is the one left after a reply |
| `InFlightTimer.RunningTimerInTimeExactly` | src/worker.rs:4423-4442 | in every reachable state a running timer goes off by the deadline of the oldest request exactly when it was armed by that deadline |
| `InFlightTimer.LateTimer` | src/worker.rs:4423-4442 | a connection whose timer, armed for a request received for too late and left running past its answer, is later than the next request's deadline |
| `SaturationSearch.RateSearch.Advance` | src/saturation.rs:145-234 | one measurement moves the search exactly as `Judge` of the old state says, and keeps it sound |
| `SaturationSearch.RateSearch.Note` | src/saturation.rs:145-182 | the bookkeeping before the phase moves: last passing rate, floor samples, the failures seen at this rate and whether one more is to be confirmed |
| `SaturationSearch.RateSearch.Move` | src/saturation.rs:183-234 | the phase transition: climb, enter bisection, narrow the interval, or finish |
| `SaturationSearch.RateSearch.BisectProbe` | src/saturation.rs:241-246 | the next rate is the midpoint, clamped inside the interval; with `hi == lo + 1` it is `lo` again, or 1 |
| `SaturationSearch.BisectRateInside` | src/saturation.rs:241-246 | a bisect probe stays strictly inside a wider interval |
| `SaturationSearch.StepKeepsSound` | src/saturation.rs:145-234 | every answer keeps the search sound, and one that leaves it running uses up some of a bounded number of remaining probes |
| `SaturationRuns.HalvedIsCeiling` | src/saturation.rs:209-246 | the bound the steps keep, by multiplication, is that ceiling |
| `SaturationFloor.StepRemembers` | src/saturation.rs:145-182 | the machine's failure count and remembered failure are, while nothing passed, those of the history |
| `TraceRows.Worker.TakeNext` | src/tracereplay.rs:486-509 | the next row comes from the worker's own claim, then from the rows handed back (claiming a batch of them), then from the next batch of the channel; otherwise not ready, or exhausted |
| `TraceRows.Worker.Unclaim` | src/tracereplay.rs:514-521 | unsent rows go back in front in their order |
| `TraceRows.Worker.ReturnClaimed` | src/tracereplay.rs:526-537 | every claimed row goes in front of the handed-back ones, in order |
| `TraceRows.Connection.Requeue` | src/tracereplay.rs:830-859 | a failed send takes exactly the discarded and the refused request off the connection; their rows with attempts left return in order, charged as `WhoIsCharged` says, the others are counted given up, and backfills are dropped |
| `TraceRows.Connection.SortOut` | src/tracereplay.rs:830-859 | the loop that charges rows and separates those to send again from those out of attempts |
| `TraceRows.Connection.RequeueWithNext` | src/tracereplay.rs:864-874 | after a failed flush the row not yet fired returns uncharged behind the discarded ones |
| `TraceRows.Connection.Close` | src/tracereplay.rs:567-586 | a lost connection counts its rows in flight done and hands the worker's claim on |
| `TraceRows.PutBackOrGivenUp` | src/tracereplay.rs:830-859 | every unsent row is put back or given up, never both and never neither |
| `TraceRows.ChargedRows` | src/tracereplay.rs:830-859 | charging changes no row's identity or order |
| `TraceRows.WhoIsCharged` | src/tracereplay.rs:842-849 | a failure for now charges nothing; a refused request is charged alone; a refused flush charges every row it discarded |
| `TraceLedger.DiscardsTheUnflushed` | src/worker.rs:4276-4294 | the number of requests a failed send discards is the number buffered since the last flush |
| `TraceLedger.ShapeKept` | src/tracereplay.rs:588-821 | every event keeps the replay's records of a connection equal in length to the client's count of unanswered requests, so a reply always finds its row |
| `TraceSafety.EventBalance` | src/tracereplay.rs:403-880 | an event moves each row from one place to one other; only counting a batch adds rows |
| `TraceSafety.EventEnds` | src/tracereplay.rs:567-880 | `done` grows by exactly the rows answered, lost with a connection, or given up |
| `TraceSafety.ConservedKept` | src/tracereplay.rs:403-880 | the conservation law (each counted row in exactly one place, counters equal to what they count) is kept by every event of any thread |
| `TraceReader.EveryRowIsCounted` | src/tracereplay.rs:403-480 | the reader goes on exactly until the trace ends or it panics; a row's line is the number of lines before it; without a panic every row read is counted by the time it has stopped |
| `TraceBackfill.FillIsFired` | src/tracereplay.rs:654-668 | a fill is a SET of the object and size of the oldest miss |
| `TraceLedger.TakeIsNext` | src/tracereplay.rs:486-509 | the row the code takes next, and what it leaves, is one of the sources of the replay's model |
| `TraceLedger.HandedOnAreNext` | src/tracereplay.rs:526-537 | a lost connection's claim is the next to be taken from the returned rows, in order, a batch at a time |
| `TraceCharges.RefusedFlushChargesAll` | src/tracereplay.rs:745-757 | firing any number of claimed rows and having the flush refused charges each of them once |
| `TraceRuns.ReadAheadIsBounded` | src/tracereplay.rs:101-103 | the reader is at most 256 batches of 64 rows ahead |
| `TraceSafety.SendingOnlySends` | src/tracereplay.rs:588-821 | sending, and failing to send, touches no reader, no runner and no other connection's worker, and lowers no counter |
| `KvDispatch.KvDispatcher.Ask` | src/kvreplay.rs:578-598 | an idle connection joins the end of the waiting list, or is turned away once the dispatcher closed |
| `KvDispatch.KvDispatcher.GiveBack` | src/kvreplay.rs:610-640 | a request is handed back at most once per connection unsent and once after its lookup was sent; past that it is refused |
| `KvDispatch.KvDispatcher.ServeReturned` | src/kvreplay.rs:769-773 | handed-back requests go to the longest-waiting connections first |
| `KvDispatch.KvDispatcher.FailStale` | src/kvreplay.rs:791-799 | with no connection live, exactly the requests older than the latest failed connect are taken off the front |
| `KvDispatch.KvDispatcher.TakeOneTurn` | src/kvreplay.rs:749-861 | one turn of the loop does what `TakeTurn` says: serve, unhold, fail the unreachable, claim, hand out or sleep; a claimed request is held with its own schedule |
| `KvDispatch.KvDispatcher.FailUnreachable` | src/kvreplay.rs:777-799 | a due held request joins the handed-back ones while nothing is live, and the stale ones fail |
| `KvDispatch.KvDispatcher.ClaimOrDoze` | src/kvreplay.rs:801-819 | a request is claimed only with a connection waiting and none held |
| `KvDispatch.KvDispatcher.HandOutOrDoze` | src/kvreplay.rs:820-856 | a held request is handed out only when due; otherwise the loop sleeps no longer than until it is |
| `KvDispatch.KvDispatcher.Close` | src/kvreplay.rs:643-648 | every waiting connection is released without a request |
| `KvDispatch.SleepsOnlyWithoutWork` | src/kvreplay.rs:825-856 | the dispatcher never sleeps on work it could hand out |
| `KvDispatch.AsksToBeWokenForWork` | src/kvreplay.rs:830-838 | a sleeping dispatcher asks to be woken by a connection exactly when the next turn with one would not sleep |
| `KvDispatch.WaitingIsEnough` | src/kvreplay.rs:834-838 | and never while one is waiting |
| `KvDispatch.NapEndsInTime` | src/kvreplay.rs:839-845 | the sleep ends when the held request is due, and at the next poll of a reader that is behind |
| `KvRuns.QueuedKept` | src/kvreplay.rs:551-660 | every event keeps the waiting list equal to the waiting connections, each once, and the live count right |
| `KvRuns.WaitingIsLive` | src/kvreplay.rs:722-735 | a waiting connection is live, so the failure rule for unreachable servers never runs beside one |
| `KvRuns.JobsKept` | src/kvreplay.rs:568-640 | every event keeps the hand-back budgets, keeps handed-back and running requests due, and keeps the failure stamps of handed-back requests in order |
| `KvRuns.KnownKept` | src/kvreplay.rs:492-640 | no event of a worker changes which request a job is for or when that is due |
| `KvRuns.UnreachableFails` | src/kvreplay.rs:777-799 | with nothing connected a turn sleeps, after a due held request joined the handed-back ones and exactly those handed back before the latest failed connect failed, oldest first |
| `KvRuns.ReachableFailsNone` | src/kvreplay.rs:788-799 | while anything is connected a turn fails nothing |
| `KvRuns.DeadBeforeUse` | src/kvreplay.rs:913-947 | a connection found closed before it ran a request counts as a failed connect attempt |
| `KvRuns.DeadAfterUse` | src/kvreplay.rs:913-947 | one that ran a request does not |
| `KvRuns.HandOversBounded` | src/kvreplay.rs:610-640 | no request is handed to connections more than max(connections, 1) + 2 times |
| `KvRuns.StaleIsAPrefix` | src/kvreplay.rs:794-798 | the loop that looks only at the front fails exactly the entries older than the latest failed connect |
| `KvLedger.WorkerBalance` | src/kvreplay.rs:749-992 | an event of a worker moves each request from one place to one other, or ends it, or claims it |
| `KvLedger.ConservedKept` | src/kvreplay.rs:343-992 | the conservation law for requests is kept by every step of any thread |
| `KvLedger.ScheduledKept` | src/kvreplay.rs:343-992 | every request in the channel, on a worker or finished keeps the schedule it was counted with: kept by every step |
| `KvLedger.ReadAheadIsBounded` | src/kvreplay.rs:340-348 | the reader is at most 16384 requests ahead |
| `KvRequest.PrefixObjects` | src/kvreplay.rs:430-435 | every object of the prefix exists, and one of the next chunk does not |
| `KvRequest.PrefixIsWhole` | src/kvreplay.rs:430-435 | the prefix is a whole number of chunks, `ranks` objects each |
| `KvRequest.RulesCoverAbsent` | src/kvreplay.rs:1169-1182 | both write rules set every absent object, and insert-if-absent sets a subset of what set-from-miss sets |
| `KvRequest.CachedWithinPrompt` | src/kvreplay.rs:449-456 | cached tokens never exceed the prompt, never include its last token, and are the hit chunks' tokens otherwise |
| `KvRequest.Lookup` | src/kvreplay.rs:1064-1125 | one EXISTS answer per object, in order |
| `KvRequest.Load` | src/kvreplay.rs:1127-1167 | the GET loop leaves nothing pending, counts the nil replies, keeps at most the pipeline depth unanswered, and cuts the hit so that every object of its chunks was returned and one of the next chunk was not |
| `KvRequest.ChooseSets` | src/kvreplay.rs:1169-1182 | the indices to set are exactly those the write rule names, in order |
| `KvRequest.ChosenAreWritten` | src/kvreplay.rs:1169-1182 | what is set is, in order, everything from the first missing chunk on, or exactly what the server lacked |
| `KvRequest.Store` | src/kvreplay.rs:1183-1223 | the SET loop leaves nothing pending and stores exactly the chosen objects |
| `KvRequest.ReplayTwice` | src/kvreplay.rs:1028-1237 | the second replay of a request hits every chunk, gets no nil and sends no SET |
| `KeyQueues.PrefillQueues.RequeueNewest` | src/worker.rs:4312-4323 | the newest n keys return to the front in their original order |
| `KeyQueues.PrefillQueues.RequeueDrained` | src/worker.rs:4902-4912 | each key of a lost connection goes to the queue it now routes to |
| `KeyQueues.PrefillQueues.Enqueue` | src/worker.rs:3852-3868 | the ids of a batch are queued in order, each where it routes |
| `KeyQueues.RoutedTally` | src/worker.rs:4940-4961 | routing keys anywhere loses and doubles none |
| `KeyQueues.RoutedInOrder` | src/worker.rs:4902-4912 | routing keys puts each, in order, behind what its endpoint has queued |
| `KeyQueues.PartitionIsByRoute` | src/worker.rs:4940-4961 | an endpoint's queue holds exactly the ids routed to it, in increasing order |
| `KeyMoves.MoveBalance` | src/worker.rs:3980-4081 | every move of a connection takes a key from one place and puts it in one other |
| `KeyMoves.ConnOkKept` | src/worker.rs:1950-2396 | every move keeps the connection's record equal to its client's, with what is still to be requeued behind it |
| `KeyPipeline.TurnInFlight` | src/worker.rs:1951-2017 | each of the four outcomes of one turn, when it happens and what is in flight after it |
| `KeyPipeline.RequeuedAll` | src/worker.rs:4312-4323 | requeueing key by key puts back everything past the client's record, in its order |
| `KeyPipeline.ReroutedAll` | src/worker.rs:4902-4912 | routing a lost connection's keys one by one is routing all of them in order |
| `KeyPipeline.Pipeline.Advance` | src/worker.rs:1951-2017 | one key of the loop goes through exactly the moves of `Turn`, and which outcome it had is returned |
| `KeyPipeline.Pipeline.Fill` | src/worker.rs:1950-2018 | the loop leaves the queues and the connection as `Filled` says, and says why it stopped |
| `KeyPipeline.Pipeline.Flush` | src/worker.rs:2267-2279 | a flush is the ledger's flush, and a failed one its failed flush with every dropped key requeued |
| `KeyPipeline.Pipeline.Reply` | src/worker.rs:2382-2396 | a reply is the ledger's confirm or refuse of the oldest key |
| `KeyPipeline.Pipeline.Lose` | src/worker.rs:4048-4062 | a lost connection is the ledger's loss with every key in flight routed again |
| `KeyLedger.ShapeKept` | src/worker.rs:1950-2396 | a connection's in-flight keys are the client's unanswered ones, in order, with what is still to be requeued behind them |
| `KeyLedger.CountersSettle` | src/runner.rs:597-619 | once as many keys are confirmed as counted, every counted key was acknowledged exactly once and none waits |
| `KeyLedger.ConservedKept` | src/worker.rs:1950-2396 | each issued key is in exactly one place or acknowledged, the counters count it, and every id below the head was acknowledged: kept by every event |
| `Recency.Sampler.SampleGeneration` | src/keydist.rs:213-218 | a draw picks the generation whose share of the unit interval it falls in |
| `Recency.Sampler.Sample` | src/keydist.rs:221-245 | a sample is below a positive head for every draw, even where products wrap; a hot read lands in its generation, any other in the body once there is one |
| `RoutedQueues.NodeQueue.Push` | src/worker.rs:713-726 | a full queue refuses and is unchanged; otherwise the request is last and the longest-waiting live entry is woken |
| `RoutedQueues.NodeQueue.WakeNext` | src/worker.rs:719-724 | the pop loop drops dead entries up to the first live one and wakes that |
| `RoutedQueues.NodeQueue.Pop` | src/worker.rs:728-730 | the front request is taken, or none from an empty queue |
| `RoutedQueues.NodeQueue.Compact` | src/worker.rs:652-654 | compacting keeps exactly the live entries, in order |
| `RoutedQueues.NodeQueue.Poll` | src/worker.rs:634-663 | ready when closed or a request is queued; otherwise the wait keeps one live entry, registering a new one only if it has none |
| `RoutedQueues.NodeQueue.Release` | src/worker.rs:666-672 | a wait that returns or is dropped leaves a dead entry |
| `RoutedQueues.NodeQueue.WakeAll` | src/worker.rs:752-756 | draining wakes exactly the live entries and empties the list |
| `RoutedQueues.NodeQueue.Close` | src/worker.rs:749-758 | every waiter is woken and none is left waiting |
| `RoutedQueues.PushWakesLongestWaiting` | src/worker.rs:710-726 | the connection woken is the live one that registered first, and no other |
| `RoutedQueues.LiveAreFew` | src/worker.rs:652-654 | live entries are at most one to a connection, so a compacted list has room |
| `RoutedQueues.ApplyKeepsValid` | src/worker.rs:631-759 | every operation keeps the queue valid: no wake lost, at most one live entry a wait, the bounds |
| `Spread.SlicesTile` | src/worker.rs:3679-3694 | the workers' contiguous slices start at 0, meet, and end at the total |
| `Spread.EachConnectionHasOneWorker` | src/worker.rs:1379-1406 | every connection is in the slice of exactly one worker |
| `Spread.RoomExactlyWhereServed` | src/worker.rs:1084-1094 | a worker's queue for a node accepts requests exactly when the worker has a connection to that node |
| `KeyShare.FurthestBelow` | src/worker.rs:1464-1471 | the endpoint chosen is the last of those furthest below their target |
| `KeyShare.FurthestAbove` | src/worker.rs:1475-1481 | the endpoint chosen is the first of those furthest above their target that have more than one connection |
| `KeyShare.AddConnections` | src/worker.rs:1463-1474 | the first loop ends at the total with every count still within one of its target |
| `KeyShare.TakeConnections` | src/worker.rs:1475-1484 | the second loop ends at the total with every endpoint that owns keys keeping one |
| `Interleave.Deal` | src/worker.rs:1485-1492 | every slot appears once, in position order, ties by endpoint |
| `Interleave.Insert` | src/worker.rs:1491 | a slot is placed where the order wants it |
| `Interleave.BeforeTransitive` | src/worker.rs:1491 | the slot order is transitive |
| `Interleave.BeforeTotal` | src/worker.rs:1491 | two different slots are ordered one way and one only |
| `Interleave.EarliestFirst` | src/worker.rs:1485-1492 | the connections of an endpoint among the first n are its earliest |
| `Interleave.OrderIsBalanced` | src/worker.rs:1431-1436 | the endpoints in dealt order are balanced in every prefix |
| `Interleave.ShareOut` | src/worker.rs:1453-1492 | the connections counted per endpoint: at least one with keys, none without, within one of the target exactly when the first allotments fit, and balanced in every prefix |
| `Seeds.FoldUndone` | src/worker.rs:3721-3726 | the xor-shift steps are invertible on words |
| `Seeds.TimesUndone` | src/worker.rs:3721-3726 | multiplying by an odd constant is undone by its inverse |
| `Seeds.PositionReadsBack` | src/worker.rs:3715-3718 | within its bounds a position determines role, worker and index |
| `Discovery.HeaderReadsBack` | src/autodiscovery.rs:249-270 | a header line is read as a data block of the length it states |
| `Discovery.BlockFaults` | src/autodiscovery.rs:262-281 | a block longer than the limit, and one not followed by END, are refused, and for nothing else |
| `Discovery.LineFaults` | src/autodiscovery.rs:249-290 | a line that is not a status is refused as no text, as no data block header, or for its length, each exactly when it is that |
| `Utf8.Utf8IsEncodedText` | src/autodiscovery.rs:249-253 | a header is accepted as text exactly when its bytes encode a sequence of Unicode scalar values |
| `Discovery.StatusReadsBack` | src/autodiscovery.rs:249-258 | END is an empty response and an error line an error, complete with their line break |
| `Discovery.DecimalReadsBack` | src/autodiscovery.rs:262-267 | a decimal length parses back to itself |
| `Discovery.Request` | src/autodiscovery.rs:207-239 | the read loop returns what `Answer` says of the reads |
| `InFlightTimer.ArmedInTimeExactly` | src/worker.rs:4411-4420 | a timer goes off by the oldest deadline exactly when it was armed by then |
| `InFlightTimer.InFlight.Bound` | src/worker.rs:4453-4465 | a bounded receive keeps the running timer, or arms one for the deadline or at once |
| `InFlightTimer.InFlight.Await` | src/worker.rs:4467-4494 | the poll loop: no reply seen is passed over, a timeout only past the deadline, never pending beyond it; the timer runs on past a reply, for the deadline once it has gone off early |
| `InFlightTimer.InFlight.Push` | src/worker.rs:4362-4374 | one more entry in each record that is kept |
| `InFlightTimer.InFlight.Pop` | src/worker.rs:4379-4382 | the oldest entry leaves every record, returning its queue wait |
| `InFlightTimer.InFlight.NoteDiscarded` | src/worker.rs:4282-4294 | after a failed send the record has one entry for each request the client still counts |
| `InFlightTimer.InFlight.Arm` | src/worker.rs:4398-4406 | an armed timer goes off at the deadline, or at once if that has passed |
| `InFlightTimer.InFlight.PollTimer` | src/worker.rs:4472-4491 | a timer gone off before the deadline is armed again for exactly the deadline; at or after it, the request times out |
| `InFlightTimer.InFlight.Unbounded` | src/worker.rs:4451-4455 | without a deadline only the reply ends the wait |
| `SaturationSearch.RateSearch.constructor` | src/saturation.rs:103-131 | a new search climbs from `start_rate`, with nothing measured |
| `TraceRows.TraceReplay.MarkDone` | src/tracereplay.rs:286-290 | `done` grows by the number given |
| `KvDispatch.KvSlot.Complete` | src/kvreplay.rs:529-544 | a slot is completed with a request or with none |
| `KeyQueues.PrefillQueues.constructor` | src/worker.rs:938-943 | at least one queue, all empty |
| `KeyQueues.PrefillQueues.PushBack` | src/worker.rs:945-947 | the key is last in its endpoint's queue and no other queue changes |
| `KeyQueues.PrefillQueues.PushFront` | src/worker.rs:949-951 | the key is first in its endpoint's queue and no other queue changes |
| `KeyQueues.PrefillQueues.PopFront` | src/worker.rs:953-955 | the oldest key is taken, or none from an empty queue |
| `Recency.Sampler.constructor` | src/keydist.rs:169-204 | the cumulative weights increase to 1, each generation's share is proportional to decay^age, and a newer generation is never colder |
| `Recency.Sampler.StoreHead` | src/runner.rs:818-824 | publishing a batch moves the head |
| `RoutedQueues.NodeQueue.constructor` | src/worker.rs:689-708 | capacity is connections x depth x 16, and the waiter bound twice the connections plus 16 |
| `InFlightTimer.InFlight.constructor` | src/worker.rs:4344-4352 | nothing in flight, no timer |

## Left out

The model covers the coordination logic of the load generator. These parts of the repository are outside it:

- Sockets, TLS, the async executor, io_uring, wakers and CPU pinning: a task runs between two awaits as one step, and a wake is a flag; how soon a woken or sleeping task runs is not modelled.
- The RESP client: only its contract is used. It counts unanswered requests, replies come in order, and a failed fire or flush drops exactly what was buffered since the last flush.
- Parquet decoding, footers and the kvtrace and cachetrace readers: a reader step produces or skips one row.
- The rate limiter: a token request is granted or refused by the surroundings.
- Rounding of 64-bit floats: rates, shares, weights and tolerances are real numbers.
- Memory orderings: each atomic operation is one step.
- Histograms, metrics, formatters, the admin server and the viewer.
- Memcache drive loops: they keep the same ledgers as the RESP loops.
- Key rendering, ketama and CRC16: a key's route is an arbitrary endpoint in range that may change between steps.
- Phase::Stop: rows, requests and keys still in flight when the run is stopped are left uncounted, so the ledgers speak of states before it.
- Trace replay, `must_flush_first` and the pipeline-depth guard: the model may flush, or fire on, at any time, which allows more runs than the code has.
- Trace replay, backfills: whether a miss is to be filled (the setting, and the size limit) is left open.
- Trace replay, a reader that panics loses the rows of the batch it had not counted, as in the code.
- KV replay, waking at once: a request handed back while the dispatcher sleeps may wait for the nap, so no bound on that wait is claimed.
- KvRequest.RunRequest: a connection that answers every command; the paths where a send fails, a reply does not parse or the connection closes part way end the request with what was set so far and are covered only as hand-backs in the dispatcher.
- KvRequest.ReplayTwice: assumes a server that evicts nothing and answers every GET for an object it holds.
- KeyLedger.PrefillWritesEachKeyOnce: the confirm counter is unbounded; the per-worker completion marker, whose total is always zero, is not modelled.
- Saturation: the sampling windows, the percentiles, and the pause between rates; the search sees a pass or fail and a latency.
- RoutedQueues.NoWakeIsLost: a connection that dies between its wake and its next look at the queue keeps owing that look; the shared slots are numbered cells instead of counted references.
- Spread.NodeCheckIsExact: the code makes the check only with more than one node; with one node and fewer connections than threads some worker has no connection and no queue with room.
- Recency.Sampler.Sample: the draws are parameters; nothing is claimed about the quality of the random numbers.
- Seeds: words are numbers below 2^64 with exclusive or and shifts defined on their binary digits.
- Interleave.Deal: the library sort is an insertion sort; the order is strict and total, so the result is the same.
- Discovery: `parse_config`, `parse_node`, name resolution and the retry with the legacy command; the deadline stream is a read that may time out.
- InFlightTimer: the claim in the comment at `src/worker.rs:4438-4440` that a running timer is never later than the true deadline does not hold when the timer is armed for a request whose deadline has passed: it is late then, and left running it can be late for the next request too, as in `LateTimer`; `RunningTimerInTimeExactly` says when it holds.
- The dispatcher of unrouted tokens, connection setup, cluster redirects and value generation.
