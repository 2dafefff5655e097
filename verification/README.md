# Operations, leases and accounting: a verified model

Customers submit operations; workers claim them under leases; results become usage events, ledger
entries and webhooks. This Dafny project models that protocol, with every SQL statement and Redis call
as a separate step and any number of requests, workers, reapers, pollers and dispatchers interleaving,
and proves what its runs keep. `dafny verify dfyconfig.toml` checks everything.

## How it is laid out

| file | contents |
|---|---|
| Domain, Rows, Tables | the status table, one operation row with its guarded UPDATEs and its history, the shared tables |
| Protocol, Effects | the interleaving machine of the operations service; what one step can change |
| Leases, Concurrency, Cursor, Creation, Addressing | invariants of every run |
| Budget, Charges, Stranding, Backoff | results that need workers to have one request outstanding and reapers to be timely |
| Agent, Discipline, Undisciplined | the enterprise worker's loop with its 45-second calls; when sequential clients make disciplined runs; two runs in which they do not |
| Redriving | which operations are stranded, redrives included, and how they get there |
| Handlers, Service, Alone | each handler as imperative code, proved against a function; what the functions amount to; the uninterrupted handler is reached by a run of the machine |
| Scenarios, Attained | concrete runs: a redrive strands an operation, the charge bound is attained for every budget, an event is dropped |
| Keys | event keys and workflow ids as strings |
| Usage, Accounting, Ledger, Webhooks | the outbox, ledger and webhook tables, the interleaving machine over them, its invariants |
| Books, AccountingService, AccountsAlone | the same pipeline as imperative code, and its tie to the machine |
| World | both machines joined: from attempts to charges |
| RateLimit | the gateway's fixed-window counter |

A run is a sequence of states from an initial one, consecutive states related by the machine's `Next`.
"In any run" below means just that. A `DisciplinedRun` adds: a worker id has one poll, claim or failure
report outstanding at a time; a committed claim has at least `window` seconds of lease left; a reaper
reaches each row of a batch within `window` seconds of its SELECT; and 0 < `window` <= 30. The first of
these is not something a sequential client gives by itself: the enterprise worker waits 45 seconds for an
answer and then goes on, whatever the handler is doing. Discipline.DisciplinedExactly says that the
disciplined runs are exactly the runs of such clients in which no handler is still at work when its client
gives up and opens its next call, and claims and reapers are in time. Module Undisciplined has one run with
nothing late but a report, and one with nothing late but a reaper; both overrun an attempt budget.

## Modelling assumptions

- A SQL statement is atomic and sees the latest committed state. `SELECT ... FOR UPDATE` locks the row until the transaction ends, and an UPDATE whose WHERE clause matches the row waits for that lock. A claim's UPDATE becomes visible at its commit, and `now()` in it is the time its transaction began.
- The UPDATE and `insertEvent` of one transaction become visible together.
- Stream ids are positions in the stream: message k has id k+1, and cursor value c has passed the first c messages.
- Starting a workflow under an id used before does not run it again. A workflow that crashed runs its step again from the start. A step that returns an error, as opposed to crashing, is not modelled.
- A handler that committed a transition and then starts a workflow, and a create between its INSERT and its RunWorkflow, are not cut in between; any other handler may die at any step.
- The status read at cmd/operations/main.go:525 succeeds.
- Operation ids are uuids: fresh, and without a colon.
- A client's call ends with the handler's answer or when the client has waited its time (45 seconds in cmd/enterprise-worker/main.go:31, 30 by default in internal/platform/config.go:45); connections do not break before that. Its clock starts at the handler's first statement: time a request spends before that is not counted.
- The clock never runs backwards. Times are seconds, and milliseconds in RateLimit, where gateway and Redis may differ in what they read.
- A Redis counter is gone at the very millisecond of its expiry. Where Redis still keeps it for that one, the ten seconds of RateLimit are ten seconds and a millisecond.
- `history`, `replies`, `posts`, `accepted`, `audiences` and the `entry`, `posted`, `backoff` fields of a webhook row are not in the source: they record what happened so that properties can speak of it.

## Where code and documentation differ

- docs/codebase.md:462 gives `webhook_outbox` a unique (endpoint, event type, operation) key. The migration declares none, and under retries such rows do repeat; what holds is one row per ledger entry and endpoint (Webhooks.OneHookPerListener).
- docs/api.md:330 has cancel answer 409 for a missing operation. The code answers 404 (cmd/operations/main.go:313-314), and so does the model.
- docs/architecture.md:47 calls DEAD_LETTERED terminal. Redrive leaves it (cmd/operations/main.go:328); Leases.ChangesFollowTable names that one exception.
- docs/architecture.md:48 says retries cannot double charge. No event is charged twice (Ledger.LedgerKeysOnce), but every failed private attempt is an event of one unit, so an operation that retries is charged once per attempt (World.ChargeBound).

## What turned out not to hold

- A redrive sets `attempt` to 0 (cmd/operations/main.go:328), so `retry:<id>:<attempt>` can name a workflow that has already finished. A private operation whose close found its id used, and of which no unfinished workflow, unread message, claim or start is left, is stranded (Redriving.StrandedExactly): it stays RETRYING until someone cancels it or claims it by name, and a redrive does not match it (Redriving.StrandedUntilRescued, Redriving.RescuesAreOpen). Scenarios.RedriveCanStrand is a run that ends so. If the id was unused the workflow is there until the operation leaves RETRYING (Redriving.UnusedIdStaysReady), and without a redrive no operation is ever stranded.
- For the same reason event keys repeat after a redrive, and an event whose key is taken is dropped. Attained.RedriveDropsEvent is a run that ends so. An operation has as many events as closes that emit one if and only if none of them found its key taken (Charges.AllRecordedExactly), which is the case whenever it was never redriven (Charges.NeverRedrivenAllRecorded); a key is taken if and only if an earlier close of that type and attempt number emitted it (Charges.TakenExactly). The bound 2*max_attempts of World.ChargeBound takes this into account, and for every max_attempts there is a run that records that many events (Attained.ChargeBoundAttained).
- The attempt budget rests on the discipline above: Undisciplined.OutstandingReportOverspends and Undisciplined.LateReaperOverspends are runs in which an operation is RETRYING with its budget spent. In any run the budget holds if and only if no step writes a RETRYING its row cannot afford (Budget.RunKeepsBudgetExactly).
- A webhook row left IN_FLIGHT by a dispatcher that died, or by an UPDATE that was lost, is never picked again (Webhooks.OrphanedForGood). A row is lost in this way if and only if one of those two things happened to it (Webhooks.OrphanedExactly); Webhooks.RowIsLost is a run that ends so.
- The rate limiter counts exactly, and its limit holds, if and only if the most by which a request reaches Redis after the time the gateway read, and the most by which it does so before it (a gateway's clock may be ahead), are ten seconds together (RateLimit.ExactUpToTenSeconds, RateLimit.LimitedUpToTenSeconds).

## Model

| member | source | states |
|---|---|---|
| Domain.TerminalExactlyWithoutExit | internal/domain/state.go:18-29 | a status is terminal exactly when the table has no edge out of it |
| Domain.ClaimableExactly | internal/domain/state.go:18-26 | the statuses that may become RUNNING are the ones the claim statement selects, QUEUED and RETRYING |
| Domain.RetryDelay | internal/domain/state.go:31-39 | two clamps and a shift give 2^attempt seconds within 2..64 |
| Domain.DelayMonotone | internal/domain/state.go:31-39 | a later attempt never waits less |
| Domain.DelaySumClosedForm | internal/domain/state.go:31-39 | delays of attempts 1..n add up to 2^(n+1)-2 for n<=6 and 126+64(n-6) beyond |
| Domain.MixedSumBounds | cmd/operations/main.go:754 | any mix of retries and two-second recoveries lies between 2n and that sum |
| Backoff.BackoffAtMostDelaySum | cmd/operations/main.go:629-632 | in any disciplined run the delays an operation's history adds up are at most those of its first max_attempts attempts, if it is never redriven |
| Backoff.RunGivesScheduledDelay | cmd/operations/main.go:630-631 | in any disciplined run the notBefore a retry or recovery workflow is given is what its close adds to that sum |
| Backoff.DelayIsObserved | cmd/operations/main.go:105-109 | in any run a workflow never runs its UPDATE before the notBefore its starter was given |
| Rows.UpdateKeepsSound | cmd/operations/main.go:394 | each guarded UPDATE keeps lease columns, status and version functions of a fenced history |
| Rows.EveryClaimClosedOnce | cmd/operations/main.go:394-463 | in a fenced history claims and closes alternate, one close per claim except an open last one |
| Rows.FinalStatuses | internal/domain/state.go:18-29 | SUCCEEDED and CANCELLED are absorbing, DEAD_LETTERED is left only by redrive, FAILED is never entered |
| Rows.BudgetKeptExactly | cmd/operations/main.go:394 | claim checks no budget: an UPDATE keeps it if and only if its way into RETRYING was affordable |
| Rows.MeasureDecreases | cmd/operations/main.go:120-750 | every status change but a redrive decreases (attempts left, status rank) |
| Rows.UpdateKeepsVersionBound | cmd/operations/main.go:328 | the version bound survives every UPDATE, a redrive paying 3*max+1 |
| Rows.VersionBound | cmd/operations/main.go:328 | version counts the status changes and is at most 3*max + r*(3*max+1) after r redrives |
| Effects.StepEffects | cmd/operations/main.go:115-757 | a step writes at most one row, by one of the guarded UPDATEs or create's INSERT; rows keep tenant, mode, key and budget; stream and clock only grow |
| Effects.StepLocal | cmd/operations/main.go:363-405 | a step moves one handler at most and releases no one else's locks |
| Effects.StepQueues | cmd/operations/main.go:104-145 | only a workflow's own publish adds a message, its own envelope; only RunWorkflow adds a workflow; only a poll's SET moves a cursor |
| Effects.StepEvents | cmd/operations/main.go:639-645 | an event enters the outbox only with the private report or dead-lettering that causes it, and never twice under one key |
| Effects.StepStarts | cmd/operations/main.go:629-635 | a handler owes a RunWorkflow call exactly when its last step committed one |
| Leases.LeaseExactlyWhenRunning | cmd/operations/main.go:394-429 | in any run lease_owner and lease_expires_at are set exactly when RUNNING and name the latest claimant; one close per claim |
| Leases.ChangesFollowTable | internal/domain/state.go:18-26 | in any run every status change is an edge of the table, except redrive's DEAD_LETTERED to RETRYING; nothing writes FAILED |
| Leases.QueuedOncePerEntry | cmd/operations/main.go:120 | in any run, whatever crashes, the row moves to QUEUED at most once per entry into PENDING or RETRYING |
| Leases.VersionCountsChanges | cmd/operations/main.go:120-750 | a step bumps version exactly when it changes the status and appends one history entry |
| Leases.StrangersChangeNothing | cmd/operations/main.go:411-463 | heartbeats and reports of anyone but the latest claimant change nothing |
| Concurrency.ConcurrencyLimit | cmd/operations/main.go:363-405 | in any run, with lock, count, update and commit interleaving, a tenant has at most concurrency_limit RUNNING operations |
| Concurrency.ClaimAlwaysHits | cmd/operations/main.go:398-400 | the "rows affected is not one" branch is unreachable |
| Concurrency.CountAfter | cmd/operations/main.go:387-394 | only a claim adds a RUNNING operation, and it adds one |
| Concurrency.StepRespects | cmd/operations/main.go:371-394 | a locked row is written only by the claim that holds the lock |
| Addressing.RunAddressed | cmd/operations/main.go:137-141 | in any run every envelope in the stream, in a workflow or in a handler describes an existing row truly |
| Cursor.QueuedNeverPassed | cmd/operations/main.go:489-535 | in any run a private QUEUED operation has a message its tenant's cursor has not passed, or is owed one by the workflow that queued it |
| Cursor.StoredCursorIsSafe | cmd/operations/main.go:507-526 | every value any poller stores, forwards or backwards, is safe at that moment |
| Cursor.QueuedIsPublished | cmd/operations/main.go:115-145 | whatever crashes, once no step is under way a QUEUED operation has a message |
| Cursor.SafeAdvances | cmd/operations/main.go:524-527 | a message may be passed exactly for the reason the status check gives: nothing QUEUED needs it |
| Cursor.SafeStays | cmd/operations/main.go:489-535 | a safe cursor value stays safe under every step of anyone |
| Budget.AttemptBudget | cmd/operations/main.go:459-463 | in any disciplined run 0 <= attempt <= max, strictly less when PENDING, QUEUED or RETRYING, at least 1 when RUNNING |
| Budget.RunKeepsBudgetExactly | cmd/operations/main.go:602-750 | in any run, disciplined or not, every operation stays within its budget if and only if no step writes a RETRYING its row cannot afford |
| Budget.StaleReadHarmless | cmd/operations/main.go:595-616 | if a failure report's UPDATE hits, the attempt it read is the attempt it closes |
| Budget.ReaperHitsSeenLease | cmd/operations/main.go:720-750 | if a reaper's UPDATE hits, the row is in the very lease its batch read |
| Budget.EveryChangeProgresses | cmd/operations/main.go:120-750 | in any disciplined run every status change but a redrive decreases the measure |
| Budget.VersionIsBounded | cmd/operations/main.go:328 | in any disciplined run version equals the number of changes and obeys the bound with redrives |
| Budget.WritesAffordable | cmd/operations/main.go:602-611 | decisions taken on stale reads are affordable for the row as it is when written |
| Discipline.DisciplinedExactly | cmd/enterprise-worker/main.go:31-53 | the disciplined runs are exactly those of clients that open a call when the last was answered or given up, in which no handler outlives its client's patience and claims and reapers are on time |
| Discipline.AgentsIdleExactlyInTime | cmd/enterprise-worker/main.go:31-53 | in any run of such clients every request finds its worker idle if and only if every handler is through in its client's time |
| Discipline.IdleExactlyInTime | cmd/enterprise-worker/main.go:112-130 | while each worker has no handler but that of its latest request, it is idle exactly when its client may open a call and that handler is in time |
| Undisciplined.OutstandingReportOverspends | cmd/operations/main.go:595-616 | a run of such clients, claims and reapers on time, in which a report outlives its 45 seconds, the worker polls, and the budget is overrun |
| Undisciplined.LateReaperOverspends | cmd/operations/main.go:719-757 | a run of such clients, all handlers in time, in which a late reaper closes a newer lease and the budget is overrun |
| Charges.EventBound | cmd/operations/main.go:639-645 | in any disciplined run an operation records at most 2*max_attempts events of one unit, at most max_attempts if never redriven |
| Charges.EmitCloses | cmd/operations/main.go:618-625 | an event's key is the attempt its transition closes and its type the status entered |
| Charges.RecordedOrDropped | cmd/operations/main.go:639-645 | in any run the events an operation's closes emit are the recorded ones and the dropped ones, each counted once |
| Charges.AllRecordedExactly | cmd/operations/main.go:639-645 | in any run each of them is recorded if and only if none found its key taken |
| Charges.TakenExactly | cmd/operations/main.go:618-625 | in any run a key is taken if and only if an earlier close with that type and attempt number emitted it |
| Charges.DropNeedsRedrive | cmd/operations/main.go:328 | in any disciplined run an event is dropped only of an operation that was redriven |
| Charges.NeverRedrivenAllRecorded | cmd/operations/main.go:618-645 | in any disciplined run a never redriven operation has an event for each close that emits one |
| Charges.KeysAtMostTwiceBudget | cmd/operations/main.go:602-623 | failed below max, dead_lettered up to max, succeeded once: 2*max keys at most |
| Charges.DistinctAttempts | cmd/operations/main.go:623 | keys of distinct attempts 1..n are n at most |
| Creation.AnswersAgree | cmd/operations/main.go:198-215 | in any run all answers for one (tenant, key) name the one row with that key |
| Creation.OneWorkflowPerKey | cmd/operations/main.go:211 | in any run at most one operation: workflow exists per (tenant, key) |
| Creation.EveryRowStarts | cmd/operations/main.go:198-215 | in any run every row's workflow is started or about to be by its create |
| Creation.ReadBackFinds | migrations/001_init.sql:54 | the SELECT after the INSERT finds one row, and only one can answer |
| Stranding.NoOperationStranded | cmd/operations/main.go:104-145 | in any disciplined run PENDING and never redriven RETRYING operations have a workflow that will publish them, private QUEUED ones an unpassed message or an owed one, RUNNING ones a lease to expire |
| Stranding.WaitingPublishes | cmd/operations/main.go:115-145 | a waiting workflow, once due, gets its operation QUEUED and into the stream in three steps |
| Stranding.ExpiredIsReaped | cmd/operations/main.go:720-750 | a lease that ran out, with fewer than 50 that did so no later, is in every batch the reaper's SELECT can answer, and its UPDATE takes it |
| Redriving.StrandedExactly | cmd/operations/main.go:328-335 | in any disciplined run a RETRYING operation got there by a step that committed to start its workflow; if that id was unused the workflow is still to come, and the operation, if private, is stranded if and only if the id was used and no workflow, message, claim or start of it is left |
| Redriving.StrandsExactly | cmd/operations/main.go:632 | in any run a report, reap or redrive leaves its operation stranded if and only if its workflow id was used and nothing else of the operation was left before it |
| Redriving.StrandedUntilRescued | cmd/operations/main.go:104-145 | in any run a stranded operation stays so until a cancel of it or a claim that names it |
| Redriving.RescuesAreOpen | cmd/operations/main.go:371-394 | a stranded operation can be claimed by name and cancelled, and cannot be redriven |
| Redriving.UnusedIdStaysReady | cmd/operations/main.go:629-632 | in any run, redriven or not, an operation whose close found its id unused has that workflow coming until it leaves RETRYING |
| Redriving.WaitingCanQueue | cmd/operations/main.go:105-120 | a workflow before its UPDATE gets its RETRYING operation queued once it is due |
| Redriving.LoggingCanPublish | cmd/operations/main.go:133-145 | one between its UPDATE and its message adds a message from which the RETRYING operation can be claimed |
| Redriving.CheckingIsInVain | cmd/operations/main.go:124-132 | one in its status check finishes without a message or a change to any row |
| Redriving.RestartedCanQueue | cmd/operations/main.go:104-145 | after a crash any unfinished workflow gets its RETRYING operation queued once it is due |
| Redriving.NeverRedrivenNeverStranded | cmd/operations/main.go:104-145 | in any disciplined run an operation never redriven is never stranded |
| Scenarios.RedriveCanStrand | cmd/operations/main.go:328 | a disciplined run that leaves a redriven operation stranded |
| Attained.ChargeBoundAttained | cmd/operations/main.go:328 | for every max_attempts, a disciplined run in which an operation records exactly 2*max_attempts events |
| Attained.RedriveDropsEvent | cmd/operations/main.go:639-645 | a disciplined run whose last step drops a redriven operation's second failed:1 event |
| Handlers.EnqueueSurvivesCrashes | cmd/operations/main.go:115-145 | for any sequence of crashes the row is queued once and one message is added plus one per run that died after adding it |
| Handlers.TurnDecides | cmd/operations/main.go:504-531 | one turn of the poll loop passes the message or decides the poll as its specification says |
| Handlers.ScanPasses | cmd/operations/main.go:503-533 | passing an unwanted message first leaves the outcome of the scan unchanged |
| Handlers.FirstWanted | cmd/operations/main.go:503-533 | the first message of the batch this tenant could claim, or the batch's end |
| Handlers.FailOutcome | cmd/operations/main.go:582-616 | a holder's failure report retries exactly when asked to and within budget, releases the lease, and touches no other operation |
| Handlers.FailTrail | cmd/operations/main.go:618-635 | it starts the attempt's workflow, if that id is unused, exactly when it retries, and records one event on the private route |
| Handlers.ClaimOutcome | cmd/operations/main.go:387-394 | a successful claim leaves the operation RUNNING in a lease of the worker's, one attempt further, and its tenant within the limit |
| Handlers.CompleteOutcome | cmd/operations/main.go:551-581 | a holder's completion succeeds the operation, releases the lease, records one event on the private route, and touches nothing else |
| Handlers.CancelOutcome | cmd/operations/main.go:305-310 | a cancelled operation is final: no statement matches its row and no worker holds it |
| Handlers.RedriveOutcome | cmd/operations/main.go:328-335 | a redrive gives back the whole budget and starts a workflow that is due at once |
| Handlers.ReapClosesBatch | cmd/operations/main.go:719-757 | an uninterrupted reap closes every row of its batch by its budget, with event or workflow |
| Handlers.ReapFrame | cmd/operations/main.go:719-757 | and leaves every other operation alone |
| Handlers.ExpiredIsPicked | cmd/operations/main.go:720 | an expired lease with fewer than 50 that expired no later is in every batch the SELECT can answer |
| Handlers.ReapClosesOldest | cmd/operations/main.go:719-757 | so an uninterrupted reap closes it |
| Service.OperationsService.EnqueueOperationStep | cmd/operations/main.go:115-145 | one run of the step, dying anywhere, has the effect its specification gives |
| Service.OperationsService.QueueOperationWorkflow | cmd/operations/main.go:104-113 | the step re-run after each crash has the effect EnqueueSurvivesCrashes is about |
| Service.OperationsService.ClaimOperation | cmd/operations/main.go:363-405 | claims exactly a claimable row of the expected tenant below its limit |
| Service.OperationsService.WorkerPoll | cmd/operations/main.go:480-535 | refines the simple poll: claim the first claimable message of the next 50 below the limit, else stop before it, else pass the batch |
| Service.OperationsService.TryMessage | cmd/operations/main.go:504-531 | one message: pass it, claim it or stop |
| Service.OperationsService.ScanBatch | cmd/operations/main.go:503-533 | the loop over the batch |
| Service.OperationsService.WorkerHeartbeat | cmd/operations/main.go:406-419 | extends the lease of its holder only; 45 seconds on the private route, 30 on the other |
| Service.OperationsService.WorkerComplete | cmd/operations/main.go:551-581 | succeeds for the holder only, recording one event on the private route |
| Service.OperationsService.WorkerFail | cmd/operations/main.go:582-637 | the holder's report has the outcome FailOutcome and FailTrail are about |
| Service.OperationsService.ReapExpiredLeaseBatch | cmd/operations/main.go:719-757 | given the SELECT's answer, the loop closes every row of it as its budget says |
| Service.OperationsService.Create | cmd/operations/main.go:147-216 | a new key inserts one row and starts its workflow; a known key changes nothing and names its row; a request without task type, web URL, valid mode, budget or key is refused |
| Service.OperationsService.CancelOperation | cmd/operations/main.go:305-324 | cancels what is not terminal; 404 for no row, 409 for a terminal one |
| Service.OperationsService.RedriveOperation | cmd/operations/main.go:325-340 | redrives FAILED and DEAD_LETTERED rows of the tenant, resetting attempt |
| Alone.PollAlone | cmd/operations/main.go:480-535 | what an uninterrupted poll does is reached by a disciplined run of the machine |
| Alone.ClaimAlone | cmd/operations/main.go:363-405 | so is what a claim does, granted or refused |
| Alone.CreateAlone | cmd/operations/main.go:147-216 | so is what a create does, with a new key, a known key or a bad request |
| Alone.FlowAlone | cmd/operations/main.go:104-145 | so is what a workflow does that does not crash |
| Alone.CrashesAlone | cmd/operations/main.go:104-145 | and what one does that crashes any number of times, anywhere in its step |
| Alone.FailAlone | cmd/operations/main.go:582-637 | so is what a failure report does, whoever sends it |
| Alone.CompleteAlone | cmd/operations/main.go:551-581 | so is what a completion does, whoever sends it |
| Alone.HeartbeatAlone | cmd/operations/main.go:406-419 | so is what a heartbeat does, whoever sends it |
| Alone.CancelAlone | cmd/operations/main.go:305-324 | so is what a cancel does |
| Alone.ReapAlone | cmd/operations/main.go:719-757 | so is what a reap does |
| Alone.RedriveAlone | cmd/operations/main.go:325-340 | so is what a redrive does, matching or not |
| Agent.Agent.Call | cmd/enterprise-worker/main.go:112-130 | a call ends with its answer, or after 45 seconds |
| Agent.Agent.Process | cmd/enterprise-worker/main.go:54-99 | one target call, then one report: complete on 2xx, else fail, retryable on no answer, 408, 429 and 5xx |
| Agent.Agent.Run | cmd/enterprise-worker/main.go:38-53 | the loop makes the calls of its rounds, each when the last one ended, two seconds later after a failed poll |
| Agent.CallsSequential | cmd/enterprise-worker/main.go:38-99 | between two polls there is at most one target call, and exactly one report for it |
| Agent.CallsInOrder | cmd/enterprise-worker/main.go:31-53 | no call is opened before the last one ended, which is when the other side was through or 45 seconds had passed |
| Agent.CallsObeyMayOpen | cmd/enterprise-worker/main.go:31-53 | so every call is opened under the rule the clients of Discipline follow |
| Agent.ApartExactlyWithinPatience | cmd/enterprise-worker/main.go:31 | no two of its calls are ever worked on at once if and only if none takes the other side more than 45 seconds |
| Agent.OverdueReportOverlaps | cmd/enterprise-worker/main.go:93 | a report that takes longer is still worked on when the next poll is opened |
| Keys.EventKeysDistinct | cmd/operations/main.go:623 | event keys of distinct events are distinct strings |
| Keys.FlowIdsDistinct | cmd/operations/main.go:632 | workflow ids of distinct workflows are distinct strings |
| Usage.FanOutExactly | cmd/usage/main.go:80 | one pending row for each endpoint enabled for the tenant, none for any other, none twice |
| Ledger.LedgerKeysOnce | cmd/usage/main.go:75 | in any run each key is in the ledger at most once, with its outbox row's contents |
| Ledger.DeliveredForGood | cmd/operations/main.go:695-699 | in any run DELIVERED is absorbing, stale failure reports notwithstanding, and implies the event is in the ledger |
| Ledger.LedgerSumExactly | cmd/operations/main.go:659-702 | in any run a tenant's or operation's ledger sum is the number of its outbox events received at least once |
| Ledger.NewlyDelivered | cmd/operations/main.go:695-697 | a row becomes DELIVERED only on a 202 for its own event |
| Ledger.ReceivedExactlyKnown | cmd/usage/main.go:75-90 | a key is in the ledger if and only if a request with it was accepted |
| Ledger.TotalCountsRows | cmd/usage/main.go:75-96 | a sum over a ledger of distinct unit entries counts the outbox rows behind it |
| Webhooks.OneHookPerListener | cmd/usage/main.go:79-84 | in any run an entry has exactly one webhook row per endpoint enabled when it was recorded, and no other |
| Webhooks.HeldByAtMostOne | cmd/usage/main.go:238-250 | in any run a row is in at most one dispatcher's hands, IN_FLIGHT |
| Webhooks.PostedAtMostEight | cmd/usage/main.go:295-299 | in any run a row is posted at most 8 times, has at most 7 attempts while PENDING or IN_FLIGHT, and DELIVERED means it was posted |
| Webhooks.BackoffAtMost254 | cmd/usage/main.go:300-301 | in any run its scheduled back-off is at most 254 seconds, 2^(attempt+1)-2 when PENDING |
| Webhooks.ClampNeverBinds | cmd/usage/main.go:300 | deliver finds its row as it was read, and min(attempt, 8) never binds |
| Webhooks.OrphanedForGood | cmd/usage/main.go:238-249 | in any run a row IN_FLIGHT in nobody's hands is never picked, posted or changed again |
| Webhooks.HowOrphaned | cmd/usage/main.go:291-301 | in any run a step leaves a row so if and only if its dispatcher dies or the UPDATE of its outcome is lost |
| Webhooks.OrphanedExactly | cmd/usage/main.go:238-301 | in any run a row is so if and only if one of these has happened to it |
| Webhooks.RowIsLost | cmd/usage/main.go:238-249 | a run that ends with a row so |
| Webhooks.SettledForGood | cmd/usage/main.go:291-301 | delivered and dead rows are never touched again and no row is removed |
| Books.RecordIdempotent | cmd/usage/main.go:75-85 | receiving an event any number of times equals receiving it once |
| Books.DispatchDecides | cmd/operations/main.go:678-700 | a row of the batch becomes DELIVERED exactly on its own confirmed reply, else is retried later |
| Books.DispatchFrame | cmd/operations/main.go:678-700 | rows outside the batch are left alone |
| Books.DispatchRecords | cmd/operations/main.go:678-700 | the ledger gains exactly the keys of events that arrived, replies or not |
| Books.DeliverOutcome | cmd/usage/main.go:291-301 | a 2xx delivers, any other outcome doubles the wait, the eighth is the last, a lost UPDATE changes nothing |
| Books.DueIds | cmd/operations/main.go:660 | the first twenty due rows, in order |
| Books.DueHooks | cmd/usage/main.go:238-245 | the first twenty due webhook rows |
| AccountingService.AccountingService.RecordEvent | cmd/usage/main.go:56-91 | ledger entry and fan-out for a new key, nothing for a known one, 400 on an empty field |
| AccountingService.AccountingService.DispatchEventBatch | cmd/operations/main.go:659-702 | the loop has the effect of its specification, whatever the network does |
| AccountingService.AccountingService.Deliver | cmd/usage/main.go:272-302 | one webhook: DELIVERED on 2xx, DEAD_LETTERED at the eighth failure, else PENDING with doubled delay |
| AccountingService.AccountingService.DispatchHookBatch | cmd/usage/main.go:232-271 | picks due rows, marks them IN_FLIGHT and delivers them in turn |
| AccountsAlone.DispatchAlone | cmd/operations/main.go:659-702 | an uninterrupted dispatch is a run of the accounting machine |
| AccountsAlone.DeliverAlone | cmd/usage/main.go:232-302 | so is an uninterrupted webhook dispatch |
| AccountsAlone.DispatchKeepsBooks | cmd/operations/main.go:659-702 | a dispatch in any reachable state, whatever becomes of its requests, records no key twice and nothing DELIVERED that the ledger lacks |
| AccountsAlone.DeliverKeepsBounds | cmd/usage/main.go:232-302 | a webhook dispatch in any reachable state posts no row a ninth time |
| World.ChargeBound | cmd/usage/main.go:75 | over both services a private operation is charged at most 2*max_attempts units, at most max_attempts if never redriven |
| World.ChargeComplete | cmd/operations/main.go:695-697 | once a private operation's outbox rows are DELIVERED its charge is exactly the events recorded for it |
| World.SameConflicts | migrations/002_operation_event_outbox.sql:3 | the string key conflicts exactly when the event was recorded before |
| RateLimit.CountsExactly | cmd/gateway/main.go:177-190 | a request is told exactly one more than the requests of its tenant and minute before it, and accepted iff fewer than the limit came before |
| RateLimit.AtMostLimitPerMinute | cmd/gateway/main.go:184-193 | at most limit accepted requests of a role per tenant and unix minute |
| RateLimit.TenantPerMinute | cmd/gateway/main.go:178-187 | both roles share the counter: at most 600 accepted requests per tenant and unix minute in all |
| RateLimit.AtMostTwiceLimitInSpan | cmd/gateway/main.go:177-193 | at most twice the limit in any 60-second span, by role and for the tenant as a whole |
| RateLimit.LimitedUpToTenSeconds | cmd/gateway/main.go:179-190 | the limit per minute holds for all request sequences if and only if the gateway's lead over Redis's clock and a request's lag behind it are ten seconds together at most |
| RateLimit.ExactUpToTenSeconds | cmd/gateway/main.go:179-180 | the count is exact for all request sequences under the same condition |
| RateLimit.MinuteKeysDistinct | cmd/gateway/main.go:178 | counters of distinct tenants and minutes have distinct keys |
| RateLimit.Gateway.Script | cmd/gateway/main.go:179 | increments the live counter, or starts a new one with its expiry |
| RateLimit.Gateway.Admit | cmd/gateway/main.go:174-195 | passes the request or answers 429 by role and count, 503 without touching a counter when Redis is away |
| RateLimit.Gateway.Serve | cmd/gateway/main.go:174-195 | a sequence of requests is answered as the counts say |

## Left out

- Cloud worker execution and its own events (cmd/worker/main.go): it keys events by the attempt before its claim and posts them straight to the usage service.
- World.ChargeBound: for private operations only, since a cloud worker's own posts are not modelled.
- World.ChargeComplete: for private operations only, for the same reason.
- Service.OperationsService.Create: leaves out admission by quota and running count (cmd/operations/main.go:181-197), which reads, acts much later and keeps no invariant, and the trimming of the key.
- Deadlines: stored and passed on, but only the cloud worker looks at them.
- The attempt number inside a poll's reply (cmd/operations/main.go:521): it is the envelope's plus one and may lag the row.
- Contents of transition_log, results, errors, explanations and payloads: opaque values.
- Errors of single statements inside the enqueue step: DBOS would mark the workflow failed; crashes are modelled.
- Agent.Agent.Process: the heartbeats beside a target call (they may come at any time in Protocol) and the time spent on explanations.
- Agent.Agent.Run: runs a given number of rounds, not for ever.
- Ledger.TotalCountsRows: sums over all time; the query at cmd/usage/main.go:96 keeps the current month.
- Service.OperationsService.ReapExpiredLeaseBatch: the SELECT's answer is a parameter, constrained to what the query can answer.
- Alone.RedriveAlone: the nonce is fresh, as a new uuid is.
- Outbox rows that fail to scan, and events posted by anyone but the outbox dispatcher.
- Event streams to browsers, authentication, proxying, webhook signatures, listing and administration.
- AccountingService.AccountingService.DispatchEventBatch: the network's treatment of each request is a parameter, not the HTTP client's code.
- Cursor.QueuedNeverPassed: says where the message is, not when a worker will poll it.
