# Verified model of the research platform's job queue and its neighbours

A Dafny model of the parts of the platform where a mistake would be expensive: the durable, lease-based job queue with its capacity counters, daily provider budget, quotas and event log; and six smaller mechanisms around it. Every property is proved for all inputs, all runs or all reachable states.

`dafny verify dfyconfig.toml` checks the whole project.

## How it is built

| part | files |
|---|---|
| job rows, status table, event log | `JobRegistry`, `JobStatusMachine`, `JobRows`, `JobRowProofs` |
| capacity counters and budget | `Capacity`, `CapacityLedger` |
| requests and passes over all tables | `JobProtocol`, `JobInvariants`, `JobTheorems`, `JobTraces`, `JobClaims` |
| what each request makes of a job's columns | `JobOutcomes`, `JobSubmissions` |
| what the columns say about the run behind them | `JobLineage` |
| bounds, retries and recovery over whole runs | `JobBounds`, `JobRecovery` |
| runs that reach the surprising states | `JobExamples` |
| counters and money over whole runs | `JobCapacityProofs`, `JobDrift`, `JobCostProofs` |
| the tables changed in place | `JobRowClass`, `CapacityLedger`, `Reconciliation`, `JobQueue` |
| document text to chunks | `TextPieces`, `Chunker`, `ChunkPlaces` |
| sliding-window limiter | `RateLimiter` |
| audit metadata | `AuditSanitizer`, `AuditIdempotence`, `AuditFidelity` |
| model route history | `ModelRoutes`, `RouteEvidence` |
| document versions | `DocumentVersions`, `DocumentOutcomes` |
| curated import with compensation | `CorpusImport` |

A job is a `Record`: the job row with its attempts, events and cost row. A `State` holds the records, the capacity rows, the quota rows and the lease tokens issued so far. Every API call and every recovery pass is one atomic step on it (`JobProtocol.Perform`); a step that raises leaves the state as it was, except where the code commits before raising. `IsRun` is any finite sequence of steps by any number of users, workers and operators, at any times, with arbitrary provider sessions, revocations and schema changes read from an `Env`.

`JobTraces` takes every step apart into single changes, so an invariant of counters or money is proved for one change and then holds over every run, at every point between two changes. Beside the invariants, the modules named `...Outcomes`, `JobSubmissions`, `JobLineage`, `RouteEvidence`, `ChunkPlaces` and `AuditFidelity` say what every operation answers and leaves in terms of columns, statuses, categories and settings alone, and which refusals there are, so that they can be read without the functions they are about.

The classes run the same requests the way the services do: a row is loaded, its columns assigned one after another, capacity rows moved scope by scope in loops, results written back, and everything restored when a request raises. Each method is proved equal to the step it implements.

Where the code does not keep a property one would expect, the model follows the code, and a lemma gives the exact condition and a concrete failure: the counter drift when an unsubmitted provider session is settled, a second one when a session has no time at all, a recovery pass refused for want of pending slots, account deletion with a pending cancellation, attempts beyond the limit after a release, a second sanitizing that changes metadata, an executor that writes late, an import that leaves objects behind, a re-promoted model marked as rolled back, a heading that a later one above its level does not displace. Two smaller points also follow the code: the final pick of a claim ignores the priority class, which only orders the scan window (`worker_protocol.py:100` and 651-663), and `document.status` follows the last upload rather than the current version (`service.py:435`).

Times are integers (seconds for jobs, nanoseconds for the limiter) and ids natural numbers; lease tokens and job ids are fresh, keyed hashes injective.

## Model

| member | source | states |
|---|---|---|
| `JobTheorems.ReachableJobs` | backend/app/jobs/worker_protocol.py:75-159 | In every reachable state: a lease is held iff the status is leased, running or cancel_requested; one attempt row per generation 1..n; only the current one open, open iff the lease is held; the log is 1..n and walks the table to the status; attempts and moves are bounded; no worker is over its concurrency |
| `JobInvariants.RunsKeepCore` | backend/app/jobs/worker_protocol.py:75-159 | Every run keeps all jobs sound, lease tokens bound to their job and generation, idempotency keys unique, workers within concurrency and quota rows within limits; and takes nothing back that a job has been through |
| `JobInvariants.StepKeepsCore` | backend/app/jobs/worker_protocol.py:75-648 | The same for each single request or recovery pass |
| `JobInvariants.ClaimKeepsCore` | backend/app/jobs/worker_protocol.py:75-159 | A claim, with its recovery, scan, failed capacity move or late expiry, keeps all of it |
| `JobInvariants.CallKeepsCore` | backend/app/jobs/worker_protocol.py:162-508 | Start, heartbeat, progress, complete, fail and release keep all of it |
| `JobInvariants.SubmitKeepsCore` | backend/app/jobs/control_service.py:70-184 | Submission keeps all of it |
| `JobInvariants.RecoverKeepsCore` | backend/app/jobs/worker_protocol.py:589-648 | Durable recovery with reconciliation, dry or not, keeps all of it |
| `JobRowProofs.ApplyKeepsSound` | backend/app/jobs/worker_protocol.py:75-586 | Every change a request makes to one job keeps its shape: attempts, lease, log, bounds, result and cost columns |
| `JobRowProofs.ApplyAdvances` | backend/app/jobs/worker_protocol.py:75-586 | No change shortens the log, reopens an attempt, lowers a generation, revives an ended lease or alters a terminal job beyond its tombstone |
| `JobStatusMachine.TableShape` | backend/app/jobs/constants.py:17-33 | Terminal exactly where no move is left; nothing returns to queued; and from which statuses each other one is reached |
| `JobStatusMachine.AppendKeepsNumbering` | backend/app/jobs/state.py:91-111 | The next event number keeps the log numbered 1..n |
| `JobStatusMachine.AppendReplays` | backend/app/jobs/state.py:38-71 | A transition event whose recorded previous status is the status reached so far leads the replayed log to its target |
| `JobStatusMachine.PagingIsComplete` | backend/app/jobs/control_service.py:296-309 | Following next_after_sequence visits every event after the mark exactly once, in order, for every positive page size |
| `JobStatusMachine.EmptyPageStops` | backend/app/jobs/control_service.py:296-309 | A page size of zero returns nothing and no mark |
| `JobTheorems.OnlyHolderIsServed` | backend/app/jobs/worker_protocol.py:666-702 | A request that is not denied quotes the current generation, its token and its worker, before the lease and the deadline run out |
| `JobTheorems.Fenced` | backend/app/jobs/worker_protocol.py:666-702 | Over whole runs: once a lease generation ended, no later request with its generation or token changes anything |
| `JobTheorems.CompletesOnce` | backend/app/jobs/worker_protocol.py:239-386 | A completed job stays as it is, with a result under its last generation and the worker that held it |
| `JobTheorems.LeaseStaysWithinHorizon` | backend/app/jobs/worker_protocol.py:866-880 | Whatever heartbeats follow, a lease never outlives the horizon fixed when the job was claimed |
| `JobSubmissions.FoundIffRepeated` | backend/app/jobs/control_service.py:111-184 | In every run a submission finds a job iff some job is of its type and key and both are for the same organization, or for none by the same owner; it then answers with that job, or 409 for another fingerprint, and changes nothing; otherwise it is created or refused |
| `JobSubmissions.OneJobPerKey` | backend/app/jobs/control_service.py:501-527 | In every run two jobs of the same type, key and subject are one job |
| `JobSubmissions.RepeatedSubmission` | backend/app/jobs/control_service.py:111-184 | However long after, a repeat with the same fingerprint returns the job and a repeat with another is refused; neither changes anything |
| `JobSubmissions.CreationOutcome` | backend/app/jobs/control_service.py:426-441 | Exactly which new jobs are refused, with which code and in which order: type switched off, a full scope or the budget (429), a forbidden type (403), an exhausted daily limit of plan or type (429); otherwise the quota row is one higher |
| `JobSubmissions.NewRowOutcome` | backend/app/jobs/control_service.py:467-497 | The row of a new job: owner, organization, key, deadlines, estimate, reservation and log, and what the day costs with it |
| `JobSubmissions.WatchlistsAreLimited` | backend/app/jobs/control_service.py:751-762 | In every run nobody submits more than 120 watchlist evaluations in a day |
| `JobSubmissions.ConsumptionOutcome` | backend/app/quotas/service.py:28-73 | A synchronous request draws on the row of the day iff it still has as much |
| `JobTheorems.CreatedSubmission` | backend/app/jobs/control_service.py:426-498 | A creating submission adds one row, charges its quota row exactly one unit within the limit, and takes one pending slot with room in each scope and nothing elsewhere |
| `JobInvariants.CreateAdds` | backend/app/jobs/control_service.py:750-801 | The quota row charged goes up by one and stays within its limit; no other row changes |
| `JobTheorems.PassIsPointwise` | backend/app/jobs/worker_protocol.py:523-586 | In whatever order the rows come, a pass treats each on its own, and completes only if every row allowed its change |
| `JobTheorems.PastDeadlineIsExpired` | backend/app/jobs/worker_protocol.py:523-541 | Every job that is not terminal at its deadline is seen by the recovery query |
| `JobTheorems.RecoveryFinishes` | backend/app/jobs/worker_protocol.py:523-586 | A completed pass leaves every job at or past its deadline terminal and others alone, and a second pass at the same time changes nothing |
| `JobTheorems.RecoveryCompletes` | backend/app/jobs/worker_protocol.py:523-586 | A pass over jobs past their deadline cannot be refused, whatever the counters hold |
| `JobRecovery.RecoveryCompletesIff` | backend/app/jobs/worker_protocol.py:570-585 | Without provider sessions a pass goes through iff each row it sends back finds a free pending slot in all its scopes, counting what the rows before it took and gave up; otherwise it is refused with 429 |
| `JobExamples.RecoveryRefusedHere` | backend/app/jobs/worker_protocol.py:570-585 | A run after which a recovery pass is refused: the user's pending slot is taken when the lease runs out |
| `JobTheorems.RevocationStopsJobs` | backend/app/jobs/lifecycle.py:55-106 | Revocation is never refused and leaves each job it concerns terminal or cancel_requested, finished jobs untouched |
| `JobTheorems.DisposalSucceedsIff` | backend/app/jobs/lifecycle.py:109-142 | Deleting an account succeeds iff none of its live jobs awaits a cancellation acknowledgement; refused, it changes nothing |
| `JobExamples.DisposalFailsHere` | backend/app/jobs/lifecycle.py:113-121 | A run (submitted, claimed, asked to cancel) after which deleting the account is refused and changes nothing |
| `JobBounds.OnlyReleasesReachTheLimit` | backend/app/jobs/worker_protocol.py:490-508 | In every run: from max_attempts on, every attempt that was followed by another, or after which the job waits, was given up by a voluntary release |
| `JobBounds.ReleaseOutrunsTheLimitIff` | backend/app/jobs/worker_protocol.py:490-508 | After a granted release and any run, the next lease of the job is past max_attempts iff the limit was used up at the release |
| `JobExamples.ReleaseOutrunsTheLimitHere` | backend/app/jobs/worker_protocol.py:490-508 | A run (submitted, claimed, released, claimed again after the backoff) in which a job allowed one attempt is on its second |
| `JobBounds.RunsComeToRest` | backend/app/jobs/worker_protocol.py:389-508 | In every run a job has at most max_attempts plus its release requests attempts, and at most 3 times that plus 2 status changes |
| `JobLineage.NoForeignJobs` | backend/app/jobs/worker_protocol.py:705-710 | In every run a job under way is held by a registered worker allowed its type, and no worker of an organization holds a job of another organization or of none |
| `JobLineage.ClaimedFitsWorker` | backend/app/jobs/worker_protocol.py:85-87 | The job a claim hands out is of a type in the credential and in the registration of its worker, and of its organization if it has one |
| `JobLineage.ResultsAreReported` | backend/app/jobs/worker_protocol.py:239-386 | In every run the result of a completed job is the payload of a completion reported for it in that run, quoting its last generation, by the worker that generation was handed to |
| `JobOutcomes.UnservedIsRefused` | backend/app/jobs/worker_protocol.py:666-702 | 404 for a job the worker may not see, 409 for a lease not its own or over, and for lost authorization; only the last changes anything: a job under way is asked to stop |
| `JobOutcomes.StartOutcome` | backend/app/jobs/worker_protocol.py:162-176 | Done iff leased; the whole row afterwards |
| `JobOutcomes.HeartbeatOutcome` | backend/app/jobs/worker_protocol.py:179-207 | A live lease under way is always renewed, to exactly the least of one lease from now, the attempt's horizon and the deadline |
| `JobOutcomes.ProgressOutcome` | backend/app/jobs/worker_protocol.py:210-236 | One log line for a running job unless it looks like a secret (422) |
| `JobOutcomes.CompleteOutcome` | backend/app/jobs/worker_protocol.py:239-386 | Every ending by status, verdict and type: 409, 422, dead_letter, or completed with the reported payload, the price of a session and the closed attempt |
| `JobOutcomes.FailOutcome` | backend/app/jobs/worker_protocol.py:389-474 | With the categories written out per type: cancelled if asked to stop; 422 iff the type does not know the category; retry_wait iff it may pass, attempts are left and the deadline is ahead; dead_letter otherwise; the whole row in each case |
| `JobOutcomes.ReleaseOutcome` | backend/app/jobs/worker_protocol.py:490-508 | Cancelled if asked to stop, else retry_wait whatever attempts and deadline; the whole row |
| `JobOutcomes.SendingBackNeedsRoom` | backend/app/jobs/control_service.py:594-605 | With exact counters a retry or release goes through iff every scope has a free pending slot, else 429 |
| `JobOutcomes.CancelOutcome` | backend/app/jobs/control_service.py:251-293 | 404 for strangers; a waiting job is cancelled with both log lines and its reservation given back; one under way is asked to stop; others stay |
| `JobOutcomes.RecoveryOutcome` | backend/app/jobs/worker_protocol.py:523-586 | What a completed recovery pass makes of every job: failed, cancelled, retry_wait with its backoff, dead_letter, or as it was, by its columns |
| `JobOutcomes.RevocationOutcome` | backend/app/jobs/lifecycle.py:55-106 | Waiting jobs fail, those under way are asked to stop, all others stay; never refused |
| `JobOutcomes.RevalidationOutcome` | backend/app/jobs/worker_protocol.py:605-636 | The same for exactly the revoked jobs of the pass |
| `JobOutcomes.DisposalOutcome` | backend/app/jobs/lifecycle.py:109-142 | Waiting jobs fail and finished ones stay finished, both deleted; those under way are asked to stop and stay |
| `JobOutcomes.ScanOutcome` | backend/app/jobs/worker_protocol.py:85-96 | The scan fails exactly the revoked and unsupported jobs its worker might run |
| `JobOutcomes.DurableRecoveryOutcome` | backend/app/jobs/worker_protocol.py:589-648 | Dry or refused it changes nothing; done, every job has gone through both passes and all counters are exact |
| `JobOutcomes.RebuiltCost` | backend/app/jobs/worker_protocol.py:1190-1203 | The cost row a session without one gets, and nobody else |
| `JobClaims.WindowIsReady` | backend/app/jobs/worker_protocol.py:651-663 | The window holds only waiting, available jobs within their times, and all of them unless it is full |
| `JobClaims.WindowIsFirst` | backend/app/jobs/worker_protocol.py:651-663 | A job left out of a full window comes after every job in it: administrators, availability, age, id |
| `JobClaims.SomeoneIsEligible` | backend/app/jobs/worker_protocol.py:85-97 | Some job is eligible iff the window holds one of an allowed type and organization that is neither revoked nor unsupported |
| `JobClaims.ClaimOutcome` | backend/app/jobs/worker_protocol.py:106-144 | The whole row of the job handed out, with horizon and lease end exactly the lesser of runtime by type and deadline, and of lease period and horizon; all other rows as the scan left them |
| `JobClaims.ClaimedIsFairest` | backend/app/jobs/worker_protocol.py:907-922 | With exact counters: no other such job of the window belongs to an owner with fewer jobs held, or comes earlier by organization, availability, age and id |
| `JobClaims.ClaimedIsFirstInLine` | backend/app/jobs/worker_protocol.py:75-159 | A claim hands out a waiting, available job of a type and organization its worker may run, with room at the worker, and no such job of the window comes before it in the tie-break order; leased under the next generation and the fresh token |
| `JobClaims.ClaimSucceedsIff` | backend/app/jobs/worker_protocol.py:81-105 | Without provider sessions, after its recovery, a claim hands out a job iff the worker is below its concurrency, the window holds a job of an allowed type and organization, neither revoked nor unsupported, and every scope of the first in line has a free slot |
| `JobClaims.PickIsFirst` | backend/app/jobs/worker_protocol.py:100 | The pick comes before every other eligible job |
| `JobClaims.ScanCompletes` | backend/app/jobs/worker_protocol.py:85-96 | The scan over the window cannot be refused |
| `JobTraces.StepTrace` | backend/app/jobs/worker_protocol.py:75-648 | Every enabled step leads to its result by the sequence of its single changes, each of which fits the job it is made to |
| `JobCapacityProofs.CountersAreExact` | backend/app/jobs/control_service.py:530-613 | In every run without provider sessions every pending and running count is the number of jobs waiting or held in the scope, within the scope's limits |
| `JobCapacityProofs.ReachableChangesAreExact` | backend/app/jobs/control_service.py:578-613 | There, every change moves each counter of the job by exactly one slot or is refused because a scope is full: no row is found inconsistent, no count is clamped |
| `JobCapacityProofs.ChangesAreExact` | backend/app/jobs/control_service.py:564-613 | The same from any state with exact counters |
| `JobCapacityProofs.SettlingDriftsIff` | backend/app/jobs/worker_protocol.py:1122-1124 | Settling a session that was never submitted gives back one pending slot too many: counters stay exact iff no job at all is waiting |
| `JobExamples.SettlingDriftsHere` | backend/app/jobs/worker_protocol.py:1122-1124 | A run (session submitted and claimed, document submitted, session failed) after which a document waits that no counter knows of |
| `JobDrift.ExactThroughoutIff` | backend/app/jobs/control_service.py:530-613 | In every run, provider sessions included: all counters are exact at every point, between any two changes of a step too, iff no unsubmitted session is settled while a job waits and no claim takes running slots for a lease that is over at once |
| `JobDrift.MicroExactIff` | backend/app/jobs/control_service.py:564-613 | One change: exact counters stay within their limits, and exact iff it is neither of these two |
| `JobDrift.DriftlessCountersAreExact` | backend/app/jobs/control_service.py:530-613 | In every run without these two the counters end as the number of jobs waiting or held of each user, organization and type and of all, and these are within the limits of the settings |
| `JobDrift.SessionlessIsDriftless` | backend/app/jobs/worker_protocol.py:1117-1124 | A run that submits no provider session never drifts |
| `JobDrift.OnlySettlingDrifts` | backend/app/jobs/worker_protocol.py:107-110 | With a positive session horizon counters are exact throughout a run iff no unsubmitted session is settled while a job waits |
| `JobClaims.ClaimKeepsExactIff` | backend/app/jobs/worker_protocol.py:101-110 | The end of a claim keeps exact counters exact iff a scope is full or the job's type has a positive horizon: without one the job expires after its running slots were taken, and they stay taken |
| `JobExamples.LateExpiryDriftsHere` | backend/app/jobs/worker_protocol.py:107-110 | A run (submitted, claimed) with a session horizon of zero that ends in such a drift |
| `JobCapacityProofs.ReconcileMakesExact` | backend/app/jobs/worker_protocol.py:940-1007 | From arbitrarily wrong counters, reconciliation makes every count exact and zeroes unused scopes |
| `JobCapacityProofs.ReconcileKeepsExactCounts` | backend/app/jobs/worker_protocol.py:940-1007 | It changes no count that was exact |
| `JobRowProofs.MovesFollowStatus` | backend/app/jobs/worker_protocol.py:75-831 | The counter moves of a change are those its status change asks for, plus one pending release when an unsubmitted session is settled |
| `Capacity.ScopesAreTheSort` | backend/app/jobs/control_service.py:657-683 | Any list that sorts the collected scopes by type name is the list used throughout |
| `Capacity.LockOrderIsConsistent` | backend/app/jobs/control_service.py:657-683 | Two jobs lock the scopes they share in the same order, whatever lists the sort returns |
| `Capacity.LoopsAreShifts` | backend/app/jobs/control_service.py:578-613 | Where every scope has something to move, the loops shift every row by one and stop nowhere |
| `Capacity.RefusedHalfWay` | backend/app/jobs/control_service.py:587-591 | A claim's move that meets a scope without pending jobs is refused with 409 and leaves exactly the scopes before it moved |
| `Capacity.FirstRefusal` | backend/app/jobs/control_service.py:594-605 | The way back is refused by the first scope that cannot, with 409 or 429 as it lacks a running job or room |
| `JobCostProofs.BudgetIsKept` | backend/app/jobs/control_service.py:616-641 | In every run within one UTC day: live reservations plus settled prices <= global reserved cost <= a positive budget |
| `JobCostProofs.MicroKeepsMoney` | backend/app/jobs/control_service.py:713-727 | Each single change keeps that balance |
| `JobCostProofs.OpKeepsMoney` | backend/app/jobs/worker_protocol.py:1107-1152 | So does each change to one job, whatever the provider session looks like |
| `JobCostProofs.RefundsAreWhole` | backend/app/jobs/control_service.py:629-632 | A refund no larger than the reserved cost is taken off in full, never clamped |
| `JobRowProofs.RefundMatchesContribution` | backend/app/jobs/worker_protocol.py:1107-1169 | A change refunds exactly what the job's contribution drops by; completion refunds nothing |
| `JobCostProofs.ReconcileMakesCostExact` | backend/app/jobs/worker_protocol.py:958-1004 | Reconciliation sets the global cost to the day's spend and writes no other row's cost |
| `JobCostProofs.SecondReconcileAdjustsNothingIff` | backend/app/jobs/worker_protocol.py:992-1007 | A second reconciliation reports no adjustment iff every non-global row has cost zero |
| `JobCostProofs.ReachableReconcileIsIdempotent` | backend/app/jobs/worker_protocol.py:992-1007 | In every run it reports none |
| `JobCostProofs.ReconcileRepeatsHere` | backend/app/jobs/worker_protocol.py:992-1007 | A user row with a cost, which is adjusted again each time |
| `JobCostProofs.DelayBounds` | backend/app/jobs/worker_protocol.py:889-894 | The backoff lies between the base and the maximum delay |
| `JobCostProofs.DelayNeverDecreases` | backend/app/jobs/worker_protocol.py:889-894 | From the first attempt on it never decreases, whatever the jitter hashes |
| `JobCostProofs.FirstDelayMayDecrease` | backend/app/jobs/worker_protocol.py:889-894 | Between attempt counts 0 and 1 it does not decrease iff the jitters are in order or the maximum is reached |
| `JobCostProofs.FirstDelayDecreasesHere` | backend/app/jobs/worker_protocol.py:889-894 | Settings and hashes where it does decrease |
| `JobCostProofs.DelayDoubles` | backend/app/jobs/worker_protocol.py:889-894 | Without jitter it begins at the base and doubles up to the maximum; the jitter adds less than the lesser of base and 5, within the maximum |
| `JobCostProofs.ReservationComesBack` | backend/app/jobs/control_service.py:616-641 | A waiting job that ends takes its reservation off the day's cost, if the budget is today's |
| `JobCostProofs.SettlementComesBack` | backend/app/jobs/worker_protocol.py:1107-1152 | What settling a session takes off the day's cost in each of its branches |
| `JobCostProofs.RetryWaitsOutTheDelay` | backend/app/jobs/worker_protocol.py:651-663 | A job sent back can be claimed exactly from the end of its whole doubled and jittered backoff on, within its queue time and deadline |
| `CapacityLedger.Ledger.Reserve` | backend/app/jobs/control_service.py:530-561 | The two loops of a reservation: every scope up by one, or 429 when one is full |
| `CapacityLedger.Ledger.TakeRunning` | backend/app/jobs/control_service.py:578-591 | The claim's loops, with the rows a refusal in the updating loop leaves changed |
| `CapacityLedger.Ledger.TakePending` | backend/app/jobs/control_service.py:594-605 | The way back, refused with the code of the first scope that cannot |
| `CapacityLedger.Ledger.GiveBackRunning` | backend/app/jobs/control_service.py:608-613 | Every running count down by one where it is positive |
| `CapacityLedger.Ledger.GiveBackPending` | backend/app/jobs/control_service.py:564-575 | The same on the pending side, creating no rows |
| `CapacityLedger.Ledger.ReserveDailyCost` | backend/app/jobs/control_service.py:713-727 | The day's counter restarted, tested against the budget and raised |
| `JobRowClass.JobRow.TransitionTo` | backend/app/jobs/state.py:18-71 | Status, timestamps and log change together or not at all |
| `JobRowClass.JobRow.AppendEvent` | backend/app/jobs/state.py:74-111 | One event with the next number, nothing else |
| `JobRowClass.JobRow.TakeLease` | backend/app/jobs/worker_protocol.py:114-144 | The claim's assignments to job, attempts and cost row |
| `JobRowClass.JobRow.Begin` | backend/app/jobs/worker_protocol.py:162-176 | Start |
| `JobRowClass.JobRow.Beat` | backend/app/jobs/worker_protocol.py:179-207 | Heartbeat, within the attempt's horizon |
| `JobRowClass.JobRow.Finish` | backend/app/jobs/worker_protocol.py:239-386 | Completion, by the holder, with price, result and closed attempt |
| `JobRowClass.JobRow.SettleCost` | backend/app/jobs/worker_protocol.py:1107-1152 | Settling one terminal provider job |
| `JobRowClass.JobRow.DropReservation` | backend/app/jobs/control_service.py:616-641 | Giving up an unused reservation |
| `JobRowClass.JobRow.CancelHeld` | backend/app/jobs/worker_protocol.py:805-831 | Acknowledging a cancellation |
| `JobRowClass.JobRow.Abandon` | backend/app/jobs/worker_protocol.py:553-569 | The dead-letter branches |
| `JobRowClass.JobRow.SendBack` | backend/app/jobs/worker_protocol.py:570-584 | The retry branches |
| `JobRowClass.JobRow.CancelWaiting` | backend/app/jobs/control_service.py:257-287 | Cancelling a job nobody holds, in two transitions |
| `JobQueue.Queue.Submit` | backend/app/jobs/control_service.py:70-184 | Submission over the tables equals its specification, rolled back when refused |
| `JobQueue.Queue.ClaimNext` | backend/app/jobs/worker_protocol.py:75-159 | Claiming: recovery, scan, pick and lease equal their specification, rolled back when raised |
| `JobQueue.Queue.Serve` | backend/app/jobs/worker_protocol.py:162-508 | Worker requests, including the one refusal that commits a change |
| `JobQueue.Queue.Sweep` | backend/app/jobs/worker_protocol.py:523-586 | The loops of the passes, job by job |
| `JobQueue.Queue.SweepOrRollBack` | backend/app/jobs/lifecycle.py:55-142 | Revocation and disposal as whole requests |
| `JobQueue.Queue.Cancel` | backend/app/jobs/control_service.py:251-293 | Cancellation by a user |
| `JobQueue.Queue.ReconcileCapacity` | backend/app/jobs/worker_protocol.py:940-1007 | The reconciliation loops, and the number of rows they adjust |
| `JobQueue.Queue.RecoverJobs` | backend/app/jobs/worker_protocol.py:589-648 | Durable recovery, rolled back when dry |
| `Reconciliation.Recount` | backend/app/jobs/worker_protocol.py:945-957 | The recount in any order gives the number of waiting and held jobs of every scope in use |
| `Reconciliation.SumSpend` | backend/app/jobs/worker_protocol.py:960-968 | The day's spend |
| `Reconciliation.AdjustRows` | backend/app/jobs/worker_protocol.py:992-1007 | Every row made to agree, and those that did not counted |
| `Reconciliation.RebuildMissing` | backend/app/jobs/worker_protocol.py:1190-1203 | A cost row for every provider job that has none |
| `TextPieces.LinesKeepInk` | backend/app/knowledge/ingestion.py:149 | Splitting into lines loses nothing but white space |
| `Chunker.SplitKeepsText` | backend/app/knowledge/ingestion.py:169-183 | For every text: no part empty or over the maximum, nothing but white space lost, parts of a trimmed text trimmed |
| `Chunker.SplitBounded` | backend/app/knowledge/ingestion.py:169-183 | The shrinking loop ends for every text and gives those parts |
| `Chunker.ChunkText` | backend/app/knowledge/ingestion.py:127-166 | The line loop gives the parts of every section under its heading path, numbered from zero; a document without text is refused |
| `Chunker.ChunksKeepText` | backend/app/knowledge/ingestion.py:127-166 | Indices 0..n-1, 0 < length <= maximum, trimmed; white space removed, the chunks are exactly the lines that are no headings, in order; refused iff those are blank |
| `Chunker.PathIsShallow` | backend/app/knowledge/ingestion.py:149-157 | A heading path is never deeper than the deepest heading |
| `TextPieces.JoinUndoesSplitting` | backend/app/knowledge/ingestion.py:149 | Where all breaks are line feeds, joining the lines gives the text back, up to a final one |
| `TextPieces.TokensAreStarts` | backend/app/knowledge/ingestion.py:145 | The token count is the number of places where a run without white space begins |
| `ChunkPlaces.PartsEndAtBreaks` | backend/app/knowledge/ingestion.py:169-183 | A part ends at the last paragraph break of the second half of the window, or without one at the last blank there, or else at the maximum |
| `ChunkPlaces.HeadingMeans` | backend/app/knowledge/ingestion.py:150-154 | A heading is one or more number signs, as many as its level, and a blank |
| `ChunkPlaces.PathIsStandingHeadings` | backend/app/knowledge/ingestion.py:149-157 | The path holds exactly the titled headings whose place no later titled heading took, where a place is that of the level or the next free one |
| `ChunkPlaces.NestedStandsIff` | backend/app/knowledge/ingestion.py:149-157 | Where no heading skips a level: a heading stands iff no later one is of its level or above |
| `ChunkPlaces.SkippedLevelStays` | backend/app/knowledge/ingestion.py:149-157 | Where one does, a heading of level 3 is not displaced by a later one of level 2 |
| `ChunkPlaces.ChunksStandUnderTheirHeadings` | backend/app/knowledge/ingestion.py:127-166 | Every chunk is a part of the lines between two headings, under the path up to there |
| `RateLimiter.LimitIsKept` | backend/app/core/public_demo.py:57-74 | Over every sequence of requests no minute admits more than the limit, and a request is turned away only when its minute holds exactly the limit |
| `RateLimiter.RefusedIffTooSoon` | backend/app/core/public_demo.py:57-74 | A request is turned away iff the limit-th last admission is less than 60 seconds ago |
| `RateLimiter.VerdictIsAdmission` | backend/app/core/public_demo.py:68-74 | A verdict adds its request to those admissions exactly when it lets it through |
| `RateLimiter.DequeIsLastMinute` | backend/app/core/public_demo.py:64-68 | The deque holds the admissions of the minute before the last request and no others |
| `RateLimiter.Visit` | backend/app/core/public_demo.py:64-74 | One request on the deque of its key: refused iff the last minute is full, and the deque stays that of the admissions among the key's requests |
| `RateLimiter.Limiter.Enforce` | backend/app/core/public_demo.py:57-74 | The same on the table of all keys, others untouched |
| `RateLimiter.Limiter.Reset` | backend/app/core/public_demo.py:77-81 | Every window cleared |
| `AuditSanitizer.MetadataIsBoundedAndClean` | backend/app/auth/security.py:60-117 | For every value: depth at most 4, fan-out at most 21, texts at most 256, keys at most 64; no text looks like a secret and sensitive keys stand over blanked values |
| `AuditSanitizer.SanitizedIsBounded` | backend/app/auth/security.py:93-117 | The bounds, at every depth |
| `AuditSanitizer.SanitizedIsClean` | backend/app/auth/security.py:60-91 | No truncation uncovers something secret |
| `AuditIdempotence.IdempotentExactly` | backend/app/auth/security.py:74-117 | Sanitizing twice is sanitizing once iff no dictionary on the fourth level is cut off while shortened keys collide or one is the truncation mark |
| `AuditIdempotence.NotIdempotentHere` | backend/app/auth/security.py:96-104 | Metadata that changes when sanitized again |
| `AuditFidelity.MetadataStandsFor` | backend/app/auth/security.py:60-117 | For every value, what is stored stands for it: scalars as they are, the first 256 characters of a text or its blank, the first 20 entries of a list or dictionary in what stands for them, keys cut to 64 with the last of equal ones, the truncation mark iff there were more, and blanks only for secret texts, sensitive keys and the fourth level |
| `AuditFidelity.MetadataUnchangedIff` | backend/app/auth/security.py:74-117 | Metadata comes back unchanged iff it is within every bound with nothing secret or unsupported in it and only blanks under sensitive keys |
| `AuditFidelity.SecretWords` | backend/app/auth/security.py:10-91 | Which words make a key sensitive and a longer text secret, in any case |
| `ModelRoutes.HistoriesAreCoherent` | backend/app/llm/evaluation.py:223-381 | In every history the generation is the number of transition rows, the rows chain and end at the active route, previous pointers lead to older routes, versions are unique |
| `ModelRoutes.RollbackReachesNone` | backend/app/llm/evaluation.py:588-620 | Rolling back repeatedly leaves no route after at most as many steps as the active version, whatever evidence is current |
| `ModelRoutes.RollbackUndoesPromotion` | backend/app/llm/evaluation.py:328-381 | Right after a promotion rollback restores the prior route iff there was none or its evidence is still current, else none; both moves stay on record |
| `ModelRoutes.PromotingActiveChangesNothingIff` | backend/app/llm/evaluation.py:261-264 | In every history, promoting a promotable run changes nothing iff the active route of its scope is of that run, promoted or restored, and then answers with that route |
| `ModelRoutes.PromotedModelIsMarkedIff` | backend/app/llm/evaluation.py:309-313 | A promotion leaves its model marked promoted iff it does not replace a route of the same model |
| `ModelRoutes.RepromotedModelIsMarkedRolledBack` | backend/app/llm/evaluation.py:309-313 | Two evaluations of one model promoted in a row leave it marked as rolled back although its route is active |
| `ModelRoutes.RepromotionMarksRolledBackHere` | backend/app/llm/evaluation.py:309-313 | A history from the empty tables (two evaluations, two promotions) that ends so |
| `ModelRoutes.OtherScopesAreUntouched` | backend/app/llm/evaluation.py:561-585 | Neither operation touches another scope |
| `ModelRoutes.RouteTables.PromoteRun` | backend/app/llm/evaluation.py:223-325 | Promotion row by row |
| `ModelRoutes.RouteTables.RollBack` | backend/app/llm/evaluation.py:328-381 | Rollback row by row |
| `ModelRoutes.RouteTables.MaxVersion` | backend/app/llm/evaluation.py:266-275 | The largest route version of a scope |
| `RouteEvidence.PromotionOutcome` | backend/app/llm/evaluation.py:223-325 | By columns: 409 unless an administrator asks for a completed, eligible run under the current policy, datasets, task and prompt, of a model evaluated and not retired; idle for the active run; otherwise the new route, the marks and the move |
| `RouteEvidence.RollbackOutcome` | backend/app/llm/evaluation.py:328-381 | By columns: 409, idle, or a move to the previous route iff that one could be promoted today, else to none; and the marks |
| `RouteEvidence.RoutesAreEarned` | backend/app/llm/evaluation.py:223-325 | In every history each route was promoted by an administrator on evidence that met all of that at the time |
| `RouteEvidence.EvaluationOutcome` | backend/app/llm/evaluation.py:200-210 | What an evaluation records of its run and its candidate |
| `DocumentVersions.GoodThroughoutIff` | backend/app/knowledge/ingestion_executor.py:32-88 | A history of uploads, submissions, executions, late writes, completions, cleanups, rollbacks and removals keeps the invariant at every point iff each late write loaded its version when it was being ingested already, or comes while it is neither ready nor deleted |
| `DocumentVersions.ReadyIsCurrent` | backend/app/knowledge/ingestion_executor.py:119-145 | In every such history: of a live document's versions exactly the current one is ready, and it has its chunks |
| `DocumentVersions.AtMostOneReady` | backend/app/knowledge/ingestion_executor.py:119-145 | In every history, late writes or not, a document has at most one ready version, and it is the current one |
| `DocumentVersions.HistoriesAreGood` | backend/app/knowledge/service.py:477-500 | Histories whose late writes come in time keep the invariant and unique version numbers |
| `DocumentVersions.LateWriteKeepsGoodIff` | backend/app/knowledge/ingestion_executor.py:34-88 | A write on rows loaded earlier keeps the invariant iff the version was being ingested when loaded, or is neither ready nor deleted at the write |
| `DocumentVersions.PromptWriteIsExecution` | backend/app/knowledge/ingestion_executor.py:34-88 | Writing on rows loaded at once is an execution |
| `DocumentVersions.LateWriteBreaksHere` | backend/app/knowledge/ingestion_executor.py:34-88 | A history in which the check passes, another worker completes the version, and the write leaves the current version not ready |
| `DocumentVersions.ThereAndBack` | backend/app/knowledge/lifecycle_service.py:29-81 | Rollback there and back restores every version status and the pointer; the whole store iff document and source showed ready before |
| `DocumentVersions.DocumentTables.SubmitIngestion` | backend/app/knowledge/ingestion_service.py:17-65 | Submission, with the progress shown while no version is current |
| `DocumentVersions.DocumentTables.ExecuteIngestion` | backend/app/knowledge/ingestion_executor.py:32-88 | The executor's writes |
| `DocumentVersions.DocumentTables.FinalizeIngestion` | backend/app/knowledge/ingestion_executor.py:119-145 | Completion makes the version current |
| `DocumentVersions.DocumentTables.CleanUp` | backend/app/knowledge/ingestion_executor.py:100-116 | Cleanup of outputs |
| `DocumentVersions.DocumentTables.RollBack` | backend/app/knowledge/lifecycle_service.py:29-81 | Rollback to a version |
| `DocumentVersions.DocumentTables.RemoveWholeSource` | backend/app/knowledge/service.py:477-500 | Tombstones of a source, its documents and their versions |
| `DocumentOutcomes.SubmissionOutcome` | backend/app/knowledge/ingestion_service.py:17-65 | By columns: 404, 409, or pending, for a new, failed or orphaned pending version of an approved source |
| `DocumentOutcomes.ExecutionOutcome` | backend/app/knowledge/ingestion_executor.py:32-88 | Chunks are written iff the version is live and waits for them |
| `DocumentOutcomes.CompletionOutcome` | backend/app/knowledge/ingestion_executor.py:119-145 | By columns: 422, 403, or made current; only with its own checksum and chunks and an approved source |
| `DocumentOutcomes.RollbackOutcome` | backend/app/knowledge/lifecycle_service.py:29-81 | By columns: 404, 409, idle, or made current |
| `DocumentOutcomes.CleanupOutcome` | backend/app/knowledge/ingestion_executor.py:100-116 | The status a cleanup leaves: pending, failed or uploaded; ready and deleted versions left alone |
| `DocumentOutcomes.RemovalOutcome` | backend/app/knowledge/service.py:488-500 | Tombstones of documents and their versions, all else untouched |
| `DocumentOutcomes.SourceRemovalOutcome` | backend/app/knowledge/service.py:477-500 | Tombstones of a source and all its documents and versions |
| `DocumentOutcomes.UploadOutcome` | backend/app/knowledge/service.py:414-466 | A new version: its number above all others of the document, waiting to be submitted |
| `DocumentOutcomes.CurrentOnlyBy` | backend/app/knowledge/ingestion_executor.py:119-145 | A version becomes current only by a completion with its own checksum and chunks from an approved source, or a rollback to one that was ready |
| `DocumentOutcomes.CurrentWasEntitled` | backend/app/knowledge/ingestion_executor.py:119-145 | In every history whose late writes come in time, each current version was made so by such an event |
| `CorpusImport.RestoredIff` | backend/app/knowledge/public_corpus.py:100-133 | A failed import leaves the store as it was, with what others created meanwhile, iff every key it created can be deleted and no document it reached had an upload that failed after storing under a free key |
| `CorpusImport.LeftBehind` | backend/app/knowledge/public_corpus.py:712-719 | After a failed import exactly the created objects whose delete failed are left, and the object of an upload that failed after storing; nothing that was there before or came from others is touched |
| `CorpusImport.CreatedExactly` | backend/app/knowledge/public_corpus.py:635-664 | A key is created exactly by a document that is reached, meets it free and whose create-only request works |
| `CorpusImport.LostExactly` | backend/app/knowledge/public_corpus.py:645-658 | A key is lost exactly by a document that is reached, meets it free and whose request fails after storing |
| `CorpusImport.RestorationFailsHere` | backend/app/knowledge/public_corpus.py:712-719 | Two imports after which an object stays behind |
| `CorpusImport.ImportedAreStored` | backend/app/knowledge/public_corpus.py:635-705 | After a successful import every document's key holds a verified object, which is that document iff the checksum reported for it is honest |
| `CorpusImport.PassesIff` | backend/app/knowledge/public_corpus.py:136-187 | The documents are all passed exactly when none of them stops the import |
| `CorpusImport.HonestObjectPassesIff` | backend/app/knowledge/public_corpus.py:667-705 | Under an honest checksum an object passes iff it is the document in Markdown and its size, where reported, is right |
| `CorpusImport.DispositionMeans` | backend/app/knowledge/public_corpus.py:635-664 | What each way of passing says about who created the object |
| `CorpusImport.Import.Run` | backend/app/knowledge/public_corpus.py:100-133 | The import over the store equals its specification: which objects are where and whose, and rows committed together or not at all |
| `CorpusImport.CuratedStorage.Ensure` | backend/app/knowledge/public_corpus.py:635-664 | One document: created only under a free key and remembered at once; existing and conflicting objects verified and left alone |
| `CorpusImport.CuratedStorage.Compensate` | backend/app/knowledge/public_corpus.py:712-719 | Exactly the remembered objects go, failing deletes passed over |

## Left out

- SQLAlchemy sessions, row locks and `skip_locked`: steps are atomic, and a pass sees the rows in an arbitrary order given to it.
- The retry loop on `IntegrityError` in `submit_job`: the unique constraint on idempotency keys and first use of a capacity scope are taken as held.
- `JobRowClass` changes one loaded row in place; rows in the tables are values written back, so two live references to one row object are not modelled.
- Columns that no decision reads: progress texts, error codes and summaries, `heartbeat_at`, `updated_at`, correlation ids, and the resources a job's result points to.
- Side effects of job transitions on notifications, audit events, telemetry, artifacts, schedule occurrences and training runs, and worker staleness.
- Authentication and the checks on a submission before its idempotency lookup: they are one input, `refusal`, as is a switched-off job type, `disabled`; whether a result is accepted is another, `verdict`.
- `complete_job` catches `JobExecutionError`, a name its module does not import; the model takes the dead-letter branch that the handler describes.
- A job whose owner row is removed later counts in the scope "deleted" from then on; owners do not change here.
- Reply bodies of worker requests.
- Provider sessions: their request state, instance and hourly price are inputs; prices are whole microdollars.
- BudgetIsKept: within one UTC day only, because a cost row of an earlier day is refunded against today's counter; the day a recovery reconciles is that of its own clock reading.
- Settings are constant during a run and satisfy the checks of `core/config.py`; the analysis quota limit may differ by plan as in the code.
- Chunk checksums, the normalization before chunking, HTML and PDF extraction, and the cancellation checks between chunks.
- TextPieces: `str.splitlines`, `strip` and `rfind` are written out for code points; characters Python classifies as spaces are listed by code.
- RateLimiter.Limiter.Enforce: the lock around it and the key's derivation from the request are left out; the limit is fixed for the limiter's life, which the no-minute-over-the-limit property needs.
- AuditSanitizer: lower-casing and the word characters of the two patterns are ASCII; dictionary keys are strings; numbers are opaque.
- ModelRoutes: evaluation itself, datasets beyond whether they are current, audit rows, and an assignment row created by a call that then changes nothing.
- DocumentVersions: visibility checks, storage of the uploaded object, embedding generations, cleanup tasks after a tombstone, and the separate activation by the curated import. `document.status` follows the last upload, not the current version, so nothing is claimed about it but in `ThereAndBack`.
- CorpusImport: the repair of rows, chunks and embeddings is one outcome per document; created objects are deleted in an arbitrary order rather than in reverse key order; a delete that reports failure leaves its object; others create objects while documents are imported, not during the deletes.
- Worker threads, schedules, retention, export, discovery, report text, market data and the LLM clients.
