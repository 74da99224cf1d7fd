# A verified model of the print gateway and its agent

The gateway stores print jobs in PostgreSQL and hands them to agents; an agent prints them on
physical printers. Paper must never silently come out twice. This project models the protocol
that is to guarantee it, and the algorithms around it, in Dafny, and proves what they keep.
`dafny verify dfyconfig.toml` checks everything.

## What is modelled

* **One row of `print_jobs`** (`JobRows`, `JobRuns`, `JobWitnesses`): every SQL statement that can
  change a row is a guard and an effect, and a run is any interleaving of them. A status report is
  two events, its read and its fenced write, with anything between.
* **The table, the sweep and the push path** (`PrintJobs`, `SweepRuns`, `Push`, `Sockets`): classes
  whose methods are the statements, `claimAndPushJobToAgent` with arbitrary interference at each of
  its awaits, and the socket set it sends through.
* **The durable ledger and the transports** (`Markers`, `Ledger`, `Verdicts`, `Transport`): the rows of
  the agent's SQLite queue, the write loops of the TCP, USB and spooler backends, and the
  classification of their errors.
* **The agent** (`Executor`, `AgentState`, then `AgentBooks`, `AgentOwners`, `AgentQuiet`, `AgentPaper`,
  `AgentSegments`, `AgentSuccess`, `AgentOnce`, `AgentRuns`, `AgentProgress`, `AgentWitnesses`): a machine
  of 28 kinds of atomic events. Deliveries start runs, the steps of different runs interleave freely,
  reports get any answer, and the process may crash between any two steps. The ledger and the paper
  survive. `Verdicts` shows that leaving the ledger's texts out of this machine loses no decision.
* **Admission** (`RateWindows`, `JsonObjects`, `Canonical`, `NumberTexts`, `Fingerprint`, `Admission`, `AdmissionRuns`,
  `AdmissionWitnesses`): the transaction
  that inserts a job, over whole runs of the table.
* **The message limiter** (`TokenBuckets`) and **two codecs** (`Ipp`, `Raster`).

At most once is proved job by job, in two parts. Whatever happens, all paper of a job comes from one
run unless BeginPrint accepts the job when it already has paper (`OnceUnlessReopened`). And without
`reprint_after_crash` it never does, unless the job was exposed before (`AtMostOnce`). A job is exposed
when it loses the ledger entry that stands for its paper: the record after a print is lost, or repeats
a transport's false claim that nothing went out; startup misses its printing row; its success or
unknown row is deleted. A restart that marks the row heals a lost record. `PrintsTwice` gives, for
`reprint_after_crash` and for each of these five ways, a run from a fresh start that prints twice.
With none of them, no job is printed twice (`AtMostOnceWhenCareful`). `Transport` shows which backends
never claim falsely, and exactly when two of them do.

## Where the code does not do what is promised

* **A report of `expired` has no terminal guard** (`src/app/api/agent/jobs/route.ts:189-207`). It lands on
  success and failed rows too, and together with the late-success window a fresh job can come to
  change status without bound. "Terminal changes at most once more" holds exactly for steps that are
  no such report (`TerminalSteps`, `HistoryIsUnbounded`, `PrintedBecomesNotPrinted`).
* **`retries` reaches 6, not 5**: a poll takeover raises it to 5 and a rejection once more
  (`SixRetriesHappen`). It stays within 5 over a run if and only if no rejection lands on a claim whose
  5 are spent (`RetriesWithinBudget`). At most 9 claims are possible, refunds included, and 9 do happen.
* **The sweep reads the clock five times.** A stale undelivered claim whose TTL runs out between the
  first two readings is left overdue until the next sweep (`SweepGap`, an if-and-only-if).
* **USB and spooler writes** that fail at first try while reporting accepted bytes give a plain error,
  so paper may exist for a job that counts as not printed. TCP does not have this gap.
* **The agent's 90 seconds start at receipt, the gateway's at the claim.** They overlap exactly when
  delivery took at least two clock ticks (`WindowsOverlapByLatency`).
* **The Retry-After of the rate limit** covers both windows even when one alone is full: after 60 creates
  at once it says 3599 seconds where 59 do (`AdviceIsTooLong`). It is the shortest wait if and only if no
  window that is not full has longer to run than every full one (`AdviceIsExact`).
* **The queue limit of 1000 can be passed**: claims that are taken back queue up again unchecked. A run
  stays within the limit if and only if no claim is taken back while the queue is full
  (`LimitIsPassedExactly`, `QueueStaysWithinExactly`); no create ever passes it. Runs from the empty
  table reach every size up to 1499 (`QueueLimitIsPassed`), and none goes beyond (`QueueIsBounded`).
* **Idempotency keys of internal creates** are looked up per tenant but are unique across tenants. A
  create that is new to its tenant and that no limit stops fails on the index if and only if another
  tenant has used the key (`InternalKeysClashAcrossTenants`); two creates are enough (`SecondTenantFails`).
* The comment above `rejectJob` (`agent/internal/agent/agent.go:1026-1032`) says a rejection costs no
  retry; the code charges one. The model follows the code.
* Cleanup forgets successful jobs, so a later delivery of one is accepted again
  (`CleanupForgetsOnlySuccess`, an if-and-only-if).

## Model

| member | source | states |
|---|---|---|
| `AgentRuns.AtMostOnce` | agent/internal/agent/agent.go:1563-1820 | without reprint_after_crash, over every run of deliveries, reports, crashes and restarts, all bytes of a job that is never exposed were put on paper by one run, whatever happens to other jobs |
| `AgentRuns.AtMostOnceWhenCareful` | agent/internal/agent/agent.go:1563-1820 | without reprint_after_crash, if transports keep their contract, results reach the ledger, startup misses no row and nobody deletes rows, no job is printed by two runs; crashes and redeliveries are free |
| `AgentRuns.OnceUnlessReopened` | agent/internal/agent/agent.go:1694-1725 | under any settings all bytes of a job were put on paper by one run, unless BeginPrint accepted it when it already had paper |
| `AgentRuns.OneAttempt` | agent/internal/agent/agent.go:1753-1810 | all paper of such a job is one segment: a prefix of one document on one printer, nothing in between |
| `AgentRuns.ReopenedMeaning` | agent/internal/agent/agent.go:1700-1700 | the machine's `reopened` holds exactly the jobs BeginPrint accepted in the run although they had paper |
| `AgentRuns.OnlyExposedAreReopened` | agent/internal/agent/agent.go:1593-1603 | without reprint_after_crash BeginPrint accepts a job with paper only after an event that exposed it |
| `AgentRuns.HonestRecordGuards` | agent/internal/agent/agent.go:1790-1809 | a record that reaches the ledger exposes nothing if the transport kept its contract, be the job reopened or not |
| `AgentRuns.NeverInterleaved` | agent/internal/agent/agent.go:1677-1810 | in every run, whatever breaks, a printer's paper is a concatenation of segments, each a prefix of one run's document, and no run has two segments |
| `AgentRuns.SuccessIsPrinted` | agent/internal/agent/agent.go:1790-1820 | if no transport claims to have taken a whole document it has not, every success report is about a job one of whose documents was accepted whole, in one contiguous segment; crashes, lost records and deleted rows do not matter |
| `AgentRuns.ExecutorAccounts` | agent/internal/agent/agent.go:821-925 | in every run the pending, executing and wait-group counters are the numbers of runs holding them, at most 64 pending and 8 executing; the three in-flight maps have the same keys; one working run per job id |
| `AgentRuns.EverythingReturned` | agent/internal/agent/agent.go:898-924 | once no run is left, every slot, reservation and map entry has been given back |
| `AgentRuns.ReportsWereCurrent` | agent/internal/agent/agent.go:1839-1848 | every report was made at some point of the run under the latest non-empty token delivered for its job by then |
| `AgentRuns.StepInv` | agent/internal/agent/agent.go:821-1820 | each of the 28 kinds of steps keeps accounting, registration, paper and at-most-once invariants together |
| `AgentProgress.PhasesOnlyAdvance` | agent/internal/agent/agent.go:898-924 | no step sets a run back: each run is further on, unchanged or gone |
| `AgentProgress.SomeoneCanMove` | agent/internal/agent/agent.go:1677-1683 | no deadlock: as long as there are runs, some run can take a step of its own |
| `AgentProgress.EveryRunCanEnd` | agent/internal/agent/agent.go:898-924 | from every state all runs can end in no more own steps than they have phases ahead, and everything is then given back |
| `AgentBooks.StepKeepsSlots` | agent/internal/agent/agent.go:881-924 | every step keeps each counter equal to the number of runs holding the resource, within its capacity |
| `AgentOwners.StepKeepsBooks` | agent/internal/agent/agent.go:846-879 | every step keeps a one-to-one link between in-flight ids and registered runs, each with its own token first |
| `AgentSegments.StepKeepsPaper` | agent/internal/agent/agent.go:1753-1810 | every step keeps locks matched to their holders, segments matched to runs, and paper equal to its segments |
| `AgentSuccess.StepKeepsSuccess` | agent/internal/agent/agent.go:1604-1616 | every step but a false claim of a transport keeps success rows, pending success reports and sent ones tied to a full segment |
| `AgentOnce.StepKeepsOnce` | agent/internal/agent/agent.go:1694-1739 | every step keeps each job with paper exposed, or guarded by the ledger, or printing under its own live run, and all its paper from one run |
| `AgentOnce.PartsRecord` | agent/internal/agent/agent.go:1790-1810 | once a result is recorded, the ledger guards the job if bytes went out, or the job is exposed |
| `AgentOnce.PartsRestart` | agent/internal/agent/agent.go:492-493 | marking interrupted rows before accepting anything leaves only missed rows exposed, and heals lost records |
| `AgentOnce.AcceptedPaperIsExposed` | agent/internal/queue/queue.go:174-179 | the first time BeginPrint accepts a job with paper, the job is exposed, or unknown with reprinting on |
| `AgentOnce.SecondLookFindsNothing` | agent/internal/agent/agent.go:1754-1758 | the check for a finished job that is repeated under the printer's lock never fires where the invariants hold |
| `AgentWitnesses.PrintsTwice` | agent/internal/agent/agent.go:1593-1632 | for reprint_after_crash, a missed row, a lost record, a false refusal, a deleted success row and purged evidence, each alone, a run from a fresh start prints the job twice |
| `Executor.AdoptKeeps` | agent/internal/agent/agent.go:846-868 | a duplicate delivery registers nothing and makes the latest non-empty token the stored one |
| `Executor.ReportTokenIsLatest` | agent/internal/agent/agent.go:1839-1848 | the token a report carries is the latest non-empty one delivered since registration |
| `Executor.WindowsOverlapByLatency` | agent/internal/agent/agent.go:927-965 | dispatch can still be authorized after the sweep took the claim back if and only if delivery took two ticks or more |
| `Executor.AuthorizeMeaning` | agent/internal/agent/agent.go:948-965 | dispatch after a report that was not accepted happens if and only if the gateway did not refuse, the receipt is known, and lease window and TTL still last |
| `Executor.JobExecutor.Admit` | agent/internal/agent/agent.go:833-879 | the critical section refuses, adopts or registers, and says the whole new state |
| `Executor.JobExecutor.ForgetJob` | agent/internal/agent/agent.go:987-993 | an id leaves all three maps at once |
| `Executor.JobExecutor.LiveToken` | agent/internal/agent/agent.go:1839-1843 | the live token of an in-flight id is the latest non-empty one delivered |
| `Verdicts.BeginRefines` | agent/internal/queue/queue.go:174-214 | BeginPrint on full rows and on verdicts refuse the same jobs and agree on the result |
| `Verdicts.AbortRefines` | agent/internal/queue/queue.go:145-151 | AbortPrint on full rows is AbortPrint on verdicts |
| `Verdicts.QuestionsRefine` | agent/internal/queue/queue.go:304-323 | IsProcessed and WasOutcomeUnknown answer the same on full rows and on verdicts |
| `Verdicts.RecordRefines` | agent/internal/agent/agent.go:1790-1809 | the row after a print carries exactly the verdict of the transport's answer |
| `Verdicts.MarkAllRefines` | agent/internal/queue/queue.go:258-285 | the startup scan turns printing rows, and only them, into evidence of an unknown outcome |
| `Verdicts.CleanedRefines` | agent/internal/queue/cleanup.go:27-65 | cleanup and purge on full rows are those on verdicts |
| `Verdicts.HonestRefines` | agent/internal/printer/network.go:62-102 | the transport contract on bytes is the contract on answers that the machine assumes |
| `Ledger.RefusedExactly` | agent/internal/queue/queue.go:174-179 | BeginPrint refuses exactly the protected rows and the failed rows that only the SQL match adds |
| `Ledger.ProtectedIsRefused` | agent/internal/queue/queue.go:174-179 | a protected row is never reopened, a success row under no setting |
| `Ledger.BeginMeaning` | agent/internal/queue/queue.go:184-213 | BeginPrint changes one row, or none and says so, exactly as the stored row allows |
| `Ledger.AbortUndoesBegin` | agent/internal/queue/queue.go:145-151 | after AbortPrint the job can be begun again, carries no token, and no other row changed |
| `Ledger.MarkAllProtects` | agent/internal/queue/queue.go:258-285 | after the startup scan no row is printing and every row that was is protected |
| `Ledger.CleanupKeepsEvidence` | agent/internal/queue/cleanup.go:21-65 | cleanup keeps every row WasOutcomeUnknown protects; the failed rows left are those counted and then purged |
| `Ledger.CleanupForgetsOnlySuccess` | agent/internal/queue/cleanup.go:27-40 | a refused job becomes acceptable through cleanup if and only if the ledger knew it as printed |
| `Ledger.Queue.BeginPrint` | agent/internal/queue/queue.go:174-214 | the transaction commits its one row or leaves the ledger as it was |
| `Ledger.Queue.MarkInterrupted` | agent/internal/queue/queue.go:258-285 | the loop marks every interrupted row unless a write fails, and says which case it is |
| `Ledger.Queue.CleanupTerminal` | agent/internal/queue/cleanup.go:27-40 | the rows left and the number of rows deleted |
| `Markers.FailureMessageKeepsAmbiguity` | agent/internal/agent/agent.go:1791-1798 | the message stored and reported is marked exactly when the error was ambiguous |
| `Markers.LikePrefixMeaning` | agent/internal/queue/cleanup.go:11-19 | LIKE 'marker%' matches exactly the texts whose beginning equals the marker up to ASCII case, underscores matching anything |
| `Markers.MarkerImpliesSql` | agent/internal/queue/cleanup.go:5-19 | a marker prefix implies the SQL match |
| `Markers.SqlMatchesMoreThanMarkers` | agent/internal/queue/cleanup.go:11-19 | the converse fails |
| `Transport.HonestVerdict` | agent/internal/agent/agent.go:1790-1801 | from an honest outcome a caller can tell whether bytes may be out |
| `Transport.NetworkPrint` | agent/internal/printer/network.go:27-103 | for every payload and every sequence of write results: no error means all bytes in order, an unmarked error means none |
| `Transport.USBPrinter.Print` | agent/internal/printer/usb_windows.go:112-185 | the same if and only if the first write does not fail while reporting bytes; behind the wedged latch nothing is written |
| `Transport.USBPrinter.WriteChunkBounded` | agent/internal/printer/usb_windows.go:78-100 | an abandoned write sets the latch and is marked |
| `Transport.SpoolerSession.Execute` | agent/internal/printer/spooler_windows.go:201-327 | the contract, if and only if the first write does not fail while reporting bytes; and, flags and deferred calls taken together, each call that is due to end page, document and handle is made exactly once, innermost first, on every path |
| `Transport.SpoolerSession.Unwind` | agent/internal/printer/spooler_windows.go:238-262 | the deferred calls come round last in, first out, and skip what their flag says is done |
| `JobStatus.LateSuccessOnlyFromUnknown` | src/lib/job-status.ts:159-165 | a late success only ever overrides an unknown outcome |
| `JobRuns.Budgets` | src/lib/job-delivery.ts:28-45 | over every run: live rows carry a token, attempts stay within 0..5, retries within 0..6, at most 9 claims, at most 5 without refunds |
| `JobRuns.RetriesWithinBudget` | src/app/api/agent/jobs/route.ts:231-268 | over every run of a fresh job retries stays within 5 if and only if no rejection lands on a live claim whose retries are spent |
| `JobRuns.ClaimNeverReturns` | src/lib/job-delivery.ts:91-155 | once a row leaves claimed/printing under a token it never holds that pair again |
| `JobRuns.StaleWriteIsNoOp` | src/lib/job-fencing.ts:19-54 | a status, delivery, ack, keep-alive or release write under a superseded or missing token leaves the live row unchanged |
| `JobRuns.EvidenceKeptAlongRun` | src/lib/job-delivery.ts:157-176 | while a claim is held its delivery evidence is never cleared |
| `JobRuns.NoRequeueAfterEvidence` | src/lib/job-maintenance.ts:31-39 | no sweep or release requeues a printing row or a claim with evidence |
| `JobRuns.SweepVerdict` | src/lib/job-maintenance.ts:12-71 | a row the sweep ends has outcome unknown exactly when it was printing or had evidence |
| `JobRuns.MeasureDrops` | src/lib/job-status.ts:102-131 | every status change and every claim lowers a bounded measure, unless a report of expired hits a success or failed row |
| `JobRuns.HistoryIsFinite` | src/lib/job-status.ts:102-188 | without such reports a job changes status at most 48 times |
| `JobRuns.TerminalSteps` | src/app/api/agent/jobs/route.ts:189-207 | a step leaves a terminal status alone or makes it success, if and only if it is no report of expired on a success or failed row |
| `JobRuns.TerminalChangesOnce` | src/lib/job-status.ts:94-188 | without such reports a terminal row changes at most once more, to success for good |
| `JobWitnesses.NineClaimsHappen` | src/app/api/agent/jobs/route.ts:231-268 | a run with nine claims |
| `JobWitnesses.SixRetriesHappen` | src/app/api/agent/jobs/route.ts:62-136 | a run in which retries reaches six |
| `JobWitnesses.HistoryIsUnbounded` | src/app/api/agent/jobs/route.ts:284-302 | from a fresh row, for every n, a run with such reports in which the status changes at least 2n times |
| `JobWitnesses.PrintedBecomesNotPrinted` | src/app/api/agent/jobs/route.ts:189-207 | from a fresh row, a run in which a job reported printed ends as one that counts as not printed |
| `PrintJobs.SweepIsOneStage` | src/lib/job-maintenance.ts:12-71 | the five updates take pairwise disjoint rows: each row is changed by one of them or by none |
| `PrintJobs.SweepIsFixpoint` | src/lib/job-maintenance.ts:12-71 | at one instant, nothing is overdue afterwards and a second sweep changes nothing |
| `PrintJobs.SweepGap` | src/lib/job-maintenance.ts:12-71 | with five clock readings, everything overdue is settled except exactly one kind of claim |
| `PrintJobs.CountsAddUp` | src/lib/job-maintenance.ts:73-79 | the five counts add up to the number of rows changed |
| `PrintJobs.SecondSweepChangesNothing` | src/lib/job-maintenance.ts:9-79 | the whole table is a fixpoint of the sweep |
| `PrintJobs.PrintJobTable.ClaimJobForDelivery` | src/lib/job-delivery.ts:91-155 | claims one row under the ceiling and online checks, or changes nothing |
| `PrintJobs.PrintJobTable.MarkJobDelivered` | src/lib/job-delivery.ts:157-168 | the evidence lands on the named claim and on no other row, and the result says whether |
| `PrintJobs.PrintJobTable.RecordJobAck` | src/lib/job-delivery.ts:170-176 | the same for acks, which never overwrite earlier evidence |
| `PrintJobs.PrintJobTable.ReleaseUndeliveredClaim` | src/lib/job-delivery.ts:180-220 | requeued, failed or noop, by attempts and evidence, one row at most |
| `PrintJobs.PrintJobTable.SweepPrintJobs` | src/lib/job-maintenance.ts:9-79 | five bulk updates leave the table and the counts the row-wise sweep describes |
| `SweepRuns.SweepIsRun` | src/lib/job-maintenance.ts:12-71 | a sweep of one row is one of the runs all theorems about rows speak of |
| `Push.Gateway.ClaimAndPush` | src/server/ws.ts:282-306 | with any interference at each await, a frame a socket accepted ends as delivered with stored evidence, or not claimable; it is never requeued or failed |
| `Push.MissedEvidenceRetires` | src/server/ws.ts:291-304 | an evidence write that misses means the claim is over for good |
| `Push.ReleaseOfRetiredIsNoOp` | src/lib/job-delivery.ts:180-220 | releasing a claim that is over does nothing |
| `Sockets.AgentSockets.SendToAgent` | src/server/ws.ts:211-233 | the newest socket that takes the frame gets it; broken ones tried before it are dropped and no other |
| `Sockets.AgentSockets.TrackAgentSocket` | src/server/ws.ts:168-198 | at most eight sockets, the oldest makes room, never the newcomer |
| `RateWindows.AnyIntervalIsBounded` | src/lib/print-job-service.ts:186-217 | over every sequence of requests of a key since its first, with a monotone clock: at most 119 grants in any half-open minute, at most 1999 in any hour |
| `RateWindows.HundredNineteenHappen` | src/lib/print-job-service.ts:186-217 | the bound of 119 is met by a sequence of requests in order of time |
| `RateWindows.NineteenNinetyNineHappen` | src/lib/print-job-service.ts:186-217 | and so is the bound of 1999 |
| `RateWindows.AdviceSuffices` | src/lib/print-job-service.ts:201-209 | waiting as long as advised is enough |
| `RateWindows.FullWindowDecides` | src/lib/print-job-service.ts:201-209 | waiting for the full window alone is enough |
| `RateWindows.NeededWaitIsExact` | src/lib/print-job-service.ts:201-209 | after k whole seconds a create is granted if and only if k covers the longest wait of a full window |
| `RateWindows.AdviceIsExact` | src/lib/print-job-service.ts:201-209 | one second less than advised is refused if and only if no window that is not full has a longer wait than every full one |
| `RateWindows.AdviceIsTooLong` | src/lib/print-job-service.ts:201-209 | counters for which the advice is 3599 seconds and 59 are enough |
| `RateWindows.SixtyAtOnce` | src/lib/print-job-service.ts:186-217 | a run of requests leads to those counters |
| `AdmissionRuns.OnlyRowsAreCounted` | src/lib/print-job-service.ts:186-217 | refusals and idempotent reuses change no rate counter |
| `AdmissionRuns.KeyRateIsBounded` | src/lib/print-job-service.ts:186-217 | the same of the rows made for a key in every run of the table from its beginning, other creates and statements in between |
| `AdmissionWitnesses.RateBoundsAreMet` | src/lib/print-job-service.ts:186-217 | runs of the table from its beginning in which a key gets 119 rows in one minute, and 1999 in one hour |
| `AdmissionRuns.BacklogIsBounded` | src/lib/print-job-service.ts:172-184 | over every run of creates and row statements an agent never has more than 1499 open jobs, and a tenant never more than a limit that stays in force |
| `AdmissionRuns.LimitIsPassedExactly` | src/lib/print-job-service.ts:174-184 | one act takes an agent's queue over its limit if and only if the queue is full and the act takes back an unexpired claim of that agent; no create does |
| `AdmissionRuns.QueueStaysWithinExactly` | src/lib/print-job-service.ts:174-184 | over every run the queue of an agent stays within its limit if and only if no claim is taken back while it is full |
| `AdmissionWitnesses.QueueLimitIsPassed` | src/lib/job-maintenance.ts:31-39 | for every number from 1000 to 1499 a run from the empty table after which one agent has so many queued jobs |
| `AdmissionWitnesses.QueueIsBounded` | src/lib/print-job-service.ts:174-184 | in every run from the empty table at most 1499 jobs of an agent are queued |
| `AdmissionRuns.RequeueIgnoresTheQueueLimit` | src/lib/job-maintenance.ts:31-39 | a requeue adds a queued job whatever the count is |
| `AdmissionRuns.RepeatIsReusedOrConflicts` | src/lib/print-job-service.ts:125-170 | after a create made a row, a later create under its key answers with that row if it is the same request and with a conflict otherwise, whatever happened in between, and changes nothing |
| `AdmissionRuns.AtMostOneRowPerKey` | src/lib/print-job-service.ts:125-170 | in every run two rows under one key are one row |
| `AdmissionRuns.InternalKeysClashAcrossTenants` | src/db/schema.ts:243-244 | an internal create that is new to its tenant and stopped by no limit fails on the unique index if and only if another tenant has used the key, and makes its row otherwise |
| `AdmissionRuns.InternalKeyIsNotReused` | src/lib/print-job-service.ts:125-170 | whatever its limits, such a create is refused without being answered by the foreign row, and changes nothing |
| `AdmissionWitnesses.SecondTenantFails` | src/db/schema.ts:243-244 | from the empty table one internal create succeeds and another tenant's under the same key fails on the index |
| `Admission.PrintJobService.InsertQueuedJobAtomically` | src/lib/print-job-service.ts:98-243 | the transaction's outcome and the store after it, or an unchanged store |
| `Canonical.CanonDecidesSame` | src/lib/canonicalize.ts:1-15 | canonical forms are equal if and only if the values are the same up to key order, at every depth |
| `Canonical.CanonIsIdempotent` | src/lib/canonicalize.ts:1-15 | canonicalizing twice is canonicalizing once |
| `JsonObjects.SortedIsUnique` | src/lib/canonicalize.ts:3-12 | a canonical object is determined by what its keys map to |
| `JsonObjects.RebuildSorts` | src/lib/canonicalize.ts:4-12 | rebuilding from unit-sorted entries gives array indices in numeric order, then names in unit order |
| `Fingerprint.StringifyIsInjective` | src/lib/print-job-service.ts:59-71 | different values have different JSON texts |
| `NumberTexts.NumberIsUnique` | src/lib/print-job-service.ts:65-70 | no two numbers share a text, in any of the four notations JavaScript writes them in |
| `Fingerprint.FingerprintMeaning` | src/lib/print-job-service.ts:59-71 | whatever toLowerCase does, fingerprints are equal if and only if printer, normalized type and destination, and payload up to key order are |
| `TokenBuckets.AtMostTwentyPlusFivePerSecond` | src/server/ws.ts:37-76 | across reconnects and collections, at most 20 + 5t messages of an agent pass in t seconds |
| `TokenBuckets.BurstTakesWholeTokens` | src/server/ws.ts:42-53 | of n messages at one instant exactly the whole tokens' worth pass |
| `TokenBuckets.CollectionIsInvisible` | src/server/ws.ts:78-87 | pruning buckets idle for over an hour changes no decision |
| `TokenBuckets.MessageLimiter.OnMessage` | src/server/ws.ts:521-532 | looks the agent's bucket up, or makes one, and consumes from it alone |
| `TokenBuckets.MessageLimiter.PruneIdle` | src/server/ws.ts:78-87 | removes exactly the idle buckets and counts them |
| `TokenBuckets.TokenBucket.Consume` | src/server/ws.ts:42-53 | refill by elapsed time up to the capacity, then take one token if there is one |
| `Ipp.TextRequestRoundTrip` | agent/internal/printer/ipp.go:308-416 | for text attributes with names and values of 1..65535 bytes, parsing a request gives exactly the names, each with the comma join of its values, whatever document follows |
| `Ipp.RequestRoundTrip` | agent/internal/printer/ipp.go:308-416 | the same for any value tags, decoded values, and repeated values without a name |
| `Ipp.ReadBack` | agent/internal/printer/ipp.go:342-416 | an attribute whose name is used once is read back as written |
| `Ipp.PrintJobSaysWhere` | agent/internal/printer/ipp.go:308-323 | a print request carries the URI and format it was built with |
| `Ipp.ParseIPPAttributes` | agent/internal/printer/ipp.go:362-416 | the loop stays in bounds and ends on every input, with the specified map |
| `Ipp.Buffer.WriteIPPAttribute` | agent/internal/printer/ipp.go:342-348 | appends one attribute to those written so far |
| `Ipp.BuildIPPPrintJobWithFormat` | agent/internal/printer/ipp.go:308-323 | the message is the request of its six attributes and the document |
| `Ipp.BuildIPPGetPrinterAttributes` | agent/internal/printer/ipp.go:325-340 | the message is the request of its seven attributes |
| `Raster.RasterRoundTrip` | agent/internal/printer/image.go:72-127 | reading the bands back gives the image's row width and height, every dot its pixel's luma test, and blank padding |
| `Raster.FastPathAgrees` | agent/internal/printer/image.go:93-104 | the 8-bit path and `grayscale` give the same luma on every pixel |
| `Raster.U16RoundTrip` | agent/internal/printer/image.go:117-122 | a header number is right if and only if it is below 65536 |
| `Raster.PackRow` | agent/internal/printer/image.go:88-113 | sets exactly the bits of the row's dark pixels, in place, and nothing outside the row |
| `Raster.ToEscPos` | agent/internal/printer/image.go:46-127 | the dimension error for an empty declared size, else initialization and bands of at most the slice height |

## Left out

- AgentRuns.AtMostOnce: takes one agent process and no panic; drawer pulses sent before the document are not document bytes and are not modelled.
- AgentProgress.EveryRunCanEnd: says that runs can end, not that a fair scheduler must let them.
- AgentState.Step: the body of processJob is a step per point where another goroutine or a crash may come in between, not one method; goroutines, channels and mutexes are the interleaving itself, and only the executor's critical sections are methods.
- AgentRuns.SuccessIsPrinted: says that a document delivered under the job id was accepted whole, not that it was the payload of the last delivery.
- AgentRuns.ReportsWereCurrent: a report and its answer are one step; a newer token that arrives while the HTTP request is under way shows in the next report.
- Executor.WindowsOverlapByLatency: counts time in whole clock ticks and takes the sweep's and the agent's clock to agree.
- Transport.USBPrinter.Print: bytes that an abandoned write may still put out later are counted as accepted at the time it is abandoned.
- Transport.SpoolerSession.Execute: the bounded waiting around the session is not modelled, only the session itself.
- PrintJobs.PrintJobTable.SweepPrintJobs: each statement reads the clock once; claimed_at, metrics and log lines are not modelled.
- Canonical.CanonDecidesSame: plus and minus zero are one number, as they are for === and JSON.stringify; undefined and values that are no JSON are not modelled.
- NumberTexts.NumberText: which shortest digits stand for a double is not modelled; a number is its digits and the place of its point.
- Admission.PrintJobService.InsertQueuedJobAtomically: the checks of createPrintJobForPrinter before the transaction (printer, agent, capability, validation) are not modelled; plan limits are parameters.
- TokenBuckets.AtMostTwentyPlusFivePerSecond: tokens are exact reals and a message reads the clock once; a clock that goes back refills the bucket when it returns, see ClockJumpsRefill.
- Raster.RasterRoundTrip: starts from a pixel grid of at most 65535 by 65535, as JPEG has it; decoding and nearest-neighbour scaling are not modelled.
- Ipp.ParseIPPAttributes: the two bounds checks around a name, and the continue for nameless values, are folded into one measuring step with the same result.
- The fixed texts of error messages after their marker or first words are abbreviated; no decision reads them.
- IPP and PDF transports enter the agent only through the transport contract.
- Reports that startup sends about interrupted jobs: they add reports but no prints.
- Deletion of rows in the gateway (retention, cascades) and the reprint buttons of operators.
- Capability, lifecycle and role tables, authentication, proxy handling, discovery and the user interfaces.
- Power loss that takes committed SQLite pages with it.
