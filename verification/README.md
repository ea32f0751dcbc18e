# CareerScope in Dafny

This project models the transactional core of a job-search service and proves what its protocols keep over
whole runs. Every SQL transaction (or single statement outside one) is one atomic step over the value of its tables. For each
stateful component there are two or three layers:

1. **specification functions** over the table value (`AfterSettle`, `AfterRefresh`, `AfterVerify`, ...), one per transaction, with
   the error replies the code gives;
2. a **class** whose methods carry the transaction out statement by statement, rollbacks and loops included, and are proved to have
   exactly that effect (`SearchPipeline.Database`, `Dispatch.Queue` with the worker programs, `ResumeStorage.FileStore`,
   `ResumeUploads.UploadRepository`, `Sessions.Auth`, `OneTimeCodes.EmailOtpChallenges`, `EmailChange.EmailChangeRequests`,
   `Notifications.NotificationOutbox`, `Leads.LeadRepository`);
3. a **state machine** over those functions, where any number of callers take any legal step in any order, with any arguments, and
   crash at any point, and the safety theorems over every run of it (`PipelineSafety`, `Workers`, `ResumeSafety`, `SessionSafety`,
   `OneTimeCodeSafety`, `EmailChangeSafety`, `NotificationSafety`, `LeadHistory`).

`Deliveries` proves that each delivery of the sequential worker programs is a run of one worker of the concurrent ones. Lemmas named
`...Answers`, `...Written`, `...Changes` say what one operation replies and changes, and what it leaves alone, without naming its
specification function's cases. `Runs` holds the induction over runs that all of the state machines share. The self-contained algorithms (replay of sightings, deduplication, date
ranges, CSV, scoring, quiet hours, keyset pages) are methods with the source's loops, proved against recursive functions whose
meaning is stated by independent definitions: a reader for the format, the set of covered moments, the copies of a posting.

| Component | Modules |
|---|---|
| Fenced command pipeline | `Leases`, `SearchPipeline`, `PipelineSafety`, `Workers`, `Dispatch`, `Deliveries` |
| Event stream of a run | `EventStream` |
| Job sightings and their rebuild | `Sightings`, `SettledHistory` |
| Resume uploads over database and directory | `ResumeStorage`, `ResumeUploads`, `ResumeSafety` |
| Sessions and refresh-token families | `Sessions`, `SessionSafety` |
| One-time codes, change of address | `OneTimeCodes`, `OneTimeCodeSafety`, `EmailChange`, `EmailChangeSafety` |
| Notification outbox, quiet hours | `Notifications`, `NotificationSafety`, `QuietHours` |
| Deduplication of jobs | `JobIdentity`, `JobIdentityLaws` |
| Experience, export, scoring, leads | `DateRanges`, `ApplicationCsv`, `Matching`, `Leads`, `LeadHistory` |

## What is assumed

- Random identifiers and tokens are fresh; this is the only restriction on the steps of a run, except in `NotificationSafety`,
  whose extra hypothesis `Timely` is shown to be needed.
- Digests, keyed hashes and SHA-1 identities are injective, so a value stands for its digest; authenticated encryption binds a stored
  object to its identity, so a file is its identity and version. Addresses and owner ids arrive lower-cased.
- The clock is one monotone number. Times are whole milliseconds or seconds; scores are exact reals; the ranking of job copies is
  counted in hundredths so that it is exact.
- A stable sort function stands for the runtime's sort.

## Where the code and its promises differ

The code is modelled as it is; each difference is a lemma.

- `release` tests the fence and the status but not the lease. A holder whose lease expired, but whose fence nobody took over,
  still moves `lease_until` (`Leases.ExpiredHolderReleaseMovesLease`, and a run that gets there:
  `PipelineSafety.LateReleaseIsReachable`; exactly when: `Leases.ReleaseChangesIff`). It costs nothing
  (`Leases.LateReleaseIsHarmless`). Every other late call changes nothing (`PipelineSafety.StaleHolderChangesNothing`).
- `quietHoursDefer` is documented as safe across daylight saving changes. When clocks go forward by `d` minutes it always finds
  the end if and only if the window is shorter than a day less `d` (`QuietHours.ForwardChangeEndsIff`); a window from 01:30 to
  01:00 with a one-hour change makes it throw (`QuietHours.SpringForwardThrows`). For clocks going back the bound of 26 hours is
  enough exactly when window and change together fit in it, and always for up to 121 minutes
  (`QuietHours.BackwardChangeEndsIff`).
- For a posting whose runs settled in creation order, the rebuild of the sightings table reproduces what the live table says if
  and only if none of those runs reported its fingerprint twice (`SettledHistory.RebuildMatchesRow`; of the whole table:
  `SettledHistory.RebuildMatchesLiveTable`), because settling counts a sighting even where the job insert is skipped. The tables
  agree on a posting's last run exactly when the newest of its runs settled last (`SettledHistory.LastRunsAgreeIff`). The times
  a posting was seen are moved back to the creation of its runs (`SettledHistory.RebuildSeesEarlier`).
- The updates that record the outcome of a notification have no guard on the attempt. A claimant that writes after its lease can
  cause a sixth send (`NotificationSafety.LateWriterCausesSixthSend`). The one step that allows it is a late failure that makes
  a delivery pending although its attempts are used up (`NotificationSafety.SixthClaimIff`); without it, and in particular when
  claimants write within their lease, there are at most five (`NotificationSafety.SentAtMostFiveUnlessRevived`,
  `NotificationSafety.SentAtMostFiveTimes`). For the same reason a late outcome can be written over a settled delivery: a
  delivered notification is sent again (`NotificationSafety.LateFailureSendsAgain`), and a delivery with a letter becomes
  pending (`NotificationSafety.LateFailureStrandsLetter`). `NotificationSafety.SettledChangesIff` names exactly the steps that
  do this; without them settled deliveries and letters stand (`NotificationSafety.SettledForGoodUnlessWrittenOver`,
  `NotificationSafety.LettersExactUnlessWrittenOver`).
- One more skill can lower a score. It does so for some listing exactly when it is the first of its family in the candidate's
  list, takes that place from a skill that earns more (a recent one), and is not itself asked for
  (`Matching.SomeFinalScoreDropsIff` of the final score, `Matching.SomeScoreDropsIff` of the skills dimension; per demand:
  `Matching.CreditDropsIff`). Appended, it never does (`Matching.FinalScoreGrows`).

## Model

| member | source | states |
|---|---|---|
| `Leases.ClaimIsLeaseChange` | packages/core/src/database.ts:398-412 | a claim finishes nothing, lowers no fence, touches no finished execution, keeps fence = attempts while running, claims only stored commands, and the fence it returns is larger than every earlier one of that command |
| `Leases.RenewIsLeaseChange` | packages/core/src/database.ts:373-382 | the same for a heartbeat |
| `Leases.ReleaseIsLeaseChange` | packages/core/src/database.ts:385-391 | the same for a release |
| `Leases.ClaimAnswers` | packages/core/src/database.ts:398-412 | a command is claimed if and only if it is stored and was never claimed or its lease ran out unfinished; then exactly its execution changes, to the next fence and attempt |
| `Leases.RenewAnswers` | packages/core/src/database.ts:373-382 | a renewal moves the lease end of the live holder and changes nothing else |
| `Leases.FinishAdvances` | packages/core/src/database.ts:240-247 | finishing an unfinished execution under a fence that is not lower leaves every other one alone |
| `Leases.ReleaseChangesIff` | packages/core/src/database.ts:385-391 | a release changes the table exactly for the current fence of a running command whose lease does not already end now |
| `Leases.ExpiredHolderReleaseMovesLease` | packages/core/src/database.ts:385-391 | an expired holder's late release is not a no-op: a concrete table (reached by a run: `PipelineSafety.LateReleaseIsReachable`) |
| `Leases.LateReleaseIsHarmless` | packages/core/src/database.ts:385-391 | a release without a live lease gives or takes nobody's ownership and changes no later claim |
| `SearchPipeline.Database.CreateSearch` | packages/core/src/database.ts:120-208 | one run, command and queued event per owner and key; same request again gives the same run, another request is refused, missing target roles roll everything back |
| `SearchPipeline.Database.CancelSearch` | packages/core/src/database.ts:222-269 | the whole effect on execution, run and log, or none: foreign run, missing or ambiguous command, run already finished (rolled back) |
| `SearchPipeline.Database.Unpublished` | packages/core/src/database.ts:270-295 | at most 20 due commands of the routed kinds, distinct, oldest first, none left out that is older than one returned |
| `SearchPipeline.Database.Published` | packages/core/src/database.ts:333-338 | stamps exactly that row |
| `SearchPipeline.Database.Claim` | packages/core/src/database.ts:398-412 | first attempt, takeover of an expired lease under the next fence, or nothing |
| `SearchPipeline.Database.Renew` | packages/core/src/database.ts:373-382 | extends the lease exactly for its live holder and says whether it did |
| `SearchPipeline.Database.Release` | packages/core/src/database.ts:385-391 | ends the lease for the current fence of a running command |
| `SearchPipeline.Database.StartSearch` | packages/core/src/database.ts:415-454 | queued becomes running with one started event; running stays; anything else is lost or a conflict |
| `SearchPipeline.Database.Settle` | packages/core/src/database.ts:507-613 | execution, run, job rows, sightings and the terminal event together, or nothing at all |
| `SearchPipeline.Database.StorePostings` | packages/core/src/database.ts:549-591 | the job loop: first posting per run and fingerprint is kept, every posting is counted as a sighting, with its evidence and its first and last seen times; what the entries then say: `Sightings.FoldTells`, `PipelineSafety.StoredJob` |
| `SearchPipeline.Database.CompleteCollection` | packages/core/src/database.ts:475-500 | refuses jobs that do not match the source outcomes, otherwise settles as completed, partial or failed by the outcomes; which one when: `SearchPipeline.CollectionVerdict` |
| `SearchPipeline.CollectionVerdict` | packages/core/src/jobs.ts:97-102 | after a committed collection the run is completed if every source completed, failed if nothing was found and every source failed, partial otherwise; the last event says the same |
| `SearchPipeline.Database.Complete` | packages/core/src/database.ts:457-463 | settles as completed |
| `SearchPipeline.Database.Fail` | packages/core/src/database.ts:466-468 | settles as failed with no jobs |
| `PipelineSafety.ApplyKeeps` | packages/core/src/database.ts:222-613 | every transaction, with any arguments, keeps: one command per run, execution finished iff run finished, fence = attempts while running, log shape, jobs only for completed and partial runs; and finished runs, finished executions, commands and the log survive it |
| `PipelineSafety.CreateKeeps` | packages/core/src/database.ts:120-208 | creating a search keeps the invariant |
| `PipelineSafety.CancelKeeps` | packages/core/src/database.ts:222-269 | cancelling keeps it, claimed or not |
| `PipelineSafety.StartKeeps` | packages/core/src/database.ts:415-454 | starting keeps it |
| `PipelineSafety.SettleKeeps` | packages/core/src/database.ts:507-613 | settling keeps it |
| `PipelineSafety.LeaseOpKeeps` | packages/core/src/database.ts:373-412 | claim, renew and release keep it |
| `PipelineSafety.CloseParseKeeps` | packages/core/src/resumes.ts:94-138 | settling a parse command in the shared tables leaves every search alone |
| `PipelineSafety.ReachableInv` | packages/core/src/database.ts:120-613 | the invariant holds after every run of any number of workers, cancellers and redeliveries |
| `PipelineSafety.CreateAnswers` | packages/core/src/database.ts:120-208 | which reply a creation gets, and everything it adds: one queued run, one unsent command, one event; a known key adds nothing |
| `PipelineSafety.CancelAnswers` | packages/core/src/database.ts:222-269 | in a kept state the owner can cancel a run if and only if it is live; the command is never missing or ambiguous |
| `PipelineSafety.CancelChanges` | packages/core/src/database.ts:222-269 | a cancellation cancels that run, completes its command and logs it; every other run, command, job and sighting stays |
| `PipelineSafety.StartAnswers` | packages/core/src/database.ts:415-454 | the live holder starts a queued search with one event; starting it again answers the same and changes nothing |
| `PipelineSafety.SettleAnswers` | packages/core/src/database.ts:507-613 | the result of the live holder commits unless its outcomes name other sources than the request |
| `PipelineSafety.SettleChanges` | packages/core/src/database.ts:507-613 | a commit sets the status and outcomes of that run, fails or completes its execution, and leaves every other run, command and ledger entry alone |
| `PipelineSafety.StoredJob` | packages/core/src/database.ts:549-570 | the ledger keeps what it had and gets the first posting per new fingerprint of this run, nothing else |
| `PipelineSafety.MismatchIff` | packages/core/src/database.ts:475-500 | jobs are refused if and only if a source has more of them than it accepted, or a job or a link of one comes from a source that accepted none |
| `PipelineSafety.RunsOnlyAdvance` | packages/core/src/database.ts:120-613 | whatever is finished at some point of a run is exactly the same at every later point; fences never go down; the log only grows |
| `PipelineSafety.EndedOnce` | packages/core/src/database.ts:222-613 | of all settle, fail and cancel calls in a run, exactly one commits per finished run and none per unfinished one |
| `PipelineSafety.EndsFinishes` | packages/core/src/database.ts:222-613 | a commit of one of them is exactly what turns a run from unfinished to finished |
| `PipelineSafety.StaleHolderChangesNothing` | packages/core/src/database.ts:373-613 | without the current fence on a live lease, start, renew and every settlement change nothing |
| `PipelineSafety.ReleaseByStaleFence` | packages/core/src/database.ts:385-391 | nor does a release with an old fence |
| `PipelineSafety.LateReleaseIsReachable` | packages/core/src/database.ts:385-391 | a run of three steps after which the holder of an expired lease still moves it |
| `PipelineSafety.FenceNeverReturns` | packages/core/src/database.ts:398-412 | after a takeover or cancellation the old fence is never current again in any continuation |
| `PipelineSafety.LiveHolderCanFail` | packages/core/src/dispatch.ts:136-160 | in a reachable state the live holder's fail always commits |
| `PipelineSafety.LiveHolderCanStart` | packages/core/src/database.ts:415-454 | and its start always succeeds, whatever attempt it is |
| `PipelineSafety.UnfinishedBecomesDue` | packages/core/src/database.ts:270-295 | an unfinished search without a live lease is due again two minutes after it was sent |
| `PipelineSafety.FinishedIsNeverDue` | packages/core/src/database.ts:270-295 | a finished search that was sent is never sent again |
| `PipelineSafety.DueIff` | packages/core/src/database.ts:270-295 | in a kept state a search command is due if and only if it was never sent, or was sent over two minutes ago, its search is unfinished and nobody holds its lease |
| `Workers.StepKeeps` | packages/core/src/dispatch.ts:44-179 | every step of every worker program, with heartbeats until its last block and with failing status queries, keeps: one holder per fence, handler runs with increasing fences in 1..5, acknowledgements only for completed commands |
| `Workers.DeliverKeeps` | packages/core/src/dispatch.ts:44-81 | in particular a delivery: comparison with the stored command, claim, attempt limit |
| `Workers.ClaimIsFresh` | packages/core/src/dispatch.ts:68-81 | a claimed fence is held by no worker and was used by no handler run |
| `Workers.ReachableInv` | packages/core/src/bull-queue.ts:44-117 | over both transports, with duplicated, forged and redelivered messages and crashes |
| `Workers.HandlerRunsAtMostFive` | packages/core/src/dispatch.ts:68-81 | the handler runs at most five times per command over all workers and both transports |
| `Workers.AcknowledgedIsDone` | packages/core/src/dispatch.ts:70-135 | an acknowledged search is durably completed and its run is over |
| `Workers.MutualExclusion` | packages/core/src/database.ts:373-412 | no two workers hold the live lease of one command |
| `Deliveries.DeliveryIsARun` | packages/core/src/dispatch.ts:44-161 | every delivery of the sequential model, over either transport, with any handler and failures, is a run of steps of one idle worker of the concurrent model: same tables, same acknowledgement, at most one call of the handler, other workers untouched |
| `Deliveries.HandlerRun` | packages/core/src/dispatch.ts:123-128 | the handler, its heartbeat and the clock are steps of that worker and of the environment |
| `Deliveries.DeadLetterIsARun` | packages/core/src/dispatch.ts:164-179 | so is the reconciliation of a dead letter |
| `Deliveries.OthersAct` | packages/core/src/database.ts:120-338 | and around the workers searches are created, cancelled and sent, with the same effect on the tables |
| `Dispatch.RunHandler` | packages/core/src/dispatch.ts:126-135 | the database effect of a handler that starts, completes, collects, lets time pass and is renewed, in any order and as often as it likes, whatever it reports |
| `Dispatch.RunCall` | packages/core/src/dispatch.ts:84-128 | one of those calls is one step of the pipeline |
| `Dispatch.ConsumeMessage` | packages/core/src/dispatch.ts:44-161 | one Redis delivery: tables and reply in every branch, also when the status query or the acknowledgement fails, and exactly which deliveries are acknowledged; which branch when: `Dispatch.UnfinishedVerdict`, `Dispatch.TurnedAway`, `Dispatch.BudgetIsSpent`, `Dispatch.CommittedStands` |
| `Dispatch.ExecuteBullCommand` | packages/core/src/bull-queue.ts:44-117 | one BullMQ delivery: tables and reply in every branch, also when a status query fails |
| `Dispatch.ReconcileDeadLetter` | packages/core/src/dispatch.ts:164-179 | fails the command under a fresh fence, or leaves everything alone |
| `Dispatch.PublishPending` | packages/core/src/dispatch.ts:24-42 | sends exactly the oldest due commands, in order, stamps exactly those, and none of them is due again right away |
| `Dispatch.AttemptProgress` | packages/core/src/dispatch.ts:136-161 | an undisturbed delivery, over either transport and whatever its handler does and reports, either ends the command or uses up one attempt and leaves it claimable once the clock moves |
| `Dispatch.HandlerKeepsAttempt` | packages/core/src/dispatch.ts:84-128 | whatever the handler does while the heartbeat renews in time, it ends with the command completed or the lease alive |
| `Dispatch.CommittedStands` | packages/core/src/dispatch.ts:127-161 | a result the handler committed stands, whatever fails behind it; BullMQ then reports done or duplicate |
| `Dispatch.UnfinishedVerdict` | packages/core/src/dispatch.ts:136-160 | a delivery whose handler leaves the command under its live lease gives up if and only if it was the last attempt and nothing interrupted it: execution, run and log are failed; otherwise only the lease ends, now, and the reply is retry. BullMQ too |
| `Dispatch.TurnedAway` | packages/core/src/dispatch.ts:64-76 | a delivery that does not match, comes during shutdown or is refused the claim changes nothing, and its reply says whether the command is completed, failed or held |
| `Dispatch.BudgetIsSpent` | packages/core/src/dispatch.ts:77-81 | a sixth claim fails command and search without running the handler |
| `Dispatch.GiveUpSpends` | packages/core/src/bull-queue.ts:94-116 | giving up under a live lease always ends the command |
| `Dispatch.FiveDeliveriesFinish` | packages/core/src/dispatch.ts:136-161 | from any reachable state five undisturbed deliveries end the command: each over either transport, with its own receive count, handler and pause before it |
| `Dispatch.DeliveryToFinished` | packages/core/src/dispatch.ts:68-81 | a delivery for a finished command changes nothing |
| `Sightings.Replay` | scripts/jobs/backfill-job-sightings.ts:89-127 | the loop computes the fold of the rows, evidence and seen times, stamped with the creation times of their runs; what the fold says is `Sightings.FoldTells` |
| `Sightings.FoldTells` | packages/core/src/database.ts:571-591 | an entry has title, company and run of the last row of its key, the number of rows, the date of the first row, the last date any row gave, and counts as reposts the dates later than the one given before them |
| `Sightings.TableTells` | scripts/jobs/backfill-job-sightings.ts:89-127 | every entry of a table, settled or rebuilt, tells that of the rows of its key; a key without rows has no entry |
| `Sightings.EvidenceIsTimeless` | packages/core/src/database.ts:571-591 | what a row says apart from its times is the same fold for settling and for the rebuild |
| `Sightings.FoldIsKeyLocal` | scripts/jobs/backfill-job-sightings.ts:89-127 | what the table holds for a key depends only on that key's own rows, in order |
| `Sightings.FoldCountsRows` | scripts/jobs/backfill-job-sightings.ts:97-118 | the count is the number of rows of the key |
| `Sightings.StoredOncePerKey` | packages/core/src/database.ts:549-570 | the ledger keeps one row per fingerprint of a batch, whatever the repetitions |
| `Sightings.RepeatIsUndercounted` | packages/core/src/database.ts:549-591 | a repeated fingerprint is counted more often than it is stored |
| `Sightings.ReplayReadsStoredOrder` | scripts/jobs/backfill-job-sightings.ts:142-165 | the script's order gives every key its stored rows in settle order |
| `Sightings.RowAgreesIff` | scripts/jobs/backfill-job-sightings.ts:22-34 | for a key whose own runs settled in creation order, the rebuilt row equals the live one if and only if no batch repeats that key |
| `Sightings.ReplayAgreesIffBatchesDistinct` | scripts/jobs/backfill-job-sightings.ts:22-34 | if each key's runs settled in creation order, the rebuilt evidence equals the live one if and only if no batch repeats a fingerprint |
| `Sightings.LateSettleDiverges` | scripts/jobs/backfill-job-sightings.ts:22-34 | when the run that settled last for a key is older than another run of it, the two tables name different last runs |
| `Sightings.LastRunAgreesIff` | scripts/jobs/backfill-job-sightings.ts:22-34 | for each key the two tables name the same last run if and only if the newest of its runs settled last |
| `Sightings.LiveSeenTimes` | packages/core/src/database.ts:571-591 | a live row was first seen when the first batch with its key settled, and last seen when the last one did |
| `Sightings.RebuiltSeenTimes` | scripts/jobs/backfill-job-sightings.ts:89-127 | a rebuilt row was seen from the creation of its first run to the creation of its last one |
| `SettledHistory.SightingsFoldBatches` | packages/core/src/database.ts:549-591 | over any run of the pipeline the live table, with its times, is what the committed batches recorded |
| `SettledHistory.LiveRowTells` | packages/core/src/database.ts:571-591 | over any run, every live entry tells what the committed batches observed of its posting, in settle order |
| `SettledHistory.LedgerFollowsBatches` | packages/core/src/database.ts:549-570 | and the job ledger holds exactly the first postings of those batches, one batch per run |
| `SettledHistory.RebuildMatchesRow` | scripts/jobs/backfill-job-sightings.ts:89-165 | over any run, for a posting whose own runs settled in creation order, the evidence rebuilt from the ledger equals the live one if and only if no settled batch reports it twice |
| `SettledHistory.RebuildMatchesLiveTable` | scripts/jobs/backfill-job-sightings.ts:89-165 | and if that order holds of every posting, the whole tables are equal if and only if every settled batch has distinct fingerprints |
| `SettledHistory.LastRunsAgreeIff` | scripts/jobs/backfill-job-sightings.ts:22-34 | over any run, the tables agree on the last run of a posting if and only if the newest of its runs settled last |
| `SettledHistory.RebuildSeesEarlier` | scripts/jobs/backfill-job-sightings.ts:89-127 | for a posting whose own runs settled in creation order, the rebuilt seen times are the creation times of its first and last runs, and never later than the live ones |
| `EventStream.PipelineLogShape` | packages/core/src/database.ts:592-604 | the logs the pipeline writes have a terminal event only at the end, and a finished run has one |
| `EventStream.PipelineLogsGrow` | packages/core/src/database.ts:202-205 | over any run, the log of a search only grows and always is: queued, perhaps started, perhaps one terminal event that matches the status |
| `EventStream.PositionSplits` | apps/api/src/app.ts:1974-2016 | the cursor splits the log into what is at or before it and what is behind it |
| `EventStream.DeliverPage` | apps/api/src/app.ts:1974-2016 | one page: consecutive events behind the cursor; `settled` only right after a terminal event, with nothing undelivered |
| `EventStream.Stream` | apps/api/src/app.ts:1974-2036 | a connection delivers the first events behind its cursor; page reads come right behind a check of a valid session and deliver exactly what they show, at most 50 events each; a heartbeat comes only when the last page read is delivered in full; it ends early only for a reason it reports; given enough reads of a finished run it ends with `settled`; and `settled` leaves nothing undelivered as long as the run stays |
| `EventStream.Serve` | apps/api/src/app.ts:1931-2036 | the cursor check and the stream together: the reply is the resolved cursor, the connection keeps up, and it is one the theorems about schedules speak of |
| `EventStream.PacedAtLeast` | apps/api/src/app.ts:1981-1999 | a read that showed n events is served in full after n/50 more pages at most: the deliveries never fall behind |
| `EventStream.PacedWithin` | apps/api/src/app.ts:1981-1999 | and never get ahead of what the last read shows |
| `EventStream.CutIsLegal` | apps/api/src/app.ts:1974-2036 | and so is whatever part of it reaches the client |
| `EventStream.CursorAnswers` | apps/api/src/app.ts:1931-1952 | no cursor starts with what is there; the id of a retained event continues behind it; an id that was pruned, or is below the retained ones, resynchronises; any other id is refused |
| `EventStream.CursorAccepted` | apps/api/src/app.ts:1931-1954 | a client's own last id is never refused |
| `EventStream.ConnectKeeps` | apps/api/src/app.ts:1916-2016 | one more connection, as `EventStream.Serve` makes them and cut anywhere, leaves the client's events since the last reset one gap-free stretch of the log |
| `EventStream.ReconnectsStayGapFree` | apps/api/src/app.ts:1916-2016 | and so does any schedule of disconnects and reconnects, with pruning in between |
| `EventStream.SettledLeavesNothing` | apps/api/src/app.ts:1974-2036 | when a client of a run that stays receives `settled`, its last id is that of the last event there will ever be |
| `EventStream.FinishedRunIsShown` | apps/api/src/app.ts:1974-2036 | a client that receives a connection with enough reads of a finished run to its end has the id of the last event there will ever be |
| `EventStream.SettledMeansComplete` | apps/api/src/app.ts:1916-2036 | over any schedule: then what it shows is one stretch that ends with the last event |
| `EventStream.PipelineLog` | packages/core/src/database.ts:202-205 | at every point of every run of the pipeline, the numbered log of a search ascends, only grows, has a terminal event only at the end, and has one when the search is finished |
| `EventStream.PipelineReads` | apps/api/src/app.ts:1974-2036 | reads taken at successive points of a run of the pipeline, until retention removes the search, are all that a connection relies on |
| `ResumeStorage.CountsSum` | packages/core/src/file-storage.ts:333-397 | the total marker count is the sum of the per-owner counts |
| `ResumeStorage.QuotaKeepsLimits` | packages/core/src/file-storage.ts:821-831 | an admitted marker keeps the owner limit and the total within limit plus reserve |
| `ResumeStorage.QuotaIff` | packages/core/src/file-storage.ts:821-831 | an owner may mark up to its own limit while the store has room; an owner without any marker also from the last tenth, at least one slot |
| `ResumeStorage.FileStore.constructor` | packages/core/src/file-storage.ts:173-256 | a directory with whatever it holds: the counters start out agreeing with its markers |
| `ResumeStorage.FileStore.Put` | packages/core/src/file-storage.ts:636-681 | creates the object only where nothing was, in at most two attempts, and never replaces an object or a marker |
| `ResumeStorage.PublishedReadsBack` | packages/core/src/file-storage.ts:636-933 | an object put where nothing was reads back at its version, a published cancellation reads back as one; for every other identity the path is a mismatch, and other paths are unaffected |
| `ResumeStorage.FileStore.Delete` | packages/core/src/file-storage.ts:779-793 | removes exactly an object that reads back at the version; a missing one is fine, anything else fails and stays |
| `ResumeStorage.FileStore.Inventory` | packages/core/src/file-storage.ts:333-397 | recounts the markers on disk, in total and per owner, whatever the directory order |
| `ResumeStorage.FileStore.ReclaimExpiredMarkers` | packages/core/src/file-storage.ts:473-515 | removes only expired markers, at most 1000, all of them if fewer, and leaves counters that agree with the directory |
| `ResumeStorage.FileStore.Sweep` | packages/core/src/file-storage.ts:473-515 | the scan of that sweep |
| `ResumeStorage.FileStore.PublishCancellation` | packages/core/src/file-storage.ts:901-933 | installs the marker over nothing or over the own object, leaves a marker and anything foreign, gives up only after ten contended attempts |
| `ResumeStorage.FileStore.CancelUpload` | packages/core/src/file-storage.ts:837-893 | success means the marker reads back; refusal exactly when the quota is exhausted; one reclaimed temporary is retried, two fail; counters and limits are kept |
| `ResumeStorage.FileStore.Admit` | packages/core/src/file-storage.ts:837-860 | the recount before a refusal never changes the answer while the counters agree with the directory |
| `ResumeUploads.UploadRepository.Usage` | packages/core/src/resumes.ts:170-200 | the number and total size of the rows, of all or of one owner |
| `ResumeUploads.UploadRepository.Reserve` | packages/core/src/resumes.ts:154-228 | a new row within both limits, the same row for the same key and document, otherwise refused |
| `ResumeUploads.UploadRepository.QueueStoredUpload` | packages/core/src/resumes.ts:320-373 | uploading becomes queued with version and parse command; queued again is idempotent for the same version only; cancelled is refused |
| `ResumeUploads.UploadRepository.CancelClaim` | packages/core/src/resumes.ts:286-314 | the first statement of a cancellation and the reply when it changes no row |
| `ResumeUploads.UploadRepository.CancelFinish` | packages/core/src/resumes.ts:286-314 | the last statement |
| `ResumeUploads.UploadRepository.SettleParse` | packages/core/src/resumes.ts:94-138 | execution and result together for the live holder of the upload's own command, or nothing |
| `ResumeUploads.UploadRepository.DeleteSettled` | packages/core/src/resumes.ts:234-279 | the object of a settled upload is gone before its rows are; a failed removal keeps them; a cancelled upload needs no storage |
| `ResumeUploads.UploadResume` | packages/core/src/resumes.ts:420-458 | the answer in every case: refused, already queued, cancelled, stored or reused; an accepted upload is queued, with its command stored and its path holding the recorded version; no file is replaced; a repeated call for a queued upload changes nothing |
| `ResumeSafety.ApplyKeeps` | packages/core/src/resumes.ts:94-373 | every database transaction and every single filesystem call keeps the invariant over both stores |
| `ResumeSafety.FilesOpKeeps` | packages/core/src/file-storage.ts:636-933 | put, cancellation link and rename, reclaim and unlink keep it |
| `ResumeSafety.QueueKeeps` | packages/core/src/resumes.ts:320-373 | queuing keeps it |
| `ResumeSafety.DeleteKeeps` | packages/core/src/resumes.ts:234-279 | deletion keeps it |
| `ResumeSafety.SettleKeeps` | packages/core/src/resumes.ts:94-138 | settling keeps it |
| `ResumeSafety.ReachableInv` | packages/core/src/resumes.ts:420-471 | the invariant holds after any interleaving of uploads, retries, late publishes, cancellations, sweeps, deletions, parse workers and crashes |
| `ResumeSafety.ReserveKnown` | packages/core/src/resumes.ts:154-228 | a known key names its row, for the very same document only, and changes nothing |
| `ResumeSafety.ReserveNew` | packages/core/src/resumes.ts:154-228 | a new key gets an uploading row if and only if 1000 rows and 1 GiB, and 50 rows and 100 MiB of its owner, leave room for it |
| `ResumeSafety.QueueAnswers` | packages/core/src/resumes.ts:320-373 | which reply queuing gets; it changes only an uploading row, its command and nothing else |
| `ResumeSafety.CancelAnswers` | packages/core/src/resumes.ts:286-314 | which reply a cancellation gets; its two statements change one status each |
| `ResumeSafety.DeleteAnswers` | packages/core/src/resumes.ts:234-279 | a deletion forgets a settled or cancelled upload with its key, and nothing else |
| `ResumeSafety.SettleAnswers` | packages/core/src/resumes.ts:94-138 | a settlement stores that outcome once, for the queued upload of that command, and fails the execution only for a processing failure |
| `ResumeSafety.CancellingNeverQueued` | packages/core/src/resumes.ts:286-373 | an upload that reached cancelling is never queued later and never gets a parse command |
| `ResumeSafety.QueuedIsWhole` | packages/core/src/resumes.ts:320-373 | a queued upload without a result has exactly one parse command, unfinished, and its path holds an object of exactly the recorded version |
| `ResumeSafety.OneVersion` | packages/core/src/file-storage.ts:769-776 | while an upload is unsettled, every reader recovers the same version |
| `ResumeSafety.LiveParseSettles` | packages/core/src/resumes.ts:479-523 | the live holder of a parse command finds the upload queued and its object readable, and whatever it settles commits |
| `ResumeSafety.QuotasHold` | packages/core/src/resumes.ts:154-228 | every reachable table has at most 1000 rows and 1 GiB, and at most 50 rows and 100 MiB per owner |
| `ResumeSafety.FilesOnlyLeave` | packages/core/src/file-storage.ts:636-681 | no put replaces a file; an object leaves its path only by its own claimed cancellation or its own deletion, a marker only by the sweep or another marker |
| `ResumeSafety.MarkerStands` | packages/core/src/file-storage.ts:837-933 | until it is reclaimed, a marker keeps its path against every later call in any continuation |
| `ResumeSafety.SettlingFinishes` | packages/core/src/resumes.ts:94-138 | a committed settlement is exactly what finishes the parse command of an upload |
| `ResumeSafety.SettledAtMostOnce` | packages/core/src/resumes.ts:94-138 | over any run an upload is settled at most once, and once if its command is finished |
| `Sessions.Auth.CreateSession` | packages/core/src/auth.ts:47-78 | revokes what the browser held and starts a family with one access and one refresh token |
| `Sessions.Auth.FindSession` | packages/core/src/auth.ts:392-404 | finds a session exactly when one accepts the access token |
| `Sessions.Auth.Refresh` | packages/core/src/auth.ts:411-485 | rotates a live token once, revokes the family when a consumed one is presented, otherwise changes nothing |
| `Sessions.Auth.Revoke` | packages/core/src/auth.ts:520-567 | marks exactly the given sessions and keeps an earlier revocation time |
| `Sessions.Auth.Logout` | packages/core/src/auth.ts:520-530 | revokes the sessions identified by either token, live or not |
| `Sessions.Auth.RevokeSession` | packages/core/src/auth.ts:557-567 | revokes a session of its owner only |
| `Sessions.Auth.RevokeOtherSessions` | packages/core/src/auth.ts:569-599 | revokes every session of the owner but the one behind a valid token, or nothing; who stays: `SessionSafety.AskerStays` |
| `Sessions.Auth.Oldest` | packages/core/src/auth.ts:85-98 | the earliest expired rows, as many as the batch allows |
| `Sessions.Auth.SweepExpired` | packages/core/src/auth.ts:85-98 | deletes expired sessions only, oldest first, at most a batch and all if fewer, with their tokens |
| `SessionSafety.ApplyKeeps` | packages/core/src/auth.ts:47-599 | every operation keeps: one unconsumed token per session, expiry fixed, tokens issued; death, spending and retirement are for good |
| `SessionSafety.RotateKeeps` | packages/core/src/auth.ts:411-485 | a rotation makes the new token the only unconsumed one |
| `SessionSafety.ReachableInv` | packages/core/src/auth.ts:47-599 | the invariant holds after every run |
| `SessionSafety.OneLiveTokenPerSession` | packages/core/src/auth.ts:47-78 | every surviving session has exactly one unconsumed refresh token, and its family expires with it |
| `SessionSafety.ExpiryNeverMoves` | packages/core/src/auth.ts:411-485 | rotation never extends a session |
| `SessionSafety.AccessStaysUnique` | packages/core/src/auth.ts:392-404 | no two sessions share a current access token |
| `SessionSafety.RotatesAtMostOnce` | packages/core/src/auth.ts:411-485 | over any run each refresh token rotates at most once |
| `SessionSafety.ReplayKills` | packages/core/src/auth.ts:411-485 | presenting a consumed token ends its family |
| `SessionSafety.RevocationKills` | packages/core/src/auth.ts:520-599 | so do a logout with any of its tokens and both revocations |
| `SessionSafety.SignInEnds` | packages/core/src/auth.ts:47-78 | a sign-in ends the sessions of the tokens the browser held, and leaves every other session and every token as it was |
| `SessionSafety.AskerStays` | packages/core/src/auth.ts:569-599 | signing out everywhere else keeps the session that asks, its access and all refresh tokens, revokes every other session of that owner, and no session of anybody else |
| `SessionSafety.StrangerRevokesNothing` | packages/core/src/auth.ts:569-599 | without a session of that owner behind the token nothing happens |
| `SessionSafety.OthersStay` | packages/core/src/auth.ts:520-567 | a logout and a single revocation leave every session they do not name alone |
| `SessionSafety.RevokedOnce` | packages/core/src/auth.ts:520-599 | a revoked session keeps the time of its first revocation under every later operation |
| `SessionSafety.SweepIsInvisible` | packages/core/src/auth.ts:85-98 | a sweep changes neither which tokens are accepted nor which ones rotate; it deletes exactly the expired ones of the sessions it is given |
| `SessionSafety.DeadFamilyIsNeverAccepted` | packages/core/src/auth.ts:392-485 | after that, in any continuation, no token of the family is accepted as access or rotates |
| `SessionSafety.RotatedAccessIsNeverAccepted` | packages/core/src/auth.ts:411-485 | the access token a rotation replaced is never accepted again |
| `SessionSafety.RotationRetires` | packages/core/src/auth.ts:411-485 | every rotation replaces the access token and leaves only the new refresh token unconsumed |
| `SessionSafety.FreshSessionServes` | packages/core/src/auth.ts:47-78 | a sign-in's access token works for exactly 15 minutes and its refresh token for exactly 30 days |
| `SessionSafety.RotationServes` | packages/core/src/auth.ts:411-485 | a rotation's tokens work exactly as long as they should and never beyond the session; the old one is a replay |
| `OneTimeCodes.AcceptedIff` | packages/core/src/email-otp.ts:76-105 | a code is accepted exactly when it was issued for this challenge, in time and within five attempts |
| `OneTimeCodes.EmailOtpChallenges.ReplaceActive` | packages/core/src/email-otp-challenges.ts:68-141 | refuses inconsistent input, keeps a challenge within the cooldown, otherwise replaces the address's challenge; at most one per address |
| `OneTimeCodes.EmailOtpChallenges.ActiveId` | packages/core/src/email-otp-challenges.ts:144-164 | the unexpired challenge of the address, if there is one |
| `OneTimeCodes.EmailOtpChallenges.Invalidate` | packages/core/src/email-otp-challenges.ts:167-174 | removes exactly that challenge of that address |
| `OneTimeCodes.EmailOtpChallenges.Consume` | packages/core/src/email-otp-challenges.ts:181-292 | the whole effect and reply of one guess, with the callback's failure rolled back |
| `OneTimeCodeSafety.ApplyKeeps` | packages/core/src/email-otp-challenges.ts:68-292 | every operation keeps: what was heard about a challenge fits its stored attempts, callbacks committed for the accepted answers, one challenge per address |
| `OneTimeCodeSafety.ReplyFits` | packages/core/src/email-otp-challenges.ts:181-292 | one reply moves what was heard about a challenge to another permitted sequence |
| `OneTimeCodeSafety.ReachableInv` | packages/core/src/email-otp-challenges.ts:68-292 | the invariant holds after every run |
| `OneTimeCodeSafety.AnswersPerChallenge` | packages/core/src/email-otp-challenges.ts:181-292 | about one challenge a caller hears at most four `incorrect`, then at most one last answer (`exhausted` only after four), besides that only `invalid`; stored attempts stay in 0..4 |
| `OneTimeCodeSafety.ClosedAcceptsOnce` | packages/core/src/email-otp-challenges.ts:181-292 | such a sequence accepts at most once, at its end |
| `OneTimeCodeSafety.AcceptedOnceAndCommitted` | packages/core/src/email-otp-challenges.ts:181-292 | at most one acceptance, exactly as often as the callback committed |
| `OneTimeCodeSafety.FinalAnswerIsFinal` | packages/core/src/email-otp-challenges.ts:181-292 | after a final answer only `invalid`, and nothing changes |
| `OneTimeCodeSafety.CooldownProtects` | packages/core/src/email-otp-challenges.ts:68-141 | an unexpired challenge within the cooldown is never replaced |
| `OneTimeCodeSafety.IssueAnswers` | packages/core/src/email-otp-challenges.ts:68-141 | refused if and only if inconsistent, kept if and only if a code sent lately is still good; otherwise the new unused challenge replaces that of its address, and no other one is touched |
| `OneTimeCodeSafety.GuessTouches` | packages/core/src/email-otp-challenges.ts:181-292 | a guess touches only its own challenge, which survives exactly a wrong guess with some left, one attempt on |
| `OneTimeCodeSafety.InvalidateTouches` | packages/core/src/email-otp-challenges.ts:167-174 | an invalidation removes exactly the challenge it names, if the address is right |
| `OneTimeCodeSafety.OneChallengePerAddress` | packages/core/src/email-otp-challenges.ts:68-141 | at most one challenge per address in every reachable state |
| `OneTimeCodeSafety.AcceptedExactlyForTheCode` | packages/core/src/email-otp-challenges.ts:181-292 | in a reachable state a guess is accepted exactly for the challenge's own code, address and purpose, in time, when the callback commits |
| `EmailChange.EmailChangeRequests.Cancel` | packages/core/src/email-change-requests.ts:44-49 | removes exactly that request of that user |
| `EmailChange.EmailChangeRequests.Begin` | packages/core/src/email-change-requests.ts:55-147 | a new request with two fresh challenges replaces any earlier one, for a verified user with another address |
| `EmailChange.EmailChangeRequests.Verify` | packages/core/src/email-change-requests.ts:154-289 | the whole effect and reply of one code, including the conflict that rolls back and drops the request; addresses stay unique |
| `EmailChangeSafety.ApplyKeeps` | packages/core/src/email-change-requests.ts:44-289 | every operation keeps: tables agree with what the log alone says, every change earned, wrong codes counted, addresses unique |
| `EmailChangeSafety.VerifyKeeps` | packages/core/src/email-change-requests.ts:154-289 | in particular a verification, in each of its outcomes |
| `EmailChangeSafety.BeginAnswers` | packages/core/src/email-change-requests.ts:55-147 | a request begins if and only if the user is verified and the address another one; it is fresh, lasts five minutes and touches no other user |
| `EmailChangeSafety.CodeAnswers` | packages/core/src/email-change-requests.ts:154-289 | what one code does to an open request, in each case, and that nothing of any other user changes |
| `EmailChangeSafety.CodeRefused` | packages/core/src/email-change-requests.ts:154-289 | without an open request or a verified address a code does nothing; a request from another address is dropped |
| `EmailChangeSafety.ReachableInv` | packages/core/src/email-change-requests.ts:44-289 | the invariant holds after every run |
| `EmailChangeSafety.ChangesAreEarned` | packages/core/src/email-change-requests.ts:154-289 | an address changes only if, for the one request begun for it and not replaced, cancelled or expired since, both codes were accepted while the address was the old one |
| `EmailChangeSafety.AddressesFollowTheLog` | packages/core/src/email-change-requests.ts:154-289 | the stored address is the last one registered or changed to, and no two users share one |
| `EmailChangeSafety.WrongGuessesBounded` | packages/core/src/email-change-requests.ts:154-289 | each side survives at most four wrong codes and never sees more than five |
| `EmailChangeSafety.BothCodesComplete` | packages/core/src/email-change-requests.ts:55-289 | the two codes of a begin, in either order and in time, change the address if it is free |
| `Notifications.BackoffDoubles` | packages/core/src/notification-delivery.ts:270-280 | one minute, then twice as long each time, at most six hours |
| `Notifications.BeforeIsOrder` | packages/core/src/notification-delivery.ts:230-239 | the claim order is total: first by the time it became available, then by event |
| `Notifications.NotificationOutbox.Enqueue` | packages/core/src/notification-delivery.ts:159-193 | one pending delivery per distinct channel, existing ones untouched |
| `Notifications.NotificationOutbox.Bury` | packages/core/src/notification-delivery.ts:224-229 | abandoned fifth attempts become dead letters, and every dead delivery has a letter |
| `Notifications.NotificationOutbox.Claim` | packages/core/src/notification-delivery.ts:203-262 | takes the first due delivery in order, or none exactly when none is due |
| `Notifications.NotificationOutbox.First` | packages/core/src/notification-delivery.ts:230-239 | the earliest available, then the smallest event |
| `Notifications.NotificationOutbox.DeliverNext` | packages/core/src/notification-delivery.ts:203-293 | one call without interference: delivered, pending again after the backoff, or dead with its letter |
| `NotificationSafety.ApplyKeeps` | packages/core/src/notification-delivery.ts:159-293 | every step keeps: attempts count claims, sends count claims that sent, letters belong to dead deliveries; settled deliveries never change |
| `NotificationSafety.BuryKeeps` | packages/core/src/notification-delivery.ts:203-245 | after the first two statements letters and dead deliveries are the same |
| `NotificationSafety.ReachableInv` | packages/core/src/notification-delivery.ts:159-293 | the invariant holds after every timely run |
| `NotificationSafety.EnqueueWritten` | packages/core/src/notification-delivery.ts:159-193 | enqueuing adds one pending delivery, due now, for each channel that has none |
| `NotificationSafety.ClaimWritten` | packages/core/src/notification-delivery.ts:203-262 | a claim takes the chosen due delivery under its next attempt, buries abandoned fifth attempts, gives every dead delivery a letter, and changes nothing else |
| `NotificationSafety.OutcomesWritten` | packages/core/src/notification-delivery.ts:263-293 | a failure waits for the longer of base delay and backoff, or is dead if it was the last of at least one and at most five attempts; a success settles; only that delivery changes |
| `NotificationSafety.LetterWritten` | packages/core/src/notification-delivery.ts:280-293 | a letter names the attempts of the failed claim, and an existing one stays |
| `NotificationSafety.SentAtMostFiveTimes` | packages/core/src/notification-delivery.ts:203-293 | if claimants record within two minutes or crash, each delivery is sent at most five times and pending ones had at most four attempts |
| `NotificationSafety.SettledForGood` | packages/core/src/notification-delivery.ts:203-293 | if claimants record in time, delivered and dead deliveries never change again |
| `NotificationSafety.LettersExactAfterClaim` | packages/core/src/notification-delivery.ts:203-245 | if claimants record in time, right after a claim transaction the letters are exactly the dead deliveries, with their attempts |
| `NotificationSafety.LateWriterCausesSixthSend` | packages/core/src/notification-delivery.ts:263-293 | without the timing hypothesis: a concrete run with six sends |
| `NotificationSafety.SentAtMostFiveUnlessRevived` | packages/core/src/notification-delivery.ts:263-293 | however late outcomes are written, each delivery is sent at most five times as long as no late failure makes a delivery pending that has used up its attempts |
| `NotificationSafety.SixthClaimIff` | packages/core/src/notification-delivery.ts:263-293 | and a step lets some delivery be claimed a sixth time, now or later, if and only if it is such a failure |
| `NotificationSafety.ReachableSettledFree` | packages/core/src/notification-delivery.ts:159-293 | in every reachable state, however late outcomes are written, a settled delivery has no claim time, so no claim takes it |
| `NotificationSafety.SettledChangesIff` | packages/core/src/notification-delivery.ts:263-293 | a step changes a settled delivery if and only if it is an outcome of an open claim that the row does not already show; it unsettles it if and only if it is a failure with attempts left |
| `NotificationSafety.SettledForGoodUnlessWrittenOver` | packages/core/src/notification-delivery.ts:203-293 | however late outcomes are written, as long as none is written over a settled row, settled deliveries never change |
| `NotificationSafety.LettersExactUnlessWrittenOver` | packages/core/src/notification-delivery.ts:203-245 | and right after a claim transaction the deliveries with a letter are exactly the dead ones |
| `NotificationSafety.LateFailureSendsAgain` | packages/core/src/notification-delivery.ts:263-293 | a concrete run in which a delivered notification is sent again |
| `NotificationSafety.LateFailureStrandsLetter` | packages/core/src/notification-delivery.ts:263-293 | a concrete run after which a pending delivery still has its letter, and keeps it through a claim transaction |
| `QuietHours.ParseTime` | packages/core/src/notification-delivery.ts:114-121 | a clock time is a minute of the day, anything else is refused |
| `QuietHours.ParseTimeIff` | packages/core/src/notification-delivery.ts:114-121 | a text is read as minute m if and only if it is m as two-digit hour below 24 and two-digit minute |
| `QuietHours.QuietHoursDefer` | packages/core/src/notification-delivery.ts:114-152 | null iff outside the window; otherwise the first whole-minute step outside it; throws iff none of the 1560 steps is outside |
| `QuietHours.ConstantOffsetLandsOnEnd` | packages/core/src/notification-delivery.ts:134-152 | with a constant offset the search ends within a day, exactly on the local minute `end` |
| `QuietHours.BackwardChangeEndsIff` | packages/core/src/notification-delivery.ts:134-152 | one backward change of up to 12 hours: it always ends iff window and change fit in 26 hours, so always up to 121 minutes |
| `QuietHours.ForwardChangeEndsIff` | packages/core/src/notification-delivery.ts:134-152 | one forward change of under 11 hours: it always ends iff the change is shorter than the rest of the day |
| `QuietHours.JumpThrows` | packages/core/src/notification-delivery.ts:134-152 | the instant and the change for which it throws, for every window that is too long |
| `QuietHours.SpringForwardThrows` | packages/core/src/notification-delivery.ts:134-152 | a concrete instant, window and clock change for which no step is outside the window |
| `JobIdentity.FullDominates` | packages/providers/src/normalize.ts:474-481 | a copy with the full description outranks every copy without |
| `JobIdentity.RicherIff` | packages/providers/src/normalize.ts:474-481 | which copy wins: full description first, then a salary, then length of description up to 10000 characters with a hundred per source rank |
| `JobIdentity.RankLevels` | packages/providers/src/normalize.ts:420-438 | which sources have which rank |
| `JobIdentity.GroupBy` | packages/providers/src/normalize.ts:340-350 | groups by key, in order of first appearance, each group in input order |
| `JobIdentity.GroupsNonEmpty` | packages/providers/src/normalize.ts:340-350 | no group is empty |
| `JobIdentity.RepeatsSource` | packages/providers/src/normalize.ts:394-400 | whether two merged postings share a source |
| `JobIdentity.ResolveFingerprintGroup` | packages/providers/src/normalize.ts:383-403 | one fingerprint group: merged into one, or split per posting when a source shows two |
| `JobIdentity.DedupeJobs` | packages/providers/src/normalize.ts:340-350 | the loops compute the resolution of every group, in order |
| `JobIdentityLaws.MergeFields` | packages/providers/src/normalize.ts:445-471 | a merge has a full description, a salary, the remote flag or a skill iff one of the two copies has, and the earliest and latest seen dates |
| `JobIdentityLaws.MergeBackfills` | packages/providers/src/normalize.ts:445-471 | the richer copy's fields stand, gaps are filled from the other |
| `JobIdentityLaws.SumsUpMerge` | packages/providers/src/normalize.ts:445-471 | a merge of two summaries sums up all their copies |
| `JobIdentityLaws.MergeAllSumsUp` | packages/providers/src/normalize.ts:383-403 | and so does merging a whole list |
| `JobIdentityLaws.GroupResolves` | packages/providers/src/normalize.ts:383-417 | a group gives one output per posting if some source shows two postings, one output otherwise; each sums up exactly its copies |
| `JobIdentityLaws.DedupePartitions` | packages/providers/src/normalize.ts:340-417 | outputs have pairwise distinct identities, every input's identity is among them, and each output sums up exactly the inputs of its identity |
| `JobIdentityLaws.OrderDoesNotMatter` | packages/providers/src/normalize.ts:340-417 | the summary of an identity does not depend on the input order |
| `JobIdentityLaws.DistinctJobsStay` | packages/providers/src/normalize.ts:340-350 | jobs with distinct identities come out unchanged |
| `JobIdentityLaws.DedupeIsIdempotent` | packages/providers/src/normalize.ts:340-417 | deduplicating twice is deduplicating once |
| `DateRanges.FindDateRanges` | packages/resume/src/derive.ts:311-328 | the plausible date pairs, in order, each within bounds |
| `DateRanges.RangesAre` | packages/resume/src/derive.ts:311-328 | a range counts if and only if both its dates were read, in order, not before 1970 and at most 366 days ahead |
| `DateRanges.MergeRanges` | packages/resume/src/derive.ts:360-372 | the loop's result is in order, has gaps between ranges and covers exactly the union |
| `DateRanges.MergeIsUnion` | packages/resume/src/derive.ts:360-372 | the same of the function |
| `DateRanges.ExtendKeeps` | packages/resume/src/derive.ts:360-372 | one pass of the loop adds exactly one range to the union and keeps the gaps |
| `DateRanges.SeparatedIsCanonical` | packages/resume/src/derive.ts:360-372 | two lists with gaps that cover the same positions are equal |
| `DateRanges.MergeDependsOnUnionOnly` | packages/resume/src/derive.ts:360-372 | the result depends only on what the input covers |
| `DateRanges.OrderDoesNotMatter` | packages/resume/src/derive.ts:360-372 | so order and repetition of the input do not matter |
| `DateRanges.ContainedRangeAddsNothing` | packages/resume/src/derive.ts:360-372 | a range inside another one changes nothing |
| `DateRanges.TotalIsMeasure` | packages/resume/src/derive.ts:339-372 | the summed length is the number of milliseconds in at least one range |
| `DateRanges.SumLengths` | packages/resume/src/derive.ts:339-357 | the sum over the merged ranges |
| `DateRanges.DeriveYears` | packages/resume/src/derive.ts:339-357 | a plausible explicit claim, otherwise the measured time in years rounded to a tenth, or nothing when there is none or over 60 years |
| `DateRanges.RoundIsNearest` | packages/resume/src/derive.ts:339-357 | the result is the nearest tenth |
| `ApplicationCsv.CsvCell` | apps/api/src/application-export.ts:26-41 | the scan finds formulas behind spaces and controls; the cell is the guarded text, quoted |
| `ApplicationCsv.SkippingKeepsFormula` | apps/api/src/application-export.ts:26-41 | skipped characters do not change whether a text is a formula |
| `ApplicationCsv.SafeIsNoFormula` | apps/api/src/application-export.ts:26-41 | a guarded text is no formula, and only formulas are changed |
| `ApplicationCsv.FormulaIff` | apps/api/src/application-export.ts:26-41 | a text counts as a formula if and only if its first character that is no space or control is one of the four operators |
| `ApplicationCsv.HeadersTellApart` | apps/api/src/application-export.ts:9-23 | the 13 headers are distinct, and exactly those of the reported columns start with "Candidate-reported" |
| `ApplicationCsv.HeaderRow` | apps/api/src/application-export.ts:9-23 | the 13 headers, in order |
| `ApplicationCsv.RecordRow` | apps/api/src/application-export.ts:46-62 | the row of a record, in the order of the header |
| `ApplicationCsv.FieldsUnderHeaders` | apps/api/src/application-export.ts:9-64 | every column shows its own value under its own header; the reported ones depend on the evidence alone and are empty without it, the others do not depend on it |
| `ApplicationCsv.CellReadsBack` | apps/api/src/application-export.ts:26-41 | an RFC 4180 reader gets the text of a cell back, whatever quotes, commas and line breaks it holds |
| `ApplicationCsv.RowReadsBack` | apps/api/src/application-export.ts:44-64 | and the fields of a row |
| `ApplicationCsv.ExportReadsBack` | apps/api/src/application-export.ts:44-64 | reading an export gives the header and one 13-field row per record, each field exactly the text passed to quoting |
| `Matching.ScoreSkills` | packages/matching/src/dimensions.ts:82-144 | the loop computes earned over possible credit, and lists matched and missing skills in order |
| `Matching.CreditLadder` | packages/matching/src/dimensions.ts:82-123 | a skill is worth 1 if held and recent or no dates are known, 0.9 if held, 0.5 or the adjacent credit through the first held skill of its family, otherwise nothing |
| `Matching.DemandsSplit` | packages/matching/src/dimensions.ts:95-123 | matched are exactly demands the candidate names, missing the others, and together they are all demands |
| `Matching.TwoDemands` | packages/matching/src/dimensions.ts:95-144 | two demands average their credits, each weighted by how firmly it is asked times how rare the skill is |
| `Matching.NeutralWithoutDemands` | packages/matching/src/dimensions.ts:125-133 | a listing without demands scores a half |
| `Matching.FirstOfFamilies` | packages/matching/src/dimensions.ts:82-100 | the first listed skill of each family |
| `Matching.JaccardBounded` | packages/matching/src/dimensions.ts:276-281 | within 0..1 and symmetric |
| `Matching.JaccardMeans` | packages/matching/src/dimensions.ts:276-281 | common tokens over all tokens; 0 if and only if none in common, 1 if and only if the same and some |
| `Matching.ScoreTitle` | packages/matching/src/dimensions.ts:228-263 | the best closeness over the targets, attained by one of them; neutral without any |
| `Matching.ClosenessMeans` | packages/matching/src/dimensions.ts:228-263 | titles of one family are at least 0.6 close, 1 if and only if they have the same tokens; otherwise only tokens count |
| `Matching.WeightsSumToOne` | packages/shared/src/constants.ts:110-118 | the seven weights sum to one |
| `Matching.OneDimension` | packages/shared/src/constants.ts:110-118 | what a job that is perfect in one dimension and worthless in the others scores, for each dimension |
| `Matching.CreditDropsIff` | packages/matching/src/dimensions.ts:82-144 | one more skill, listed anywhere, lowers the credit of a demand if and only if nobody names the demanded skill and the added one becomes the first of its family in place of one that earns more |
| `Matching.SkillsScoreKept` | packages/matching/src/dimensions.ts:82-144 | the skills dimension does not drop unless that happens to a demand with weight |
| `Matching.FinalScoreKept` | packages/matching/src/score.ts:58-122 | nor does the final score |
| `Matching.SomeScoreDropsIff` | packages/matching/src/dimensions.ts:82-144 | some listing scores lower with the skill added there if and only if it displaces a better relative of a skill with weight |
| `Matching.SomeFinalScoreDropsIff` | packages/matching/src/score.ts:58-122 | and the final, rounded and capped score of some listing drops under exactly the same condition |
| `Matching.Combine` | packages/matching/src/score.ts:108-117 | the loop computes the rounded weighted sum |
| `Matching.RoundIsClose` | packages/matching/src/score.ts:108-117 | rounding moves a score by at most half of a ten-thousandth |
| `Matching.ScoreJob` | packages/matching/src/score.ts:58-105 | zero for gated listings, otherwise the capped combination; within 0..1, at most 0.8 at low confidence |
| `Matching.FinalScoreBounded` | packages/matching/src/score.ts:58-122 | the bounds, for all inputs |
| `Matching.UnreadIsCapped` | packages/matching/src/score.ts:119-122 | an unread description caps the score at 0.8 and changes nothing else |
| `Matching.CreditGrows` | packages/matching/src/dimensions.ts:82-144 | appending a skill never lowers the credit of a demand: nothing is listed behind it |
| `Matching.SkillsScoreGrows` | packages/matching/src/dimensions.ts:82-144 | nor the skills dimension |
| `Matching.FinalScoreGrows` | packages/matching/src/score.ts:58-122 | nor the final rounded, capped score |
| `Matching.ListingFirstCanLower` | packages/matching/src/dimensions.ts:82-144 | a concrete candidate and listing: 0.5 without the skill, 0.4 with it listed first, 0.5 with it listed last |
| `Leads.LeadRepository.Save` | packages/core/src/leads.ts:279-323 | a job of a completed or partial run of the owner becomes a lead with a copy of its data and its first history entry, or the existing lead of that fingerprint is returned; anything else is not found |
| `Leads.LeadRepository.Update` | packages/core/src/leads.ts:330-468 | every refusal in the source's order, no change when nothing differs, otherwise the lead and one history entry |
| `Leads.LeadRepository.List` | packages/core/src/leads.ts:230-241 | the newest leads of a status behind the lead the cursor names, whatever its status now; nothing for a foreign or unknown cursor |
| `Leads.PageShows` | packages/core/src/leads.ts:230-241 | a page shows leads of the owner with that status only, newest first, older than the cursor lead, and names a next cursor only when it is full |
| `Leads.LeadRepository.Take` | packages/core/src/leads.ts:230-241 | the ordering and the limit |
| `Leads.Page` | packages/core/src/leads.ts:230-241 | at most `limit` rows; a cursor only behind a full page, naming its last row |
| `Leads.PageFrom` | packages/core/src/leads.ts:230-241 | a page is the next stretch of the snapshot, with a cursor exactly when more follows |
| `Leads.PagesAreComplete` | packages/core/src/leads.ts:230-276 | following the cursor over a fixed snapshot returns every row once, in order, for every page size |
| `Leads.ListPageIs` | packages/core/src/leads.ts:230-241 | a page by lead id is the page by the key of that lead |
| `Leads.ListIsComplete` | packages/core/src/leads.ts:230-241 | over a fixed table, following the ids lists every lead of the status once, newest first |
| `LeadHistory.ChangeOk` | packages/core/src/leads.ts:330-468 | an accepted change continues the history |
| `LeadHistory.ReachableInv` | packages/core/src/leads.ts:279-468 | the invariant holds after every run |
| `LeadHistory.UpdateAnswers` | packages/core/src/leads.ts:330-468 | an update is accepted if and only if revision, tags, evidence and status obey the rules, each broken one has its reply; an accepted one makes the lead as asked, or answers unchanged if it already is; no other lead changes |
| `LeadHistory.SaveAnswers` | packages/core/src/leads.ts:279-323 | a job is saved if and only if it is one of a completed or partial run of the owner; then at most one unmarked lead is added, with its first entry |
| `LeadHistory.HistoryTellsTheLead` | packages/core/src/leads.ts:279-468 | revisions are 1..n, each entry continues its predecessor and says exactly what changed (status, notes, evidence, tags), the last one is the lead as it is, evidence never disappears, every application status has some |
| `LeadHistory.HistoryOnlyGrows` | packages/core/src/leads.ts:330-468 | history is never rewritten, and a lead keeps the job data it was saved with |
| `LeadHistory.SaveIsIdempotent` | packages/core/src/leads.ts:279-323 | a job is saved exactly when the owner can see it, and saving it or another copy of it again gives the same lead and changes nothing |
| `LeadHistory.NoLostUpdate` | packages/core/src/leads.ts:330-468 | of two changes from the same revision the second one conflicts |
| `LeadHistory.HistoryPagesAreComplete` | packages/core/src/leads.ts:255-276 | the pages of a lead's history give the whole history, newest first |

## Left out

- Workers.StepKeeps: giving up on Redis's receive count is a free choice of the worker, since the count is not part of the system state; `Dispatch.ConsumeMessage` has it as an input.
- Workers.DeliverKeeps: the comparison with the stored command and the claim are one step, since outbox commands never change between the two.
- PipelineSafety.CloseParseKeeps: parse commands appear there only through their executions; their own protocol is `ResumeSafety`.
- SettledHistory.RebuildMatchesLiveTable: a run's creation time is taken as its command's.
- EventStream.Stream: when retention removes the run while a client is connected, `settled` says nothing about what was removed; completeness is stated for runs that stay.
- EventStream.ReconnectsStayGapFree: the streams map, its limits and the wait between polls are not modelled; that the numbers of one run's events rise as they are committed is a hypothesis (`EventStream.Rising`), met because their transactions wait for each other's rows.
- ResumeStorage.FileStore.CancelUpload: counters are proved for sequential calls of one process; a second process on the same directory is noticed only at the next recount.
- ResumeUploads.UploadResume: one call without interference; interleavings are in `ResumeSafety`, where its reads and writes are separate steps.
- NotificationSafety.SettledForGood: holds under the hypothesis that claimants record within their lease; without it, `NotificationSafety.SettledChangesIff` and `NotificationSafety.SettledForGoodUnlessWrittenOver`.
- NotificationSafety.LettersExactAfterClaim: under the same hypothesis; without it, `NotificationSafety.LettersExactUnlessWrittenOver`.
- NotificationSafety.SentAtMostFiveTimes: holds under the hypothesis that claimants record within their lease; what the code alone gives is `NotificationSafety.SentAtMostFiveUnlessRevived`, with its exact limit in `NotificationSafety.SixthClaimIff`.
- QuietHours.BackwardChangeEndsIff: at most one offset change near the search, of up to 12 hours (forward: under 11); larger or repeated changes are not covered.
- JobIdentityLaws.DedupePartitions: inputs carry the fingerprint computed from their content, as normalisation produces them; a disambiguated identity as input is covered by `JobIdentityLaws.DistinctJobsStay`.
- DateRanges.FindDateRanges: the regular expression that finds date tokens and the token parser are not modelled; their results are inputs.
- Matching.ScoreJob: seniority, experience, location, compensation and recency enter as the numbers they hand to the clamp; exact reals instead of floating point.
- Leads.LeadRepository.Save: the employer's acknowledgement, the liveness check of the apply link and the re-validation of stored data.
- Real Postgres, Redis and BullMQ: transactions are atomic steps, queues a bag of messages that may be lost, duplicated or forged.
- Storage details: file modes, symlink checks, fsync, contention retries beyond those modelled, sweeping of temporaries, free-space admission.
- Cryptography, entropy, constant-time comparison and the token format.
- Account deletion, registration, password and recovery flows, and e-mail delivery itself: registration appears only as a step that adds a user.
- HTTP routes other than the event stream, cookies, headers, rate limits, the OpenAPI document and schema validation.
- Search retention, market queries, the preparation report, legal acceptance and the web client.
- Provider adapters, the HTTP client, liveness probing and the text heuristics for titles, contacts, locations and demands.
