# Verified model of a browser-automation control plane

The repository drives browsers on behalf of operators: it plans commands and lets a human confirm them, queues and
leases jobs to runners, keeps a tamper-evident audit trail, ships that trail to external sinks, classifies network
destinations, reads accessibility snapshots into records, compiles recordings into replayable flows, and cleans up
remote-browser state. This project models the protocols and parsers behind that in Dafny and proves what they promise.

Two forms are used throughout. A pure step or result function says what one operation does to the state; where the
source updates state in place, a class does the same with its fields, and each method's postcondition equates the new
state with that function of the old one. The theorems are then about those functions: invariants over every
interleaving, iff-conditions, round trips, and termination measures.

- `CommandPlan`, `CommandPlanSafety`, `CommandPlanJobs`, `CommandPlanVerdicts`, `CommandPlanLiveness`,
  `CommandPlanRoutes`: the life of a command plan. The main result is `LiveRunIsVouchedFor`; `LiveIsReachable` shows that
  the gates do open, and `FinalRowIsTrue` that the recorded verdicts are what the jobs reported.
- `SerialQueue`, `CommandPlanSystem`: the promise chain that runs job bodies one at a time, and the plans on it. There a
  completion names whichever body ended; `SystemRefinesProtocol` proves that this is a run of the protocol, in which
  completions come in queue order.
- `JobQueue`, `JobQueueSafety`, `JobQueueEffects`, `JobTable`: the durable job table with leases, attempts and
  cancellation, and what each operation leaves in a row.
- `AuditChain`: the hash chain, with the older row encoding.
- `AuditOutbox`, `OutboxScheduler`: delivery with retry, backoff and dead letters, and the scheduler that triggers it.
- `EgressNet`, `Ipv6Spelling`, `EgressRanges`, `CnameFollower`, `CnameEvidence`: host classification, every spelling of
  an IPv6 address by section 2.2 of RFC 4291, the classification as address ranges, the CNAME follower, and the checker
  of its evidence behind that checker's own intake.
- `Aria`, `RowExtractors`, `RowExtractorsExample`: snapshot trees and the two table extractors built on them.
- `JsonSpan`, `StreamCapture`: the JSON span scanner over texts of RFC 8259, and the child-output line splitter.
- `FlowCompiler`, `FlowSteps`: recordings to flows, with input tokens, reviews and the locator sidecar, and what each
  recorded action becomes.
- `CleanupQueue`: the retrying cleanup plan that uses its own hash as a lock.
- `Wrappers`, `Text`, `Numerals`, `Powers`: shared definitions.

## Assumptions

- SHA-256 is taken as collision-free: a hash is a free constructor over the canonical value it was computed from, or
  (for the audit chain) a digest function that a theorem requires to be injective and never the empty text.
- Unicode NFC, the order of `localeCompare`, `net.isIP`, the WHATWG URL parser, `JSON.parse`, the redaction filters, the
  run-id pattern and the URL globbing are parameters. NFC needs no property; the collation must be total.
- Each exported database function and each store method is one atomic step. Times are integers.
- Strings are sequences of characters; lower-casing is ASCII.

## What turned out to be false

Where a promise does not hold of the code, the code is kept and the exact condition is proved.

- The table-level completion does not look at the cancel flag, so it can record a cancelled job as succeeded
  (`DirectCompletionCanOverrule`); the contract and store layers cannot (`CancelIsNeverUndone`).
- The rows reconcile reports are the stored rows only for texts that are not empty and end times that are not zero
  (`ReportIsPostState`); `ReportCanDiffer` reaches a row on which they differ.
- The evidence checker normalises names once more than the resolver that found them. It therefore refuses a path whose
  last name keeps two final dots (`TripleDotIsRefused`) and one that comes back to an earlier name with a dot behind it
  (`DottedReturnIsRefused`). `CheckedChainIff` says exactly which paths it accepts.
- The two extractors differ on a table without a header that can be read by `columnIndexes`, which only the command-line
  one does, and on nothing else (`ExtractorsDifferIff`, `ExtractorsDiffer`). Their suffix removals differ on names that
  are not cleaned (`StripsAgreeIff`).
- The JSON scanner selects an object at its own place only without a brace before it (`PlaceIff`). An earlier balanced
  span wins (`EarlierSpanWins`); an earlier open brace swallows the object (`OpenBraceSwallows`), and with nothing to
  close it nothing is selected (`OpenBraceYieldsNothing`).
- The flow compiler stores the value of a masked selection (`MaskedSelectIsStored`), stores values for tokens that no
  step refers to when the step goes to review (`TokenFate`), and compiles an upload whose locator is fine into a plain
  fill without a text, although its warning says the step is marked for review (`UploadIsReviewedIff`).
- Running next does not always work the cleanup queue off. A plan whose own run is still in flight is refused, and while
  it is first in line every later plan waits behind it, until its removals settle (`FlightBlocksTheQueue`). Repeated
  runs empty the queue exactly when every pending plan is accepted (`RunsEmptyTheQueueIff`).

## Model

| member | source | states |
|---|---|---|
| `CommandPlanSafety.ReviewIsBuilt` | webui/routes-command-plan.js:228-274 | a successful review holds distinct trimmed keys in collation order, hashes that fit the texts, and the titles the database holds now |
| `CommandPlanSafety.NormalKeysIsNormal` | webui/routes-command-plan.js:228-232 | key clean-up yields distinct trimmed keys and is the identity on such lists |
| `CommandPlanSafety.SortSorts` | webui/routes-command-plan.js:271 | the sort yields a sorted permutation and leaves a sorted list alone |
| `CommandPlanSafety.EqualPinsAgree` | webui/routes-command-plan.js:49-53 | equal target-set hashes mean equal staged (key, title) lists up to NFC |
| `CommandPlanSafety.RebuildKeepsOrder` | webui/routes-command-plan.js:307-323 | re-reading a reviewed list keeps its keys and their order |
| `CommandPlanSafety.VerifyIffCurrent` | webui/routes-command-plan.js:307-323 | re-verification passes exactly when the database still says, title and summary, what was reviewed |
| `CommandPlanSafety.StepKeeps` | webui/routes-command-plan.js:276-577 | every request and completion keeps the protocol invariant |
| `CommandPlanSafety.AtMostOneLiveJob` | webui/routes-command-plan.js:542-577 | in every interleaving a plan gets at most one live job |
| `CommandPlanSafety.AwaitingMeansPassed` | webui/routes-command-plan.js:353-366 | a plan awaiting confirmation always has a passed dry run of its current target set |
| `CommandPlanSafety.OnlyConfirmGoesLive` | webui/routes-command-plan.js:542-577 | only an accepted, human-confirmed confirm request enqueues a live job |
| `CommandPlanSafety.ConfirmAcceptedIff` | webui/routes-command-plan.js:542-577 | exactly which confirm requests are accepted, gate by gate |
| `CommandPlanSafety.DryRunAcceptedIff` | webui/routes-command-plan.js:513-541 | exactly which dry-run requests of a plan that writes are accepted |
| `CommandPlanSafety.AcceptedConfirm` | webui/routes-command-plan.js:542-577 | what the confirm gates imply: the stored plan, target-set and dry-run hashes were named, the recipe is unchanged, no earlier live job, a vouching dry run, a current review |
| `CommandPlanSafety.LiveRunIsVouchedFor` | webui/routes-command-plan.js:368-577 | when a job goes live, a human confirmed under the stored hashes, the recipe stands, a finished all-dry-ok dry run under the same hashes staged the same list, and the database still holds it |
| `CommandPlanSafety.EndedLiveFreezes` | webui/routes-command-plan.js:368-427 | after the live job ended, no single step changes the plan row |
| `CommandPlanSafety.LiveVerdictIsFinal` | webui/routes-command-plan.js:404-427 | once the live completion is recorded, no later run of events changes the plan or its verdict |
| `CommandPlanVerdicts.LiveVerdictIsTheOutcome` | webui/routes-command-plan.js:404-427 | in every run, once the live job reports, its plan has succeeded exactly when the run completed something and skipped the rest, has failed otherwise, and says so for ever after |
| `CommandPlanVerdicts.ReportTouchesOnePlan` | webui/routes-command-plan.js:368-427 | a report changes its own plan's row only |
| `CommandPlanVerdicts.SystemVerdictIsTheOutcome` | webui/jobs.js:907-912 | the same on the serial queue, where the job is named by its body and other jobs run around it |
| `CommandPlanVerdicts.DryReportIsRecorded` | webui/routes-command-plan.js:368-402 | a dry job that reports: awaiting confirmation, planned again or failed, from its results and the two target-set hashes |
| `CommandPlanVerdicts.DryVerdictIsTheOutcome` | webui/routes-command-plan.js:368-402 | in every reachable state the recorded dry run is the report of a dry job of the plan, judged against the targets now reviewed, and the status agrees with it |
| `CommandPlanVerdicts.ReadReportIsRecorded` | webui/routes-command-plan.js:443-476 | a read plan has succeeded exactly when its job came to its end |
| `CommandPlanVerdicts.FinalRowIsTrue` | webui/routes-command-plan.js:368-427 | what the row says in the end, about the live run and the dry run that vouched for it, is what the two jobs reported |
| `CommandPlanVerdicts.ConfirmNamesTheReport` | webui/routes-command-plan.js:542-577 | the confirmation that brings a plan live names the hash of the very results of the dry run that vouches for it |
| `CommandPlanVerdicts.ConfirmRecords` | webui/routes-command-plan.js:542-577 | what an accepted confirm adds to the queue and to the row |
| `CommandPlanVerdicts.ReviewAcceptedIff` | webui/routes-command-plan.js:485-512 | exactly which review requests change a row |
| `CommandPlanVerdicts.ReviewRecords` | webui/routes-command-plan.js:276-305 | an accepted review field by field: a changed target set withdraws status, dry run and job |
| `CommandPlanVerdicts.ReadRequestRecords` | webui/routes-command-plan.js:443-476 | a query answers without a job, another read becomes the next read job of its plan |
| `CommandPlanVerdicts.TargetComesFrom` | webui/routes-command-plan.js:228-274 | what a reviewed target carries comes from the approval, and else from the record |
| `CommandPlanVerdicts.TitleComesFrom` | webui/routes-approve.js:131-160 | the title of a key is that of its approval unless blank, else of its record, and a blank one is none |
| `CommandPlanJobs.QueuedJobsAreKept` | webui/routes-command-plan.js:429-441 | in every run of events no job is lost, moved or given other targets, and an ended job stays as it ended |
| `CommandPlanJobs.EnqueuedIsLast` | webui/routes-command-plan.js:429-441 | a new job goes last, waits, and captures the hashes and reviewed targets; the earlier jobs stay |
| `CommandPlanJobs.ReadPlansNeverGoLive` | webui/routes-command-plan.js:443-476 | in every reachable state the jobs of a read plan are read jobs: it never goes live nor to a dry run |
| `CommandPlanLiveness.ReviewIsCurrent` | webui/routes-command-plan.js:228-323 | a review just taken is current |
| `CommandPlanLiveness.DryRunStarts` | webui/routes-command-plan.js:513-541 | a reviewed, current plan whose action can run is accepted for a dry run |
| `CommandPlanLiveness.ConfirmIsAccepted` | webui/routes-command-plan.js:542-577 | with the right hashes and a human's word a current plan awaiting confirmation is accepted |
| `CommandPlanLiveness.LiveIsReachable` | webui/routes-command-plan.js:485-577 | wherever an action can run and its review succeeds, review, passed dry run and confirmation bring the plan live |
| `CommandPlanRoutes.PlanStore.BuildTargetSet` | webui/routes-command-plan.js:228-274 | the loop over the keys computes the specified target set, or refuses when some title is missing |
| `CommandPlanRoutes.PlanStore.SaveTargets` | webui/routes-command-plan.js:276-305 | a changed review resets status, dry run, confirmation and job; a refused one changes nothing |
| `CommandPlanRoutes.PlanStore.PostTargets` | webui/routes-command-plan.js:485-577 | the target route is the protocol's review step |
| `CommandPlanRoutes.PlanStore.PostDryRun` | webui/routes-command-plan.js:485-541 | the dry-run route is the protocol's dry-run step, with its refusals |
| `CommandPlanRoutes.PlanStore.PostConfirm` | webui/routes-command-plan.js:542-577 | the confirm route is the protocol's confirm step and refuses exactly when it changes nothing |
| `CommandPlanRoutes.PlanStore.JobFinished` | webui/routes-command-plan.js:368-427 | the completion callback is the protocol's finish step, and records of a live run whether it went well |
| `CommandPlanRoutes.PlanStore.LiveVerdict` | webui/routes-command-plan.js:404-412 | a live run succeeds exactly when something completed and nothing else than completions and skips happened |
| `SerialQueue.OneAtATimeInOrder` | webui/jobs.js:770-916 | job bodies start in enqueue order, one at a time, and the finished ones are the oldest |
| `SerialQueue.ReportsFollowTheQueue` | webui/jobs.js:907-912 | onFinish calls come in enqueue order, at most once a job, after every earlier job is over |
| `CommandPlanSystem.SystemRefinesProtocol` | webui/jobs.js:985-992 | every run of plans on the slot, where a completion names the body that ended and other jobs take part, is a run of the protocol |
| `CommandPlanSystem.SystemVerdictIsFinal` | webui/jobs.js:907-912 | on the slot, too, a recorded live verdict is never changed by anything that follows |
| `CommandPlanSystem.SystemHasOneLiveJob` | webui/jobs.js:985-992 | on the slot, too, a plan gets at most one live job |
| `JobTable.Table.Claim` | lib/db.js:1148-1172 | the guarded claim update |
| `JobTable.Table.ClaimNext` | lib/db.js:1174-1195 | claims the first waiting row by enqueue time and id |
| `JobTable.Earliest` | lib/db.js:1174-1195 | the row the ordered select returns |
| `JobTable.Table.Heartbeat` | lib/db.js:1197-1229 | the owner-guarded lease renewal, which keeps a canceling status |
| `JobTable.Table.Complete` | lib/db.js:1231-1278 | the owner-guarded completion; an answered one leaves in that row what was reported |
| `JobTable.Table.ContractComplete` | lib/runner-contract.js:196-216 | completion through the contract layer reports canceled for a job whose cancellation it sees |
| `JobTable.Table.StoreComplete` | webui/runner-routes.js:200-219 | completion through the runner store, with its prechecks and refusals |
| `JobTable.Table.RequestCancel` | lib/db.js:1280-1316 | the cancel request, and whether it was the first |
| `JobTable.Table.Reconcile` | lib/db.js:1318-1408 | the sweep loop updates every selected row and reports each once, in queue order |
| `JobQueueEffects.ClaimAnswersIff` | lib/db.js:1148-1172 | exactly which claims succeed; the row is then the caller's, with one attempt more and a lease to now plus its length |
| `JobQueueEffects.HeartbeatAnswersIff` | lib/db.js:1197-1229 | exactly which heartbeats are answered, and what they renew |
| `JobQueueEffects.ClaimerMayAct` | lib/db.js:1148-1278 | whoever claims a job can renew its lease and complete it |
| `JobQueueEffects.StoreBeatsUntilLeaseEnds` | webui/runner-routes.js:136-219 | through the store the claimer's heartbeat is accepted exactly until the lease has run out |
| `JobQueueEffects.GoesStaleIff` | lib/db.js:1318-1408 | exactly when a sweep selects a held row |
| `JobQueueEffects.CompleteAnswersIff` | lib/db.js:1231-1278 | exactly which completions are answered |
| `JobQueueEffects.CompletionIsRecorded` | lib/db.js:1231-1278 | the row holds the status and every column that was reported, and no other row changes |
| `JobQueueEffects.ContractCompletionIsRecorded` | lib/runner-contract.js:196-216 | through the contract layer: canceled exactly for a job whose cancellation is seen, otherwise what was reported |
| `JobQueueEffects.StoreCompletionIsRecorded` | webui/runner-routes.js:200-219 | the same through the store |
| `JobQueueEffects.StoreRefusalIff` | webui/runner-routes.js:136-219 | why the store refuses a completion, told apart |
| `JobQueueEffects.ReportIsFinal` | lib/db.js:1231-1316 | after an answered completion no run of operations changes the row |
| `JobQueueEffects.EveryVerdictWasReported` | lib/db.js:1148-1408 | in every run, a row that counts as succeeded, failed or expired was reported so, in every column, by the runner that held it |
| `JobQueueEffects.CancelIsRecorded` | lib/db.js:1280-1316 | what a cancel leaves in a waiting, a running and an ended row |
| `JobQueueEffects.SweepIsRecorded` | lib/db.js:1318-1408 | exactly which swept rows go back to the queue, and what is left in these and in the interrupted ones |
| `JobQueueSafety.StepIsRowStep` | lib/db.js:1148-1408 | every operation changes a row in one of six ways only |
| `JobQueueSafety.StepKeeps` | lib/db.js:1148-1408 | every operation keeps every row well formed and creates only fresh queued rows |
| `JobQueueSafety.AttemptsAreClaims` | lib/db.js:1148-1195 | attempts equal successful claims and stay within the limit; claims minus requeues is 0 or 1, by status |
| `JobQueueSafety.TerminalForever` | lib/db.js:1231-1316 | a terminal row never changes again |
| `JobQueueSafety.ReachableRowsOk` | lib/db.js:1148-1408 | active rows have a worker, queued rows have none and are below their attempt limit |
| `JobQueueSafety.OutsiderChangesNothing` | webui/runner-routes.js:136-219 | a heartbeat or completion by anyone but the row's worker changes nothing, through any layer |
| `JobQueueSafety.RequeuedRunnerIsOut` | lib/db.js:1197-1408 | a runner whose job was requeued cannot heartbeat or complete it unless it claims it again |
| `JobQueueSafety.CancelRecords` | lib/db.js:1280-1316 | a cancel of a live row is recorded |
| `JobQueueSafety.CancelIsNeverUndone` | webui/runner-routes.js:200-219 | a recorded cancel is never undone or requeued and ends canceled or interrupted through the store and contract layers |
| `JobQueueSafety.CancelFlagStays` | lib/db.js:1231-1408 | through any layer the flag stays and the job is never queued again |
| `JobQueueSafety.DirectCompletionObeysTheRunner` | lib/db.js:1231-1278 | the table-level completion keeps a recorded stop exactly when asked to |
| `JobQueueSafety.DirectCompletionCanOverrule` | lib/db.js:1231-1278 | a cancelled job that the table-level completion records as succeeded |
| `JobQueueSafety.ReconcileSweepsExactlyStale` | lib/db.js:1318-1408 | reconcile changes exactly the stale active rows, leaves none, and requeues only claimable ones |
| `JobQueueSafety.ReportIsPostState` | lib/db.js:1363-1408 | the reported row is the stored row exactly under a condition on empty texts and zero times |
| `JobQueueSafety.ReportCanDiffer` | lib/db.js:1363-1408 | a run from the empty table to a row that a sweep reports with another reason than it stores |
| `JobQueueSafety.StepBurnsFuel` | lib/db.js:1148-1408 | every effective non-heartbeat step decreases the measure of attempts, status and cancellation; none increases it |
| `JobQueueSafety.RunsAreBounded` | lib/db.js:1148-1408 | a job's life moves at most that often in any run |
| `AuditChain.Verify` | lib/db.js:1699-1740 | the verdict is verified exactly when the table is intact; checked is the length of the longest valid prefix |
| `AuditChain.AuditLog.Append` | lib/db.js:1549-1582 | appends one row that holds the event, under the next number, sealed over all its columns and the head before; or throws on an unknown status and changes nothing; an intact table stays intact |
| `AuditChain.AppendedLogsVerify` | lib/db.js:1549-1582 | whatever is appended to an intact table, older encodings included, stays intact |
| `AuditChain.AppendedLogsHoldTheEvents` | lib/db.js:1549-1582 | after any appends the earlier rows are unchanged and the new ones hold exactly the given events in order |
| `AuditChain.HeadPinsHistory` | lib/db.js:1663-1740 | two intact tables with the same head hash have equal length and agree row by row |
| `AuditChain.TamperEvidence` | lib/db.js:1663-1740 | a rewritten table verifies under the recorded head hash exactly when it agrees on everything hashed |
| `AuditChain.FullAgreementCoversEveryColumn` | lib/db.js:1663-1698 | agreement of fully sealed rows covers every column |
| `AuditChain.LegacyAgreementCoversItsColumns` | lib/db.js:1684-1698 | agreement of rows sealed in the older way covers the columns it had |
| `AuditChain.HeadDeterminesTheEvents` | lib/db.js:1549-1740 | two logs with the same head hash record the same events, field by field, in the same order |
| `AuditOutbox.Classify` | lib/audit-sink.js:94-119 | which failures are retried, and the class of each |
| `AuditOutbox.BackoffIsMonotoneAndBounded` | lib/audit-sink.js:121-126 | backoff is monotone in the attempts and stays within base and maximum |
| `AuditOutbox.BackoffDoubles` | lib/audit-sink.js:121-126 | the first retry waits the base delay, each later one twice the last, up to the maximum and to the 13th |
| `AuditOutbox.ConfigDefaults` | lib/audit-outbox-worker.js:118-120 | five attempts, half a minute and an hour unless other positive numbers are given |
| `AuditOutbox.MarkTouchesOneRow` | lib/db.js:1495-1520 | a mark by key changes the delivery columns of the one row with that key and leaves every other row and every key |
| `AuditOutbox.Outbox.DeliverOne` | lib/audit-outbox-worker.js:118-175 | one delivery: its row settles as the connector decided, and its record tells the row |
| `AuditOutbox.Outbox.Drain` | lib/audit-outbox-worker.js:177-211 | the drain loop computes the specified table; one record per due row, each telling its stored row, and tallies that add up |
| `AuditOutbox.DrainedOneMore` | lib/audit-outbox-worker.js:177-211 | marking by key one listed record after the other is a left-to-right pass over the table |
| `AuditOutbox.DrainIsTheConnector` | lib/audit-outbox-worker.js:118-211 | for every row of every drain: the k-th due one ends delivered exactly when the connector accepts position k, dead-lettered exactly when it refuses and no retry is left or useful, otherwise failed with that error; no other row changes |
| `AuditOutbox.ReportTells` | lib/audit-outbox-worker.js:118-211 | the record at a row's rank is about that row as it is stored now |
| `AuditOutbox.AcceptedForever` | lib/audit-outbox-worker.js:118-211 | once accepted, an event is recorded as delivered through all later drains |
| `AuditOutbox.DrainRowByRow` | lib/audit-outbox-worker.js:118-175 | settled rows are never touched; rows left failed have attempts below the limit and wait one backoff |
| `AuditOutbox.DrainBurnsFuel` | lib/audit-outbox-worker.js:177-211 | a drain uses up one unit of remaining deliveries for every webhook row it handles |
| `AuditOutbox.DrainMakesProgressIff` | lib/audit-outbox-worker.js:177-211 | the measure strictly decreases exactly when a webhook row was due |
| `AuditOutbox.RetriesAreBounded` | lib/audit-outbox-worker.js:118-211 | whatever the connector does, only so many drains find anything to deliver |
| `OutboxScheduler.Scheduler.TickNow` | lib/audit-outbox-scheduler.js:179-244 | a tick starts a run unless disabled, stopped or already in flight |
| `OutboxScheduler.Scheduler.StartNow` | lib/audit-outbox-scheduler.js:246-259 | starting twice does nothing; an immediate start ticks and then schedules |
| `OutboxScheduler.Scheduler.StopNow` | lib/audit-outbox-scheduler.js:261-269 | stopping clears the timer |
| `OutboxScheduler.StepKeeps` | lib/audit-outbox-scheduler.js:139-269 | every call and callback keeps the scheduler invariant |
| `OutboxScheduler.NeverDoubledNeverStalled` | lib/audit-outbox-scheduler.js:139-269 | at most one run and one timer, no timer while stopped, and a started scheduler always has its next move pending |
| `OutboxScheduler.StreakIsTrailingFailures` | lib/audit-outbox-scheduler.js:69-72 | the streak is the trailing run of failures and the delay its capped backoff |
| `OutboxScheduler.TimersWaitTheDelay` | lib/audit-outbox-scheduler.js:146-161 | in every run, which steps arm a timer, and that it waits the interval after a start and else the backoff of the trailing failures |
| `OutboxScheduler.DelayDoubles` | lib/audit-outbox-scheduler.js:69-72 | the interval after a success, the first backoff after one failure, and twice the last wait after each further one |
| `OutboxScheduler.RunsBeginIff` | lib/audit-outbox-scheduler.js:179-259 | exactly which steps begin a worker run |
| `OutboxScheduler.DisabledDoesNothing` | lib/audit-outbox-scheduler.js:139-269 | a disabled scheduler does nothing |
| `OutboxScheduler.StoppedStaysQuiet` | lib/audit-outbox-scheduler.js:139-269 | after a stop nothing is armed and no run begins until someone starts it or forces a tick |
| `OutboxScheduler.DelaysAreInRange` | lib/audit-outbox-scheduler.js:69-72 | a computed delay never needs clamping and a failure waits between the first backoff and the maximum |
| `Ipv6Spelling.ParseSpelled` | lib/egress-net.js:208-235 | every spelling of an address parses to it |
| `Ipv6Spelling.SpellingsParse` | lib/egress-net.js:208-235 | leading zeros, either case, a gap for one or more zero groups and a dotted tail all read back to the same groups |
| `Ipv6Spelling.SpellingsAreUnambiguous` | lib/egress-net.js:208-235 | one text spells at most one address |
| `Ipv6Spelling.HostKindOfSpelling` | lib/egress-net.js:253-281 | the kind of a spelled host is that of its groups |
| `Ipv6Spelling.SpellingDoesNotMatter` | lib/egress-net.js:253-281 | two spellings of one address are classified alike |
| `Ipv6Spelling.CanonIsInjective` | lib/egress-net.js:237-239 | equal canonical texts mean equal groups |
| `Ipv6Spelling.MetadataIffEndpoint` | lib/egress-net.js:241-261 | an address that is not IPv4-mapped is metadata exactly when it is the metadata endpoint |
| `Ipv6Spelling.OctetsReadBack` | lib/egress-net.js:180-185 | octets written in decimal read back |
| `Ipv6Spelling.MappedKind` | lib/egress-net.js:247-251 | the kind of a mapped address is the kind of its octets |
| `Ipv6Spelling.MappedIsClassifiedAsIpv4` | lib/egress-net.js:187-281 | however both are spelled, a mapped address is classified as its IPv4 address; which kind that is says `EgressRanges.OctetsKindIff` |
| `EgressRanges.OctetsKindIff` | lib/egress-net.js:187-203 | for every IPv4 address, as one number: each kind exactly in its stated ranges, public exactly in none |
| `EgressRanges.RangesAreDisjoint` | lib/egress-net.js:187-203 | no address lies in the ranges of two kinds |
| `EgressRanges.GroupsKindIff` | lib/egress-net.js:253-272 | for every IPv6 address: each kind exactly in its range of first groups or at its single addresses, and the IPv4 ranges for mapped ones |
| `EgressRanges.HostKindOfIpv4` | lib/egress-net.js:274-284 | every host text that names an IPv4 address has the kind of its range |
| `EgressRanges.HostKindOfIpv6` | lib/egress-net.js:253-284 | every host text that spells an IPv6 address has the kind of its range |
| `EgressRanges.HostKindOfName` | lib/egress-net.js:274-284 | which names are metadata, loopback, private or public; a final dot changes nothing |
| `Aria.FindByRoleName` | lib/aria.js:39-46 | exactly the positions with the role and the normalised name, in order |
| `Aria.NormTakesOutSpaces` | lib/aria.js:29 | normalising takes out the white space and nothing else |
| `Aria.RowsOf` | lib/aria.js:50-65 | the two nested loops compute the specified rows |
| `Aria.ChildrenOfForest` | lib/aria.js:57-61 | scanning a forest below a row keeps exactly the lines one level down |
| `Aria.RowsAreDescendants` | lib/aria.js:50-65 | for every tree and container the rows are its descendants with the role, nested ones too, in document order, each with its direct children |
| `Aria.PrintedLine` | lib/aria.js:10-21 | one printed line parses back to its indent, role and name |
| `Aria.ParseOfPrint` | lib/aria.js:10-27 | printing a forest and parsing the text gives its listing back |
| `Aria.RowsFromText` | lib/aria.js:10-65 | the rows theorem from the snapshot text on |
| `RowExtractors.StripsAgreeIff` | bin/extract-list.js:136-140 | the two suffix removals give the same value exactly under a condition on the name |
| `RowExtractors.StripsAgree` | webui/flows.js:262-266 | on cleaned cell names they always agree |
| `RowExtractors.ColumnsAreUnique` | bin/extract-list.js:85-95 | a mapped column is the only header with the normalised label |
| `RowExtractors.MapColumnIff` | bin/extract-list.js:85-95 | a column is mapped exactly when one header carries its label, missing exactly when none does |
| `RowExtractors.MappingFaultIsFirst` | bin/extract-list.js:85-95 | a mapping fails at the first column that cannot be mapped |
| `RowExtractors.TableIsTheOnlyOne` | bin/extract-list.js:70-78 | the container is the only line with the role and name, and otherwise none or several is the fault |
| `RowExtractors.RecipeFaultIff` | bin/extract-list.js:1-43 | which recipes are refused, and why |
| `RowExtractors.VerdictByHeader` | bin/extract-list.js:103-123 | under a header, exactly which rows are refused and which are kept |
| `RowExtractors.ValidateColumnIndexes` | bin/extract-list.js:44-58 | accepts exactly complete, non-negative, duplicate-free index maps |
| `RowExtractors.ListTable` | bin/extract-list.js:79-99 | header or index mode computes the specified result, first fault first |
| `RowExtractors.ListRow` | bin/extract-list.js:103-123 | which rows are skipped, refused or kept |
| `RowExtractors.NoRepeat` | bin/extract-list.js:127-131 | the key pass accepts exactly lists of distinct keys |
| `RowExtractors.ExtractList` | bin/extract-list.js:65-133 | the command-line extractor computes the specified result |
| `RowExtractors.FlowTable` | webui/flows.js:284-320 | the web extractor's table part computes the specified result |
| `RowExtractors.ExtractRecipeRows` | webui/flows.js:268-321 | the web extractor computes the specified result |
| `RowExtractors.ExtractorsAgree` | webui/flows.js:268-321 | under a header row both extractors return the same list or the same fault |
| `RowExtractors.HeaderlessIff` | bin/extract-list.js:44-133 | without a header the command-line tool lists the table exactly when every column has its own index, every row with cells reaches them all, and no kept key repeats; the web one fails |
| `RowExtractors.ExtractorsDifferIff` | webui/flows.js:268-321 | on every snapshot and recipe the outcomes differ exactly when the table is found, has no header and can be read by index |
| `RowExtractorsExample.ExtractorsDiffer` | bin/extract-list.js:65-133 | a snapshot text and recipe that the command-line tool lists and the web one refuses |
| `RowExtractors.ItemsAreRows` | bin/extract-list.js:101-123 | the items are exactly the kept rows, in document order, each read from its own cells |
| `RowExtractors.ItemsShowTheCells` | bin/extract-list.js:117-140 | every value of an item is what its own cell shows: the cleaned name, less exactly the suffix if it ends with it |
| `RowExtractors.HeaderResult` | webui/flows.js:284-321 | keys distinct and not empty, every value from the one column whose normalised header matches |
| `CnameFollower.PlainNormalized` | lib/egress-resolver.js:77-102 | on ordinary characters both host normalisations only drop one final dot |
| `CnameFollower.NormalizeNameRecords` | lib/egress-resolver.js:182-199 | the loop splits answers into distinct clean names and invalid ones |
| `CnameFollower.NameRecordsAre` | lib/egress-resolver.js:182-199 | the names are the answers that normalise to something that is no address, the rest is invalid |
| `CnameFollower.Follow` | lib/egress-resolver.js:362-388 | succeeds exactly when the first-answer path ends within the depth, with at most that many queries, an empty or duplicate-free chain, and a loop reported exactly when a name came back |
| `CnameFollower.ResolveHost` | lib/egress-resolver.js:422-435 | the adapter's evidence, and when it fails |
| `CnameFollower.FinishedNames` | lib/egress-resolver.js:389-435 | on ordinary characters the evidence names its host and the end of its path, without a final dot |
| `CnameFollower.EndingPathHasNoRepeat` | lib/egress-resolver.js:374-388 | a path that ends repeats no name |
| `CnameFollower.EndOrRepeat` | lib/egress-resolver.js:374-388 | a path that comes back to a name never ends |
| `CnameEvidence.IntakeOfOrdinary` | lib/egress-net.js:147-178 | the intake finds nothing invalid exactly when every name without its final dot still reads as a name, and then keeps their first occurrences |
| `CnameEvidence.CheckedChainIff` | lib/egress-evidence.js:303-318 | for every ending path over ordinary characters, through intake and tests: accepted exactly under a condition on the answers, the host and the names of the path |
| `CnameEvidence.TripleDotIsRefused` | lib/egress-resolver.js:362-412 | a good one-hop path, followed from a name with three final dots, that the checker refuses |
| `CnameEvidence.DottedReturnIsRefused` | lib/egress-resolver.js:362-412 | a good two-hop path back to the host with a dot behind it that the checker refuses |
| `CnameEvidence.PlainNamesPass` | lib/egress-evidence.js:35-64 | with plain names everywhere the evidence of every ending path passes |
| `JsonSpan.ExtractJson` | lib/llm.js:87-108 | the loop returns the parse of the selected span |
| `JsonSpan.StringPasses` | lib/llm.js:93-98 | the scanner passes over any string, whatever braces, quotes and escapes it holds |
| `JsonSpan.ObjectScan` | lib/llm.js:91-106 | an object's own closing brace restores the depth or ends the span |
| `JsonSpan.SelectsTheObject` | lib/llm.js:87-108 | for every object, brace-free prefix and suffix, exactly the object's text is selected |
| `JsonSpan.CutObjectYieldsNothing` | lib/llm.js:87-108 | a reply cut off inside its object yields nothing |
| `JsonSpan.SpanConcat` | lib/llm.js:87-108 | a span is found in the first part of a text or goes on from the state behind it |
| `JsonSpan.PlaceIff` | lib/llm.js:87-108 | for every object, prefix and suffix: the object is selected at its own place exactly when no brace stands before it |
| `JsonSpan.EarlierSpanWins` | lib/llm.js:87-108 | an earlier balanced span is selected, whatever follows |
| `JsonSpan.OpenBraceSwallows` | lib/llm.js:87-108 | behind an open brace outside a string the selection, if any, starts at that brace and contains the object |
| `JsonSpan.OpenBraceYieldsNothing` | lib/llm.js:87-108 | and with nothing in the suffix to close the brace there is none |
| `JsonSpan.NeverAtTheObject` | lib/llm.js:87-108 | with any earlier brace, in a string or not, the selection starts at the first one, and exists exactly when the scan closes it |
| `StreamCapture.CutAnywhere` | webui/jobs.js:705-720 | where a text is cut into chunks does not matter |
| `StreamCapture.WrittenLinesComeBack` | webui/jobs.js:705-720 | whatever lines are written, with or without carriage returns, are the lines that come back |
| `StreamCapture.LineSplitter.Data` | webui/jobs.js:708-715 | a chunk pushes exactly the lines it completes and keeps the partial one |
| `StreamCapture.LineSplitter.End` | webui/jobs.js:716-719 | the end pushes the last partial line, if any |
| `StreamCapture.JobCapture.PushLine` | webui/jobs.js:661-681 | one line's effect on log, result, error and run id |
| `StreamCapture.JobCapture.CaptureStructuredResult` | webui/jobs.js:688-702 | one line's effect on the structured result |
| `StreamCapture.SentinelIsRead` | webui/jobs.js:688-702 | a sentinel line carries what its payload parses to, or is malformed |
| `StreamCapture.ChunkingDoesNotMatter` | webui/jobs.js:705-720 | for every chunking and every interleaving of the two streams, each stream pushed the newline-split of its output |
| `StreamCapture.LogIsTheTail` | webui/jobs.js:661-667 | the log is the redaction of the last 2000 lines |
| `StreamCapture.ResultIsTheLast` | webui/jobs.js:688-702 | the result is the last valid sentinel object, otherwise the last valid loose one |
| `StreamCapture.ErrorIffMalformed` | webui/jobs.js:688-702 | the error is set exactly when some sentinel line did not parse |
| `StreamCapture.RunIdIsTheFirst` | webui/jobs.js:670-675 | the run id is that of the first line that shows one |
| `StreamCapture.OnlyRunsTakeRunIds` | webui/jobs.js:670-675 | a job of another kind takes no run id |
| `StreamCapture.JobIsCaptured` | webui/jobs.js:661-720 | for every chunking and interleaving the job is what its pushed lines, in push order, make of a fresh one |
| `StreamCapture.OutputsDecideTheJob` | webui/jobs.js:661-720 | from the two outputs to the job: the log is the tail of the pushed lines, and with the valid sentinels on one stream the result is the last of that output, however it was cut |
| `FlowCompiler.Compiler.ActionFind` | bin/build-flow.js:112-139 | the find step or review step of a record, with its ladder and counter |
| `FlowCompiler.Compiler.UnsupportedReview` | bin/build-flow.js:141-162 | the review step of an unsupported capability |
| `FlowCompiler.Compiler.Token` | bin/build-flow.js:164-169 | takes the next token and stores the value if there is one |
| `FlowCompiler.Compiler.MaybeWait` | bin/build-flow.js:185-195 | a wait only when the URL changed |
| `FlowCompiler.Compiler.Boundary` | bin/build-flow.js:209-217 | the look-ahead for the settled URL |
| `FlowCompiler.Compiler.Settle` | bin/build-flow.js:218-233 | the look-ahead for the next literal text |
| `FlowCompiler.Compiler.CompileRecord` | bin/build-flow.js:215-295 | the branches of the main loop |
| `FlowCompiler.Compiler.Compile` | bin/build-flow.js:215-295 | the main loop compiles record by record |
| `FlowSteps.RecordsBecomeSteps` | bin/build-flow.js:112-295 | for every recording and record: the step it adds, at its place in the flow, with the action, element, frame, token, key, direction or wait that was recorded, and what waits and URLs look ahead to |
| `FlowSteps.FindActs` | bin/build-flow.js:98-139 | a step on an element acts on the recorded locator in its first safe frame, or goes to review exactly for a stated reason |
| `FlowSteps.SameKeyIff` | bin/build-flow.js:171-183 | two records have one key exactly when they are about one element |
| `FlowSteps.MaskedAreCounted` | bin/build-flow.js:256-268 | the counter is the number of inputs whose value a human must supply |
| `FlowCompiler.FlowIsSound` | bin/build-flow.js:73-162 | the review counter, the sidecar indices, and short capture-unique locators, in every compiled flow |
| `FlowCompiler.TokensIncrease` | bin/build-flow.js:164-169 | referenced tokens are pairwise distinct and increasing, and only taken numbers have values |
| `FlowCompiler.TokensAreBooked` | bin/build-flow.js:215-295 | the token side of a flow depends on the records alone |
| `FlowCompiler.TokenFate` | bin/build-flow.js:256-283 | each token's one record decides whether it has a value and whether a step refers to it |
| `FlowCompiler.MaskedSelectIsStored` | bin/build-flow.js:269-283 | a masked selection still stores its value |
| `FlowCompiler.UploadIsReviewedIff` | bin/build-flow.js:256-260 | an upload goes to review exactly when its locator calls for it |
| `CleanupQueue.RunPlan` | webui/novnc-cleanup.js:338-403 | the loop over the targets computes the specified plan |
| `CleanupQueue.RunRecords` | webui/novnc-cleanup.js:338-403 | what a run leaves, field by field: each undone target tried once with its outcome, the errors met in order, status, attempts and a hash that fits |
| `CleanupQueue.StepKeeps` | webui/novnc-cleanup.js:338-403 | every run call and every settling removal keeps the plan invariant |
| `CleanupQueue.NothingIsRemovedTwice` | webui/novnc-cleanup.js:338-403 | no target is removed twice; between runs the hash is valid and the plan is complete exactly when all targets are done |
| `CleanupQueue.OverlapIsRefused` | webui/novnc-cleanup.js:66-137 | while a run waits a second call is refused, and only because the hash no longer fits |
| `CleanupQueue.FirstRunWaits` | webui/novnc-cleanup.js:362-372 | the first run of a fresh plan waits for its first target with the lock taken |
| `CleanupQueue.RunCompletesIff` | webui/novnc-cleanup.js:365-392 | a run completes an unfinished plan exactly when none of the removals it still had to make failed |
| `CleanupQueue.LandIsFinishing` | webui/novnc-cleanup.js:365-380 | a run that nothing overlaps is the event-driven run with its removals settled in order |
| `CleanupQueue.RunUsesAnAttempt` | webui/novnc-cleanup.js:338-403 | a run of an acceptable pending plan uses one attempt and leaves an acceptable plan |
| `CleanupQueue.RunsEmptyTheQueueIff` | webui/novnc-cleanup.js:445-459 | for every list of plans and all failures: running next as often as attempts are left empties the queue exactly when every pending plan is accepted; otherwise no number of runs does |
| `CleanupQueue.FlightBlocksTheQueue` | webui/novnc-cleanup.js:338-403 | while the first pending plan is in flight running next changes nothing; once its removals settle it is accepted again |
| `CleanupQueue.FlightInTheQueue` | webui/novnc-cleanup.js:362-372 | such a queue arises from any fresh plan with more than one attempt |
| `CleanupQueue.Queue.Enqueue` | webui/novnc-cleanup.js:410-435 | an unfinished plan of the session is kept; a finished one is replaced in its place, and a new session goes last |
| `CleanupQueue.Queue.RunSession` | webui/novnc-cleanup.js:449-453 | runs the session's plan, or reports that there is none |
| `CleanupQueue.Queue.RunNext` | webui/novnc-cleanup.js:455-459 | runs the first pending plan and no other; the attempts left decrease unless the queue is empty or that plan is refused |
| `CleanupQueue.Queue.RunUntilEmpty` | webui/novnc-cleanup.js:445-459 | with every pending plan accepted, running next until empty takes at most the attempts left |

## Left out

- SQLite, migrations, HTTP, event streams, process spawning and killing, file I/O, Playwright, LLM calls and the UI.
- Hash and cipher internals, Unicode normalisation and collation, URL parsing, the JSON parser and the redaction filters: parameters or free constructors. That redaction keeps the `status` of a result is assumed.
- Interleaving inside one database function or store method: `requestWebuiJobCancel` and the store's completion read before they write, and the cancel theorems take each as one step.
- `saveWebuiJob` after the first enqueue (lib/db.js:1023-1123): an unconditional upsert that can overwrite any state.
- Events, audit writes and staging files of the command-plan routes, and their failure paths (a missing list URL, recipe or login is one refusal, `NotLaunchable`).
- Thrown errors inside `storeJobCompletion`: a completion that never reaches the plan is the `DropJob` event.
- The kill-grace timer that frees the queue slot before the child has closed: `SerialQueue` is about job bodies, not child processes.
- Identity cleaning and validation in front of the runner contract; the contract layer starts from a validated identity.
- The local claim-refusal branch of `webui/jobs.js`, startup restore, and job pruning.
- The scheduler's default intervals: the configuration is taken as given, within the range its reader clamps to.
- Export and retention manifests, envelope contents, and file sinks of the audit trail.
- The `level` of a snapshot line: no row or extractor reads it.
- IPv6 zone handling beyond cutting at `%`, and `parseInt` on groups with a sign or an `0x` prefix, which `net.isIP` rules out.
- `CnameEvidence.CheckedChainIff`: for names of lower-case letters, digits, hyphens, underscores and dots; on other characters the URL parser decides, which is a parameter.
- TTL, freshness, address and connection-IP parts of the resolver evidence, and the profile table of the checker.
- Error messages and warning texts; a fault is a constructor.
- Object property order: a recipe's columns are the list the source enumerates, with distinct fields.
- UTF-16: lengths count characters, which differs from the source outside the basic plane (the 80-character locator limit).
- The sort in front of the flow compiler: its comparator is not transitive when only some records have timestamps, so the compiler starts from an ordered list.
- URL globbing, asserts, environment and the summary of a compiled flow; `bin/capture.js`.
- Path validation of cleanup records: a queued plan starts from a record that passed it, and the plan's last error is kept as a list of failures instead of their joined text.
- `Queue.RunNext`: plans are values in a sequence, so a caller that keeps a plan object sees later updates in the source but not here; the event-driven part of `CleanupQueue` covers overlapping runs of one plan object.
- `JobCapture.PushLine`: subscribers, persistence in mid-stream and timestamps are not modelled.
- Secrets, RBAC tables, route matrices and readiness texts.
