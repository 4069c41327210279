# Verification of the audit service

The service audits online stores. Its logic is a set of state machines over
database rows and in-memory maps; this project models them in Dafny and proves
what they keep over every run.

| file | what it models |
|---|---|
| `JobTable.dfy`, `JobProtocol.dfy`, `JobRuns.dfy` | the job queue: the claim and mark statements and one worker process; then any number of workers interleaving, with lost marks and crashes; then what whole runs keep |
| `Audit.dfy`, `Scoring.dfy`, `Enrich.dfy`, `Persist.dfy`, `Pipeline.dfy` | the audit pipeline: its report, the scoring stage, the budgeted AI stages, the persister, and the stage machine that runs them |
| `FixParser.dfy`, `SummaryParser.dfy` | the parsers of the AI provider's replies |
| `AuditLifecycle.dfy` | queue, pipeline and tables composed: retries, crashes and concurrent runs, one statement at a time |
| `LoginLimiter.dfy` | the login limiter against a function of the full failure history |
| `Billing.dfy`, `BillingRuns.dfy` | the Gumroad webhook, one transaction per delivery, the super-admin's override and the deletion of a tenant; then any sequence of deliveries, sign-ups, overrides and deletions |
| `Sessions.dfy` | the session store, whose two maps share row objects |
| `Settings.dfy` | the settings cache, alone and under concurrency |
| `Monitoring.dfy` | the alert dispatcher, its 24-hour limit and its mails, one dispatch at a time and concurrently |
| `Scheduling.dfy` | scheduled audits: one scheduler, and any number of them |
| `Gmc.dfy`, `GmcChecks.dfy` | the checks on what Google reports, and how they divide it |
| `Base.dfy`, `Text.dfy`, `Sums.dfy` | options, Go's string functions, sums over maps |

Code that changes rows or fields in place is a class whose methods are proved
against a function of the old state; the theorems are lemmas about those
functions, or about protocols in which every SQL statement (or transaction) is
one atomic step. Time is an integer. Randomness (ids, tokens, cipher nonces),
clock readings, replies of remote services and outcomes of commits are
parameters. `dafny verify dfyconfig.toml` checks everything.

## Where the code does not do what it says

Each of these is proved, with the exact condition where there is one.

- `internal/jobs/jobs.go:25-37` speaks of three attempts, so that the ten-minute
  backoff would never be used. Rows are inserted without `max_attempts`, and the
  schema's default is five (`migrations/000008_jobs.up.sql:9`):
  `JobRuns.DefaultRowsReachTenMinutes`. It is reachable from four attempts on and
  not below: `JobRuns.TenMinutesExactly`.
- A mark whose UPDATE fails leaves its job running for ever, and nothing but that
  or a crash does: `JobRuns.LostMarkAbandons`, `JobRuns.AbandonedExactly`.
- Progress updates are best effort, and `Save` sets the status whatever it was.
  An audit is queued if and only if no statement of any of its attempts has taken
  effect (`AuditLifecycle.QueuedExactly`), so a committed successful `Save` moves
  it straight from queued to succeeded if and only if it is the first that does:
  `AuditLifecycle.StraightToSucceededExactly`. `AuditLifecycle.StraightToSucceeded`
  is a run in which this happens.
- `matchFixMarker` accumulates in a 64-bit integer without a bound, so an
  out-of-range marker is ignored exactly when its number modulo 2^64 is out of
  range: `FixParser.StrayMarkerIgnored`, `FixParser.HugeMarkerHits`.
- The summary parser gives steps back exactly when none starts with a list
  marker of its own: `SummaryParser.SummaryParses`.
- A delivery whose transaction aborts also loses its log row, although the
  handler means to keep it for inspection (`internal/web/handlers_billing.go:93-97`).
  Its repeat is therefore not skipped, and deleting repeats changes nothing
  if and only if no repeat commits: `BillingRuns.Replay`,
  `BillingRuns.RepeatAfterSignup`.
- A refund is not compared with the sale's tenant. It changes a tenant's
  row (unless that is as a downgrade leaves it already) if and only if the sale is
  a paid one and the event, whoever bought, names that tenant:
  `BillingRuns.ForeignRefund`; and one that arrives before its sale is lost: `BillingRuns.RefundBeforeSaleIsLost`.
- `Extend` revives an expired session: afterwards the token is accepted if and only
  if the session was never revoked and the ttl has not passed since the Extend:
  `Sessions.ExtendRevives`.
- A `Get` that overlaps a `Set` can put the old value back into the cache: a
  later `Get` can be stale if and only if some load begun before still holds
  another value: `SettingsRuns.StaleExactly`, with `SettingsRuns.StaleAfterSet`
  as an instance.
- A super-admin's override grants paid plans with no event behind them, so a paid
  plan is traced to its last change, by event or override:
  `BillingRuns.PaidPlanHasCause`.
- The worker starts dispatches concurrently (`cmd/worker/main.go:133`), which
  breaks the 24-hour limit exactly when another alert slips in between lookup
  and insert: `MonitoringRuns.ApartExactly`,
  `MonitoringRuns.ConcurrentDispatchesAlertTwice`. A failed rate lookup counts
  as one made before the first row.
- `internal/monitoring/dispatcher.go:249-250` means not to mail twice when the
  alert's row is there already, but nothing looks at how many rows were inserted:
  nobody is mailed the same alert of the same audit twice if and only if no insert
  hit the unique index (`MonitoringRuns.MailedOnceExactly`), and two subscriptions
  of one user are enough: `MonitoringRuns.TwoSubscriptionsMailTwice`.
- Switching monitoring on is meant to get a store audited promptly
  (`internal/web/handlers_monitoring.go:266-267`), but a store with a planned audit
  waits for it, however far off; only one without is due at once:
  `Scheduling.UpdatedIsDue`.
- `warnings_count` leaves suggestions out, and account issues whose severity is
  none of the three documented ones make the warning check fail on an active
  account: `GmcChecks.WarningsCountMissesSuggestions`, `GmcChecks.WarningAgrees`.

## Model

| member | source | states |
|---|---|---|
| JobTable.Table.Claim | internal/jobs/jobs.go:159-199 | claims the oldest due row nobody has locked and changes no other, or nothing is due |
| JobTable.ClaimMeans | internal/jobs/jobs.go:159-199 | what a claim is: a queued unlocked row whose time has come, the oldest such, becomes running, signed by its worker, with one attempt more; and there is none if nothing is claimed |
| JobTable.Worker.Drain | internal/jobs/jobs.go:102-156 | one tick claims until the slots are full, nothing is due or a query fails, whatever others make of the table between its claims; each claim takes the oldest row that is due by its own clock reading and unlocked then; tokens held equal goroutines in flight on every path |
| JobTable.DrainsOldestFirst | internal/jobs/jobs.go:119-199 | as long as others keep every row and lower no attempt count, which holds of each step of the protocol (StepsAdvance), a tick claims no attempt of a job twice, and each claim takes the older of two jobs its statement finds queued, unless that one is locked |
| JobTable.Worker.Handle | internal/jobs/jobs.go:201-268 | the mark chosen from registration, outcome and attempts is sent by id alone, lost or not, and the slot is released exactly once |
| JobTable.Table.Apply | internal/jobs/jobs.go:224-268 | the three mark statements touch the row with that id whatever its status or owner; one that fails changes nothing |
| JobTable.BackoffIndex | internal/jobs/jobs.go:237-245 | the clamped index always lies within Backoffs |
| JobProtocol.RowInvPreserved | internal/jobs/jobs.go:159-268 | queued rows have attempts left, all other rows were claimed, attempts never exceed the maximum |
| JobProtocol.ExecInvPreserved | internal/jobs/jobs.go:201-268 | a live execution owns a running row at the attempt it claimed, whatever others do |
| JobProtocol.OneExecPerJobPreserved | internal/jobs/jobs.go:159-199 | no step gives a job a second live execution |
| JobProtocol.SlotInvPreserved | internal/jobs/jobs.go:102-156 | slots held equal executions in flight plus the one being acquired, and never exceed MaxConcurrent |
| JobProtocol.Safety | internal/jobs/jobs.go:102-268 | the whole invariant holds in every state of every interleaving |
| JobRuns.AtMostOneExecution | internal/jobs/jobs.go:159-268 | at most one live handler per job, none unless it is running; executions ever started equal attempts and stay within the maximum |
| JobRuns.BackoffHolds | internal/jobs/jobs.go:170-255 | the k-th claim is no earlier than the first plus the k-1 backoffs in between |
| JobRuns.TotalBackoffIs | internal/jobs/jobs.go:33-37 | the sum of the first k backoffs in closed form |
| JobRuns.RetryUsesEarlyBackoffs | internal/jobs/jobs.go:217-255 | a job that may run m times uses the first m-1 entries only; with three, never the ten-minute one |
| JobRuns.TenMinutesExactly | internal/jobs/jobs.go:217-255 | some run waits ten minutes if and only if the job may run at least four times |
| JobRuns.DefaultRowsReachTenMinutes | migrations/000008_jobs.up.sql:9 | some run of a job with the schema's default waits ten minutes |
| JobRuns.ReturnDecides | internal/jobs/jobs.go:201-235 | after a handler returns, its job is to be marked succeeded on success, dead without a handler or if its attempts equal its maximum, and otherwise retried 30, 120 or 600 seconds later |
| JobRuns.OutcomeIsRecorded | internal/jobs/jobs.go:201-268 | unless the mark is lost or the worker crashes, the row ends up so: requeued unlocked with the error and that delay, dead, or succeeded, and otherwise unchanged |
| JobRuns.EndHasCause | internal/jobs/jobs.go:201-268 | in every reachable state, a row is dead only if a handler of it failed at the last attempt or there was none, and succeeded only if a handler succeeded |
| JobRuns.FirstClaimWaits | internal/jobs/jobs.go:159-199 | no job is claimed before the instant it was enqueued for |
| JobRuns.FuelFalls | internal/jobs/jobs.go:102-268 | every claim, return, mark and release burns fuel that only an enqueue supplies |
| JobRuns.StepsAreBounded | internal/jobs/jobs.go:102-268 | finitely many enqueues allow finitely many steps, at most four for each attempt |
| JobRuns.SettledStays | internal/jobs/jobs.go:224-268 | a finished, dead or abandoned row never changes again |
| JobRuns.LostMarkAbandons | internal/jobs/jobs.go:224-268 | after a lost mark the job is running for the rest of the run |
| JobRuns.AbandonedExactly | internal/jobs/jobs.go:201-268 | a running job has no live execution if and only if a step so far lost its mark or crashed the worker of its live execution |
| JobRuns.MarksAreLost | internal/jobs/jobs.go:201-268 | runs in which a lost mark, and a crash, abandon a job |
| LoginLimiting.LoginLimiter.Check | internal/web/ratelimit.go:41-59 | whatever was pruned, the answer is the verdict on every failure since the last success |
| LoginLimiting.LoginLimiter.RecordFailure | internal/web/ratelimit.go:61-80 | appends to the address's history and to no other's |
| LoginLimiting.LoginLimiter.RecordSuccess | internal/web/ratelimit.go:82-86 | clears the address's history and no other's |
| LoginLimiting.LoginState.Check | internal/web/ratelimit.go:41-59 | pruning preserves the representation of the full history |
| LoginLimiting.LoginState.RecordFailure | internal/web/ratelimit.go:61-80 | stored failures, streak and lockout represent the history with the new failure |
| LoginLimiting.PruneBefore | internal/web/ratelimit.go:88-96 | keeps the suffix that starts at the first failure after the cutoff |
| LoginLimiting.DenialLasts | internal/web/ratelimit.go:41-59 | a denial names a positive wait and every check before its end is denied, whatever failures come meanwhile |
| LoginLimiting.LockUntilGrows | internal/web/ratelimit.go:61-80 | more failures never move the lockout back |
| LoginLimiting.WindowHoldsFew | internal/web/ratelimit.go:41-80 | a 15-minute window holds at most 4 + c failures when c attempts may be in flight: 5 serially |
| LoginLimiting.VerdictExactly | internal/web/ratelimit.go:41-80 | the answer told from the failures: denied for 2 seconds after the fourth in a row, 4 after the fifth and so on to 256 from the eleventh on; then while the fifth from the end is less than 15 minutes old; else allowed; with the exact wait |
| LoginLimiting.FailuresBackOff | internal/web/ratelimit.go:61-80 | a failure checked after the m-th straight one, m > 3, comes at least that one's lockout later: 2, 4, 8, ... 256 seconds |
| FixParser.MatchFixMarker | internal/ai/openai.go:369-388 | a line is a marker exactly when it has the format; its number is the decimal value reduced to 64 bits |
| FixParser.MarkerExactly | internal/ai/openai.go:369-388 | what a marker line is: prefix, digits between optional blanks up to the first suffix, text; blanks alone read as 0 |
| FixParser.MarkersHaveTheFormat | internal/ai/openai.go:369-388 | no line without prefix and suffix is a marker |
| FixParser.ParseFixBatch | internal/ai/openai.go:331-366 | one response per issue with aligned ids, each the chunk of the last marker of its number or the placeholder |
| FixParser.Collect | internal/ai/openai.go:359-365 | whatever order the map yields, numbers in range set their issue and others are ignored |
| FixParser.AppendedMarkerDecides | internal/ai/openai.go:331-366 | a further marker decides its own number and leaves all other suggestions alone |
| FixParser.AppendedTextContinues | internal/ai/openai.go:348-358 | a further line that is no marker is added, trimmed, after a blank, to the suggestion of the last marker before it, and to no other; a blank line changes nothing |
| FixParser.FixLineReadsBack | internal/ai/openai.go:369-388 | a printed line is read back with its number and text |
| FixParser.RenderParses | internal/ai/openai.go:331-388 | printing entries in any order, with repetitions, and parsing gives issue n the last text numbered n |
| FixParser.AnyOrderParses | internal/ai/openai.go:331-388 | with distinct numbers in range, every text comes back at its index |
| FixParser.BlocksParse | internal/ai/openai.go:331-388 | printing texts of several lines, blank ones among them, and parsing gives issue n the lines of the last block numbered n, trimmed and joined by single blanks |
| FixParser.StrayMarkerIgnored | internal/ai/openai.go:369-388 | an out-of-range marker is ignored if and only if its number modulo 2^64 is out of range |
| FixParser.HugeMarkerHits | internal/ai/openai.go:369-388 | the marker 2^64 + 1 overwrites the first suggestion |
| Text.DecimalRoundTrip | internal/ai/openai.go:379-387 | the decimal value of a printed number is the number |
| Text.DecimalIsShort | internal/audit/pipeline.go:380-381 | without leading zeros |
| Text.TrimSpaceTrims | internal/ai/openai.go:346-357 | trimming takes white space off both ends, all of it and nothing else |
| Text.StringLeqExactly | internal/audit/pipeline.go:311-320 | the sorting order is decided where two strings first differ |
| Text.SplitJoin | internal/ai/openai.go:344-345 | splitting joined lines gives the lines back |
| Text.SortedKeys | internal/audit/pipeline.go:311-320 | the sorted keys of a map: ascending, without repetition, all of them |
| SummaryParser.ParseSummary | internal/ai/openai.go:390-420 | the verdict is the last verdict line, or the whole body; the steps are the cleaned lines after the first heading |
| SummaryParser.SummaryParses | internal/ai/openai.go:390-420 | whatever chat precedes it, short of a heading, a printed summary gives back its verdict, and its steps if and only if none starts with a list marker |
| SummaryParser.MarkersAreStripped | internal/ai/openai.go:406-416 | a dash, a bullet and a star are each taken off once, in this order, each with the blank after it |
| Scoring.RunScore | internal/audit/pipeline.go:278-322 | score, counts, risk and category summaries are those of the results |
| Scoring.ScoreFromCounts | internal/audit/pipeline.go:278-359 | the score is 100 - 10c - 5e - 2w on the stage's own counts, floored at zero |
| Scoring.RiskFromCounts | internal/audit/pipeline.go:278-359 | low if those counts cost at most 20 points, medium if at most 50, else high |
| Scoring.CountsAddUp | internal/audit/pipeline.go:278-322 | the counts add up to the number of issues of failing and informational results, which is the number of rows a Save stores |
| Scoring.WorstSeverityIs | internal/audit/pipeline.go:284-306 | a category's worst severity is critical if a failing check of it is, else error, else warning, else info |
| Scoring.ScoringIgnoresOrder | internal/audit/pipeline.go:278-322 | permuting the results changes nothing, not even the list of summaries |
| Scoring.MoreIssuesNeverHelp | internal/audit/pipeline.go:278-359 | adding issues or results never raises the score nor improves the risk |
| Scoring.CategoriesCoverResults | internal/audit/pipeline.go:278-322 | the categories' passes and fails add up to the passing and failing results |
| Scoring.SummaryStep | internal/audit/pipeline.go:284-306 | each result updates its category's totals and true worst severity, and no other category's |
| Enrich.Use | internal/ai/ai.go:103-112 | succeeds and counts one exactly when calls are left; always succeeds on a nil budget |
| Enrich.BuildTodo | internal/audit/pipeline.go:375-397 | the work list is the eligible issues of the failing checks, in report order, with all that is asked about them |
| Enrich.TodoExactly | internal/audit/pipeline.go:375-397 | issue i of failing eligible check c is item (eligible issues of the checks before) + i, under `id#i`, with each field of the request from its place |
| Enrich.NotOnList | internal/audit/pipeline.go:375-397 | no issue of any other check is on it |
| Enrich.KeyIsInjective | internal/audit/pipeline.go:380-381 | `id#index` determines id and index, whatever characters the id has |
| Enrich.TodoKeysDistinct | internal/audit/pipeline.go:375-397 | with distinct checks no two issues share a key |
| Enrich.SendBatches | internal/audit/pipeline.go:404-442 | the batching loop stores what its contiguous batches were answered and spends one call for each |
| Enrich.RunEnrich | internal/audit/pipeline.go:365-445 | the stage computes the batched enrichment, or nothing without a client, and never fails the run |
| Enrich.EnrichedKeys | internal/audit/pipeline.go:365-445 | exactly the first min(n, calls * b) items get a suggestion |
| Enrich.SuggestionsAreFirstInReport | internal/audit/pipeline.go:365-445 | the suggestions are those of the first min(n, B * b) eligible issues of the report, as many, and all usable |
| Enrich.EnrichedValue | internal/audit/pipeline.go:404-442 | an item has its own batch's suggestion for it if the budget reaches it and the reply covers it, and otherwise what it had |
| Enrich.EnrichedIsUsable | internal/audit/pipeline.go:420-450 | neither an empty text nor the placeholder is ever stored |
| Enrich.CallsAreBudgeted | internal/audit/pipeline.go:404-413 | n items in batches of b take the least k calls with n <= k * b, or as many as are left if that is fewer |
| Enrich.OpenAIAnswersEach | internal/ai/openai.go:143-183 | the client returns an error or one response per request |
| Enrich.OpenAIReplies | internal/ai/openai.go:143-183 | an error for more than ten requests or a failed call; otherwise response i is what the body says of number i + 1 |
| Enrich.SuggestedExactly | internal/audit/pipeline.go:420-450 | an item gets its response's text, the sentence naming its check and product if that is empty or a placeholder or the call failed, and nothing if the reply is short |
| Enrich.RenderedReplyReachesItems | internal/audit/pipeline.go:415-442 | when the provider answers a batch in the requested format, each item gets its own text |
| Enrich.RunSummarize | internal/audit/pipeline.go:456-500 | one call if one is left; the parsed reply, or the fallback summary |
| Enrich.FallbackCounts | internal/audit/pipeline.go:488-500 | the fallback's four sentences, with the number of issues of each severity in its place |
| Persist.PgPersister.Save | internal/audit/persist_pg.go:27-150 | one transaction replaces the audit's row values, all its issue rows and, for a success, its diff row, and then calls the hook once, with that diff or, for a failed audit, with none; or nothing changes |
| Persist.PgPersister.SaveProgress | internal/audit/persist_pg.go:159-173 | moves a queued audit to running, writes progress, and touches nothing else; an error changes nothing |
| Persist.InsertIssues | internal/audit/persist_pg.go:86-128 | the inserted rows are the issues of failing and info results in order; an unstorable severity aborts |
| Persist.SavedIssues | internal/audit/persist_pg.go:80-128 | after a committed Save the audit has one row for each issue of each failing or informational result, in order; issue i of result c is told by row (issues before c) + i, with its own url, product, detail and code and the suggestion stored under `id#i`, NULL where empty |
| Persist.SavedRowReports | internal/audit/persist_pg.go:44-79 | the audit's row shows the report: score, risk, counts, summary, steps, the instant, and the first failed stage's name and detail as error, or none |
| Persist.CommitsExactly | internal/audit/persist_pg.go:27-150 | when a Save commits: the server runs it, every reported severity is one of the enum's four, and the audit exists or nothing refers to it |
| Persist.EffectOnRows | internal/audit/persist_pg.go:80-128 | one statement changes an audit's issue rows only if it is its committed Save |
| Persist.ClearIssues | internal/audit/persist_pg.go:80-84 | deletes exactly the audit's own rows |
| Pipeline.Pipeline.Inspect | internal/audit/pipeline.go:180-265 | succeeds exactly on sound input; otherwise the failure has already been persisted, with no results, under the stage and message of the first obstacle |
| Pipeline.Pipeline.EndStage | internal/audit/pipeline.go:556-588 | appends the stage and sends exactly one statement, the progress update with all stages so far, whose failure is dropped |
| Pipeline.Pipeline.FailAndPersist | internal/audit/pipeline.go:540-577 | a failed stage sends the run's one Save, of a failed report |
| Pipeline.Pipeline.RunPersist | internal/audit/pipeline.go:527-538 | sends the run's one Save; the run fails if it does |
| Pipeline.Pipeline.EnrichAndSummarize | internal/audit/pipeline.go:365-486 | both AI stages together stay within the budget |
| Pipeline.Pipeline.Run | internal/audit/pipeline.go:109-174 | every run sends exactly one Save among progress updates; it saves a success exactly on sound input, with its seven stages in order and the scored, enriched and summarized report, and otherwise the first obstacle's failure |
| Pipeline.RunStoresSuggestions | internal/audit/pipeline.go:365-538 | from the checks to the table: after a run that commits, the row of issue i of result c tells of that issue and holds the suggestion its batch proposed, if the check is eligible, the budget of calls reached it and the reply covered it, and NULL otherwise |
| AuditLifecycle.PipelineRunsArePlanned | internal/audit/pipeline.go:109-174 | every run of the pipeline on an existing audit is a run of the composed system |
| AuditLifecycle.InvPreserved | internal/jobs/jobs.go:201-235 | every step of queue, runs and statements keeps rows, executions, runs and audit statuses consistent |
| AuditLifecycle.Safety | internal/jobs/jobs.go:102-268 | the joint invariant holds throughout every behaviour |
| AuditLifecycle.StatusMoves | internal/audit/persist_pg.go:44-75 | a status moves queued, running, succeeded or failed only, skipping running only if nothing of the audit took effect before; an outcome is set only by the Save of a live run of that job |
| AuditLifecycle.QueuedExactly | internal/audit/persist_pg.go:159-173 | an audit is queued if and only if no progress update of it has landed and no Save of it has committed |
| AuditLifecycle.StraightToSucceededExactly | internal/audit/persist_pg.go:44-75 | a step moves an audit straight from queued to succeeded if and only if it is a committed Save of a success and nothing of the audit took effect before |
| AuditLifecycle.StraightToSucceeded | internal/audit/persist_pg.go:44-173 | a run that does so: its progress update is lost, its Save commits |
| AuditLifecycle.SavesAreByLaterAttempts | internal/jobs/jobs.go:159-235 | of two Saves of a job the later one is sent by a later attempt |
| AuditLifecycle.FailureIsReplacedLater | internal/audit/persist_pg.go:44-75 | a failed audit is saved again only by a later attempt than the one whose Save failed it |
| AuditLifecycle.SucceededForever | internal/audit/persist_pg.go:44-75 | a succeeded audit stays succeeded |
| AuditLifecycle.JobAndAuditAgree | internal/jobs/jobs.go:201-235 | a succeeded job has a succeeded audit; a succeeded audit's job is running or succeeded |
| AuditLifecycle.TablesShowLastSave | internal/audit/persist_pg.go:44-147 | however many retries and interleavings, an audit shows exactly its last committed Save: its report, its issues and its diff, or neither of the latter after a failure |
| AuditLifecycle.RowsShowLastSave | internal/audit/persist_pg.go:80-128 | and of that Save's report each issue is told by its own row, with its own suggestion |
| AuditLifecycle.ProgressIsLatest | internal/audit/persist_pg.go:159-173 | in every state, an audit was started at the first statement of it that took effect and shows the stages of the last |
| AuditLifecycle.DiffsAreOfSuccesses | internal/audit/persist_pg.go:134-141 | in every state, an audit has a diff row if and only if it has succeeded |
| AuditLifecycle.SavesAreAttempts | internal/audit/pipeline.go:109-174 | at most one Save per attempt of the job |
| AuditLifecycle.ReturnAfterSave | internal/audit/pipeline.go:527-546 | a handler that returns has sent its Save, and otherwise only progress updates |
| Billing.Webhook.GumroadWebhook | internal/web/handlers_billing.go:33-107 | a delivery is skipped if logged, rolled back if a statement fails, and otherwise applied and logged in one transaction |
| Billing.AdminHandlers.TenantSetPlan | internal/web/handlers_admin.go:279-343 | an override sets any tier and its renewal and cancels whatever was pending, for a known tenant only |
| Billing.Dispatcher.Dispatch | internal/billing/dispatcher.go:38-110 | the transaction ends up failed exactly when the delivery aborts; otherwise tenant, purchase and log row are what the event means |
| Billing.Dispatcher.HandleSale | internal/billing/dispatcher.go:116-167 | records the purchase and puts the tenant on the product's tier, if it has one |
| Billing.Dispatcher.HandleSubscriptionUpdated | internal/billing/dispatcher.go:196-220 | re-sets the tier and the purchase; a failing upsert is reported as success and dooms the transaction |
| Billing.Dispatcher.HandleSubscriptionCancelled | internal/billing/dispatcher.go:228-242 | schedules the downgrade to free at the end of the period |
| Billing.Dispatcher.HandleSubscriptionEnded | internal/billing/dispatcher.go:248-259 | drops to free with nothing pending |
| Billing.Dispatcher.HandleRefund | internal/billing/dispatcher.go:265-303 | refunds the recorded purchase and downgrades only for a paid plan |
| Billing.Tx.UpsertPurchase | internal/billing/dispatcher.go:172-190 | inserts or updates by sale id, failing exactly on an empty tier, an unknown tenant or a taken license |
| Billing.Tx.InsertEvent | internal/web/handlers_billing.go:67-88 | logs the event unless its type and non-empty sale are logged |
| BillingRuns.TierIsGranted | internal/billing/dispatcher.go:116-220 | a committed sale or update of Starter, Growth or Agency puts the tenant on pro, growth or agency until the event's end or a month after the purchase, with nothing pending; of a rescue or an unknown product it leaves the row alone |
| BillingRuns.TierIsTaken | internal/billing/dispatcher.go:228-303 | a cancellation keeps the plan and schedules free for the event's end or in a month, an end or the refund of a paid sale takes it at once, nothing else touches the row |
| BillingRuns.PurchaseIsRecorded | internal/billing/dispatcher.go:172-290 | what the purchase of the event's sale holds afterwards, new, repeated or refunded; no other changes |
| BillingRuns.EventIsLogged | internal/billing/dispatcher.go:38-110 | the log row of a committed delivery |
| BillingRuns.CommitsExactly | internal/web/handlers_billing.go:67-107 | a delivery commits exactly if its type and non-empty sale are new, its tenant exists, an update with a sale is of a tier, and a new sale's license is free |
| BillingRuns.OverrideMeans | internal/web/handlers_admin.go:279-343 | an override sets the tier, its renewal a month later or none for free, nothing pending, and nothing else |
| BillingRuns.DeletionMeans | migrations/000009_billing.up.sql:1-16 | after a deletion no purchase and no log row names the tenant, and nothing else changes |
| BillingRuns.DeliveryIsNoOp | internal/web/handlers_billing.go:67-107 | a delivery changes nothing if and only if it is logged already or aborts |
| BillingRuns.Replay | internal/web/handlers_billing.go:67-107 | deleting all repeats of a (type, non-empty sale) leaves the same database if and only if no repeat commits |
| BillingRuns.ReplayOfCommitted | internal/web/handlers_billing.go:67-107 | it does whenever no first delivery of a key aborts |
| BillingRuns.RepeatAfterSignup | internal/web/handlers_billing.go:89-97 | a concrete sequence in which it does not |
| BillingRuns.InvPreserved | internal/billing/dispatcher.go:116-303 | pending plan and date are set together, to free, at the renewal date; refunded iff dated; licenses and log keys unique |
| BillingRuns.InvAlways | internal/billing/dispatcher.go:116-303 | so in every state that deliveries, sign-ups, overrides and deletions reach |
| BillingRuns.PurchasesKeepTheirTenant | migrations/000009_billing.up.sql:1-16 | a recorded sale stays, with its license, product and date; its tenant is kept or, by a deletion, cleared, and never becomes another |
| BillingRuns.DeliveryFrame | internal/billing/dispatcher.go:116-303 | a delivery rewrites no tenant but its own and no purchase but its sale's |
| BillingRuns.OtherTenantsUntouched | internal/billing/dispatcher.go:116-303 | no number of deliveries to others, and overrides or deletions of others, changes a tenant's row |
| BillingRuns.OtherPurchasesUntouched | internal/billing/dispatcher.go:116-303 | nor a purchase, unless one of them names its sale or deletes its tenant |
| BillingRuns.ForeignRefund | internal/billing/dispatcher.go:265-303 | a refund changes a tenant's not yet downgraded row, to a downgraded one, if and only if the recorded sale is a paid one and the event names that tenant; the purchase, whoever's it is, is refunded |
| BillingRuns.RefundDowngradesPaidSales | internal/billing/dispatcher.go:265-303 | a refund of an unknown or free sale leaves every plan unchanged, of a paid one it downgrades |
| BillingRuns.SaleThenRefund | internal/billing/dispatcher.go:116-303 | buying and refunding a one-time product leaves the tenants as they were; a tier leaves free |
| BillingRuns.CancelThenRenew | internal/billing/dispatcher.go:116-242 | a cancelled tenant keeps its plan until the period ends, and a renewal calls the downgrade off |
| BillingRuns.RefundBeforeSaleIsLost | internal/billing/dispatcher.go:275-290 | a refund that overtakes its sale has no effect, and its repeats are skipped |
| BillingRuns.PaidPlanHasCause | internal/billing/dispatcher.go:116-303 | a tenant that signed up free is on a paid plan if and only if its last plan change was to that plan, with nothing ending, refunding, replacing or deleting it since; and that change was a committed sale or update of the tier or an override |
| Sessions.MemSessionDB.Insert | internal/auth/memdb.go:25-32 | both maps reach one new row |
| Sessions.MemSessionDB.FindActiveByTokenHash | internal/auth/memdb.go:34-42 | finds a row exactly when some row has the hash, is not revoked and not expired |
| Sessions.MemSessionDB.UpdateExpiry | internal/auth/memdb.go:44-54 | sets the expiry seen through both maps, unless revoked or unknown |
| Sessions.MemSessionDB.Revoke | internal/auth/memdb.go:56-65 | revokes through both maps, once |
| Sessions.MemSessionDB.SetImpersonation | internal/auth/memdb.go:67-78 | changes the impersonation of that row only |
| Sessions.SessionStore.Create | internal/auth/session.go:81-104 | the history grows by the call, and the rows are those of the history |
| Sessions.SessionStore.Get | internal/auth/session.go:106-116 | succeeds if and only if the whole history of calls accepts the token |
| Sessions.SessionStore.Extend | internal/auth/session.go:118-121 | succeeds exactly on an unrevoked session, expired or not |
| Sessions.SessionStore.Revoke | internal/auth/session.go:123-125 | succeeds exactly on an unrevoked session |
| Sessions.SessionStore.SetImpersonation | internal/auth/session.go:146-148 | succeeds exactly on a known session |
| Sessions.RowHistory | internal/auth/memdb.go:25-78 | every column of a row is told by the calls: its creation, its last effective extension, its first revocation and its last impersonation |
| Sessions.AcceptedByRows | internal/auth/memdb.go:34-42 | the rows accept a token exactly when it was created, never revoked, and the last Create or Extend is less than a ttl old |
| Sessions.RevokedForever | internal/auth/memdb.go:56-65 | after a revocation no later call makes the token acceptable |
| Sessions.ExtendRevives | internal/auth/memdb.go:44-54 | after an Extend the token is accepted if and only if the session was never revoked and the ttl has not passed since, however long it had expired |
| Settings.Service.Get | internal/settings/service.go:118-140 | with one serial writer and a fixed environment, Get is the load, cached or not; a live entry is returned untouched even when the backend is down, a loaded one is stored |
| Settings.Service.Set | internal/settings/service.go:142-166 | stores the value and forgets the cached one, also when the audit entry fails; a successful Set is what Get sees |
| Settings.Service.InvalidateCache | internal/settings/service.go:192-196 | empties the cache |
| Settings.TrueValueExactly | internal/settings/service.go:118-140 | a registered key has the value its blob decrypts to, an undecryptable blob is an error, and only without a blob the non-empty environment variable counts |
| SettingsRuns.InvAlways | internal/settings/service.go:118-140 | under any interleaving, every cached value was read while it was the true one |
| SettingsRuns.Freshness | internal/settings/service.go:118-140 | a value returned at t was true when its load read it: later than t - ttl - the duration of that load |
| SettingsRuns.CleanSetIsSeen | internal/settings/service.go:118-158 | after a finished Set, if no earlier load still holds another value or nothing is served from the cache, every Get that begins returns the value set, until the next write |
| SettingsRuns.OldLoadGoesStale | internal/settings/service.go:124-137 | if one does, storing it, looking up and checking is a continuation that returns the other value |
| SettingsRuns.StaleExactly | internal/settings/service.go:118-158 | so a later Get can be stale if and only if an earlier load holds another value and the time to live is positive |
| SettingsRuns.StaleAfterSet | internal/settings/service.go:118-158 | an instance reached from a fresh start: the Set has finished, and a Get that begins later may return the old value |
| Monitoring.Dispatcher.Dispatch | internal/monitoring/dispatcher.go:80-138 | every row was asked for and rows stay unique; while no rate lookup fails, score drops of one user and store are 86400 seconds apart; if no statement fails, every wanted alert is logged, or is neither new_critical nor audit_failed and the user was alerted of the store within a day |
| Monitoring.WantedExactly | internal/monitoring/dispatcher.go:142-217 | who wants which alert of which audit, condition by condition |
| Monitoring.LimitsMean | internal/monitoring/dispatcher.go:47-50 | what the lookup counts: any alert but new_critical and audit_failed less than 86400 seconds old |
| Monitoring.Dispatcher.Alert | internal/monitoring/dispatcher.go:96-136 | one subscription and trigger: the row it asks for, or none; a failed rate lookup lets it through |
| Monitoring.Dispatcher.RecentlyAlerted | internal/monitoring/dispatcher.go:222-236 | whether a rate-limited alert of the user and store is less than a day old; false with an error if the lookup fails |
| Monitoring.Dispatcher.LoadSubscriptions | internal/monitoring/dispatcher.go:187-217 | exactly the enabled email subscriptions of the store or the whole tenant |
| Monitoring.Dispatcher.Send | internal/monitoring/dispatcher.go:238-265 | inserts the row unless audit, user and trigger have one, and mails in either case; or fails and does neither |
| Monitoring.InsertKeepsUnique | internal/monitoring/dispatcher.go:249-257 | any interleaving of inserts keeps rows unique per audit, user and trigger |
| Monitoring.LimitedInsert | internal/monitoring/dispatcher.go:100-110 | between a lookup and its insert, rows stay a day apart if and only if no rate-limited alert of that user and store came in |
| MonitoringRuns.RowsAreUnique | internal/monitoring/dispatcher.go:249-257 | however dispatches interleave, rows are unique per audit, user and trigger |
| MonitoringRuns.ApartExactly | internal/monitoring/dispatcher.go:96-136 | in any interleaving, rate-limited rows are a day apart if and only if no insert so far found one that came in since its own lookup |
| MonitoringRuns.SerialDispatchesStayApart | internal/monitoring/dispatcher.go:80-138 | dispatches one after the other, with every lookup answered, keep them a day apart |
| MonitoringRuns.ScoreDropsStayApart | internal/monitoring/dispatcher.go:80-138 | so any two score_drop rows of one user and store are at least 86400 seconds apart |
| MonitoringRuns.ConcurrentDispatchesAlertTwice | cmd/worker/main.go:129-145 | a run of two dispatches that both look the log up before either inserts, and alert twice |
| MonitoringRuns.MailedOnceExactly | internal/monitoring/dispatcher.go:249-265 | in any interleaving, nobody is mailed an alert of an audit twice if and only if no insert so far hit the unique index |
| MonitoringRuns.TwoSubscriptionsMailTwice | internal/monitoring/dispatcher.go:187-265 | a serial run in which a user subscribed to the store and to the whole tenant is mailed the same alert twice |
| Scheduling.Database.ClaimDue | internal/scheduler/scheduler.go:119-151 | at most a batch of the oldest unlocked due stores, each once, is moved on; all others are unchanged |
| Scheduling.PickedExactly | internal/scheduler/scheduler.go:119-151 | a claim takes stores that are switched on, unlocked and due, and leaves one only when the batch is full of earlier ones, an unset next audit counting as earliest |
| Scheduling.DueAgainExactly | internal/scheduler/scheduler.go:119-136 | a claimed store is due again exactly one frequency later |
| Scheduling.UpdatedIsDue | internal/web/handlers_monitoring.go:262-282 | switched off never due; switched on, due when it was planned, or at once |
| Scheduling.Database.EnqueueAudit | internal/scheduler/scheduler.go:156-203 | one audit and one job, or neither |
| Scheduling.Scheduler.RunOnce | internal/scheduler/scheduler.go:82-110 | each claimed store gets exactly one audit with its job, in order, for its tenant and due at its own transaction's instant, except those whose transaction failed |
| SchedulingRuns.OpenStep | internal/scheduler/scheduler.go:119-136 | rows locked by an open claim stay due for it, and no two claims lock the same row |
| SchedulingRuns.CommitStep | internal/scheduler/scheduler.go:119-136 | committing keeps the next audit of every store a frequency or more after each of its claims |
| SchedulingRuns.Safety | internal/scheduler/scheduler.go:119-230 | the invariant holds however schedulers, settings changes, crashes and forced audits interleave |
| SchedulingRuns.ClaimsAreApart | internal/scheduler/scheduler.go:119-151 | two claims of a store are at least the frequency read at the first one apart |
| SchedulingRuns.ScheduledAuditsAreApart | internal/scheduler/scheduler.go:156-203 | two scheduled audits of a store come from different claims, so they are as far apart |
| SchedulingRuns.OffIsNotClaimed | internal/scheduler/scheduler.go:119-151 | however schedulers interleave, a store switched off while no open claim holds it is not claimed until it is switched on |
| SchedulingRuns.AuditsAreDueAtOnce | internal/scheduler/scheduler.go:156-230 | every audit, scheduled or forced, is its store's tenant's and its job is due at once |
| SchedulingRuns.EveryAuditHasItsJob | internal/scheduler/scheduler.go:156-230 | audits and jobs, scheduled or forced, come in pairs |
| Gmc.SynthesiseStatus | internal/gmc/client.go:116-131 | suspended on any critical issue, else warning on any error or suggestion, else active |
| Gmc.UpdateAccountSummary | internal/gmc/store.go:219-240 | counts the errors and the critical issues |
| GmcChecks.RunAccountSuspended | internal/audit/checks/gmc.go:45-65 | reports the critical account issues in order, and fails if there is one |
| GmcChecks.RunAccountWarning | internal/audit/checks/gmc.go:75-96 | reports all other account issues in order |
| GmcChecks.AccountIssuesDivide | internal/audit/checks/gmc.go:45-96 | each account issue goes to exactly one of the two checks |
| GmcChecks.KeptInOrder | internal/audit/checks/gmc.go:45-96 | in the order Google lists them |
| GmcChecks.AccountRowsTell | internal/audit/checks/gmc.go:45-96 | each row holds its issue's title, detail and id |
| GmcChecks.SuspendedAgrees | internal/gmc/client.go:116-131 | suspended iff the suspended check fails iff the suspensions count is positive |
| GmcChecks.WarningAgrees | internal/gmc/client.go:116-131 | warning iff only the warning check fails, unless, and only unless, every severity is undocumented |
| GmcChecks.WarningsCountMissesSuggestions | internal/gmc/store.go:219-229 | a warned account shows no warnings if and only if suggestions are its worst issues |
| GmcChecks.GroupByCode | internal/audit/checks/gmc.go:247-262 | the nested loop computes the groups of all reports |
| GmcChecks.GroupMeaning | internal/audit/checks/gmc.go:247-262 | a group holds its code's distinct affected products and its first report |
| GmcChecks.RunSpecificItemIssue | internal/audit/checks/gmc.go:234-282 | one row per remaining code, sorted, with the number of distinct products and the first report as example |
| GmcChecks.RunImagePolicyViolation | internal/audit/checks/gmc.go:318-360 | the same for image policy codes |
| GmcChecks.RunItemCodeCheck | internal/audit/checks/gmc.go:366-402 | one row per distinct affected product, sorted by id, from the last affected record of that id |
| GmcChecks.RunLandingPagePriceMismatch | internal/audit/checks/gmc.go:292-295 | the per-product check for the price code |
| GmcChecks.RunLandingPageAvailabilityMismatch | internal/audit/checks/gmc.go:305-308 | the per-product check for the availability code |
| GmcChecks.LandingPageCodesAreNotImageCodes | internal/audit/checks/gmc.go:404-408 | the dedicated codes never match the image policy |
| GmcChecks.ImageCodeExactly | internal/audit/checks/gmc.go:404-408 | which codes are image policy codes, each of the four ways |
| GmcChecks.CaseMakesNoDifference | internal/audit/checks/gmc.go:404-408 | in upper case as well as in lower |
| GmcChecks.AffectsLineSays | internal/audit/checks/gmc.go:268-276 | a code's row says of how many products it is reported |
| GmcChecks.PerProductCounts | internal/audit/checks/gmc.go:366-402 | a per-product check has exactly one row for each distinct affected product |
| GmcChecks.EachCodeIsReportedByItsOwner | internal/audit/checks/gmc.go:234-408 | each item code is reported by one check and no other, once per distinct product or in one row, and unreported codes by none |

## Left out

- HTTP handlers, templates, mail, the crawler, robots and XML parsing, OAuth, cookies and row-level security: input and output, or libraries outside the repository.
- Cryptography: hashes are a function, and a cipher is assumed to open what it sealed.
- The bodies of the crawler-side checks, the website-claimed, disapproval-rate and feed checks: the pipeline takes each check's result as given; these three would add only easy members.
- Plan and quota tables, severity and label switches: finite case distinctions.
- Database failures, except a lost mark, a lost progress update, a failed Save, a failed enqueue, a failed claim query, the statements that abort a webhook, failing statements of the alert dispatcher, and a settings backend that is down.
- JobTable.Worker.Drain: the poll timer, the drain timeout and cancellation are not modelled (a worker that goes away is a Crash step of the protocol).
- JobTable.Row: tenants and payloads are not part of the row; AuditLifecycle pairs each job with its audit instead.
- AuditLifecycle: one job per audit; several jobs for one audit are not modelled.
- Pipeline.Pipeline.Run: stage durations and the detail texts of successful stages are not modelled, nor the store's URL and name and the top issues that the summary request carries.
- Pipeline.Pipeline.RunPersist: a pipeline without a persister or a progress sink, which only tests build, is not modelled: its persist stage is skipped.
- Persist.PgPersister.Save: what a diff says is taken as given, and computing it never fails; instruction texts are represented by the check they belong to.
- FixParser.ParseFixBatch: the map of open text builders is a map of strings, updated by key where the code keeps a pointer to the current one; text is a sequence of characters, so invalid UTF-8 is not covered.
- Enrich.RunEnrich: needs a positive batch size, as the code does (its default replaces zero only); retries and timeouts inside one AI call are not modelled.
- Billing.Dispatcher.Dispatch: AddDate and PostgreSQL's month are parameters; time.Now and the transaction's now() are one instant; updated_at and the mails are not modelled; the webhook's signature has been checked.
- Billing.AdminHandlers.TenantSetPlan: the role check, the audit log entry and the refusal of an unknown tier happen outside.
- Billing.DeleteTenant: the password and name the handler asks for first are not modelled, nor are the rows outside billing that go with the tenant (its members, stores, audits, jobs and alerts).
- Billing.Db: the development seed's fixed tenants, and whatever applies pending_plan when its date comes, are not part of this model.
- Sessions.SessionStore.Create: needs an id and a token hash never used before, which the code draws at random.
- Settings.Service.Get: Preview, GetAll and the preview texts; the load reads the backend and the environment in one step.
- Monitoring.Dispatcher.Send: a mail counts as sent when it is handed to the mailer; unsubscribing is not modelled, and a rendering failure counts as a failed send.
- Scheduling.Scheduler.RunOnce: the payload's URL and store name; cadences are any positive number of seconds.
- GmcChecks.ToLower: covers the characters that can turn into ASCII letters; other letters cannot match the codes compared with.
- GmcChecks.GroupByCode: the specific-issue and the image check contain this loop each; the model writes it once.
