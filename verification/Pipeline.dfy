/**
 The seven-stage pipeline run: validate, crawl, GMC sync, detect, score, enrich,
 summarize, persist. What one run sends to the database is described by `RunShape`.
 */
module Pipeline {
  import opened Base
  import opened Text
  import opened Audit
  import opened SummaryParser
  import opened Scoring
  import opened Enrich
  import opened Persist

  datatype AuditInput = AuditInput(auditId: AuditId, storeUrl: string, hasStore: bool, hasTenant: bool,
                                   storeContext: string)

  datatype Crawled = NoCrawler | CrawlFailed(message: string) | CrawlOk

  datatype Synced = NoSync | SyncFailed(message: string) | NotConnected | SyncOk

  /** Everything one run meets outside its own code. */
  datatype World = World(
    crawled: Crawled,
    synced: Synced,
    checkResults: seq<CheckResult>,     // what the registered checks report, [] when none is registered
    client: Option<Client>,
    summaryReply: Option<string>,
    saveOk: bool,
    diff: Diff,                         // what the differ computes for this audit
    flushOk: nat -> bool,               // whether the n-th statement lands, if it is a progress update
    clock: nat -> Time)                 // the instant of the run's n-th statement

  const DEFAULT_BUDGET := 50
  const DEFAULT_BATCH_SIZE := 10

  function OrDefault(a: int, fallback: int): int {
    if a == 0 then fallback else a
  }

  function StatusOf(report: Report): AuditStatus {
    if HasFailed(report.stages) then AuditFailed else AuditSucceeded
  }

  /**
   The statements of one run: progress updates around exactly one Save, at
   position `at`. The run returns no error exactly when that Save committed a
   success; when it returns an error, the Save was its last statement. A success
   is only ever saved after some progress was, and a failure carries no results.
   */
  ghost predicate RunShape(id: AuditId, before: Tables, trace: seq<Effect>, at: nat, err: Option<string>) {
    && at < |trace| && trace[at].Save?
    && (forall i | 0 <= i < |trace| :: trace[i].id == id && (i != at ==> trace[i].Flush?))
    && (err.None? <==>
        StatusOf(trace[at].report) == AuditSucceeded && Commits(ApplyAll(before, trace[..at]), trace[at]))
    && (err.Some? ==> at == |trace| - 1)
    && (StatusOf(trace[at].report) == AuditSucceeded ==> at > 0)
    && (StatusOf(trace[at].report) == AuditFailed ==> trace[at].report.results == [])
  }

  lemma HasFailedAppend(stages: seq<StageResult>, stage: StageResult)
    ensures HasFailed(stages + [stage]) <==> HasFailed(stages) || stage.status == StageFailed
  {
    var more := stages + [stage];
    assert more[|stages|] == stage;
    if HasFailed(stages) {
      assert more[FirstFailed(stages)].status == StageFailed;
    }
    if HasFailed(more) && FirstFailed(more) < |stages| {
      assert stages[FirstFailed(more)].status == StageFailed;
    }
  }

  /** Nothing stops this run before its persist stage. */
  predicate Sound(input: AuditInput, world: World) {
    input.storeUrl != "" && input.hasStore && input.hasTenant && world.crawled.CrawlOk? && world.checkResults != []
  }

  /** The failed stage that ends a run before anything is scored. */
  function EarlyFailure(input: AuditInput, world: World): Option<StageResult> {
    if input.storeUrl == "" then Some(StageResult("validate", StageFailed, "store URL is empty"))
    else if !input.hasStore || !input.hasTenant then Some(StageResult("validate", StageFailed, "missing IDs"))
    else match world.crawled
      case NoCrawler => Some(StageResult("crawl", StageFailed, "no crawler configured"))
      case CrawlFailed(message) => Some(StageResult("crawl", StageFailed, message))
      case CrawlOk =>
        if world.checkResults == [] then Some(StageResult("detect", StageFailed, "no checks registered")) else None
  }

  lemma SoundHasNoFailure(input: AuditInput, world: World)
    ensures Sound(input, world) <==> EarlyFailure(input, world).None?
    ensures Sound(input, world) <==>
            && input.storeUrl != "" && input.hasStore && input.hasTenant
            && world.crawled.CrawlOk? && world.checkResults != []
  {}

  /** These stages, in this order. */
  predicate Named(stages: seq<StageResult>, names: seq<string>) {
    |stages| == |names| && forall i | 0 <= i < |stages| :: stages[i].name == names[i]
  }

  /** The report of a run that failed early: the one failed stage is the last, and the summary says why. */
  predicate FailedReport(report: Report, stage: StageResult) {
    && report.results == [] && report.stages != [] && report.stages[|report.stages| - 1] == stage
    && (forall i | 0 <= i < |report.stages| - 1 :: report.stages[i].status != StageFailed)
    && report.summary == "Audit failed: " + stage.detail
  }

  function Suggestions(results: seq<CheckResult>, context: string, world: World, budget: int, batchSize: int)
      : map<string, string>
    requires batchSize > 0
  {
    match world.client
    case None => map[]
    case Some(client) => Enriched(map[], Todo(results, context), client, batchSize, 0, CallsLeft(budget, 0))
  }

  /** The budget has a call left for the summary, and there is a client to make it. */
  predicate Asked(results: seq<CheckResult>, context: string, world: World, budget: int, batchSize: int)
    requires batchSize > 0
  {
    world.client.Some? && CallsMade(|Todo(results, context)|, batchSize, CallsLeft(budget, 0)) < budget
  }

  /** The summary and next steps: the AI's if it was asked and answered, else the fallback. */
  predicate Summarized(report: Report, asked: bool, reply: Option<string>) {
    if asked && reply.Some? then report.summary == ReplySummary(reply.value)
        && report.nextSteps == Steps(SplitLines(reply.value))
    else report.summary == FallbackSummary(report.counts, report.riskLevel) && report.nextSteps == []
  }

  /** What the stages leave in the report of a run nothing stopped. */
  ghost predicate Complete(report: Report, context: string, world: World, budget: int, batchSize: int)
    requires batchSize > 0
  {
    && report.results == world.checkResults
    && Named(report.stages, ["validate", "crawl", "gmc_sync", "detect", "score", "enrich", "summarize"])
    && report.score == ScoreOf(report.results) && report.riskLevel == RiskLevel(report.score)
    && IsCounts(report.results, report.counts) && IsRollUp(report.results, report.categories)
    && report.suggestions == Suggestions(report.results, context, world, budget, batchSize)
    && Summarized(report, Asked(report.results, context, world, budget, batchSize), world.summaryReply)
  }

  /** The statements sent since `sent0` are all progress updates, and took the tables from `before` to `now`. */
  ghost predicate OnlyProgress(id: AuditId, sent0: seq<Effect>, before: Tables, sent: seq<Effect>, now: Tables) {
    && |sent0| <= |sent| && sent0 == sent[..|sent0|]
    && (forall i | |sent0| <= i < |sent| :: sent[i].Flush? && sent[i].id == id)
    && now == ApplyAll(before, sent[|sent0|..])
  }

  /** The run has ended in the failed stage: its one Save, at position `at`, was its last statement. */
  ghost predicate FailurePersisted(id: AuditId, sent0: seq<Effect>, before: Tables, log: seq<Effect>, now: Tables,
                                   at: nat, report: Report, stage: StageResult) {
    && sent0 <= log && RunShape(id, before, log[|sent0|..], at, Some(stage.detail))
    && now == ApplyAll(before, log[|sent0|..])
    && log[|sent0|..][at].report == report
    && StatusOf(report) == AuditFailed && FailedReport(report, stage)
  }

  lemma ProgressExtends(id: AuditId, sent0: seq<Effect>, before: Tables, sent: seq<Effect>, now: Tables, e: Effect)
    requires OnlyProgress(id, sent0, before, sent, now) && e.id == id
    ensures e.Flush? ==> OnlyProgress(id, sent0, before, sent + [e], ApplyEffect(now, e))
    ensures |sent0| <= |sent| && sent0 <= sent + [e]
    ensures (sent + [e])[|sent0|..] == sent[|sent0|..] + [e]
    ensures ApplyAll(before, sent[|sent0|..] + [e]) == ApplyEffect(now, e)
  {
    assert (sent + [e])[|sent0|..] == sent[|sent0|..] + [e];
    assert (sent[|sent0|..] + [e])[..|sent| - |sent0|] == sent[|sent0|..];
  }

  lemma ShapeOfSave(id: AuditId, sent0: seq<Effect>, before: Tables, sent: seq<Effect>, now: Tables, e: Effect,
                    err: Option<string>)
    requires OnlyProgress(id, sent0, before, sent, now) && e.id == id && e.Save?
    requires err.None? <==> StatusOf(e.report) == AuditSucceeded && Commits(now, e)
    requires StatusOf(e.report) == AuditSucceeded ==> |sent| > |sent0|
    requires StatusOf(e.report) == AuditFailed ==> e.report.results == []
    ensures RunShape(id, before, sent[|sent0|..] + [e], |sent| - |sent0|, err)
  {
    var trace := sent[|sent0|..] + [e];
    assert trace[..|sent| - |sent0|] == sent[|sent0|..];
    assert forall i | 0 <= i < |sent| - |sent0| :: trace[i] == sent[|sent0| + i];
  }

  lemma ShapeWithLastFlush(id: AuditId, before: Tables, trace: seq<Effect>, at: nat, e: Effect)
    requires RunShape(id, before, trace, at, None) && e.Flush? && e.id == id
    ensures RunShape(id, before, trace + [e], at, None)
  {
    assert (trace + [e])[..at] == trace[..at];
  }

  lemma ApplyOneMore(before: Tables, trace: seq<Effect>, e: Effect)
    ensures ApplyAll(before, trace + [e]) == ApplyEffect(ApplyAll(before, trace), e)
  {
    assert (trace + [e])[..|trace|] == trace;
  }

  /** The suggestion of the batch an issue falls into, if it is open to AI fixes and the budget reaches it. */
  function SuggestionFor(results: seq<CheckResult>, context: string, client: Option<Client>, limit: int, b: int,
                         c: nat, i: nat): (s: Option<string>)
    requires b > 0 && c < |results|
    ensures s.Some? ==> s.value != ""
  {
    var todo, at := Todo(results, context), EligibleIn(results[..c]) + i;
    if client.Some? && results[c].status == Fail && results[c].meta.aiFixEligible && at < limit * b && at < |todo|
    then OwnSuggestion(todo, client.value, b, 0, at)
    else None
  }

  lemma NoCallsNoItems(limit: int, b: nat, at: nat)
    ensures at < limit * b <==> at < CallsLeft(limit, 0) * b
  {
    if limit <= 0 {
      assert limit * b <= 0;
    }
  }

  lemma ReportSuggests(report: Report, context: string, world: World, limit: int, b: int, c: nat, i: nat)
    requires b > 0 && Complete(report, context, world, limit, b) && DistinctChecks(report.results)
    requires c < |report.results| && report.results[c].status != Pass && i < |report.results[c].issues|
    ensures Enrich.At(report.suggestions, report.results[c].meta.id + "#" + Decimal(i)) ==
            SuggestionFor(report.results, context, world.client, limit, b, c, i)
  {
    hide Todo, Enriched, OwnSuggestion, IsCounts, IsRollUp, Summarized, ScoreOf, RiskLevel, Asked, Decimal;
    var results, key := report.results, Key(report.results[c].meta.id, i);
    if world.client.Some? {
      var client, calls, todo := world.client.value, CallsLeft(limit, 0), Todo(results, context);
      if results[c].status == Fail && results[c].meta.aiFixEligible {
        TodoPlace(results, context, c, i);
        TodoKeysDistinct(results, context);
        NoCallsNoItems(limit, b, EligibleIn(results[..c]) + i);
        EnrichedValue(map[], todo, client, b, 0, calls, EligibleIn(results[..c]) + i);
      } else {
        NotOnList(results, context, c, i);
        EnrichedFrame(map[], todo, client, b, 0, calls, key);
      }
    }
  }

  /** After the Save the run changes no issue row any more. */
  lemma {:induction false} FlushesKeepIssues(before: Tables, trace: seq<Effect>, at: nat)
    requires at < |trace| && forall q | at < q < |trace| :: trace[q].Flush?
    ensures ApplyAll(before, trace).issues == ApplyAll(before, trace[..at + 1]).issues
  {
    if at + 1 == |trace| {
      assert trace[..at + 1] == trace;
    } else {
      assert trace[..|trace| - 1][..at + 1] == trace[..at + 1];
      FlushesKeepIssues(before, trace[..|trace| - 1], at);
    }
  }

  lemma RunEndsAtSave(id: AuditId, before: Tables, trace: seq<Effect>, at: nat)
    requires RunShape(id, before, trace, at, None)
    ensures at < |trace| && trace[at].Save? && trace[at].id == id
    ensures var was := ApplyAll(before, trace[..at]);
            Commits(was, trace[at]) && ApplyAll(before, trace).issues == ApplyEffect(was, trace[at]).issues
  {
    hide ApplyAll, ApplyEffect, Commits;
    FlushesKeepIssues(before, trace, at);
    ApplyOneMore(before, trace[..at], trace[at]);
    assert trace[..at + 1] == trace[..at] + [trace[at]];
  }

  /**
   What a run that commits leaves in the database: one row for each issue of each
   failing or informational result, which tells of that issue and carries the
   suggestion of the batch it fell into, if the run made that batch's call and
   the reply covered it, and none otherwise.
   */
  lemma RunStoresSuggestions(id: AuditId, before: Tables, trace: seq<Effect>, at: nat, context: string, world: World,
                             limit: int, b: int, c: nat, i: nat)
    requires RunShape(id, before, trace, at, None) && b > 0 && Complete(trace[at].report, context, world, limit, b)
    requires DistinctChecks(world.checkResults) && c < |world.checkResults|
    requires world.checkResults[c].status != Pass && i < |world.checkResults[c].issues|
    ensures var results := world.checkResults;
            var rows, k := RowsFor(ApplyAll(before, trace).issues, id), IssuesIn(results[..c]) + i;
            && |rows| == IssuesIn(results) && k < |rows| && Tells(rows[k], results[c], i)
            && rows[k].fixInstructions == SuggestionFor(results, context, world.client, limit, b, c, i)
  {
    RunEndsAtSave(id, before, trace, at);
    var report, was := trace[at].report, ApplyAll(before, trace[..at]);
    assert report.results == world.checkResults;
    hide RunShape, Complete, RowsFor, Tells, SuggestionFor, ApplyEffect, ApplyAll, IssuesIn, Commits, DistinctChecks;
    SavedIssues(was, trace[at], c, i);
    ReportSuggests(report, context, world, limit, b, c, i);
  }

  class Pipeline {
    const budget: int
    const batchSize: int
    const db: PgPersister
    const world: World

    constructor (budget: int, batchSize: int, db: PgPersister, world: World)
      ensures this.budget == budget && this.batchSize == batchSize && this.db == db && this.world == world
    {
      this.budget, this.batchSize, this.db, this.world := budget, batchSize, db, world;
    }

    /** The n-th statement of a run, when it is a progress update. */
    function Update(id: AuditId, stages: seq<StageResult>, n: nat): Effect {
      Flush(id, stages, world.clock(n), world.flushOk(n))
    }

    /** flushProgress, after a stage has been appended; an error is logged and dropped. */
    method FlushProgress(id: AuditId, out: AuditOutput, n: nat, ghost sent0: seq<Effect>, ghost before: Tables)
      requires OnlyProgress(id, sent0, before, db.log, db.Contents())
      modifies db
      ensures OnlyProgress(id, sent0, before, db.log, db.Contents())
      ensures db.log == old(db.log) + [Update(id, out.stages, n)]
    {
      hide OnlyProgress;
      ProgressExtends(id, sent0, before, db.log, db.Contents(), Update(id, out.stages, n));
      var _ := db.SaveProgress(id, out.stages, world.clock(n), world.flushOk(n));
    }

    method EndStage(id: AuditId, out: AuditOutput, stage: StageResult, n: nat, ghost sent0: seq<Effect>,
                    ghost before: Tables)
      requires OnlyProgress(id, sent0, before, db.log, db.Contents())
      modifies out`stages, db
      ensures out.stages == old(out.stages) + [stage]
      ensures HasFailed(out.stages) <==> HasFailed(old(out.stages)) || stage.status == StageFailed
      ensures OnlyProgress(id, sent0, before, db.log, db.Contents()) && |sent0| < |db.log|
      ensures db.log == old(db.log) + [Update(id, out.stages, n)]
    {
      hide HasFailed, OnlyProgress;
      SentSoFar(id, sent0, before, db.log, db.Contents());
      HasFailedAppend(out.stages, stage);
      out.stages := out.stages + [stage];
      FlushProgress(id, out, n, sent0, before);
    }

    /** failStage followed by persistFailed, whose own error is dropped. */
    method FailAndPersist(id: AuditId, out: AuditOutput, name: string, detail: string, n: nat,
                          ghost sent0: seq<Effect>, ghost before: Tables)
      returns (err: Option<string>)
      requires out.results == [] && !HasFailed(out.stages)
      requires OnlyProgress(id, sent0, before, db.log, db.Contents())
      modifies out`stages, out`summary, db
      ensures err == Some(detail) && out.summary == "Audit failed: " + detail
      ensures |db.log| == |old(db.log)| + 1 && |sent0| <= |old(db.log)|
      ensures FailurePersisted(id, sent0, before, db.log, db.Contents(), |old(db.log)| - |sent0|, out.Value(),
                               StageResult(name, StageFailed, detail))
    {
      HasFailedAppend(out.stages, StageResult(name, StageFailed, detail));
      out.stages := out.stages + [StageResult(name, StageFailed, detail)];
      out.summary := "Audit failed: " + detail;
      ghost var e := Effect.Save(id, out.Value(), world.clock(n), world.saveOk, world.diff);
      ProgressExtends(id, sent0, before, db.log, db.Contents(), e);
      ShapeOfSave(id, sent0, before, db.log, db.Contents(), e, Some(detail));
      var _ := db.Save(id, out.Value(), world.clock(n), world.saveOk, world.diff);
      err := Some(detail);
    }

    /** The persist stage: a failed Save fails the run, a committed one is followed by a last progress update. */
    method RunPersist(id: AuditId, out: AuditOutput, n: nat, ghost sent0: seq<Effect>, ghost before: Tables)
      returns (err: Option<string>, ghost at: nat)
      requires OnlyProgress(id, sent0, before, db.log, db.Contents()) && !HasFailed(out.stages)
      requires |db.log| > |sent0|
      modifies out`stages, db
      ensures sent0 <= db.log
      ensures RunShape(id, before, db.log[|sent0|..], at, err)
      ensures db.Contents() == ApplyAll(before, db.log[|sent0|..])
      ensures db.log[|sent0|..][at].report == old(out.Value())
    {
      hide OnlyProgress, RunShape, HasFailed, Commits, ApplyEffect, ApplyAll;
      ghost var e := Effect.Save(id, out.Value(), world.clock(n), world.saveOk, world.diff);
      ghost var log1, contents1 := db.log, db.Contents();
      ProgressExtends(id, sent0, before, log1, contents1, e);
      var ok := db.Save(id, out.Value(), world.clock(n), world.saveOk, world.diff);
      at := |log1| - |sent0|;
      if !ok {
        err := Some("save failed");
        ShapeOfSave(id, sent0, before, log1, contents1, e, err);
        out.stages := out.stages + [StageResult("persist", StageFailed, "save failed")];
        return;
      }
      err := None;
      ShapeOfSave(id, sent0, before, log1, contents1, e, err);
      out.stages := out.stages + [StageResult("persist", StageOk, "")];
      ghost var f := Flush(id, out.stages, world.clock(n + 1), world.flushOk(n + 1));
      ghost var trace := db.log[|sent0|..];
      ShapeWithLastFlush(id, before, trace, at, f);
      ApplyOneMore(before, trace, f);
      var _ := db.SaveProgress(id, out.stages, world.clock(n + 1), world.flushOk(n + 1));
      assert db.log[|sent0|..] == trace + [f];
    }

    /** Stages 1 to 3, up to the results of the checks; a failure has already been persisted. */
    method Inspect(input: AuditInput, out: AuditOutput, ghost sent0: seq<Effect>, ghost before: Tables)
      returns (err: Option<string>, ghost at: nat)
      requires out.results == [] && out.stages == []
      requires OnlyProgress(input.auditId, sent0, before, db.log, db.Contents())
      modifies out`stages, out`summary, out`results, db
      ensures err.None? <==> Sound(input, world)
      ensures err.None? ==>
                && out.results == world.checkResults && !HasFailed(out.stages)
                && OnlyProgress(input.auditId, sent0, before, db.log, db.Contents()) && |db.log| > |sent0|
      ensures err.Some? ==>
                && EarlyFailure(input, world).Some? && err == Some(EarlyFailure(input, world).value.detail)
                && FailurePersisted(input.auditId, sent0, before, db.log, db.Contents(), at, out.Value(),
                                    EarlyFailure(input, world).value)
      ensures err.None? ==> Named(out.stages, ["validate", "crawl", "gmc_sync", "detect"])
    {
      hide OnlyProgress, HasFailed, FailurePersisted, Sound, Named;
      SoundHasNoFailure(input, world);
      var id := input.auditId;
      NoStages();
      SentSoFar(id, sent0, before, db.log, db.Contents());
      at := |db.log| - |sent0|;
      if input.storeUrl == "" || !input.hasStore || !input.hasTenant {
        err := FailAndPersist(id, out, "validate",
                              if input.storeUrl == "" then "store URL is empty" else "missing IDs", 0, sent0, before);
        return;
      }
      EndStage(id, out, StageResult("validate", StageOk, ""), 0, sent0, before);
      if !world.crawled.CrawlOk? {
        at := |db.log| - |sent0|;
        err := FailAndPersist(id, out, "crawl",
                              if world.crawled.NoCrawler? then "no crawler configured" else world.crawled.message,
                              1, sent0, before);
        return;
      }
      EndStage(id, out, StageResult("crawl", StageOk, ""), 1, sent0, before);
      var sync := match world.synced
        case NoSync => StageResult("gmc_sync", StageSkipped, "no GMC sync configured")
        case SyncFailed(message) => StageResult("gmc_sync", StageOk, "skipped: " + message)
        case NotConnected => StageResult("gmc_sync", StageSkipped, "store not connected to GMC")
        case SyncOk => StageResult("gmc_sync", StageOk, "");
      EndStage(id, out, sync, 2, sent0, before);
      if |world.checkResults| == 0 {
        at := |db.log| - |sent0|;
        err := FailAndPersist(id, out, "detect", "no checks registered", 3, sent0, before);
        return;
      }
      out.results := world.checkResults;
      EndStage(id, out, StageResult("detect", StageOk, ""), 3, sent0, before);
      NamedInspection(out.stages, sync);
      err := None;
    }

    method Score(id: AuditId, out: AuditOutput, ghost sent0: seq<Effect>, ghost before: Tables)
      requires !HasFailed(out.stages) && OnlyProgress(id, sent0, before, db.log, db.Contents())
      modifies out`score, out`counts, out`riskLevel, out`categories, out`stages, db
      ensures !HasFailed(out.stages) && OnlyProgress(id, sent0, before, db.log, db.Contents())
      ensures |db.log| > |old(db.log)|
      ensures out.score == ScoreOf(out.results) && out.riskLevel == RiskLevel(out.score)
      ensures IsCounts(out.results, out.counts) && IsRollUp(out.results, out.categories)
      ensures |out.stages| == |old(out.stages)| + 1 && old(out.stages) <= out.stages
      ensures out.stages[|old(out.stages)|].name == "score"
    {
      hide OnlyProgress, HasFailed, IsCounts, IsRollUp;
      ghost var stages := out.stages;
      RunScore(out);
      HasFailedAppend(stages, out.stages[|stages|]);
      assert out.stages == stages + [out.stages[|stages|]];
      FlushProgress(id, out, 4, sent0, before);
    }

    method EnrichAndSummarize(id: AuditId, out: AuditOutput, context: string, ghost sent0: seq<Effect>,
                              ghost before: Tables)
      returns (aiCalls: nat)
      requires OrDefault(batchSize, DEFAULT_BATCH_SIZE) > 0 && out.suggestions == map[] && out.nextSteps == []
      requires !HasFailed(out.stages) && OnlyProgress(id, sent0, before, db.log, db.Contents())
      modifies out`suggestions, out`summary, out`nextSteps, out`stages, db
      ensures !HasFailed(out.stages) && OnlyProgress(id, sent0, before, db.log, db.Contents())
      ensures |db.log| > |old(db.log)|
      ensures var b, limit := OrDefault(batchSize, DEFAULT_BATCH_SIZE), OrDefault(budget, DEFAULT_BUDGET);
              && out.suggestions == Suggestions(out.results, context, world, limit, b)
              && Summarized(out.Value(), Asked(out.results, context, world, limit, b), world.summaryReply)
              && aiCalls <= CallsLeft(limit, 0)
      ensures exists e: StageResult, s: StageResult ::
                out.stages == old(out.stages) + [e, s] && e.name == "enrich" && s.name == "summarize"
    {
      hide OnlyProgress, HasFailed, Enriched, CallsMade, FallbackSummary, ReplySummary, Steps, SplitLines, Todo;
      var b := OrDefault(batchSize, DEFAULT_BATCH_SIZE);
      var calls := new Budget(OrDefault(budget, DEFAULT_BUDGET));
      ghost var stages := out.stages;
      RunEnrich(out, context, calls, b, world.client);
      HasFailedAppend(stages, out.stages[|stages|]);
      CallsAreBudgeted(|Todo(out.results, context)|, b, CallsLeft(calls.limit, 0));
      FlushProgress(id, out, 5, sent0, before);
      stages := out.stages;
      RunSummarize(out, calls, if world.client.None? then None else Some(world.summaryReply));
      HasFailedAppend(stages, out.stages[|stages|]);
      FlushProgress(id, out, 6, sent0, before);
      aiCalls := calls.used;
    }

    /** All seven stages. The database sees exactly one Save, of the report described by the postcondition. */
    method Run(input: AuditInput) returns (out: AuditOutput, err: Option<string>, aiCalls: nat, ghost at: nat)
      requires OrDefault(batchSize, DEFAULT_BATCH_SIZE) > 0
      modifies db
      ensures fresh(out) && old(db.log) <= db.log
      ensures var trace := db.log[|old(db.log)|..];
              && RunShape(input.auditId, old(db.Contents()), trace, at, err)
              && db.Contents() == ApplyAll(old(db.Contents()), trace)
              && (StatusOf(trace[at].report) == AuditSucceeded <==>
                    && input.storeUrl != "" && input.hasStore && input.hasTenant
                    && world.crawled.CrawlOk? && world.checkResults != [])
              && (if Sound(input, world)
                  then Complete(trace[at].report, input.storeContext, world, if budget == 0 then 50 else budget,
                                if batchSize == 0 then 10 else batchSize)
                  else FailedReport(trace[at].report, EarlyFailure(input, world).value))
      ensures !Sound(input, world) ==> err == Some(EarlyFailure(input, world).value.detail)
      ensures aiCalls <= if budget == 0 then 50 else if budget < 0 then 0 else budget
    {
      hide OnlyProgress, HasFailed, IsCounts, IsRollUp, Suggestions, Asked, ApplyAll, Commits, ScoreOf, RiskLevel;
      hide Named, FailedReport, Summarized, Sound, EarlyFailure;
      ghost var sent0, before := db.log, db.Contents();
      SoundHasNoFailure(input, world);
      var id := input.auditId;
      out := new AuditOutput();
      NothingSent(id, sent0, before);
      err, at := Inspect(input, out, sent0, before);
      if err.Some? {
        return out, err, 0, at;
      }
      ghost var checked := out.stages;
      Score(id, out, sent0, before);
      ghost var scored := out.stages;
      aiCalls := EnrichAndSummarize(id, out, input.storeContext, sent0, before);
      NamedRun(checked, scored, out.stages);
      err, at := RunPersist(id, out, 7, sent0, before);
    }
  }

  lemma NamedInspection(stages: seq<StageResult>, sync: StageResult)
    requires stages == [StageResult("validate", StageOk, ""), StageResult("crawl", StageOk, ""), sync,
                        StageResult("detect", StageOk, "")]
    requires sync.name == "gmc_sync"
    ensures Named(stages, ["validate", "crawl", "gmc_sync", "detect"])
  {}

  lemma NamedRun(checked: seq<StageResult>, scored: seq<StageResult>, all: seq<StageResult>)
    requires Named(checked, ["validate", "crawl", "gmc_sync", "detect"])
    requires |scored| == |checked| + 1 && checked <= scored && scored[|checked|].name == "score"
    requires exists e: StageResult, s: StageResult ::
               all == scored + [e, s] && e.name == "enrich" && s.name == "summarize"
    ensures Named(all, ["validate", "crawl", "gmc_sync", "detect", "score", "enrich", "summarize"])
  {}

  lemma NoStages()
    ensures !HasFailed([])
  {}

  lemma NothingSent(id: AuditId, sent0: seq<Effect>, before: Tables)
    ensures OnlyProgress(id, sent0, before, sent0, before)
  {}

  lemma SentSoFar(id: AuditId, sent0: seq<Effect>, before: Tables, sent: seq<Effect>, now: Tables)
    requires OnlyProgress(id, sent0, before, sent, now)
    ensures |sent0| <= |sent|
  {}
}
