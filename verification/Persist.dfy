/**
 The audits and issues tables, and the two transactions the pipeline runs on
 them: `Save` replaces an audit's result, `SaveProgress` only records stages.
 */
module Persist {
  import opened Base
  import opened Text
  import opened Audit
  import opened Enrich

  type AuditId = nat

  datatype AuditStatus = AuditQueued | AuditRunning | AuditSucceeded | AuditFailed | AuditCanceled

  datatype AuditRow = AuditRow(
    status: AuditStatus,
    startedAt: Option<Time>,
    finishedAt: Option<Time>,
    productCount: nat,
    progress: seq<StageResult>,
    score: int,
    riskLevel: string,
    counts: map<Severity, int>,
    summary: string,
    nextSteps: seq<string>,
    errorMessage: Option<string>)

  const QUEUED_ROW := AuditRow(AuditQueued, None, None, 0, [], 0, "", map[], "", [], None)

  datatype IssueRow = IssueRow(
    auditId: AuditId,
    productId: Option<string>,
    productTitle: Option<string>,
    ruleCode: string,
    severity: Severity,
    title: string,
    description: Option<string>,
    fixInstructions: Option<string>,
    payload: Meta, // fix_payload: the check's metadata, and what the registry holds under its id
    source: string,
    externalCode: Option<string>)

  datatype Tables = Tables(audits: map<AuditId, AuditRow>, issues: seq<IssueRow>, diffs: map<AuditId, Diff>)

  /**
   The statements a pipeline run sends; `landed` and `dbOk` are whether the server ran them, `diff`
   what the differ computes.
   */
  datatype Effect =
    | Flush(id: AuditId, stages: seq<StageResult>, at: Time, landed: bool)
    | Save(id: AuditId, report: Report, at: Time, dbOk: bool, diff: Diff)

  // ---------------------------------------------------------------- what the transactions do

  function Coalesce<T>(a: Option<T>, b: T): Option<T> {
    if a.Some? then a else Some(b)
  }

  /** Position of the first failed stage, or their number. */
  function FirstFailed(stages: seq<StageResult>): (i: nat)
    ensures i <= |stages| && (i < |stages| ==> stages[i].status == StageFailed)
    ensures forall k | 0 <= k < i :: stages[k].status != StageFailed
  {
    if stages == [] then 0
    else if stages[0].status == StageFailed then 0
    else 1 + FirstFailed(stages[1..])
  }

  predicate HasFailed(stages: seq<StageResult>) {
    FirstFailed(stages) < |stages|
  }

  function ErrorMessage(stages: seq<StageResult>): string {
    if HasFailed(stages) then stages[FirstFailed(stages)].name + ": " + stages[FirstFailed(stages)].detail else ""
  }

  function SavedRow(row: AuditRow, report: Report, at: Time): AuditRow {
    AuditRow(
      if HasFailed(report.stages) then AuditFailed else AuditSucceeded,
      Coalesce(row.startedAt, at), Some(at), 0, report.stages, report.score, report.riskLevel, report.counts,
      report.summary, report.nextSteps, NullIfEmpty(ErrorMessage(report.stages)))
  }

  function FlushedRow(row: AuditRow, stages: seq<StageResult>, at: Time): AuditRow {
    row.(status := if row.status == AuditQueued then AuditRunning else row.status,
         startedAt := Coalesce(row.startedAt, at), progress := stages)
  }

  predicate Reported(r: CheckResult) {
    r.status == Fail || r.status == InfoOnly
  }

  function IssueRowOf(id: AuditId, r: CheckResult, i: nat, suggestions: map<string, string>): IssueRow
    requires i < |r.issues|
  {
    var issue, key := r.issues[i], Key(r.meta.id, i);
    IssueRow(id, NullIfEmpty(issue.url), NullIfEmpty(issue.productTitle), r.meta.id, r.severity, r.meta.title,
             NullIfEmpty(issue.detail), NullIfEmpty(if key in suggestions then suggestions[key] else ""), r.meta,
             if r.meta.source == "" then "crawler" else r.meta.source, NullIfEmpty(issue.externalCode))
  }

  function RowsOfResult(id: AuditId, r: CheckResult, suggestions: map<string, string>): (rows: seq<IssueRow>)
    ensures |rows| == if Reported(r) then |r.issues| else 0
    ensures forall i | 0 <= i < |rows| :: rows[i] == IssueRowOf(id, r, i, suggestions)
  {
    if Reported(r) then seq(|r.issues|, i requires 0 <= i < |r.issues| => IssueRowOf(id, r, i, suggestions)) else []
  }

  /** One row for every issue of every failing or informational check, in report order. */
  function IssueRows(id: AuditId, results: seq<CheckResult>, suggestions: map<string, string>): seq<IssueRow> {
    if results == [] then []
    else IssueRows(id, results[..|results| - 1], suggestions) + RowsOfResult(id, results[|results| - 1], suggestions)
  }

  function Others(issues: seq<IssueRow>, id: AuditId): seq<IssueRow> {
    if issues == [] then []
    else
      Others(issues[..|issues| - 1], id) +
      (if issues[|issues| - 1].auditId == id then [] else [issues[|issues| - 1]])
  }

  /** Every severity the INSERTs would cast is a member of the issue_severity enum. */
  predicate Storable(results: seq<CheckResult>) {
    forall r | r in results && Reported(r) && r.issues != [] :: !r.severity.Other?
  }

  /** No statement fails: the server runs them, and a row that refers to the audit finds it. */
  predicate Commits(t: Tables, e: Effect)
    requires e.Save?
  {
    && e.dbOk && Storable(e.report.results)
    && (e.id in t.audits ||
          (HasFailed(e.report.stages) && IssueRows(e.id, e.report.results, e.report.suggestions) == []))
  }

  function ApplyEffect(t: Tables, e: Effect): Tables {
    match e
    case Flush(id, stages, at, landed) =>
      if landed && id in t.audits then t.(audits := t.audits[id := FlushedRow(t.audits[id], stages, at)]) else t
    case Save(id, report, at, dbOk, diff) =>
      if !Commits(t, e) then t
      else
        Tables(if id in t.audits then t.audits[id := SavedRow(t.audits[id], report, at)] else t.audits,
               Others(t.issues, id) + IssueRows(id, report.results, report.suggestions),
               if HasFailed(report.stages) then t.diffs else t.diffs[id := diff])
  }

  function ApplyAll(t: Tables, effects: seq<Effect>): Tables {
    if effects == [] then t else ApplyEffect(ApplyAll(t, effects[..|effects| - 1]), effects[|effects| - 1])
  }

  datatype Notification = Notification(id: AuditId, report: Report, diff: Option<Diff>)

  /**
   A Save commits unless the server fails it, a reported issue has a severity the
   enum lacks, or the audit is gone and a row of it would be stored.
   */
  lemma CommitsExactly(t: Tables, e: Effect)
    requires e.Save?
    ensures Commits(t, e) <==>
            && e.dbOk
            && (forall r | r in e.report.results && r.status != Pass && r.issues != [] ::
                  r.severity in {Critical, Error, Warning, Info})
            && (e.id in t.audits ||
                  (IssuesIn(e.report.results) == 0 && exists k: nat :: FailsFirst(e.report.stages, k)))
  {
    RowCount(e.id, e.report.results, e.report.suggestions);
    if HasFailed(e.report.stages) {
      assert FailsFirst(e.report.stages, FirstFailed(e.report.stages));
    }
  }

  // ---------------------------------------------------------------- what an audit's issue rows say

  /** The issue rows of one audit, in the order of their insertion. */
  function RowsFor(issues: seq<IssueRow>, a: AuditId): seq<IssueRow> {
    if issues == [] then []
    else RowsFor(issues[..|issues| - 1], a) + (if issues[|issues| - 1].auditId == a then [issues[|issues| - 1]] else [])
  }

  /** What a last row adds to an audit's rows. */
  function IfOf(r: IssueRow, a: AuditId): seq<IssueRow> {
    if r.auditId == a then [r] else []
  }

  lemma RowsForSnoc(issues: seq<IssueRow>, r: IssueRow, a: AuditId)
    ensures RowsFor(issues + [r], a) == RowsFor(issues, a) + IfOf(r, a)
  {
    assert (issues + [r])[..|issues|] == issues;
  }

  lemma OthersSnoc(issues: seq<IssueRow>, r: IssueRow, b: AuditId)
    ensures Others(issues + [r], b) == if r.auditId == b then Others(issues, b) else Others(issues, b) + [r]
  {
    assert (issues + [r])[..|issues|] == issues;
  }

  lemma {:induction false} RowsForConcat(x: seq<IssueRow>, y: seq<IssueRow>, a: AuditId)
    ensures RowsFor(x + y, a) == RowsFor(x, a) + RowsFor(y, a)
  {
    hide RowsFor, IfOf;
    if y == [] {
      assert x + y == x;
      NoRows(a, a);
    } else {
      var init, last := y[..|y| - 1], y[|y| - 1];
      RowsForConcat(x, init, a);
      assert y == init + [last] && x + y == (x + init) + [last];
      RowsForSnoc(init, last, a);
      RowsForSnoc(x + init, last, a);
    }
  }

  lemma {:induction false} RowsForOthers(issues: seq<IssueRow>, b: AuditId, a: AuditId)
    ensures RowsFor(Others(issues, b), a) == if a == b then [] else RowsFor(issues, a)
  {
    hide RowsFor, Others;
    if issues == [] {
      NoRows(a, b);
    } else {
      var init, last := issues[..|issues| - 1], issues[|issues| - 1];
      RowsForOthers(init, b, a);
      assert issues == init + [last];
      OthersSnoc(init, last, b);
      RowsForSnoc(init, last, a);
      RowsForSnoc(Others(init, b), last, a);
    }
  }

  lemma NoRows(a: AuditId, b: AuditId)
    ensures RowsFor([], a) == [] && Others([], b) == []
  {}

  lemma {:induction false} RowsForOwn(rows: seq<IssueRow>, b: AuditId, a: AuditId)
    requires forall r | r in rows :: r.auditId == b
    ensures RowsFor(rows, a) == if a == b then rows else []
  {
    hide RowsFor;
    if rows == [] {
      NoRows(a, b);
    } else {
      var init, last := rows[..|rows| - 1], rows[|rows| - 1];
      assert last in rows && rows == init + [last];
      RowsForOwn(init, b, a);
      RowsForSnoc(init, last, a);
    }
  }

  lemma {:induction false} IssueRowsOwn(id: AuditId, results: seq<CheckResult>, suggestions: map<string, string>)
    ensures forall r | r in IssueRows(id, results, suggestions) :: r.auditId == id
  {
    if results != [] {
      IssueRowsOwn(id, results[..|results| - 1], suggestions);
    }
  }

  /** What one statement does to the issue rows of any audit. */
  lemma EffectOnRows(t: Tables, e: Effect, a: AuditId)
    ensures RowsFor(ApplyEffect(t, e).issues, a) ==
            if e.Save? && Commits(t, e) && e.id == a then IssueRows(a, e.report.results, e.report.suggestions)
            else RowsFor(t.issues, a)
  {
    hide RowsFor, IssueRows, Others, Storable, SavedRow, FlushedRow;
    if e.Save? && Commits(t, e) {
      var rows := IssueRows(e.id, e.report.results, e.report.suggestions);
      RowsForConcat(Others(t.issues, e.id), rows, a);
      RowsForOthers(t.issues, e.id, a);
      IssueRowsOwn(e.id, e.report.results, e.report.suggestions);
      RowsForOwn(rows, e.id, a);
    }
  }

  /** The column holds the text, or NULL if there is none. */
  predicate Holds(column: Option<string>, text: string) {
    if text == "" then column.None? else column == Some(text)
  }

  /** The row tells of the i-th issue of result r. */
  predicate Tells(row: IssueRow, r: CheckResult, i: nat)
    requires i < |r.issues|
  {
    && row.ruleCode == r.meta.id && row.title == r.meta.title && row.severity == r.severity && row.payload == r.meta
    && row.source == (if r.meta.source == "" then "crawler" else r.meta.source)
    && Holds(row.productId, r.issues[i].url) && Holds(row.productTitle, r.issues[i].productTitle)
    && Holds(row.description, r.issues[i].detail) && Holds(row.externalCode, r.issues[i].externalCode)
  }

  lemma {:induction false} RowPlace(id: AuditId, results: seq<CheckResult>, suggestions: map<string, string>, c: nat,
                                    i: nat)
    requires c < |results| && results[c].status != Pass && i < |results[c].issues|
    ensures |IssueRows(id, results, suggestions)| == IssuesIn(results)
    ensures IssuesIn(results[..c]) + i < IssuesIn(results)
    ensures IssueRows(id, results, suggestions)[IssuesIn(results[..c]) + i] ==
            IssueRowOf(id, results[c], i, suggestions)
  {
    hide IssueRowOf, IssuesIn, RowsOfResult;
    var n := |results| - 1;
    IssuesStep(results);
    RowCount(id, results[..n], suggestions);
    if c < n {
      assert results[..n][..c] == results[..c];
      RowPlace(id, results[..n], suggestions, c, i);
    }
  }

  lemma IssuesStep(results: seq<CheckResult>)
    requires results != []
    ensures var last := results[|results| - 1];
            IssuesIn(results) == IssuesIn(results[..|results| - 1]) + if last.status == Pass then 0 else |last.issues|
  {}

  lemma {:induction false} RowCount(id: AuditId, results: seq<CheckResult>, suggestions: map<string, string>)
    ensures |IssueRows(id, results, suggestions)| == IssuesIn(results)
  {
    hide IssueRowOf;
    if results != [] {
      RowCount(id, results[..|results| - 1], suggestions);
    }
  }

  /**
   One row for each issue of each failing or informational result, in report order.
   The row of a result's i-th issue tells of that issue, and carries the suggestion
   stored under the result's id, '#' and i.
   */
  lemma RowsTell(id: AuditId, results: seq<CheckResult>, suggestions: map<string, string>, c: nat, i: nat)
    requires c < |results| && results[c].status != Pass && i < |results[c].issues|
    ensures var rows, at := IssueRows(id, results, suggestions), IssuesIn(results[..c]) + i;
            var key := results[c].meta.id + "#" + Decimal(i);
            && |rows| == IssuesIn(results) && at < |rows| && Tells(rows[at], results[c], i)
            && Holds(rows[at].fixInstructions, if key in suggestions then suggestions[key] else "")
  {
    RowPlace(id, results, suggestions, c, i);
  }

  /** After a committed Save these are the audit's rows. */
  lemma SavedIssues(t: Tables, e: Effect, c: nat, i: nat)
    requires e.Save? && Commits(t, e)
    requires c < |e.report.results| && e.report.results[c].status != Pass && i < |e.report.results[c].issues|
    ensures var r := e.report.results[c];
            var rows, at := RowsFor(ApplyEffect(t, e).issues, e.id), IssuesIn(e.report.results[..c]) + i;
            var key := r.meta.id + "#" + Decimal(i);
            && |rows| == IssuesIn(e.report.results) && at < |rows| && Tells(rows[at], r, i)
            && Holds(rows[at].fixInstructions, if key in e.report.suggestions then e.report.suggestions[key] else "")
  {
    hide ApplyEffect, RowsFor, IssueRows, Commits, Tells, Holds;
    EffectOnRows(t, e, e.id);
    RowsTell(e.id, e.report.results, e.report.suggestions, c, i);
  }

  /** The k-th stage is the first that failed. */
  predicate FailsFirst(stages: seq<StageResult>, k: nat) {
    k < |stages| && stages[k].status == StageFailed && forall j | 0 <= j < k :: stages[j].status != StageFailed
  }

  /** The audit's row shows this report, saved at `at`. */
  ghost predicate ReportsOn(row: AuditRow, report: Report, at: Time) {
    && row.startedAt.Some? && row.finishedAt == Some(at) && row.productCount == 0
    && row.score == report.score && row.riskLevel == report.riskLevel && row.counts == report.counts
    && row.summary == report.summary && row.nextSteps == report.nextSteps
    && row.status in {AuditSucceeded, AuditFailed}
    && (row.status == AuditSucceeded ==>
          row.errorMessage.None? && forall k | 0 <= k < |report.stages| :: report.stages[k].status != StageFailed)
    && (row.status == AuditFailed ==>
          exists k: nat :: FailsFirst(report.stages, k)
                           && row.errorMessage == Some(report.stages[k].name + ": " + report.stages[k].detail))
  }

  lemma SavedRowReports(row: AuditRow, report: Report, at: Time)
    ensures ReportsOn(SavedRow(row, report, at), report, at)
  {
    if HasFailed(report.stages) {
      assert FailsFirst(report.stages, FirstFailed(report.stages));
    }
  }

  lemma FlushedRowReports(row: AuditRow, stages: seq<StageResult>, now: Time, report: Report, at: Time)
    requires ReportsOn(row, report, at)
    ensures ReportsOn(FlushedRow(row, stages, now), report, at)
  {}

  // ---------------------------------------------------------------- the persister

  method ClearIssues(issues: seq<IssueRow>, id: AuditId) returns (kept: seq<IssueRow>)
    ensures kept == Others(issues, id)
  {
    kept := [];
    assert issues[..0] == [];
    for i := 0 to |issues|
      invariant kept == Others(issues[..i], id)
    {
      assert issues[..i + 1][..i] == issues[..i];
      if issues[i].auditId != id {
        kept := kept + [issues[i]];
      }
    }
    assert issues[..|issues|] == issues;
  }

  method InsertResult(id: AuditId, r: CheckResult, suggestions: map<string, string>) returns (rows: seq<IssueRow>)
    requires Reported(r)
    ensures rows == RowsOfResult(id, r, suggestions)
  {
    hide IssueRowOf;
    rows := [];
    for i := 0 to |r.issues|
      invariant |rows| == i && forall k | 0 <= k < i :: rows[k] == IssueRowOf(id, r, k, suggestions)
    {
      rows := rows + [IssueRowOf(id, r, i, suggestions)];
    }
  }

  lemma IssueRowsStep(id: AuditId, results: seq<CheckResult>, suggestions: map<string, string>, c: nat)
    requires c < |results|
    ensures IssueRows(id, results[..c + 1], suggestions) ==
            IssueRows(id, results[..c], suggestions) + RowsOfResult(id, results[c], suggestions)
    ensures Storable(results[..c + 1]) <==>
            Storable(results[..c]) && (Reported(results[c]) && results[c].issues != [] ==> !results[c].severity.Other?)
  {
    hide RowsOfResult;
    assert results[..c + 1][..c] == results[..c];
    assert forall x | x in results[..c + 1] :: x in results[..c] || x == results[c];
    assert forall x | x in results[..c] :: x in results[..c + 1];
    assert results[..c + 1][c] in results[..c + 1];
  }

  lemma StorablePrefix(results: seq<CheckResult>, c: nat)
    requires c <= |results| && Storable(results)
    ensures Storable(results[..c])
  {}

  /** The INSERT loop; a severity the enum does not have aborts the transaction. */
  method InsertIssues(id: AuditId, report: Report) returns (rows: seq<IssueRow>, ok: bool)
    ensures ok <==> Storable(report.results)
    ensures ok ==> rows == IssueRows(id, report.results, report.suggestions)
  {
    hide RowsOfResult, IssueRows, Storable;
    rows, ok := [], true;
    var results := report.results;
    NothingStored(id, report.suggestions);
    assert results[..0] == [];
    for c := 0 to |results|
      invariant rows == IssueRows(id, results[..c], report.suggestions)
      invariant Storable(results[..c])
    {
      var r := results[c];
      IssueRowsStep(id, results, report.suggestions, c);
      if r.status != Fail && r.status != InfoOnly {
        continue;
      }
      if r.severity.Other? && r.issues != [] {
        if Storable(results) {
          StorablePrefix(results, c + 1);
        }
        return [], false;
      }
      var mine := InsertResult(id, r, report.suggestions);
      rows := rows + mine;
    }
    assert results[..|results|] == results;
  }

  lemma NothingStored(id: AuditId, suggestions: map<string, string>)
    ensures IssueRows(id, [], suggestions) == [] && Storable([])
  {}

  class PgPersister {
    var audits: map<AuditId, AuditRow>
    var issues: seq<IssueRow>
    var diffs: map<AuditId, Diff>
    var notified: seq<Notification> // the calls of the AfterCommit hook
    ghost var log: seq<Effect> // every statement sent, in order

    function Contents(): Tables
      reads this
    {
      Tables(audits, issues, diffs)
    }

    constructor (t: Tables)
      ensures Contents() == t && log == [] && notified == []
    {
      audits, issues, diffs, notified, log := t.audits, t.issues, t.diffs, [], [];
    }

    /** An UPDATE of one row; an error is returned, and changes nothing. */
    method SaveProgress(id: AuditId, stages: seq<StageResult>, at: Time, landed: bool) returns (ok: bool)
      modifies this
      ensures log == old(log) + [Flush(id, stages, at, landed)] && notified == old(notified) && ok == landed
      ensures Contents() == ApplyEffect(old(Contents()), Flush(id, stages, at, landed))
    {
      log := log + [Flush(id, stages, at, landed)];
      if landed && id in audits {
        audits := audits[id := FlushedRow(audits[id], stages, at)];
      }
      ok := landed;
    }

    /** One transaction: all of it and a call of the hook, or an error and nothing. */
    method Save(id: AuditId, report: Report, at: Time, dbOk: bool, diff: Diff) returns (ok: bool)
      modifies this
      ensures var e := Effect.Save(id, report, at, dbOk, diff);
              && log == old(log) + [e]
              && Contents() == ApplyEffect(old(Contents()), e)
              && (ok <==> Commits(old(Contents()), e))
      ensures notified == old(notified) +
                if ok then [Notification(id, report, if HasFailed(report.stages) then None else Some(diff))] else []
    {
      log := log + [Effect.Save(id, report, at, dbOk, diff)];
      if !dbOk {
        return false;
      }
      var status := if HasFailed(report.stages) then AuditFailed else AuditSucceeded;
      var kept := ClearIssues(issues, id);
      var rows, storable := InsertIssues(id, report);
      if !storable || (id !in audits && (rows != [] || status == AuditSucceeded)) {
        return false;
      }
      if id in audits {
        var row := audits[id];
        audits := audits[id := AuditRow(status, Coalesce(row.startedAt, at), Some(at), 0, report.stages, report.score,
                                        report.riskLevel, report.counts, report.summary, report.nextSteps,
                                        NullIfEmpty(ErrorMessage(report.stages)))];
      }
      issues := kept + rows;
      var handed: Option<Diff> := None;
      if status == AuditSucceeded {
        diffs := diffs[id := diff];
        handed := Some(diff);
      }
      notified := notified + [Notification(id, report, handed)]; // for failed audits too
      return true;
    }
  }
}
