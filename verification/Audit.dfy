/** Check results, and the output record the pipeline's stages fill in place. */
module Audit {
  import opened Base

  // `Other`: any string outside the four the checks use.
  datatype Severity = Critical | Error | Warning | Info | Other(name: string)

  function SeverityName(s: Severity): string {
    match s
    case Critical => "critical"
    case Error => "error"
    case Warning => "warning"
    case Info => "info"
    case Other(name) => name
  }

  datatype Status = Pass | Fail | InfoOnly

  datatype Meta = Meta(id: string, title: string, category: string, aiFixEligible: bool, source: string)

  datatype Issue = Issue(url: string, productTitle: string, detail: string, evidence: string, externalCode: string)

  datatype CheckResult = CheckResult(meta: Meta, status: Status, severity: Severity, issues: seq<Issue>)

  datatype CategorySummary = CategorySummary(
    category: string,
    pass: nat,
    fail: nat,
    worstStatus: Status,
    worstSeverity: Severity)

  /** How many issues the failing and informational results have. */
  function IssuesIn(results: seq<CheckResult>): nat {
    if results == [] then 0
    else IssuesIn(results[..|results| - 1]) + if results[|results| - 1].status == Pass then 0
      else |results[|results| - 1].issues|
  }

  /** What an audit changed since the store's previous one; it is computed outside this model. */
  datatype Diff = Diff(
    prevScore: Option<int>,
    scoreDelta: int,
    newCount: nat,
    resolvedCount: nat,
    unchangedCount: nat,
    newCriticalCount: nat)

  datatype StageStatus = StageOk | StageSkipped | StageFailed

  datatype StageResult = StageResult(name: string, status: StageStatus, detail: string)

  /** The values an AuditOutput holds at one moment. */
  datatype Report = Report(
    results: seq<CheckResult>,
    score: int,
    riskLevel: string,
    counts: map<Severity, int>,
    categories: seq<CategorySummary>,
    suggestions: map<string, string>,
    summary: string,
    nextSteps: seq<string>,
    stages: seq<StageResult>)

  class AuditOutput {
    var results: seq<CheckResult>
    var score: int
    var riskLevel: string
    var counts: map<Severity, int>
    var categories: seq<CategorySummary>
    var suggestions: map<string, string>
    var summary: string
    var nextSteps: seq<string>
    var stages: seq<StageResult>

    function Value(): Report
      reads this
    {
      Report(results, score, riskLevel, counts, categories, suggestions, summary, nextSteps, stages)
    }

    constructor ()
      ensures results == [] && score == 0 && riskLevel == "" && counts == map[] && categories == []
      ensures suggestions == map[] && summary == "" && nextSteps == [] && stages == []
    {
      results, score, riskLevel, counts, categories := [], 0, "", map[], [];
      suggestions, summary, nextSteps, stages := map[], "", [], [];
    }
  }
}
