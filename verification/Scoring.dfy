/** Stage 4 of the pipeline: score, risk level, counts and the per-category roll-up. */
module Scoring {
  import opened Audit
  import opened Text
  import opened Sums

  function WeightFor(s: Severity): nat {
    match s case Critical => 10 case Error => 5 case Warning => 2 case _ => 0
  }

  function SeverityRank(s: Severity): nat {
    match s case Critical => 4 case Error => 3 case Warning => 2 case Info => 1 case Other(_) => 0
  }

  function RiskLevel(score: int): string {
    if score >= 80 then "low" else if score >= 50 then "medium" else "high"
  }

  function RiskRank(risk: string): nat {
    if risk == "low" then 0 else if risk == "medium" then 1 else 2
  }

  // ---------------------------------------------------------------- what the stage computes

  ghost function Sum(results: seq<CheckResult>, measure: CheckResult -> nat): nat {
    if results == [] then 0
    else Sum(results[..|results| - 1], measure) + measure(results[|results| - 1])
  }

  /** How many issues a result adds to the count of severity s. */
  function Counted(s: Severity): CheckResult -> nat {
    (r: CheckResult) => match r.status
      case Pass => 0
      case Fail => if r.severity == s then |r.issues| else 0
      case InfoOnly => if s == Info then |r.issues| else 0
  }

  const PENALTY: CheckResult -> nat :=
    (r: CheckResult) => if r.status == Fail then WeightFor(r.severity) * |r.issues| else 0

  function With(category: string, status: Status): CheckResult -> nat {
    (r: CheckResult) => if r.meta.category == category && r.status == status then 1 else 0
  }

  const DECIDED: CheckResult -> nat := (r: CheckResult) => if r.status == InfoOnly then 0 else 1

  predicate Fails(r: CheckResult, category: string) {
    r.meta.category == category && r.status == Fail
  }

  /** The highest-ranked severity among a category's failures; Info when nothing outranks it. */
  ghost predicate IsWorst(results: seq<CheckResult>, category: string, s: Severity) {
    && SeverityRank(s) >= 1
    && (forall r | r in results && Fails(r, category) :: SeverityRank(r.severity) <= SeverityRank(s))
    && (s == Info || exists r :: r in results && Fails(r, category) && r.severity == s)
  }

  ghost predicate IsSummary(results: seq<CheckResult>, c: CategorySummary) {
    && c.pass == Sum(results, With(c.category, Pass))
    && c.fail == Sum(results, With(c.category, Fail))
    && (c.worstStatus == if exists r :: r in results && Fails(r, c.category) then Fail else Pass)
    && IsWorst(results, c.category, c.worstSeverity)
  }

  ghost function Names(categories: seq<CategorySummary>): (names: seq<string>)
    ensures |names| == |categories| && forall i | 0 <= i < |names| :: names[i] == categories[i].category
  {
    seq(|categories|, i requires 0 <= i < |categories| => categories[i].category)
  }

  ghost predicate IsRollUp(results: seq<CheckResult>, categories: seq<CategorySummary>) {
    && Ascending(Names(categories))
    && (forall name :: name in Names(categories) <==> exists r :: r in results && r.meta.category == name)
    && (forall c | c in categories :: IsSummary(results, c))
  }

  ghost predicate IsCounts(results: seq<CheckResult>, counts: map<Severity, int>) {
    && (forall s :: s in counts <==>
          s in {Critical, Error, Warning, Info} || exists r :: r in results && r.status == Fail && r.severity == s)
    && (forall s | s in counts :: counts[s] == Sum(results, Counted(s)))
  }

  ghost function ScoreOf(results: seq<CheckResult>): int {
    var raw := 100 - Sum(results, PENALTY) as int;
    if raw < 0 then 0 else raw
  }

  // ---------------------------------------------------------------- the scoring loop

  function Count(counts: map<Severity, int>, s: Severity): int {
    if s in counts then counts[s] else 0
  }

  function CountIn(counts: map<Severity, int>, r: CheckResult): map<Severity, int> {
    match r.status
    case Pass => counts
    case Fail => counts[r.severity := Count(counts, r.severity) + |r.issues|]
    case InfoOnly => counts[Info := Count(counts, Info) + |r.issues|]
  }

  function Decide(c: CategorySummary, r: CheckResult): CategorySummary {
    match r.status
    case Pass => c.(pass := c.pass + 1)
    case Fail =>
      c.(fail := c.fail + 1, worstStatus := Fail,
         worstSeverity :=
           if SeverityRank(r.severity) > SeverityRank(c.worstSeverity) then r.severity else c.worstSeverity)
    case InfoOnly => c
  }

  lemma SumAppend(results: seq<CheckResult>, r: CheckResult, measure: CheckResult -> nat)
    ensures Sum(results + [r], measure) == Sum(results, measure) + measure(r)
  {
    assert (results + [r])[..|results|] == results;
  }

  lemma CountsStep(results: seq<CheckResult>, counts: map<Severity, int>, r: CheckResult)
    requires IsCounts(results, counts)
    ensures IsCounts(results + [r], CountIn(counts, r))
  {
    hide Sum;
    assert forall x :: x in results + [r] <==> x in results || x == r;
    var more := CountIn(counts, r);
    forall s | s in more ensures more[s] == Sum(results + [r], Counted(s)) {
      SumAppend(results, r, Counted(s));
      if s !in counts {
        NoFailuresNoCount(results, s);
      }
    }
  }

  lemma {:induction false} NoFailuresNoCount(results: seq<CheckResult>, s: Severity)
    requires s != Info && forall r | r in results && r.status == Fail :: r.severity != s
    ensures Sum(results, Counted(s)) == 0
  {
    if results != [] {
      assert results[|results| - 1] in results;
      NoFailuresNoCount(results[..|results| - 1], s);
    }
  }

  lemma {:induction false} NoResultsNoSum(results: seq<CheckResult>, category: string, status: Status)
    requires forall r | r in results :: r.meta.category != category
    ensures Sum(results, With(category, status)) == 0
  {
    if results != [] {
      assert results[|results| - 1] in results;
      NoResultsNoSum(results[..|results| - 1], category, status);
    }
  }

  lemma SummaryStep(results: seq<CheckResult>, c: CategorySummary, r: CheckResult)
    requires IsSummary(results, c)
    ensures IsSummary(results + [r], if r.meta.category == c.category then Decide(c, r) else c)
  {
    hide Sum;
    SumAppend(results, r, With(c.category, Pass));
    SumAppend(results, r, With(c.category, Fail));
    assert r in results + [r];
    assert forall x | x in results + [r] :: x in results || x == r;
    assert forall x | x in results :: x in results + [r];
  }

  ghost predicate IsTable(results: seq<CheckResult>, cats: map<string, CategorySummary>) {
    && (forall name :: name in cats <==> exists r :: r in results && r.meta.category == name)
    && (forall name | name in cats :: cats[name].category == name && IsSummary(results, cats[name]))
  }

  function Blank(category: string): CategorySummary {
    CategorySummary(category, 0, 0, Pass, Info)
  }

  lemma TableStep(results: seq<CheckResult>, cats: map<string, CategorySummary>, r: CheckResult)
    requires IsTable(results, cats)
    ensures var name := r.meta.category;
            var cat := if name in cats then cats[name] else Blank(name);
            IsTable(results + [r], cats[name := Decide(cat, r)])
  {
    hide IsSummary;
    var name := r.meta.category;
    if name !in cats {
      BlankSummary(results, name);
    }
    SummaryStep(results, if name in cats then cats[name] else Blank(name), r);
    forall other | other in cats && other != name ensures IsSummary(results + [r], cats[other]) {
      SummaryStep(results, cats[other], r);
    }
    assert r in results + [r];
    assert forall x | x in results + [r] :: x in results || x == r;
    assert forall x | x in results :: x in results + [r];
  }

  lemma BlankSummary(results: seq<CheckResult>, name: string)
    requires forall r | r in results :: r.meta.category != name
    ensures IsSummary(results, Blank(name))
  {
    NoResultsNoSum(results, name, Pass);
    NoResultsNoSum(results, name, Fail);
  }

  method RunScore(out: AuditOutput)
    modifies out`score, out`counts, out`riskLevel, out`categories, out`stages
    ensures out.score == ScoreOf(out.results) && out.riskLevel == RiskLevel(out.score)
    ensures IsCounts(out.results, out.counts)
    ensures IsRollUp(out.results, out.categories)
    ensures |out.stages| == |old(out.stages)| + 1 && old(out.stages) <= out.stages
    ensures out.stages[|old(out.stages)|].name == "score" && out.stages[|old(out.stages)|].status == StageOk
  {
    hide IsCounts, IsTable, Sum;
    var score := 100;
    var counts: map<Severity, int> := map[Critical := 0, Error := 0, Warning := 0, Info := 0];
    var cats: map<string, CategorySummary> := map[];
    NothingScored(counts);
    assert out.results[..0] == [];
    for i := 0 to |out.results|
      invariant score == 100 - Sum(out.results[..i], PENALTY)
      invariant IsCounts(out.results[..i], counts)
      invariant IsTable(out.results[..i], cats)
      invariant out.results == old(out.results) && out.stages == old(out.stages)
    {
      var r := out.results[i];
      assert out.results[..i + 1] == out.results[..i] + [r];
      SumAppend(out.results[..i], r, PENALTY);
      CountsStep(out.results[..i], counts, r);
      TableStep(out.results[..i], cats, r);
      var cat := if r.meta.category in cats then cats[r.meta.category] else Blank(r.meta.category);
      ghost var before := cat;
      match r.status {
        case Pass =>
          cat := cat.(pass := cat.pass + 1);
        case Fail =>
          cat := cat.(fail := cat.fail + 1, worstStatus := Fail);
          if SeverityRank(r.severity) > SeverityRank(cat.worstSeverity) {
            cat := cat.(worstSeverity := r.severity);
          }
          score := score - WeightFor(r.severity) * |r.issues|;
          counts := counts[r.severity := Count(counts, r.severity) + |r.issues|];
        case InfoOnly =>
          counts := counts[Info := Count(counts, Info) + |r.issues|];
      }
      assert cat == Decide(before, r);
      cats := cats[r.meta.category := cat];
    }
    assert out.results[..|out.results|] == out.results;
    if score < 0 {
      score := 0;
    }
    out.score := score;
    out.counts := counts;
    out.riskLevel := RiskLevel(score);
    var names := SortedKeys(cats.Keys);
    out.categories :=
      seq(|names|, i requires 0 <= i < |names| => if names[i] in cats then cats[names[i]] else Blank(names[i]));
    TableIsRollUp(out.results, cats, names, out.categories);
    out.stages := out.stages + [StageResult("score", StageOk, "")];
  }

  lemma NothingScored(counts: map<Severity, int>)
    requires counts == map[Critical := 0, Error := 0, Warning := 0, Info := 0]
    ensures IsCounts([], counts) && IsTable([], map[]) && Sum([], PENALTY) == 0
  {}

  lemma TableIsRollUp(results: seq<CheckResult>, cats: map<string, CategorySummary>, names: seq<string>,
                      categories: seq<CategorySummary>)
    requires IsTable(results, cats) && Ascending(names) && forall s :: s in names <==> s in cats
    requires |categories| == |names| && forall i | 0 <= i < |names| ::
             names[i] in cats && categories[i] == cats[names[i]]
    ensures IsRollUp(results, categories)
  {
    hide IsSummary;
    assert Names(categories) == names;
  }

  // ---------------------------------------------------------------- what the score means

  /** The score is 100 less the weighted counts the same stage reports, floored at zero. */
  lemma ScoreFromCounts(results: seq<CheckResult>, counts: map<Severity, int>)
    requires IsCounts(results, counts)
    ensures var raw := 100 - 10 * counts[Critical] - 5 * counts[Error] - 2 * counts[Warning];
            ScoreOf(results) == if raw < 0 then 0 else raw
  {
    PenaltyFromCounts(results);
  }

  /** The risk, from those counts: low up to 20 points lost, medium up to 50, high beyond. */
  lemma RiskFromCounts(results: seq<CheckResult>, counts: map<Severity, int>)
    requires IsCounts(results, counts)
    ensures var lost := 10 * counts[Critical] + 5 * counts[Error] + 2 * counts[Warning];
            RiskLevel(ScoreOf(results)) == if lost <= 20 then "low" else if lost <= 50 then "medium" else "high"
  {
    ScoreFromCounts(results, counts);
  }

  /** A category's worst severity is critical if a failing check of it is, else error, else warning, else info. */
  lemma WorstSeverityIs(results: seq<CheckResult>, c: CategorySummary)
    requires IsSummary(results, c)
    ensures var failed := set r | r in results && r.meta.category == c.category && r.status == Fail :: r.severity;
            c.worstSeverity == if Critical in failed then Critical else if Error in failed then Error
                               else if Warning in failed then Warning else Info
  {
    var failed := set r | r in results && r.meta.category == c.category && r.status == Fail :: r.severity;
    forall s | s in failed ensures SeverityRank(s) <= SeverityRank(c.worstSeverity) {
      var r :| r in results && Fails(r, c.category) && r.severity == s;
    }
  }

  /** What the results add to the counts of a finite set of severities. */
  ghost function TotalCounted(severities: set<Severity>, results: seq<CheckResult>): nat {
    SumOver(map s | s in severities :: Sum(results, Counted(s)), (n: nat) => n)
  }

  lemma TotalStep(severities: set<Severity>, results: seq<CheckResult>, r: CheckResult)
    requires Info in severities && (r.status == Fail ==> r.severity in severities)
    ensures TotalCounted(severities, results + [r]) ==
            TotalCounted(severities, results) + if r.status == Pass then 0 else |r.issues|
  {
    hide Sum;
    var was := map s | s in severities :: Sum(results, Counted(s));
    var now := map s | s in severities :: Sum(results + [r], Counted(s));
    forall s | s in severities ensures now[s] == was[s] + Counted(s)(r) {
      SumAppend(results, r, Counted(s));
    }
    var s := if r.status == Fail then r.severity else Info;
    assert now == was[s := now[s]];
    SumUpdate(was, (n: nat) => n, s, now[s]);
  }

  lemma {:induction false} NothingCounted(severities: set<Severity>)
    ensures TotalCounted(severities, []) == 0
    decreases |severities|
  {
    var m := map s | s in severities :: Sum([], Counted(s));
    if severities != {} {
      var s :| s in severities;
      NothingCounted(severities - {s});
      SumWithout(m, (n: nat) => n, s);
      assert m - {s} == map x | x in severities - {s} :: Sum([], Counted(x));
    }
  }

  lemma {:induction false} TotalIsIssues(severities: set<Severity>, results: seq<CheckResult>)
    requires Info in severities && forall r | r in results && r.status == Fail :: r.severity in severities
    ensures TotalCounted(severities, results) == IssuesIn(results)
  {
    if results == [] {
      NothingCounted(severities);
    } else {
      var init, last := results[..|results| - 1], results[|results| - 1];
      assert results == init + [last];
      TotalIsIssues(severities, init);
      TotalStep(severities, init, last);
    }
  }

  /** The counts add up to the number of issues the failing and informational results have. */
  lemma CountsAddUp(results: seq<CheckResult>, counts: map<Severity, int>)
    requires IsCounts(results, counts)
    ensures forall s | s in counts :: 0 <= counts[s]
    ensures SumOver(counts, (n: int) => if n < 0 then 0 else n) == IssuesIn(results)
  {
    TotalIsIssues(counts.Keys, results);
    SameSum(counts, map s | s in counts.Keys :: Sum(results, Counted(s)));
  }

  lemma {:induction false} SameSum(a: map<Severity, int>, b: map<Severity, nat>)
    requires a.Keys == b.Keys && forall s | s in a :: a[s] == b[s]
    ensures SumOver(a, (n: int) => if n < 0 then 0 else n) == SumOver(b, (n: nat) => n)
    decreases |a|
  {
    if a != map[] {
      var s :| s in a;
      SumWithout(a, (n: int) => if n < 0 then 0 else n, s);
      SumWithout(b, (n: nat) => n, s);
      SameSum(a - {s}, b - {s});
    }
  }

  lemma {:induction false} PenaltyFromCounts(results: seq<CheckResult>)
    ensures Sum(results, PENALTY) ==
            10 * Sum(results, Counted(Critical)) + 5 * Sum(results, Counted(Error)) + 2 * Sum(results, Counted(Warning))
  {
    if results != [] {
      PenaltyFromCounts(results[..|results| - 1]);
    }
  }

  lemma {:induction false} SumWithoutOne(results: seq<CheckResult>, k: nat, measure: CheckResult -> nat)
    requires k < |results|
    ensures Sum(results, measure) == Sum(results[..k] + results[k + 1..], measure) + measure(results[k])
  {
    if k == |results| - 1 {
      assert results[..k] + results[k + 1..] == results[..k];
    } else {
      var init, last := results[..|results| - 1], results[|results| - 1];
      SumWithoutOne(init, k, measure);
      assert results[..k] + results[k + 1..] == (init[..k] + init[k + 1..]) + [last];
      SumAppend(init[..k] + init[k + 1..], last, measure);
    }
  }

  /** Taking the last element out of one permutation and the same element out of the other leaves permutations. */
  lemma PermutedRest(a: seq<CheckResult>, b: seq<CheckResult>) returns (k: nat)
    requires multiset(a) == multiset(b) && a != []
    ensures k < |b| && b[k] == a[|a| - 1] && multiset(a[..|a| - 1]) == multiset(b[..k] + b[k + 1..])
  {
    var last := a[|a| - 1];
    assert a == a[..|a| - 1] + [last];
    assert last in multiset(b);
    k :| 0 <= k < |b| && b[k] == last;
    assert b == b[..k] + [last] + b[k + 1..];
    assert multiset(a[..|a| - 1]) == multiset(a) - multiset{last};
    assert multiset(b[..k] + b[k + 1..]) == multiset(b) - multiset{last};
  }

  lemma {:induction false} SumPermutes(a: seq<CheckResult>, b: seq<CheckResult>, measure: CheckResult -> nat)
    requires multiset(a) == multiset(b)
    ensures Sum(a, measure) == Sum(b, measure)
  {
    if a == [] {
      assert |multiset(b)| == 0;
    } else {
      var k := PermutedRest(a, b);
      SumWithoutOne(b, k, measure);
      SumPermutes(a[..|a| - 1], b[..k] + b[k + 1..], measure);
    }
  }

  /**
   The order the checks ran in is irrelevant: permuted results give the same
   score, the same counts and the very same list of category summaries.
   */
  lemma ScoringIgnoresOrder(a: seq<CheckResult>, b: seq<CheckResult>,
                            countsA: map<Severity, int>, countsB: map<Severity, int>,
                            catsA: seq<CategorySummary>, catsB: seq<CategorySummary>)
    requires multiset(a) == multiset(b)
    requires IsCounts(a, countsA) && IsRollUp(a, catsA)
    requires IsCounts(b, countsB) && IsRollUp(b, catsB)
    ensures ScoreOf(a) == ScoreOf(b) && countsA == countsB && catsA == catsB
  {
    hide Sum, IsSummary;
    SumPermutes(a, b, PENALTY);
    assert forall r :: r in a <==> r in multiset(a);
    assert forall r :: r in b <==> r in multiset(b);
    forall s | s in countsA ensures countsA[s] == countsB[s] {
      SumPermutes(a, b, Counted(s));
    }
    AscendingUnique(Names(catsA), Names(catsB));
    forall i | 0 <= i < |catsA| ensures catsA[i] == catsB[i] {
      assert catsA[i] in catsA && catsB[i] in catsB;
      assert Names(catsA)[i] == Names(catsB)[i];
      SummaryIsUnique(a, b, catsA[i], catsB[i]);
    }
  }

  lemma SummaryIsUnique(a: seq<CheckResult>, b: seq<CheckResult>, c: CategorySummary, d: CategorySummary)
    requires multiset(a) == multiset(b) && (forall r :: r in a <==> r in b)
    requires IsSummary(a, c) && IsSummary(b, d) && c.category == d.category
    ensures c == d
  {
    hide Sum;
    SumPermutes(a, b, With(c.category, Pass));
    SumPermutes(a, b, With(c.category, Fail));
    assert SeverityRank(c.worstSeverity) == SeverityRank(d.worstSeverity);
  }

  /** `b` has the results of `a`, none with fewer issues, and possibly further results. */
  ghost predicate MoreIssues(a: seq<CheckResult>, b: seq<CheckResult>) {
    && |a| <= |b|
    && forall i | 0 <= i < |a| ::
       a[i].status == b[i].status && a[i].severity == b[i].severity && |a[i].issues| <= |b[i].issues|
  }

  lemma {:induction false} PenaltyGrows(a: seq<CheckResult>, b: seq<CheckResult>)
    requires MoreIssues(a, b)
    ensures Sum(a, PENALTY) <= Sum(b, PENALTY)
    decreases |b|
  {
    if b != [] {
      if |a| == |b| {
        PenaltyGrows(a[..|a| - 1], b[..|b| - 1]);
        MulGrows(WeightFor(a[|a| - 1].severity), |a[|a| - 1].issues|, |b[|b| - 1].issues|);
      } else {
        PenaltyGrows(a, b[..|b| - 1]);
      }
    }
  }

  lemma MulGrows(w: nat, m: nat, n: nat)
    requires m <= n
    ensures w * m <= w * n
  {}

  /** Finding more issues, in whatever order the checks report, never raises the score or improves the risk. */
  lemma MoreIssuesNeverHelp(a: seq<CheckResult>, b: seq<CheckResult>, shuffled: seq<CheckResult>)
    requires MoreIssues(a, b) && multiset(shuffled) == multiset(b)
    ensures ScoreOf(shuffled) <= ScoreOf(a)
    ensures RiskRank(RiskLevel(ScoreOf(a))) <= RiskRank(RiskLevel(ScoreOf(shuffled)))
  {
    PenaltyGrows(a, b);
    SumPermutes(shuffled, b, PENALTY);
  }

  function TotalDecided(categories: seq<CategorySummary>): nat {
    if categories == [] then 0
    else
      TotalDecided(categories[..|categories| - 1]) + categories[|categories| - 1].pass +
      categories[|categories| - 1].fail
  }

  /** The results whose category is one of `names`. */
  function DecidedIn(names: seq<string>): CheckResult -> nat {
    (r: CheckResult) => if r.meta.category in names then DECIDED(r) else 0
  }

  lemma {:induction false} DecidedByName(results: seq<CheckResult>, names: seq<string>, name: string)
    requires name !in names
    ensures Sum(results, DecidedIn(names + [name])) ==
            Sum(results, DecidedIn(names)) + Sum(results, With(name, Pass)) + Sum(results, With(name, Fail))
  {
    if results != [] {
      DecidedByName(results[..|results| - 1], names, name);
    }
  }

  lemma {:induction false} TotalsBySummary(results: seq<CheckResult>, categories: seq<CategorySummary>)
    requires Ascending(Names(categories)) && forall c | c in categories :: IsSummary(results, c)
    ensures TotalDecided(categories) == Sum(results, DecidedIn(Names(categories)))
  {
    if categories == [] {
      NoneDecided(results);
    } else {
      var init, last := categories[..|categories| - 1], categories[|categories| - 1];
      assert Names(categories) == Names(init) + [last.category];
      forall i, k | 0 <= i < k < |Names(init)|
        ensures Names(init)[i] != Names(init)[k] && StringLeq(Names(init)[i], Names(init)[k]) {
        assert Names(categories)[i] != Names(categories)[k];
      }
      TotalsBySummary(results, init);
      assert last in categories;
      forall i | 0 <= i < |init| ensures Names(init)[i] != last.category {
        assert Names(categories)[i] != Names(categories)[|init|];
      }
      DecidedByName(results, Names(init), last.category);
    }
  }

  lemma {:induction false} NoneDecided(results: seq<CheckResult>)
    ensures Sum(results, DecidedIn(Names([]))) == 0
  {
    if results != [] {
      NoneDecided(results[..|results| - 1]);
    }
  }

  lemma {:induction false} SumAgrees(results: seq<CheckResult>, f: CheckResult -> nat, g: CheckResult -> nat)
    requires forall r | r in results :: f(r) == g(r)
    ensures Sum(results, f) == Sum(results, g)
  {
    if results != [] {
      assert results[|results| - 1] in results;
      SumAgrees(results[..|results| - 1], f, g);
    }
  }

  /** Every pass and every fail is in exactly one category's totals. */
  lemma CategoriesCoverResults(results: seq<CheckResult>, categories: seq<CategorySummary>)
    requires IsRollUp(results, categories)
    ensures TotalDecided(categories) == Sum(results, DECIDED)
  {
    TotalsBySummary(results, categories);
    forall r | r in results ensures DecidedIn(Names(categories))(r) == DECIDED(r) {
      assert r.meta.category in Names(categories);
    }
    SumAgrees(results, DecidedIn(Names(categories)), DECIDED);
  }
}
