/** The checks that report what Google says of an account and its products, and how they divide it among them. */
module GmcChecks {
  import opened Base
  import opened Text
  import opened Audit
  import opened Gmc

  const GMC := "gmc"
  const SOURCE := "gmc_api"
  const PRICE_CODE := "landing_page_price_mismatch"
  const AVAILABILITY_CODE := "landing_page_availability_mismatch"

  const META_SUSPENDED := Meta("gmc_account_suspended", "Merchant Center account is not suspended", GMC, false, SOURCE)
  const META_WARNING := Meta("gmc_account_warning", "Merchant Center account has no warnings", GMC, false, SOURCE)
  const META_SPECIFIC := Meta("gmc_specific_item_issue", "Item-level issues reported by Google", GMC, false, SOURCE)
  const META_PRICE :=
    Meta("gmc_landing_page_price_mismatch", "Landing-page prices match feed prices", GMC, false, SOURCE)
  const META_AVAILABILITY :=
    Meta("gmc_landing_page_availability_mismatch", "Landing-page availability matches feed availability",
         GMC, false, SOURCE)
  const META_IMAGE :=
    Meta("gmc_image_policy_violation", "Product images comply with Google's image policy", GMC, false, SOURCE)

  function Finished(meta: Meta, severity: Severity, issues: seq<Issue>): CheckResult {
    CheckResult(meta, if issues == [] then Pass else Fail, severity, issues)
  }

  lemma FinishedExactly(meta: Meta, severity: Severity, issues: seq<Issue>)
    ensures var r := Finished(meta, severity, issues);
            && r.meta == meta && r.severity == severity && r.issues == issues
            && r.status != InfoOnly && (r.status == Pass <==> issues == [])
  {}

  // ---------------------------------------------------------------- account issues

  function AccountIssuesOf(gmc: Option<Snapshot>): seq<AccountIssue> {
    if gmc.Some? && gmc.value.account.Some? then gmc.value.account.value.issues else []
  }

  function ToIssue(a: AccountIssue): Issue {
    Issue("", "", a.title, a.detail, a.id)
  }

  /** The issues that are critical, or those that are not, in order. */
  function Kept(issues: seq<AccountIssue>, critical: bool): seq<AccountIssue> {
    if issues == [] then []
    else
      var last := issues[|issues| - 1];
      Kept(issues[..|issues| - 1], critical) + if (last.severity == "critical") == critical then [last] else []
  }

  function ToIssues(issues: seq<AccountIssue>): seq<Issue> {
    seq(|issues|, k requires 0 <= k < |issues| => ToIssue(issues[k]))
  }

  method RunAccountSuspended(gmc: Option<Snapshot>) returns (r: CheckResult)
    ensures r == Finished(META_SUSPENDED, Critical, ToIssues(Kept(AccountIssuesOf(gmc), true)))
  {
    var issues: seq<Issue> := [];
    if gmc.None? || gmc.value.account.None? {
      return CheckResult(META_SUSPENDED, Pass, Critical, []);
    }
    var all := gmc.value.account.value.issues;
    for n := 0 to |all|
      invariant issues == ToIssues(Kept(all[..n], true))
    {
      assert all[..n + 1][..n] == all[..n];
      if all[n].severity != "critical" {
        continue;
      }
      issues := issues + [ToIssue(all[n])];
    }
    assert all[..|all|] == all;
    r := Finished(META_SUSPENDED, Critical, issues);
  }

  method RunAccountWarning(gmc: Option<Snapshot>) returns (r: CheckResult)
    ensures r == Finished(META_WARNING, Warning, ToIssues(Kept(AccountIssuesOf(gmc), false)))
  {
    var issues: seq<Issue> := [];
    if gmc.None? || gmc.value.account.None? {
      return CheckResult(META_WARNING, Pass, Warning, []);
    }
    var all := gmc.value.account.value.issues;
    for n := 0 to |all|
      invariant issues == ToIssues(Kept(all[..n], false))
    {
      assert all[..n + 1][..n] == all[..n];
      if all[n].severity == "critical" {
        continue; // owned by the suspended check
      }
      issues := issues + [ToIssue(all[n])];
    }
    assert all[..|all|] == all;
    r := Finished(META_WARNING, Warning, issues);
  }

  /** They are kept in the order in which Google lists them. */
  lemma {:induction false} KeptInOrder(a: seq<AccountIssue>, b: seq<AccountIssue>, critical: bool)
    ensures Kept(a + b, critical) == Kept(a, critical) + Kept(b, critical)
  {
    if b == [] {
      assert a + b == a;
    } else {
      var n := |b| - 1;
      KeptInOrder(a, b[..n], critical);
      assert (a + b)[..|a + b| - 1] == a + b[..n];
    }
  }

  /** Each reported account issue is readable from its row: the title, the detail and, as external code, the id. */
  lemma AccountRowsTell(issues: seq<AccountIssue>, critical: bool, meta: Meta, severity: Severity, k: nat)
    requires k < |Kept(issues, critical)|
    ensures var r, a := Finished(meta, severity, ToIssues(Kept(issues, critical))), Kept(issues, critical)[k];
            && r.status == Fail && |r.issues| == |Kept(issues, critical)|
            && r.issues[k].detail == a.title && r.issues[k].evidence == a.detail && r.issues[k].externalCode == a.id
            && r.issues[k].url == "" && r.issues[k].productTitle == ""
  {}

  /** Every account issue, as often as Google lists it, goes to exactly one of the two checks. */
  lemma {:induction false} AccountIssuesDivide(issues: seq<AccountIssue>)
    ensures multiset(Kept(issues, true)) + multiset(Kept(issues, false)) == multiset(issues)
    ensures forall a | a in Kept(issues, true) :: a.severity == "critical"
    ensures forall a | a in Kept(issues, false) :: a.severity != "critical"
  {
    if issues != [] {
      var n := |issues| - 1;
      AccountIssuesDivide(issues[..n]);
      assert issues == issues[..n] + [issues[n]];
    }
  }

  function SuspendedFails(issues: seq<AccountIssue>): bool {
    Kept(issues, true) != []
  }

  function WarningFails(issues: seq<AccountIssue>): bool {
    Kept(issues, false) != []
  }

  predicate HasUncritical(issues: seq<AccountIssue>) {
    exists k | 0 <= k < |issues| :: issues[k].severity != "critical"
  }

  lemma {:induction false} WhichFail(issues: seq<AccountIssue>)
    ensures SuspendedFails(issues) <==> Has(issues, "critical")
    ensures WarningFails(issues) <==> HasUncritical(issues)
  {
    if issues != [] {
      var n := |issues| - 1;
      WhichFail(issues[..n]);
      assert issues[..n + 1] == issues;
      HasNext(issues, n, "critical");
      if HasUncritical(issues[..n]) {
        var k :| 0 <= k < n && issues[..n][k].severity != "critical";
        assert issues[k].severity != "critical";
      }
      if HasUncritical(issues) {
        var k :| 0 <= k < |issues| && issues[k].severity != "critical";
        assert k < n ==> issues[..n][k].severity != "critical";
      }
    }
  }

  predicate Documented(severity: string) {
    severity in {"critical", "error", "suggestion"}
  }

  /** Every issue has a severity the client does not know, and there is one. */
  predicate AllUndocumented(issues: seq<AccountIssue>) {
    issues != [] && forall k | 0 <= k < |issues| :: !Documented(issues[k].severity)
  }

  /**
   A suspended account, a failing suspended check and a positive suspensions count are one thing,
   whatever the severities.
   */
  lemma SuspendedAgrees(issues: seq<AccountIssue>, suspensions: nat)
    requires suspensions == Count(issues, "critical")
    ensures Synthesised(issues) == "suspended" <==> SuspendedFails(issues)
    ensures Synthesised(issues) == "suspended" <==> suspensions > 0
  {
    WhichFail(issues);
    CountPositive(issues, "critical");
  }

  /**
   A warned account is one where only the warning check fails, except exactly when all severities are
   undocumented.
   */
  lemma WarningAgrees(issues: seq<AccountIssue>)
    ensures (Synthesised(issues) == "warning" <==> WarningFails(issues) && !SuspendedFails(issues)) <==>
            !AllUndocumented(issues)
  {
    WhichFail(issues);
  }

  /**
   warnings_count leaves suggestions out: it fails to show a warned account exactly when nothing worse
   was reported.
   */
  lemma WarningsCountMissesSuggestions(issues: seq<AccountIssue>, warnings: nat)
    requires warnings == Count(issues, "error")
    ensures Synthesised(issues) == "warning" && warnings == 0 <==>
            Has(issues, "suggestion") && !Has(issues, "error") && !Has(issues, "critical")
  {
    CountPositive(issues, "error");
  }

  // ---------------------------------------------------------------- item codes

  /** unicode.ToLower, as far as it matters for comparing with ASCII text. */
  function LowerChar(c: char): char {
    if 'A' <= c <= 'Z' then c + 32 as char
    else if c == '\U{0130}' then 'i'
    else if c == '\U{212A}' then 'k'
    else c
  }

  function ToLower(s: string): (t: string)
    ensures |t| == |s|
  {
    seq(|s|, k requires 0 <= k < |s| => LowerChar(s[k]))
  }

  predicate IsImagePolicyCode(code: string) {
    var c := ToLower(code);
    || "image_link_" <= c || Found(c, "image_policy")
    || c == "promotional_overlay" || c == "missing_image_link"
  }

  /** A code is about image policy if it begins so, says so anywhere, or is one of two names, in any letter case. */
  lemma ImageCodeExactly(code: string)
    ensures IsImagePolicyCode(code) <==>
            || (exists rest: string :: ToLower(code) == "image_link_" + rest)
            || (exists before: string, rest: string :: ToLower(code) == before + "image_policy" + rest)
            || ToLower(code) == "promotional_overlay" || ToLower(code) == "missing_image_link"
  {
    hide LowerChar, Index;
    var c := ToLower(code);
    if "image_link_" <= c {
      assert c == "image_link_" + c[|"image_link_"|..];
    }
    if Found(c, "image_policy") {
      var before, rest := FoundSplits(c, "image_policy");
    }
    if before: string, rest: string :| c == before + "image_policy" + rest {
      FoundBetween(before, "image_policy", rest);
    }
  }

  /** Upper and lower case make no difference to it. */
  lemma CaseMakesNoDifference(a: string, b: string)
    requires |a| == |b|
    requires forall k | 0 <= k < |a| ::
               a[k] == b[k] || ('A' <= a[k] <= 'Z' && b[k] as int == a[k] as int - 'A' as int + 'a' as int)
    ensures IsImagePolicyCode(a) == IsImagePolicyCode(b)
  {
    hide LowerChar;
    forall k | 0 <= k < |a| ensures LowerChar(a[k]) == LowerChar(b[k]) {
      LowerSame(a[k], b[k]);
    }
    assert ToLower(a) == ToLower(b);
    hide ToLower, Found;
  }

  lemma LowerSame(c: char, d: char)
    requires c == d || ('A' <= c <= 'Z' && d as int == c as int - 'A' as int + 'a' as int)
    ensures LowerChar(c) == LowerChar(d)
  {}

  /** The codes left to the specific-issue check. */
  predicate IsSpecificCode(code: string) {
    code != PRICE_CODE && code != AVAILABILITY_CODE && !IsImagePolicyCode(code)
  }

  lemma {:induction false} NotFound(s: string, pattern: string, c: char)
    requires c in pattern && c !in s
    ensures !Found(s, pattern)
  {
    assert !(pattern <= s) by {
      var k :| 0 <= k < |pattern| && pattern[k] == c;
      assert k < |s| ==> s[k] != c;
    }
    if s != [] {
      assert forall x | x in s[1..] :: x in s;
      NotFound(s[1..], pattern, c);
    }
  }

  lemma LowerStays(s: string)
    requires forall k | 0 <= k < |s| :: s[k] == '_' || 'a' <= s[k] <= 'z'
    ensures ToLower(s) == s
  {}

  lemma NotAnImageCode(code: string)
    requires code != [] && code[0] == 'l' && 'o' !in code
    requires forall k | 0 <= k < |code| :: code[k] == '_' || 'a' <= code[k] <= 'z'
    ensures !IsImagePolicyCode(code)
  {
    LowerStays(code);
    assert "image_policy"[7] == 'o';
    NotFound(code, "image_policy", 'o');
    assert "image_link_"[0] == 'i' && "promotional_overlay"[0] == 'p' && "missing_image_link"[0] == 'm';
  }

  /** The two landing-page codes are not image codes. */
  lemma LandingPageCodesAreNotImageCodes()
    ensures !IsImagePolicyCode(PRICE_CODE) && !IsImagePolicyCode(AVAILABILITY_CODE)
  {
    hide IsImagePolicyCode, ToLower, Found, Index;
    NotAnImageCode(PRICE_CODE);
    NotAnImageCode(AVAILABILITY_CODE);
  }

  // ---------------------------------------------------------------- what Google reports of products

  datatype Reported = Reported(product: Product, issue: ItemIssue)

  function ProductsOf(gmc: Option<Snapshot>): seq<Product> {
    if gmc.Some? then gmc.value.products else []
  }

  function ReportsOf(p: Product): seq<Reported> {
    seq(|p.issues|, k requires 0 <= k < |p.issues| => Reported(p, p.issues[k]))
  }

  /** Every item-level issue, in the order of the products and of each product's list. */
  function Reports(products: seq<Product>): seq<Reported> {
    if products == [] then []
    else Reports(products[..|products| - 1]) + ReportsOf(products[|products| - 1])
  }

  /** The distinct ids of the products Google reports this code for. */
  function Affected(reports: seq<Reported>, code: string): set<string> {
    set k | 0 <= k < |reports| && reports[k].issue.code == code :: reports[k].product.id
  }

  predicate Appears(reports: seq<Reported>, code: string) {
    exists k | 0 <= k < |reports| :: reports[k].issue.code == code
  }

  /** The first report of this code. */
  predicate IsFirst(reports: seq<Reported>, code: string, k: nat) {
    k < |reports| && reports[k].issue.code == code && forall j | 0 <= j < k :: reports[j].issue.code != code
  }

  function Plural(n: nat): string {
    if n == 1 then "" else "s"
  }

  function AffectsLine(description: string, n: nat): string {
    description + " \U{2014} affects " + Decimal(n) + " product" + Plural(n) + "."
  }

  /** The row of a code says of how many products Google reports it. */
  lemma AffectsLineSays(description: string, n: nat)
    ensures AffectsLine(description, n) ==
            description + " \U{2014} affects " + (if n == 1 then "1 product." else Decimal(n) + " products.")
  {
    if n == 1 {
      assert Decimal(1) == "1";
    }
  }

  function CodesOf(issues: seq<Issue>): seq<string> {
    seq(|issues|, k requires 0 <= k < |issues| => issues[k].externalCode)
  }

  /**
   One issue per reported code of this kind, sorted, with the number of affected products and the first
   report as example.
   */
  ghost predicate PerCode(reports: seq<Reported>, kind: string -> bool, issues: seq<Issue>) {
    && Ascending(CodesOf(issues))
    && (forall code :: code in CodesOf(issues) <==> kind(code) && Appears(reports, code))
    && (forall k | 0 <= k < |issues| :: CodeIssue(reports, issues[k]))
  }

  ghost predicate CodeIssue(reports: seq<Reported>, issue: Issue) {
    var code := issue.externalCode;
    exists i: nat :: IsFirst(reports, code, i) &&
      issue == Issue("", "", AffectsLine(reports[i].issue.description, |Affected(reports, code)|),
                     reports[i].issue.detail, code)
  }

  // ---------------------------------------------------------------- grouping by code

  datatype Bucket = Bucket(products: set<string>, example: ItemIssue)

  function Groups(reports: seq<Reported>, kind: string -> bool): map<string, Bucket> {
    if reports == [] then map[]
    else Added(Groups(reports[..|reports| - 1], kind), kind, reports[|reports| - 1])
  }

  function Added(groups: map<string, Bucket>, kind: string -> bool, r: Reported): map<string, Bucket> {
    var code := r.issue.code;
    if !kind(code) then groups
    else if code in groups then groups[code := groups[code].(products := groups[code].products + {r.product.id})]
    else groups[code := Bucket({r.product.id}, r.issue)]
  }

  ghost predicate FirstIs(reports: seq<Reported>, code: string, issue: ItemIssue) {
    exists k: nat :: IsFirst(reports, code, k) && reports[k].issue == issue
  }

  ghost predicate GroupFits(reports: seq<Reported>, kind: string -> bool, groups: map<string, Bucket>, code: string) {
    && (code in groups <==> kind(code) && Appears(reports, code))
    && (code in groups ==>
        groups[code].products == Affected(reports, code) && FirstIs(reports, code, groups[code].example))
  }

  lemma AffectedNext(reports: seq<Reported>, n: nat, code: string)
    requires |reports| == n + 1
    ensures Affected(reports, code) ==
            Affected(reports[..n], code) + if reports[n].issue.code == code then {reports[n].product.id} else {}
    ensures Appears(reports, code) <==> Appears(reports[..n], code) || reports[n].issue.code == code
  {
    forall k | 0 <= k < n ensures reports[..n][k] == reports[k] {}
    forall id | id in Affected(reports, code)
      ensures id in Affected(reports[..n], code) + if reports[n].issue.code == code then {reports[n].product.id} else {}
    {
      var k :| 0 <= k <= n && reports[k].issue.code == code && reports[k].product.id == id;
      assert k < n ==> reports[..n][k].product.id == id && reports[..n][k].issue.code == code;
    }
    if Appears(reports, code) {
      var k :| 0 <= k <= n && reports[k].issue.code == code;
      assert k < n ==> reports[..n][k].issue.code == code;
    }
    if Appears(reports[..n], code) {
      var k :| 0 <= k < n && reports[..n][k].issue.code == code;
      assert reports[k].issue.code == code;
    }
  }

  lemma FirstStays(reports: seq<Reported>, n: nat, code: string, issue: ItemIssue)
    requires |reports| == n + 1 && FirstIs(reports[..n], code, issue)
    ensures FirstIs(reports, code, issue)
  {
    var k: nat :| IsFirst(reports[..n], code, k) && reports[..n][k].issue == issue;
    forall j | 0 <= j < k ensures reports[j].issue.code != code {
      assert reports[j] == reports[..n][j];
    }
    assert IsFirst(reports, code, k) && reports[k].issue == issue;
  }

  lemma FirstNow(reports: seq<Reported>, n: nat)
    requires |reports| == n + 1 && !Appears(reports[..n], reports[n].issue.code)
    ensures FirstIs(reports, reports[n].issue.code, reports[n].issue)
    ensures Affected(reports[..n], reports[n].issue.code) == {}
  {
    forall j | 0 <= j < n ensures reports[j].issue.code != reports[n].issue.code {
      assert reports[j] == reports[..n][j];
    }
    assert IsFirst(reports, reports[n].issue.code, n);
  }

  /** Grouping computes, for each code, its affected products and its first report. */
  lemma {:induction false} GroupMeaning(reports: seq<Reported>, kind: string -> bool, code: string)
    ensures GroupFits(reports, kind, Groups(reports, kind), code)
  {
    hide Affected, Appears, FirstIs;
    if reports == [] {
      NothingAppears(code);
    } else {
      var n := |reports| - 1;
      GroupMeaning(reports[..n], kind, code);
      AffectedNext(reports, n, code);
      if code in Groups(reports[..n], kind) {
        FirstStays(reports, n, code, Groups(reports[..n], kind)[code].example);
      } else if reports[n].issue.code == code && kind(code) {
        FirstNow(reports, n);
      }
    }
  }

  lemma NothingAppears(code: string)
    ensures !Appears([], code)
  {}

  lemma ReportsNext(products: seq<Product>, p: Product)
    ensures Reports(products + [p]) == Reports(products) + ReportsOf(p)
  {
    assert (products + [p])[..|products|] == products;
  }

  lemma NothingReported(kind: string -> bool)
    ensures Reports([]) == [] && Groups([], kind) == map[]
  {}

  lemma GroupsNext(done: seq<Reported>, own: seq<Reported>, k: nat, kind: string -> bool)
    requires k < |own|
    ensures Groups(done + own[..k + 1], kind) == Added(Groups(done + own[..k], kind), kind, own[k])
  {
    assert (done + own[..k + 1])[..|done| + k] == done + own[..k];
    assert (done + own[..k + 1])[|done| + k] == own[k];
  }

  /** The nested loop of the image and the specific-issue checks. */
  method GroupByCode(products: seq<Product>, kind: string -> bool) returns (groups: map<string, Bucket>)
    ensures groups == Groups(Reports(products), kind)
  {
    hide Reports, Groups;
    groups := map[];
    NothingReported(kind);
    for i := 0 to |products|
      invariant groups == Groups(Reports(products[..i]), kind)
    {
      ghost var done, own := Reports(products[..i]), ReportsOf(products[i]);
      assert done + own[..0] == done;
      for k := 0 to |products[i].issues|
        invariant groups == Groups(done + own[..k], kind)
      {
        var code := products[i].issues[k].code;
        GroupsNext(done, own, k, kind);
        if !kind(code) {
          continue;
        }
        if code !in groups {
          groups := groups[code := Bucket({}, products[i].issues[k])];
        }
        var b := groups[code];
        assert {} + {products[i].id} == {products[i].id};
        groups := groups[code := b.(products := b.products + {products[i].id})];
      }
      assert own[..|own|] == own;
      assert products[..i + 1] == products[..i] + [products[i]];
      ReportsNext(products[..i], products[i]);
    }
    assert products[..|products|] == products;
  }

  /** One issue per group, in the order of the codes. */
  method IssuesOfGroups(groups: map<string, Bucket>, ghost reports: seq<Reported>, ghost kind: string -> bool)
      returns (issues: seq<Issue>)
    requires forall code :: GroupFits(reports, kind, groups, code)
    ensures PerCode(reports, kind, issues)
  {
    hide Affected, Appears;
    var codes := SortedKeys(groups.Keys);
    issues := [];
    for k := 0 to |codes|
      invariant |issues| == k
      invariant forall j | 0 <= j < k :: issues[j].externalCode == codes[j] && CodeIssue(reports, issues[j])
    {
      var code := codes[k];
      assert code in groups.Keys && GroupFits(reports, kind, groups, code);
      var b := groups[code];
      var issue := Issue("", "", AffectsLine(b.example.description, |b.products|), b.example.detail, code);
      assert CodeIssue(reports, issue);
      issues := issues + [issue];
    }
    assert CodesOf(issues) == codes;
    forall code ensures code in codes <==> kind(code) && Appears(reports, code) {
      assert GroupFits(reports, kind, groups, code);
      assert code in codes <==> code in groups.Keys;
    }
  }

  method RunSpecificItemIssue(gmc: Option<Snapshot>) returns (r: CheckResult)
    ensures r == Finished(META_SPECIFIC, Warning, r.issues)
    ensures PerCode(Reports(ProductsOf(gmc)), IsSpecificCode, r.issues)
  {
    var groups := GroupByCode(ProductsOf(gmc), IsSpecificCode);
    forall code ensures GroupFits(Reports(ProductsOf(gmc)), IsSpecificCode, groups, code) {
      GroupMeaning(Reports(ProductsOf(gmc)), IsSpecificCode, code);
    }
    var issues := IssuesOfGroups(groups, Reports(ProductsOf(gmc)), IsSpecificCode);
    r := Finished(META_SPECIFIC, Warning, issues);
  }

  method RunImagePolicyViolation(gmc: Option<Snapshot>) returns (r: CheckResult)
    ensures r == Finished(META_IMAGE, Warning, r.issues)
    ensures PerCode(Reports(ProductsOf(gmc)), IsImagePolicyCode, r.issues)
  {
    var groups := GroupByCode(ProductsOf(gmc), IsImagePolicyCode);
    forall code ensures GroupFits(Reports(ProductsOf(gmc)), IsImagePolicyCode, groups, code) {
      GroupMeaning(Reports(ProductsOf(gmc)), IsImagePolicyCode, code);
    }
    var issues := IssuesOfGroups(groups, Reports(ProductsOf(gmc)), IsImagePolicyCode);
    r := Finished(META_IMAGE, Warning, issues);
  }

  // ---------------------------------------------------------------- one issue per product

  predicate HasCode(p: Product, code: string) {
    exists k | 0 <= k < |p.issues| :: p.issues[k].code == code
  }

  /** The record that stands for a product id: the last of the affected ones. */
  predicate IsLastRecord(products: seq<Product>, code: string, id: string, i: nat) {
    && i < |products| && products[i].id == id && HasCode(products[i], code)
    && forall j | i < j < |products| && products[j].id == id :: !HasCode(products[j], code)
  }

  /** The example is the first such issue of the last affected record of all. */
  ghost predicate IsExample(products: seq<Product>, code: string, example: ItemIssue) {
    exists i: nat, k: nat ::
      && i < |products| && k < |products[i].issues| && products[i].issues[k] == example && example.code == code
      && (forall j | 0 <= j < k :: products[i].issues[j].code != code)
      && (forall j | i < j < |products| :: !HasCode(products[j], code))
  }

  ghost predicate ProductIssue(products: seq<Product>, code: string, summary: string, id: string, issue: Issue) {
    exists i: nat, example: ItemIssue ::
      IsLastRecord(products, code, id, i) && IsExample(products, code, example) &&
      issue == Issue(products[i].link, products[i].title, summary, example.detail, code)
  }

  /** One issue for each affected product, in the order of their ids. */
  ghost predicate PerProduct(products: seq<Product>, code: string, summary: string, ids: seq<string>,
                             issues: seq<Issue>) {
    && Ascending(ids) && |ids| == |issues|
    && (forall id :: id in ids <==> id in Affected(Reports(products), code))
    && (forall k | 0 <= k < |ids| :: ProductIssue(products, code, summary, ids[k], issues[k]))
  }

  lemma {:induction false} AffectedIsHasCode(products: seq<Product>, code: string, id: string)
    ensures id in Affected(Reports(products), code) <==> Known(products, code, id)
  {
    if products != [] {
      var n := |products| - 1;
      AffectedIsHasCode(products[..n], code, id);
      AffectedConcat(Reports(products[..n]), ReportsOf(products[n]), code, id);
      AffectedOwn(products[n], code, id);
      KnownNext(products, n, code, id);
    }
  }

  lemma AffectedConcat(a: seq<Reported>, b: seq<Reported>, code: string, id: string)
    ensures id in Affected(a + b, code) <==> id in Affected(a, code) || id in Affected(b, code)
  {
    if id in Affected(a, code) {
      var k :| 0 <= k < |a| && a[k].issue.code == code && a[k].product.id == id;
      assert (a + b)[k] == a[k];
    }
    if id in Affected(b, code) {
      var k :| 0 <= k < |b| && b[k].issue.code == code && b[k].product.id == id;
      assert (a + b)[|a| + k] == b[k];
    }
    if id in Affected(a + b, code) {
      var k :| 0 <= k < |a + b| && (a + b)[k].issue.code == code && (a + b)[k].product.id == id;
      assert (a + b)[k] == if k < |a| then a[k] else b[k - |a|];
    }
  }

  lemma AffectedOwn(p: Product, code: string, id: string)
    ensures id in Affected(ReportsOf(p), code) <==> id == p.id && HasCode(p, code)
  {
    if HasCode(p, code) {
      var k :| 0 <= k < |p.issues| && p.issues[k].code == code;
      assert ReportsOf(p)[k].issue.code == code;
    }
  }

  predicate Known(products: seq<Product>, code: string, id: string) {
    exists i | 0 <= i < |products| :: products[i].id == id && HasCode(products[i], code)
  }

  ghost predicate Record(products: seq<Product>, code: string, id: string, p: Product) {
    exists i: nat :: IsLastRecord(products, code, id, i) && products[i] == p
  }

  /** The state of the loop after the products seen so far. */
  ghost predicate LoopFits(products: seq<Product>, code: string, affected: map<string, Product>, example: ItemIssue) {
    && (forall id :: id in affected <==> Known(products, code, id))
    && (forall id | id in affected :: Record(products, code, id, affected[id]))
    && (affected != map[] ==> IsExample(products, code, example))
  }

  lemma LoopHit(seen: seq<Product>, n: nat, code: string, affected: map<string, Product>, example: ItemIssue, k: nat)
    requires |seen| == n + 1 && LoopFits(seen[..n], code, affected, example)
    requires k < |seen[n].issues| && seen[n].issues[k].code == code
    requires forall j | 0 <= j < k :: seen[n].issues[j].code != code
    ensures LoopFits(seen, code, affected[seen[n].id := seen[n]], seen[n].issues[k])
  {
    var now := affected[seen[n].id := seen[n]];
    assert HasCode(seen[n], code);
    assert IsExample(seen, code, seen[n].issues[k]);
    assert Record(seen, code, seen[n].id, seen[n]) by {
      assert IsLastRecord(seen, code, seen[n].id, n);
    }
    hide HasCode, Known, Record, IsExample;
    forall id ensures id in now <==> Known(seen, code, id) {
      KnownNext(seen, n, code, id);
    }
    forall id | id in now ensures Record(seen, code, id, now[id]) {
      if id != seen[n].id {
        RecordStays(seen, n, code, id, affected[id]);
      }
    }
  }

  lemma LoopMiss(seen: seq<Product>, n: nat, code: string, affected: map<string, Product>, example: ItemIssue)
    requires |seen| == n + 1 && LoopFits(seen[..n], code, affected, example) && !HasCode(seen[n], code)
    ensures LoopFits(seen, code, affected, example)
  {
    hide HasCode, Known, Record, IsExample;
    forall id ensures id in affected <==> Known(seen, code, id) {
      KnownNext(seen, n, code, id);
    }
    forall id | id in affected ensures Record(seen, code, id, affected[id]) {
      RecordStays(seen, n, code, id, affected[id]);
    }
    if affected != map[] {
      ExampleStays(seen, n, code, example);
    }
  }

  lemma ExampleStays(seen: seq<Product>, n: nat, code: string, example: ItemIssue)
    requires |seen| == n + 1 && IsExample(seen[..n], code, example) && !HasCode(seen[n], code)
    ensures IsExample(seen, code, example)
  {
    var was := seen[..n];
    var i: nat, k: nat :|
      && i < n && k < |was[i].issues| && was[i].issues[k] == example && example.code == code
      && (forall j | 0 <= j < k :: was[i].issues[j].code != code)
      && (forall j | i < j < n :: !HasCode(was[j], code));
    assert seen[i] == was[i];
    forall j | i < j < |seen| ensures !HasCode(seen[j], code) {
      assert j < n ==> seen[j] == was[j];
    }
    assert seen[i].issues[k] == example;
  }

  lemma KnownNext(seen: seq<Product>, n: nat, code: string, id: string)
    requires |seen| == n + 1
    ensures Known(seen, code, id) <==> Known(seen[..n], code, id) || (seen[n].id == id && HasCode(seen[n], code))
  {
    if Known(seen, code, id) {
      var i :| 0 <= i < |seen| && seen[i].id == id && HasCode(seen[i], code);
      assert i < n ==> seen[..n][i] == seen[i];
    }
    if Known(seen[..n], code, id) {
      var i :| 0 <= i < n && seen[..n][i].id == id && HasCode(seen[..n][i], code);
      assert seen[i] == seen[..n][i];
    }
  }

  lemma RecordStays(seen: seq<Product>, n: nat, code: string, id: string, p: Product)
    requires |seen| == n + 1 && Record(seen[..n], code, id, p) && (seen[n].id != id || !HasCode(seen[n], code))
    ensures Record(seen, code, id, p)
  {
    var i: nat :| IsLastRecord(seen[..n], code, id, i) && seen[..n][i] == p;
    forall j | i < j < |seen| && seen[j].id == id ensures !HasCode(seen[j], code) {
      assert j < n ==> seen[..n][j] == seen[j];
    }
    assert IsLastRecord(seen, code, id, i);
  }

  lemma LoopStart(code: string, example: ItemIssue)
    ensures LoopFits([], code, map[], example)
  {}

  lemma LoopKeys(products: seq<Product>, code: string, affected: map<string, Product>, example: ItemIssue, id: string)
    requires LoopFits(products, code, affected, example)
    ensures id in affected.Keys <==> id in Affected(Reports(products), code)
  {
    AffectedIsHasCode(products, code, id);
  }

  lemma LoopIssue(products: seq<Product>, code: string, affected: map<string, Product>, example: ItemIssue,
                  summary: string, id: string)
    requires LoopFits(products, code, affected, example) && id in affected
    ensures ProductIssue(products, code, summary, id,
                         Issue(affected[id].link, affected[id].title, summary, example.detail, code))
  {
    var i: nat :| IsLastRecord(products, code, id, i) && products[i] == affected[id];
    assert IsLastRecord(products, code, id, i) && IsExample(products, code, example);
  }

  method RunItemCodeCheck(gmc: Option<Snapshot>, meta: Meta, severity: Severity, code: string, summary: string)
    returns (r: CheckResult, ghost ids: seq<string>)
    ensures r == Finished(meta, severity, r.issues)
    ensures PerProduct(ProductsOf(gmc), code, summary, ids, r.issues)
  {
    hide LoopFits, ProductIssue, Reports, Affected;
    var products := ProductsOf(gmc);
    var affected: map<string, Product> := map[];
    var example := ItemIssue("", "", "");
    LoopStart(code, example);
    for n := 0 to |products|
      invariant LoopFits(products[..n], code, affected, example)
    {
      var p := products[n];
      assert products[..n + 1][..n] == products[..n];
      var k := 0;
      while k < |p.issues| && p.issues[k].code != code
        invariant 0 <= k <= |p.issues|
        invariant forall j | 0 <= j < k :: p.issues[j].code != code
      {
        k := k + 1;
      }
      if k < |p.issues| {
        LoopHit(products[..n + 1], n, code, affected, example, k);
        affected := affected[p.id := p];
        example := p.issues[k];
      } else {
        LoopMiss(products[..n + 1], n, code, affected, example);
      }
    }
    assert products[..|products|] == products;
    var productIDs := SortedKeys(affected.Keys);
    ids := productIDs;
    forall id ensures id in ids <==> id in Affected(Reports(products), code) {
      LoopKeys(products, code, affected, example, id);
    }
    var issues: seq<Issue> := [];
    for k := 0 to |productIDs|
      invariant |issues| == k
      invariant forall j | 0 <= j < k :: ProductIssue(products, code, summary, productIDs[j], issues[j])
    {
      assert productIDs[k] in affected.Keys;
      var p := affected[productIDs[k]];
      LoopIssue(products, code, affected, example, summary, productIDs[k]);
      issues := issues + [Issue(p.link, p.title, summary, example.detail, code)];
    }
    r := Finished(meta, severity, issues);
  }

  method RunLandingPagePriceMismatch(gmc: Option<Snapshot>) returns (r: CheckResult, ghost ids: seq<string>)
    ensures r == Finished(META_PRICE, Critical, r.issues)
    ensures PerProduct(ProductsOf(gmc), PRICE_CODE, "Price on landing page does not match feed.", ids, r.issues)
  {
    r, ids := RunItemCodeCheck(gmc, META_PRICE, Critical, PRICE_CODE, "Price on landing page does not match feed.");
  }

  method RunLandingPageAvailabilityMismatch(gmc: Option<Snapshot>) returns (r: CheckResult, ghost ids: seq<string>)
    ensures r == Finished(META_AVAILABILITY, Warning, r.issues)
    ensures PerProduct(ProductsOf(gmc), AVAILABILITY_CODE, "Availability on landing page does not match feed.", ids,
                       r.issues)
  {
    r, ids := RunItemCodeCheck(gmc, META_AVAILABILITY, Warning, AVAILABILITY_CODE,
                               "Availability on landing page does not match feed.");
  }

  // ---------------------------------------------------------------- the division of the codes

  datatype ItemCheck = PriceCheck | AvailabilityCheck | ImageCheck | SpecificCheck

  /** The check a code belongs to. */
  function Owner(code: string): ItemCheck {
    if code == PRICE_CODE then PriceCheck
    else if code == AVAILABILITY_CODE then AvailabilityCheck
    else if IsImagePolicyCode(code) then ImageCheck
    else SpecificCheck
  }

  /** What the four checks reported. */
  datatype ItemResults = ItemResults(price: seq<Issue>, availability: seq<Issue>, image: seq<Issue>,
                                     specific: seq<Issue>) {
    function Of(c: ItemCheck): seq<Issue> {
      match c
      case PriceCheck => price
      case AvailabilityCheck => availability
      case ImageCheck => image
      case SpecificCheck => specific
    }
  }

  ghost predicate AllRan(products: seq<Product>, r: ItemResults) {
    && (exists ids: seq<string> ::
        PerProduct(products, PRICE_CODE, "Price on landing page does not match feed.", ids, r.price))
    && (exists ids: seq<string> ::
        PerProduct(products, AVAILABILITY_CODE, "Availability on landing page does not match feed.", ids,
                   r.availability))
    && PerCode(Reports(products), IsImagePolicyCode, r.image)
    && PerCode(Reports(products), IsSpecificCode, r.specific)
  }

  lemma {:induction false} AscendingSize(ids: seq<string>, s: set<string>)
    requires Ascending(ids) && forall id :: id in ids <==> id in s
    ensures |ids| == |s|
  {
    if ids == [] {
      assert forall id :: id !in s;
      assert s == {};
    } else {
      var n := |ids| - 1;
      forall id ensures id in ids[..n] <==> id in s - {ids[n]} {
        if id in s && id != ids[n] {
          var k :| 0 <= k < |ids| && ids[k] == id;
          assert ids[..n][k] == id;
        }
      }
      AscendingSize(ids[..n], s - {ids[n]});
    }
  }

  lemma AppearsAffects(reports: seq<Reported>, code: string)
    ensures Appears(reports, code) <==> Affected(reports, code) != {}
  {
    if Appears(reports, code) {
      var k :| 0 <= k < |reports| && reports[k].issue.code == code;
      assert reports[k].product.id in Affected(reports, code);
    }
  }

  /** A per-product check has one row for each affected product, all under its one code. */
  lemma PerProductCounts(products: seq<Product>, code: string, summary: string, ids: seq<string>, issues: seq<Issue>)
    requires PerProduct(products, code, summary, ids, issues)
    ensures |issues| == |Affected(Reports(products), code)|
    ensures forall k | 0 <= k < |issues| :: issues[k].externalCode == code
    ensures issues != [] <==> Appears(Reports(products), code)
  {
    AscendingSize(ids, Affected(Reports(products), code));
    AppearsAffects(Reports(products), code);
    forall k | 0 <= k < |issues| ensures issues[k].externalCode == code {
      assert ProductIssue(products, code, summary, ids[k], issues[k]);
    }
  }

  /** How often a list of issues names a code. */
  function Rows(issues: seq<Issue>, code: string): nat {
    if issues == [] then 0
    else Rows(issues[..|issues| - 1], code) + if issues[|issues| - 1].externalCode == code then 1 else 0
  }

  lemma {:induction false} RowsOfOneCode(issues: seq<Issue>, only: string, code: string)
    requires forall k | 0 <= k < |issues| :: issues[k].externalCode == only
    ensures Rows(issues, code) == if code == only then |issues| else 0
  {
    if issues != [] {
      RowsOfOneCode(issues[..|issues| - 1], only, code);
    }
  }

  lemma {:induction false} RowsOfDistinctCodes(issues: seq<Issue>, code: string)
    requires Ascending(CodesOf(issues))
    ensures Rows(issues, code) == if code in CodesOf(issues) then 1 else 0
  {
    if issues != [] {
      var n := |issues| - 1;
      var codes := CodesOf(issues);
      assert CodesOf(issues[..n]) == codes[..n];
      RowsOfDistinctCodes(issues[..n], code);
      assert codes == codes[..n] + [codes[n]];
    }
  }

  /** The rows each check has for a code: those of the owner if Google reports it, none otherwise. */
  function ExpectedRows(reports: seq<Reported>, code: string, c: ItemCheck): nat {
    if c != Owner(code) || !Appears(reports, code) then 0
    else if c == PriceCheck || c == AvailabilityCheck then |Affected(reports, code)|
    else 1
  }

  /**
   The four checks divide Google's item-level issues: a code is reported by its
   owner and by no other check, once for each distinct affected product or in one
   row that states their number; and a code Google does not report, by none.
   */
  lemma EachCodeIsReportedByItsOwner(products: seq<Product>, r: ItemResults, code: string, c: ItemCheck)
    requires AllRan(products, r)
    ensures Rows(r.Of(c), code) == ExpectedRows(Reports(products), code, c)
  {
    LandingPageCodesAreNotImageCodes();
    hide IsImagePolicyCode, ProductIssue, CodeIssue, Affected, Appears;
    var reports := Reports(products);
    match c {
      case PriceCheck => PriceRows(products, PRICE_CODE, "Price on landing page does not match feed.", r.price, code);
      case AvailabilityCheck =>
        PriceRows(products, AVAILABILITY_CODE, "Availability on landing page does not match feed.", r.availability,
                  code);
      case ImageCheck => RowsOfDistinctCodes(r.image, code);
      case SpecificCheck => RowsOfDistinctCodes(r.specific, code);
    }
  }

  lemma PriceRows(products: seq<Product>, own: string, summary: string, issues: seq<Issue>, code: string)
    requires exists ids: seq<string> :: PerProduct(products, own, summary, ids, issues)
    ensures Rows(issues, code) ==
            if code == own && Appears(Reports(products), code) then |Affected(Reports(products), code)| else 0
  {
    var ids: seq<string> :| PerProduct(products, own, summary, ids, issues);
    PerProductCounts(products, own, summary, ids, issues);
    RowsOfOneCode(issues, own, code);
  }
}
