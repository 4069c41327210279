/** What the Merchant Center client makes of an account's issues, and what is cached of it. */
module Gmc {
  import opened Base

  datatype AccountIssue = AccountIssue(id: string, title: string, detail: string, severity: string)

  datatype AccountStatus = AccountStatus(websiteClaimed: bool, issues: seq<AccountIssue>, status: string)

  datatype ItemIssue = ItemIssue(code: string, description: string, detail: string)

  datatype Product = Product(id: string, title: string, link: string, issues: seq<ItemIssue>)

  /** What a sync fetched; the account may be missing. */
  datatype Snapshot = Snapshot(account: Option<AccountStatus>, products: seq<Product>)

  predicate Has(issues: seq<AccountIssue>, severity: string) {
    exists k | 0 <= k < |issues| :: issues[k].severity == severity
  }

  function Count(issues: seq<AccountIssue>, severity: string): nat {
    if issues == [] then 0
    else Count(issues[..|issues| - 1], severity) + if issues[|issues| - 1].severity == severity then 1 else 0
  }

  lemma {:induction false} CountPositive(issues: seq<AccountIssue>, severity: string)
    ensures Count(issues, severity) > 0 <==> Has(issues, severity)
  {
    if issues != [] {
      var n := |issues| - 1;
      CountPositive(issues[..n], severity);
      if Has(issues[..n], severity) {
        var k :| 0 <= k < n && issues[..n][k].severity == severity;
        assert issues[k].severity == severity;
      }
    }
  }

  /** The worst of the severities the client knows; any other severity is ignored. */
  function Synthesised(issues: seq<AccountIssue>): string {
    if Has(issues, "critical") then "suspended"
    else if Has(issues, "error") || Has(issues, "suggestion") then "warning"
    else "active"
  }

  method SynthesiseStatus(issues: seq<AccountIssue>) returns (worst: string)
    ensures worst == Synthesised(issues)
  {
    worst := "active";
    for n := 0 to |issues|
      invariant !Has(issues[..n], "critical")
      invariant worst == if Has(issues[..n], "error") || Has(issues[..n], "suggestion") then "warning" else "active"
    {
      HasNext(issues, n, "critical");
      HasNext(issues, n, "error");
      HasNext(issues, n, "suggestion");
      match issues[n].severity {
        case "critical" => return "suspended";
        case "error" => worst := "warning";
        case "suggestion" =>
          if worst == "active" {
            worst := "warning";
          }
        case _ =>
      }
    }
    assert issues[..|issues|] == issues;
  }

  lemma HasNext(issues: seq<AccountIssue>, n: nat, severity: string)
    requires n < |issues|
    ensures Has(issues[..n + 1], severity) <==> Has(issues[..n], severity) || issues[n].severity == severity
    ensures Has(issues[..n + 1], severity) ==> Has(issues, severity)
  {
    if Has(issues[..n], severity) {
      var k :| 0 <= k < n && issues[..n][k].severity == severity;
      assert issues[..n + 1][k].severity == severity;
    }
    assert issues[..n + 1][n] == issues[n];
    if Has(issues[..n + 1], severity) {
      var k :| 0 <= k < n + 1 && issues[..n + 1][k].severity == severity;
      assert issues[k].severity == severity;
      assert k < n ==> issues[..n][k].severity == severity;
    }
  }

  /** The cached columns warnings_count and suspensions_count. */
  method UpdateAccountSummary(issues: seq<AccountIssue>) returns (warnings: nat, suspensions: nat)
    ensures warnings == Count(issues, "error") && suspensions == Count(issues, "critical")
  {
    warnings, suspensions := 0, 0;
    for n := 0 to |issues|
      invariant warnings == Count(issues[..n], "error") && suspensions == Count(issues[..n], "critical")
    {
      assert issues[..n + 1][..n] == issues[..n];
      match issues[n].severity {
        case "critical" => suspensions := suspensions + 1;
        case "error" => warnings := warnings + 1;
        case _ =>
      }
    }
    assert issues[..|issues|] == issues;
  }
}
