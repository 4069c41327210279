/**
 Stages 5 and 6 of the pipeline: AI fix suggestions in budgeted batches, then the
 executive summary, and the client that sends a batch and parses the reply.
 */
module Enrich {
  import opened Base
  import opened Text
  import opened Audit
  import opened FixParser
  import opened SummaryParser

  class Budget {
    const limit: int
    var used: nat

    constructor (limit: int)
      ensures this.limit == limit && used == 0
    {
      this.limit, used := limit, 0;
    }
  }

  /** Budget.Use, whose receiver may be nil: deducts one call unless the budget is used up; nil has no limit. */
  method Use(b: Budget?) returns (ok: bool)
    modifies if b == null then {} else {b}
    ensures b == null ==> ok
    ensures b != null ==> (ok <==> old(b.used) < b.limit) && b.used == old(b.used) + if ok then 1 else 0
  {
    if b == null {
      return true;
    }
    if b.used >= b.limit {
      return false;
    }
    b.used := b.used + 1;
    return true;
  }

  function CallsLeft(limit: int, used: nat): nat {
    if limit <= used then 0 else limit - used
  }

  // ---------------------------------------------------------------- the AI client

  datatype BatchReply = Unanswered | Replies(responses: seq<FixResponse>)

  /** The client's answer to its k-th call. */
  type Client = (nat, seq<FixRequest>) -> BatchReply

  const MAX_BATCH := 10

  /** What the HTTP provider returns to the k-th call: a reply body, or nothing. */
  type Provider = nat -> Option<string>

  function OpenAIReply(body: Option<string>, issues: seq<FixRequest>): (reply: BatchReply)
    ensures reply.Replies? ==> |reply.responses| == |issues|
  {
    if |issues| == 0 then Replies([])
    else if |issues| > MAX_BATCH || body.None? then Unanswered
    else Replies(FixBatch(body.value, issues))
  }

  function OpenAI(provider: Provider): Client {
    (k: nat, issues: seq<FixRequest>) => OpenAIReply(provider(k), issues)
  }

  /** Every answer is an error or has one response per request. */
  ghost predicate AnswersEach(client: Client) {
    forall k: nat, issues: seq<FixRequest> {:trigger client(k, issues)} ::
      client(k, issues).Replies? ==> |client(k, issues).responses| == |issues|
  }

  /**
   A request for more than ten items or without a reply fails; else item i gets what the reply says of
   number i + 1.
   */
  lemma OpenAIReplies(body: Option<string>, issues: seq<FixRequest>)
    ensures var reply := OpenAIReply(body, issues);
            && (reply.Unanswered? <==> |issues| > 10 || (issues != [] && body.None?))
            && (reply.Replies? ==>
                  && |reply.responses| == |issues|
                  && forall i | 0 <= i < |issues| ::
                       reply.responses[i] == FixResponse(issues[i].issueId, Suggestion(SplitLines(body.value), i + 1)))
  {}

  lemma OpenAIAnswersEach(provider: Provider)
    ensures AnswersEach(OpenAI(provider))
  {
    forall k: nat, issues: seq<FixRequest>
      ensures OpenAI(provider)(k, issues) == OpenAIReply(provider(k), issues)
    {}
  }

  // ---------------------------------------------------------------- the work list

  datatype Lookup = Lookup(key: string, request: FixRequest)

  function Key(checkId: string, i: nat): string {
    checkId + "#" + Decimal(i)
  }

  function Item(r: CheckResult, i: nat, context: string): Lookup
    requires i < |r.issues|
  {
    var key, issue := Key(r.meta.id, i), r.issues[i];
    Lookup(key, FixRequest(key, r.meta.id, SeverityName(r.severity), r.meta.title, issue.detail, issue.evidence,
                           issue.productTitle, issue.url, context))
  }

  function Items(r: CheckResult, context: string): (items: seq<Lookup>)
    ensures |items| == if r.status == Fail && r.meta.aiFixEligible then |r.issues| else 0
    ensures forall i | 0 <= i < |items| :: items[i] == Item(r, i, context)
  {
    if r.status == Fail && r.meta.aiFixEligible
    then seq(|r.issues|, i requires 0 <= i < |r.issues| => Item(r, i, context))
    else []
  }

  /** The eligible issues of the failing checks, in report order. */
  function Todo(results: seq<CheckResult>, context: string): seq<Lookup> {
    if results == [] then [] else Todo(results[..|results| - 1], context) + Items(results[|results| - 1], context)
  }

  ghost predicate DistinctChecks(results: seq<CheckResult>) {
    forall i, k | 0 <= i < k < |results| :: results[i].meta.id != results[k].meta.id
  }

  ghost predicate DistinctKeys(todo: seq<Lookup>) {
    forall i, k | 0 <= i < k < |todo| :: todo[i].key != todo[k].key
  }

  lemma KeyShape(id: string, i: nat)
    ensures var key := Key(id, i);
            && key[..|id|] == id && key[|id|] == '#' && key[|id| + 1..] == Decimal(i)
            && forall p | |id| < p < |key| :: key[p] != '#'
  {
    var key := Key(id, i);
    forall p | |id| < p < |key| ensures key[p] != '#' {
      assert key[p] == Decimal(i)[p - |id| - 1];
    }
  }

  /** `id#index` names one issue, whatever characters the check's id has. */
  lemma KeyIsInjective(a: string, i: nat, b: string, k: nat)
    requires Key(a, i) == Key(b, k)
    ensures a == b && i == k
  {
    KeyShape(a, i);
    KeyShape(b, k);
    assert |a| == |b|;
    DecimalRoundTrip(i);
    DecimalRoundTrip(k);
  }

  lemma {:induction false} TodoOrigin(results: seq<CheckResult>, context: string, j: nat) returns (c: nat, i: nat)
    requires j < |Todo(results, context)|
    ensures c < |results| && i < |results[c].issues| && Todo(results, context)[j] == Item(results[c], i, context)
    ensures results[c].status == Fail && results[c].meta.aiFixEligible
  {
    var init := results[..|results| - 1];
    if j < |Todo(init, context)| {
      c, i := TodoOrigin(init, context, j);
    } else {
      c, i := |results| - 1, j - |Todo(init, context)|;
    }
  }

  lemma {:induction false} TodoKeysDistinct(results: seq<CheckResult>, context: string)
    requires DistinctChecks(results)
    ensures DistinctKeys(Todo(results, context))
  {
    if results != [] {
      var init, last := results[..|results| - 1], results[|results| - 1];
      TodoKeysDistinct(init, context);
      var todo, earlier := Todo(results, context), Todo(init, context);
      forall j, k | 0 <= j < k < |todo| ensures todo[j].key != todo[k].key {
        if |earlier| <= k && todo[j].key == todo[k].key {
          var i := k - |earlier|;
          assert todo[k] == Item(last, i, context);
          if j < |earlier| {
            var c, m := TodoOrigin(init, context, j);
            KeyIsInjective(init[c].meta.id, m, last.meta.id, i);
          } else {
            assert todo[j] == Item(last, j - |earlier|, context);
            KeyIsInjective(last.meta.id, j - |earlier|, last.meta.id, i);
          }
        }
      }
    }
  }

  /** How many issues the failing results of checks open to AI fixes have. */
  function EligibleIn(results: seq<CheckResult>): nat {
    if results == [] then 0
    else
      var last := results[|results| - 1];
      EligibleIn(results[..|results| - 1]) + if last.status == Fail && last.meta.aiFixEligible then |last.issues| else 0
  }

  lemma {:induction false} TodoSize(results: seq<CheckResult>, context: string)
    ensures |Todo(results, context)| == EligibleIn(results)
  {
    if results != [] {
      TodoSize(results[..|results| - 1], context);
    }
  }

  lemma EligibleStep(results: seq<CheckResult>)
    requires results != []
    ensures var last := results[|results| - 1];
            EligibleIn(results) ==
            EligibleIn(results[..|results| - 1]) + if last.status == Fail && last.meta.aiFixEligible then |last.issues|
              else 0
  {}

  lemma {:induction false} TodoPlace(results: seq<CheckResult>, context: string, c: nat, i: nat)
    requires c < |results| && results[c].status == Fail && results[c].meta.aiFixEligible && i < |results[c].issues|
    ensures |Todo(results, context)| == EligibleIn(results) && EligibleIn(results[..c]) + i < EligibleIn(results)
    ensures Todo(results, context)[EligibleIn(results[..c]) + i] == Item(results[c], i, context)
  {
    hide Item, Items, EligibleIn;
    var n := |results| - 1;
    EligibleStep(results);
    TodoSize(results[..n], context);
    if c < n {
      assert results[..n][..c] == results[..c];
      TodoPlace(results[..n], context, c, i);
    }
  }

  /** An issue of a check that passes or is not open to AI fixes is not on the list. */
  lemma NotOnList(results: seq<CheckResult>, context: string, c: nat, i: nat)
    requires DistinctChecks(results) && c < |results|
    requires results[c].status != Fail || !results[c].meta.aiFixEligible
    ensures forall j | 0 <= j < |Todo(results, context)| :: Todo(results, context)[j].key != Key(results[c].meta.id, i)
  {
    forall j | 0 <= j < |Todo(results, context)|
      ensures Todo(results, context)[j].key != Key(results[c].meta.id, i)
    {
      var d, k := TodoOrigin(results, context, j);
      assert c != d;
      if Key(results[d].meta.id, k) == Key(results[c].meta.id, i) {
        KeyIsInjective(results[d].meta.id, k, results[c].meta.id, i);
      }
    }
  }

  /**
   The work list has one item for each issue of each failing, eligible check, in
   report order, under the check's id, '#' and the issue's index, with all that is
   known of the issue.
   */
  lemma TodoExactly(results: seq<CheckResult>, context: string, c: nat, i: nat)
    requires c < |results| && results[c].status == Fail && results[c].meta.aiFixEligible && i < |results[c].issues|
    ensures var todo, at, r := Todo(results, context), EligibleIn(results[..c]) + i, results[c];
            && |todo| == EligibleIn(results) && at < |todo|
            && todo[at].key == todo[at].request.issueId == r.meta.id + "#" + Decimal(i)
            && var ask, issue := todo[at].request, r.issues[i];
            && ask.checkId == r.meta.id && ask.title == r.meta.title && ask.storeContext == context
            && ask.severity == (match r.severity case Critical => "critical" case Error => "error"
                                case Warning => "warning" case Info => "info" case Other(name) => name)
            && ask.detail == issue.detail && ask.evidence == issue.evidence
            && ask.productTitle == issue.productTitle && ask.productUrl == issue.url
  {
    TodoPlace(results, context, c, i);
  }

  // ---------------------------------------------------------------- what the stage stores

  function FallbackFix(req: FixRequest): (s: string)
    ensures s != "" && s != PLACEHOLDER
  {
    "Apply the steps in the \"How to apply\" panel below to resolve " + req.checkId + " for " +
    (if req.productTitle == "" then "this item" else req.productTitle) + "."
  }

  function Stored(suggested: string, req: FixRequest): (s: string)
    ensures s != "" && s != PLACEHOLDER
  {
    if suggested == "" || suggested == PLACEHOLDER then FallbackFix(req) else suggested
  }

  function Requests(batch: seq<Lookup>): (reqs: seq<FixRequest>)
    ensures |reqs| == |batch| && forall i | 0 <= i < |reqs| :: reqs[i] == batch[i].request
  {
    seq(|batch|, i requires 0 <= i < |batch| => batch[i].request)
  }

  /** The suggestion the i-th item of a batch gets, if it gets one. */
  function Suggested(batch: seq<Lookup>, reply: BatchReply, i: nat): (s: Option<string>)
    requires i < |batch|
    ensures s.Some? ==> s.value != "" && s.value != PLACEHOLDER
  {
    match reply
    case Unanswered => Some(FallbackFix(batch[i].request))
    case Replies(responses) =>
      if i < |responses| then Some(Stored(responses[i].suggested, batch[i].request)) else None
  }

  /**
   An item gets its own response's text; a sentence that names its check and product
   if the call failed or that text is empty or the placeholder; and nothing if the
   reply is too short.
   */
  lemma SuggestedExactly(batch: seq<Lookup>, reply: BatchReply, i: nat)
    requires i < |batch|
    ensures var ask := batch[i].request;
            var sentence := "Apply the steps in the \"How to apply\" panel below to resolve " + ask.checkId + " for " +
                            (if ask.productTitle == "" then "this item" else ask.productTitle) + ".";
            Suggested(batch, reply, i) ==
            match reply
            case Unanswered => Some(sentence)
            case Replies(responses) =>
              if i >= |responses| then None
              else if responses[i].suggested in {"", "(no rewrite produced)"} then Some(sentence)
              else Some(responses[i].suggested)
  {}

  /** Storing the suggestions of a batch's first n items. */
  function StoreBatch(m: map<string, string>, batch: seq<Lookup>, reply: BatchReply, n: nat): map<string, string>
    requires n <= |batch|
  {
    if n == 0 then m
    else
      var before := StoreBatch(m, batch, reply, n - 1);
      match Suggested(batch, reply, n - 1)
      case None => before
      case Some(s) => before[batch[n - 1].key := s]
  }

  function Min(a: int, b: int): int {
    if a <= b then a else b
  }

  /** Sending what is left of the work list, from call k on, with `calls` calls left. */
  function Enriched(m: map<string, string>, todo: seq<Lookup>, client: Client, b: nat, k: nat, calls: nat)
      : map<string, string>
    requires b > 0
    decreases |todo|
  {
    if todo == [] || calls == 0 then m
    else
      var batch := todo[..Min(b, |todo|)];
      var reply := client(k, Requests(batch));
      Enriched(StoreBatch(m, batch, reply, |batch|), todo[|batch|..], client, b, k + 1, calls - 1)
  }

  /** How many calls that makes. */
  function CallsMade(n: nat, b: nat, calls: nat): nat
    requires b > 0
    decreases n
  {
    if n == 0 || calls == 0 then 0 else 1 + CallsMade(n - Min(b, n), b, calls - 1)
  }

  // ---------------------------------------------------------------- the enrichment stage

  method BuildItems(r: CheckResult, context: string) returns (items: seq<Lookup>)
    requires r.status == Fail && r.meta.aiFixEligible
    ensures items == Items(r, context)
  {
    items := [];
    for i := 0 to |r.issues|
      invariant |items| == i && forall k | 0 <= k < i :: items[k] == Item(r, k, context)
    {
      var key := Key(r.meta.id, i);
      var issue := r.issues[i];
      var request := FixRequest(key, r.meta.id, SeverityName(r.severity), r.meta.title, issue.detail, issue.evidence,
                                issue.productTitle, issue.url, context);
      items := items + [Lookup(key, request)];
    }
  }

  method BuildTodo(results: seq<CheckResult>, context: string) returns (todo: seq<Lookup>)
    ensures todo == Todo(results, context)
  {
    todo := [];
    assert results[..0] == [];
    for c := 0 to |results|
      invariant todo == Todo(results[..c], context)
    {
      var r := results[c];
      assert results[..c + 1][..c] == results[..c];
      if r.status != Fail || !r.meta.aiFixEligible {
        continue;
      }
      var items := BuildItems(r, context);
      todo := todo + items;
    }
    assert results[..|results|] == results;
  }

  /** A failed call: the code-generated sentence for every item of the batch. */
  method StoreFallbacks(m: map<string, string>, batch: seq<Lookup>) returns (stored: map<string, string>)
    ensures stored == StoreBatch(m, batch, Unanswered, |batch|)
  {
    stored := m;
    for i := 0 to |batch|
      invariant stored == StoreBatch(m, batch, Unanswered, i)
    {
      stored := stored[batch[i].key := FallbackFix(batch[i].request)];
    }
  }

  /** An answered call; a short reply leaves the rest of the batch without suggestions. */
  method StoreReplies(m: map<string, string>, batch: seq<Lookup>, responses: seq<FixResponse>)
    returns (stored: map<string, string>)
    ensures stored == StoreBatch(m, batch, Replies(responses), |batch|)
  {
    hide FallbackFix;
    stored := m;
    for i := 0 to |responses|
      invariant i <= |batch|
      invariant stored == StoreBatch(m, batch, Replies(responses), i)
    {
      if i >= |batch| {
        break;
      }
      var s := responses[i].suggested;
      if s == "" || s == PLACEHOLDER {
        s := FallbackFix(batch[i].request);
      }
      stored := stored[batch[i].key := s];
    }
    ShortReply(m, batch, Replies(responses), if |responses| < |batch| then |responses| else |batch|, |batch|);
  }

  lemma {:induction false} ShortReply(m: map<string, string>, batch: seq<Lookup>, reply: BatchReply, n: nat, i: nat)
    requires n <= i <= |batch| && forall j | n <= j < i :: Suggested(batch, reply, j).None?
    ensures StoreBatch(m, batch, reply, i) == StoreBatch(m, batch, reply, n)
  {
    if n < i {
      ShortReply(m, batch, reply, n, i - 1);
    }
  }

  lemma EnrichedStep(m: map<string, string>, todo: seq<Lookup>, client: Client, b: nat, k: nat, calls: nat,
                     start: nat, end: nat)
    requires b > 0 && start < |todo| && end == Min(start + b, |todo|) && calls > 0
    ensures var batch := todo[start..end];
            Enriched(m, todo[start..], client, b, k, calls) ==
            Enriched(StoreBatch(m, batch, client(k, Requests(batch)), |batch|), todo[end..],
                     client, b, k + 1, calls - 1)
    ensures CallsMade(|todo| - start, b, calls) == 1 + CallsMade(|todo| - end, b, calls - 1)
  {
    hide StoreBatch, Requests;
    var batch := todo[start..end];
    assert batch == todo[start..][..Min(b, |todo| - start)];
    assert todo[start..][|batch|..] == todo[end..];
  }

  /** The batching loop. */
  method SendBatches(m: map<string, string>, todo: seq<Lookup>, budget: Budget, batchSize: int, client: Client)
    returns (sent: map<string, string>)
    requires batchSize > 0
    modifies budget
    ensures var left := CallsLeft(budget.limit, old(budget.used));
            && sent == Enriched(m, todo, client, batchSize, old(budget.used), left)
            && budget.used == old(budget.used) + CallsMade(|todo|, batchSize, left)
  {
    hide Enriched, CallsMade, StoreBatch, Requests;
    sent := m;
    var start := 0;
    assert todo[0..] == todo;
    while start < |todo|
      invariant 0 <= start <= |todo|
      invariant Enriched(m, todo, client, batchSize, old(budget.used), CallsLeft(budget.limit, old(budget.used))) ==
                Enriched(sent, todo[start..], client, batchSize, budget.used, CallsLeft(budget.limit, budget.used))
      invariant budget.used + CallsMade(|todo| - start, batchSize, CallsLeft(budget.limit, budget.used)) ==
                old(budget.used) + CallsMade(|todo|, batchSize, CallsLeft(budget.limit, old(budget.used)))
      decreases |todo| - start
    {
      var end := start + batchSize;
      if end > |todo| {
        end := |todo|;
      }
      var k := budget.used;
      var ok := Use(budget);
      if !ok {
        break;
      }
      EnrichedStep(sent, todo, client, batchSize, k, CallsLeft(budget.limit, k), start, end);
      var batch := todo[start..end];
      match client(k, Requests(batch)) {
        case Unanswered =>
          sent := StoreFallbacks(sent, batch);
        case Replies(responses) =>
          sent := StoreReplies(sent, batch, responses);
      }
      start := end;
    }
    NothingLeft(sent, todo[start..], client, batchSize, budget.used, CallsLeft(budget.limit, budget.used));
  }

  /** The enrichment stage; `client` is None when no AI client is configured. */
  method RunEnrich(out: AuditOutput, context: string, budget: Budget, batchSize: int, client: Option<Client>)
    requires batchSize > 0
    modifies out`suggestions, out`stages, budget
    ensures client.None? ==> out.suggestions == old(out.suggestions) && budget.used == old(budget.used)
    ensures client.Some? ==>
              var todo, left := Todo(out.results, context), CallsLeft(budget.limit, old(budget.used));
              && out.suggestions ==
                 Enriched(old(out.suggestions), todo, client.value, batchSize, old(budget.used), left)
              && budget.used == old(budget.used) + CallsMade(|todo|, batchSize, left)
    ensures exists stage: StageResult ::
              out.stages == old(out.stages) + [stage] && stage.name == "enrich" && stage.status != StageFailed
  {
    if client.None? {
      out.stages := out.stages + [StageResult("enrich", StageSkipped, "no AI client configured")];
      return;
    }
    var todo := BuildTodo(out.results, context);
    if |todo| == 0 {
      out.stages := out.stages + [StageResult("enrich", StageOk, "no AI-eligible issues")];
      return;
    }
    out.suggestions := SendBatches(out.suggestions, todo, budget, batchSize, client.value);
    out.stages := out.stages + [StageResult("enrich", StageOk, "")];
  }

  lemma NothingLeft(m: map<string, string>, todo: seq<Lookup>, client: Client, b: nat, k: nat, calls: nat)
    requires b > 0 && (todo == [] || calls == 0)
    ensures Enriched(m, todo, client, b, k, calls) == m && CallsMade(|todo|, b, calls) == 0
  {}

  // ---------------------------------------------------------------- what the stage guarantees

  ghost function KeysOf(todo: seq<Lookup>): set<string> {
    set i | 0 <= i < |todo| :: todo[i].key
  }

  /** A reply that covers its batch suggests something for every item. */
  lemma {:induction false} StoreBatchKeys(m: map<string, string>, batch: seq<Lookup>, reply: BatchReply, n: nat)
    requires n <= |batch| && (reply.Replies? ==> |reply.responses| == |batch|)
    ensures StoreBatch(m, batch, reply, n).Keys == m.Keys + KeysOf(batch[..n])
  {
    if n > 0 {
      hide KeysOf;
      StoreBatchKeys(m, batch, reply, n - 1);
      assert batch[..n] == batch[..n - 1] + [batch[n - 1]];
      KeysOfConcat(batch[..n - 1], [batch[n - 1]]);
      KeysOfOne(batch[n - 1]);
    } else {
      assert KeysOf(batch[..0]) == {};
    }
  }

  lemma KeysOfOne(item: Lookup)
    ensures KeysOf([item]) == {item.key}
  {
    assert [item][0].key in KeysOf([item]);
  }

  lemma KeysOfConcat(a: seq<Lookup>, b: seq<Lookup>)
    ensures KeysOf(a + b) == KeysOf(a) + KeysOf(b)
  {
    forall x | x in KeysOf(a) + KeysOf(b) ensures x in KeysOf(a + b) {
      if x in KeysOf(a) {
        var i :| 0 <= i < |a| && a[i].key == x;
        assert (a + b)[i].key == x;
      } else {
        var i :| 0 <= i < |b| && b[i].key == x;
        assert (a + b)[|a| + i].key == x;
      }
    }
  }

  /**
   With `calls` calls left and batches of b, exactly the first min(n, calls * b)
   of the n items get a suggestion.
   */
  lemma {:induction false} EnrichedKeys(m: map<string, string>, todo: seq<Lookup>, client: Client, b: nat, k: nat,
                                        calls: nat)
    requires b > 0 && AnswersEach(client)
    ensures 0 <= Min(|todo|, calls * b) <= |todo|
    ensures Enriched(m, todo, client, b, k, calls).Keys == m.Keys + KeysOf(todo[..Min(|todo|, calls * b)])
    decreases |todo|
  {
    hide StoreBatch, KeysOf, Requests;
    if todo != [] && calls > 0 {
      var size := Min(b, |todo|);
      var batch, rest := todo[..size], todo[size..];
      var reply := client(k, Requests(batch));
      StoreBatchKeys(m, batch, reply, size);
      assert batch[..size] == batch;
      EnrichedKeys(StoreBatch(m, batch, reply, size), rest, client, b, k + 1, calls - 1);
      assert calls * b == (calls - 1) * b + b;
      var more := Min(|rest|, (calls - 1) * b);
      assert (calls - 1) * b >= 0;
      assert Min(|todo|, calls * b) == size + more;
      assert todo[..size + more] == batch + rest[..more];
      KeysOfConcat(batch, rest[..more]);
    } else {
      assert calls * b >= 0;
      NoKeys(todo);
    }
  }

  lemma NoKeys(todo: seq<Lookup>)
    ensures KeysOf(todo[..0]) == {}
  {}

  predicate Usable(m: map<string, string>) {
    forall key | key in m :: m[key] != "" && m[key] != PLACEHOLDER
  }

  /** Nothing empty and no placeholder is ever stored. */
  lemma {:induction false} EnrichedIsUsable(m: map<string, string>, todo: seq<Lookup>, client: Client, b: nat, k: nat,
                                            calls: nat)
    requires b > 0 && Usable(m)
    ensures Usable(Enriched(m, todo, client, b, k, calls))
    decreases |todo|
  {
    if todo != [] && calls > 0 {
      var batch := todo[..Min(b, |todo|)];
      var reply := client(k, Requests(batch));
      StoredIsUsable(m, batch, reply, |batch|);
      EnrichedIsUsable(StoreBatch(m, batch, reply, |batch|), todo[|batch|..], client, b, k + 1, calls - 1);
    }
  }

  lemma {:induction false} StoredIsUsable(m: map<string, string>, batch: seq<Lookup>, reply: BatchReply, n: nat)
    requires n <= |batch| && Usable(m)
    ensures Usable(StoreBatch(m, batch, reply, n))
  {
    hide Suggested;
    if n > 0 {
      StoredIsUsable(m, batch, reply, n - 1);
    }
  }

  /** As many calls as it takes to send n items in batches of b, unless the calls run out before. */
  lemma {:induction false} CallsAreBudgeted(n: nat, b: nat, calls: nat)
    requires b > 0
    ensures var k := CallsMade(n, b, calls);
            k <= calls && (k == calls || n <= k * b) && (k == 0 || (k - 1) * b < n)
    decreases n
  {
    if n > 0 && calls > 0 {
      var k := CallsMade(n - Min(b, n), b, calls - 1);
      CallsAreBudgeted(n - Min(b, n), b, calls - 1);
      OneMore(k, b);
      if k > 0 {
        OneMore(k - 1, b);
      }
    }
  }

  lemma OneMore(k: nat, b: nat)
    ensures (k + 1) * b == k * b + b
  {}

  lemma {:induction false} KeysOfSize(todo: seq<Lookup>)
    requires DistinctKeys(todo)
    ensures |KeysOf(todo)| == |todo|
  {
    if todo == [] {
      assert KeysOf(todo) == {};
    } else {
      var init, last := todo[..|todo| - 1], todo[|todo| - 1];
      KeysOfSize(init);
      assert todo == init + [last];
      KeysOfConcat(init, [last]);
      KeysOfOne(last);
      assert last.key !in KeysOf(init);
    }
  }

  /**
   The number of suggestions is min(eligible issues, budget * batch size), and
   they belong to the first that many eligible issues of the report.
   */
  lemma SuggestionsAreFirstInReport(results: seq<CheckResult>, context: string, client: Client, b: nat, limit: nat)
    requires DistinctChecks(results) && AnswersEach(client) && b > 0
    ensures var todo, e := Todo(results, context), Enriched(map[], Todo(results, context), client, b, 0, limit);
            && 0 <= Min(|todo|, limit * b) <= |todo|
            && e.Keys == KeysOf(todo[..Min(|todo|, limit * b)])
            && |e| == Min(|todo|, limit * b)
            && Usable(e)
  {
    var todo := Todo(results, context);
    EnrichedKeys(map[], todo, client, b, 0, limit);
    EnrichedIsUsable(map[], todo, client, b, 0, limit);
    TodoKeysDistinct(results, context);
    KeysOfSize(todo[..Min(|todo|, limit * b)]);
    assert |Enriched(map[], todo, client, b, 0, limit)| == |Enriched(map[], todo, client, b, 0, limit).Keys|;
  }

  /** What the batch that item j falls into proposes for it, batches being b items each in order. */
  function OwnSuggestion(todo: seq<Lookup>, client: Client, b: nat, k: nat, j: nat): (s: Option<string>)
    requires b > 0 && j < |todo|
    ensures s.Some? ==> s.value != "" && s.value != PLACEHOLDER
    decreases j
  {
    if j < b then
      var batch := todo[..Min(b, |todo|)];
      Suggested(batch, client(k, Requests(batch)), j)
    else OwnSuggestion(todo[b..], client, b, k + 1, j - b)
  }

  function At(m: map<string, string>, key: string): Option<string> {
    if key in m then Some(m[key]) else None
  }

  lemma {:induction false} StoreBatchFrame(m: map<string, string>, batch: seq<Lookup>, reply: BatchReply, n: nat,
                                           key: string)
    requires n <= |batch| && forall i | 0 <= i < n :: batch[i].key != key
    ensures At(StoreBatch(m, batch, reply, n), key) == At(m, key)
  {
    if n > 0 {
      StoreBatchFrame(m, batch, reply, n - 1, key);
    }
  }

  lemma {:induction false} StoreBatchValue(m: map<string, string>, batch: seq<Lookup>, reply: BatchReply, n: nat,
                                           j: nat)
    requires j < n <= |batch| && DistinctKeys(batch)
    ensures At(StoreBatch(m, batch, reply, n), batch[j].key) ==
            if Suggested(batch, reply, j).Some? then Suggested(batch, reply, j) else At(m, batch[j].key)
  {
    hide Suggested;
    if j < n - 1 {
      StoreBatchValue(m, batch, reply, n - 1, j);
    } else {
      StoreBatchFrame(m, batch, reply, j, batch[j].key);
    }
  }

  lemma {:induction false} EnrichedFrame(m: map<string, string>, todo: seq<Lookup>, client: Client, b: nat, k: nat,
                                         calls: nat, key: string)
    requires b > 0 && forall i | 0 <= i < |todo| :: todo[i].key != key
    ensures At(Enriched(m, todo, client, b, k, calls), key) == At(m, key)
    decreases |todo|
  {
    hide StoreBatch, Requests;
    if todo != [] && calls > 0 {
      var batch := todo[..Min(b, |todo|)];
      var reply := client(k, Requests(batch));
      StoreBatchFrame(m, batch, reply, |batch|, key);
      EnrichedFrame(StoreBatch(m, batch, reply, |batch|), todo[|batch|..], client, b, k + 1, calls - 1, key);
    }
  }

  lemma DistinctParts(todo: seq<Lookup>, n: nat, j: nat)
    requires DistinctKeys(todo) && n <= |todo| && j < |todo|
    ensures DistinctKeys(todo[..n]) && DistinctKeys(todo[n..])
    ensures j < n ==> forall i | 0 <= i < |todo[n..]| :: todo[n..][i].key != todo[j].key
    ensures n <= j ==> forall i | 0 <= i < n :: todo[..n][i].key != todo[j].key
  {}

  lemma FactorIsPositive(c: nat, b: nat)
    ensures 0 < c * b ==> 0 < c
    ensures 0 < c ==> c * b == (c - 1) * b + b && 0 <= (c - 1) * b
  {}

  /**
   An item reached by the budget has the suggestion of its own batch, if that has
   one for it, whatever the other batches are: no two overlap. The other items have
   nothing new.
   */
  lemma {:induction false} EnrichedValue(m: map<string, string>, todo: seq<Lookup>, client: Client, b: nat, k: nat,
                                         calls: nat, j: nat)
    requires b > 0 && DistinctKeys(todo) && j < |todo|
    ensures At(Enriched(m, todo, client, b, k, calls), todo[j].key) ==
            if j < calls * b && OwnSuggestion(todo, client, b, k, j).Some? then OwnSuggestion(todo, client, b, k, j)
            else At(m, todo[j].key)
    decreases |todo|
  {
    hide StoreBatch, Suggested, Requests, At, DistinctKeys;
    FactorIsPositive(calls, b);
    if calls > 0 {
      var size := Min(b, |todo|);
      DistinctParts(todo, size, j);
      var batch, rest := todo[..size], todo[size..];
      var reply := client(k, Requests(batch));
      var stored := StoreBatch(m, batch, reply, size);
      if j < b {
        StoreBatchValue(m, batch, reply, size, j);
        EnrichedFrame(stored, rest, client, b, k + 1, calls - 1, todo[j].key);
      } else {
        assert rest[j - b] == todo[j];
        StoreBatchFrame(m, batch, reply, size, todo[j].key);
        EnrichedValue(stored, rest, client, b, k + 1, calls - 1, j - b);
      }
    }
  }

  /**
   From the reply to the report: when the provider answers a batch with its texts
   in the requested format, in any order, each item is suggested its own text.
   */
  lemma RenderedReplyReachesItems(batch: seq<Lookup>, entries: seq<Entry>, provider: Provider, k: nat, e: nat)
    requires |entries| == |batch| <= 10 && e < |entries|
    requires provider(k) == Some(Render(entries))
    requires forall f | 0 <= f < |entries| :: 1 <= entries[f].n <= |batch| && FixParser.PlainText(entries[f].text)
    requires forall f, g | 0 <= f < g < |entries| :: entries[f].n != entries[g].n
    requires entries[e].text != "" && entries[e].text != PLACEHOLDER
    ensures Suggested(batch, OpenAI(provider)(k, Requests(batch)), entries[e].n - 1) == Some(entries[e].text)
  {
    AnyOrderParses(entries, e);
  }

  // ---------------------------------------------------------------- the summary stage

  function FallbackSummary(counts: map<Severity, int>, risk: string): string {
    var n := (s: Severity) => if s in counts && counts[s] >= 0 then counts[s] else 0;
    if n(Critical) > 0 then
      "Audit complete. " + Decimal(n(Critical)) + " critical, " + Decimal(n(Error)) + " error and " +
      Decimal(n(Warning)) + " warning issues; risk level " + risk + ". Address critical items first."
    else if n(Error) > 0 then
      "Audit complete. " + Decimal(n(Error)) + " error and " + Decimal(n(Warning)) + " warning issues; risk level " +
      risk + ". Fix the error items before submitting the GMC feed."
    else if n(Warning) > 0 then
      "Audit complete. " + Decimal(n(Warning)) + " warning issues; risk level " + risk + ". No blockers " + [DASH] +
      " polish at your pace."
    else "Audit complete. No blocking issues; risk level " + risk + "."
  }

  const DASH: char := '\U{2014}'

  /** The fallback counts the issues from the worst severity there is on, of c critical, e error and w warning ones. */
  lemma FallbackCounts(counts: map<Severity, int>, risk: string, c: nat, e: nat, w: nat)
    requires {Critical, Error, Warning} <= counts.Keys
    requires counts[Critical] == c && counts[Error] == e && counts[Warning] == w
    ensures c > 0 ==>
              FallbackSummary(counts, risk) ==
              "Audit complete. " + Decimal(c) + " critical, " + Decimal(e) + " error and " + Decimal(w) +
              " warning issues; risk level " + risk + ". Address critical items first."
    ensures c == 0 && e > 0 ==>
              FallbackSummary(counts, risk) ==
              "Audit complete. " + Decimal(e) + " error and " + Decimal(w) + " warning issues; risk level " + risk +
              ". Fix the error items before submitting the GMC feed."
    ensures c == e == 0 && w > 0 ==>
              FallbackSummary(counts, risk) ==
              "Audit complete. " + Decimal(w) + " warning issues; risk level " + risk + ". No blockers " +
              [DASH] + " polish at your pace."
    ensures c == e == w == 0 ==>
              FallbackSummary(counts, risk) == "Audit complete. No blocking issues; risk level " + risk + "."
  {
    hide Decimal;
  }

  /** The summary a reply carries: its verdict, or all of it. */
  function ReplySummary(body: string): string {
    if Verdict(SplitLines(body)) == "" then TrimSpace(body) else Verdict(SplitLines(body))
  }

  /**
   The summary stage. `client` is None when no AI client is configured; otherwise
   it is the reply body, or None again when the call fails.
   */
  method RunSummarize(out: AuditOutput, budget: Budget, client: Option<Option<string>>)
    modifies out`summary, out`nextSteps, out`stages, budget
    ensures budget.used == old(budget.used) + if client.Some? && old(budget.used) < budget.limit then 1 else 0
    ensures var asked := client.Some? && old(budget.used) < budget.limit;
            if asked && client.value.Some?
            then out.summary == ReplySummary(client.value.value)
              && out.nextSteps == Steps(SplitLines(client.value.value))
            else out.summary == FallbackSummary(out.counts, out.riskLevel) && out.nextSteps == old(out.nextSteps)
    ensures exists stage: StageResult ::
              out.stages == old(out.stages) + [stage] && stage.name == "summarize" && stage.status != StageFailed
  {
    hide TrimSpace, Verdict, Steps, SplitLines, FallbackSummary;
    if client.None? {
      out.summary := FallbackSummary(out.counts, out.riskLevel);
      out.stages := out.stages + [StageResult("summarize", StageSkipped, "no AI client configured")];
      return;
    }
    var ok := Use(budget);
    if !ok || client.value.None? {
      out.summary := FallbackSummary(out.counts, out.riskLevel);
      out.stages := out.stages + [StageResult("summarize", StageOk, "fallback")];
      return;
    }
    out.summary, out.nextSteps := ParseSummary(client.value.value);
    out.stages := out.stages + [StageResult("summarize", StageOk, "")];
  }
}
