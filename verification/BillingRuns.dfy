/** What any sequence of webhook deliveries, sign-ups, plan overrides and deleted tenants does to billing. */
module BillingRuns {
  import opened Base
  import opened Billing

  datatype Input =
    | Signup(tenant: TenantId)
    | Delivery(event: Event, at: Time)
    | Override(tenant: TenantId, plan: Plan, at: Time) // a super-admin's set-plan
    | Remove(tenant: TenantId) // its owner deletes the tenant

  function Step(db: Db, cfg: Config, input: Input): Db {
    match input
    case Signup(t) => if t in db.tenants then db else db.(tenants := db.tenants[t := FRESH_TENANT])
    case Delivery(e, at) => Deliver(db, cfg, e, at)
    case Override(t, plan, at) => SetPlan(db, cfg, t, plan, at)
    case Remove(t) => DeleteTenant(db, t)
  }

  function Process(db: Db, cfg: Config, inputs: seq<Input>): Db {
    if inputs == [] then db else Step(Process(db, cfg, inputs[..|inputs| - 1]), cfg, inputs[|inputs| - 1])
  }

  lemma ProcessNext(db: Db, cfg: Config, inputs: seq<Input>, i: nat)
    requires i < |inputs|
    ensures Process(db, cfg, inputs[..i + 1]) == Step(Process(db, cfg, inputs[..i]), cfg, inputs[i])
  {
    assert inputs[..i + 1][..i] == inputs[..i];
  }

  /** The delivery's transaction commits a log row. */
  predicate Commits(db: Db, cfg: Config, e: Event) {
    !Logged(db.events, e) && !Aborts(db, cfg, e)
  }

  // ---------------------------------------------------------------- replay

  /** A delivery leaves the database as it was exactly when it is logged already or aborts. */
  lemma DeliveryIsNoOp(db: Db, cfg: Config, e: Event, at: Time)
    ensures Deliver(db, cfg, e, at) == db <==> !Commits(db, cfg, e)
  {
    if Commits(db, cfg, e) {
      assert |Deliver(db, cfg, e, at).events| == |db.events| + 1;
    }
  }

  predicate SameKey(a: Input, b: Input) {
    && a.Delivery? && b.Delivery?
    && a.event.kind == b.event.kind && a.event.sale == b.event.sale && a.event.sale != ""
  }

  /** A delivery of the same (type, non-empty sale) came earlier, whatever else it said. */
  predicate Repeats(inputs: seq<Input>, k: nat)
    requires k < |inputs|
  {
    exists i | 0 <= i < k :: SameKey(inputs[i], inputs[k])
  }

  function DropRepeats(inputs: seq<Input>): seq<Input> {
    if inputs == [] then []
    else
      var n := |inputs| - 1;
      if Repeats(inputs, n) then DropRepeats(inputs[..n]) else DropRepeats(inputs[..n]) + [inputs[n]]
  }

  /** No repeat commits: when it arrives, its key is in the log or a statement fails. */
  ghost predicate NoRevival(db: Db, cfg: Config, inputs: seq<Input>) {
    forall k | 0 <= k < |inputs| && Repeats(inputs, k) ::
      !Commits(Process(db, cfg, inputs[..k]), cfg, inputs[k].event)
  }

  lemma NoRevivalPrefix(db: Db, cfg: Config, inputs: seq<Input>, n: nat)
    requires NoRevival(db, cfg, inputs) && n <= |inputs|
    ensures NoRevival(db, cfg, inputs[..n])
  {
    forall k | 0 <= k < n && Repeats(inputs[..n], k)
      ensures !Commits(Process(db, cfg, inputs[..n][..k]), cfg, inputs[..n][k].event)
    {
      assert Repeats(inputs, k);
      assert inputs[..n][..k] == inputs[..k];
    }
  }

  lemma ProcessSnoc(db: Db, cfg: Config, inputs: seq<Input>, input: Input)
    ensures Process(db, cfg, inputs + [input]) == Step(Process(db, cfg, inputs), cfg, input)
  {
    assert (inputs + [input])[..|inputs|] == inputs;
  }

  lemma UncommittedIsNoOp(db: Db, cfg: Config, input: Input)
    requires input.Delivery? && !Commits(db, cfg, input.event)
    ensures Step(db, cfg, input) == db
  {
    DeliveryIsNoOp(db, cfg, input.event, input.at);
  }

  lemma {:induction false} DroppingKeepsProcess(db: Db, cfg: Config, inputs: seq<Input>)
    requires NoRevival(db, cfg, inputs)
    ensures Process(db, cfg, DropRepeats(inputs)) == Process(db, cfg, inputs)
  {
    hide Process, Step, Commits;
    if inputs != [] {
      var n := |inputs| - 1;
      NoRevivalPrefix(db, cfg, inputs, n);
      DroppingKeepsProcess(db, cfg, inputs[..n]);
      assert inputs == inputs[..n] + [inputs[n]];
      ProcessSnoc(db, cfg, inputs[..n], inputs[n]);
      if Repeats(inputs, n) {
        UncommittedIsNoOp(Process(db, cfg, inputs[..n]), cfg, inputs[n]);
      } else {
        ProcessSnoc(db, cfg, DropRepeats(inputs[..n]), inputs[n]);
      }
    }
  }

  /** The two logs have the same keys, row by row. */
  predicate SameKeys(a: seq<EventRow>, b: seq<EventRow>) {
    |a| == |b| && forall i | 0 <= i < |a| :: a[i].kind == b[i].kind && a[i].sale == b[i].sale
  }

  lemma SameKeysHave(a: seq<EventRow>, b: seq<EventRow>, kind: string, sale: string)
    requires SameKeys(a, b)
    ensures LogHas(a, kind, sale) <==> LogHas(b, kind, sale)
  {
    if LogHas(a, kind, sale) {
      var i :| 0 <= i < |a| && a[i].kind == kind && a[i].sale == Some(sale);
      assert b[i].kind == kind && b[i].sale == Some(sale);
    }
    if LogHas(b, kind, sale) {
      var i :| 0 <= i < |b| && b[i].kind == kind && b[i].sale == Some(sale);
      assert a[i].kind == kind && a[i].sale == Some(sale);
    }
  }

  lemma LogAppend(events: seq<EventRow>, r: EventRow, kind: string, sale: string)
    ensures LogHas(events + [r], kind, sale) <==> LogHas(events, kind, sale) || (r.kind == kind && r.sale == Some(sale))
  {
    var after := events + [r];
    assert after[|events|] == r;
    if LogHas(events, kind, sale) {
      var i :| 0 <= i < |events| && events[i].kind == kind && events[i].sale == Some(sale);
      assert after[i] == events[i];
    }
  }

  /** What a step does to the log: it appends the committed delivery's row, or keeps all keys. */
  lemma LogAfter(db: Db, cfg: Config, input: Input)
    ensures var after := Step(db, cfg, input).events;
            if input.Delivery? && Commits(db, cfg, input.event) then after == db.events + [RowOf(input.event)]
            else SameKeys(db.events, after)
  {
    hide Logged, Aborts, LogHas;
  }

  /** Only a delivery of that key brings it into the log, and nothing takes it out. */
  lemma LogStep(db: Db, cfg: Config, input: Input, kind: string, sale: string)
    requires sale != ""
    ensures LogHas(Step(db, cfg, input).events, kind, sale) <==>
            || LogHas(db.events, kind, sale)
            || (input.Delivery? && input.event.kind == kind && input.event.sale == sale
                && Commits(db, cfg, input.event))
  {
    hide Step, Commits, LogHas, SameKeys;
    LogAfter(db, cfg, input);
    if input.Delivery? && Commits(db, cfg, input.event) {
      LogAppend(db.events, RowOf(input.event), kind, sale);
    } else {
      SameKeysHave(db.events, Step(db, cfg, input).events, kind, sale);
    }
  }

  lemma {:induction false} LogStays(db: Db, cfg: Config, inputs: seq<Input>, i: nat, kind: string, sale: string)
    requires i <= |inputs| && sale != "" && LogHas(Process(db, cfg, inputs[..i]).events, kind, sale)
    ensures LogHas(Process(db, cfg, inputs).events, kind, sale)
    decreases |inputs|
  {
    if i == |inputs| {
      assert inputs[..i] == inputs;
    } else {
      var n := |inputs| - 1;
      assert inputs[..n][..i] == inputs[..i];
      LogStays(db, cfg, inputs[..n], i, kind, sale);
      LogStep(Process(db, cfg, inputs[..n]), cfg, inputs[n], kind, sale);
    }
  }

  lemma RepeatsPrefix(inputs: seq<Input>, n: nat, k: nat)
    requires k < n <= |inputs|
    ensures Repeats(inputs[..n], k) <==> Repeats(inputs, k)
  {
    assert inputs[..n][k] == inputs[k];
    forall i | 0 <= i < k ensures SameKey(inputs[..n][i], inputs[..n][k]) <==> SameKey(inputs[i], inputs[k]) {}
  }

  lemma {:induction false} FirstRevival(db: Db, cfg: Config, inputs: seq<Input>) returns (k: nat)
    requires !NoRevival(db, cfg, inputs)
    ensures k < |inputs| && Repeats(inputs, k) && Commits(Process(db, cfg, inputs[..k]), cfg, inputs[k].event)
    ensures NoRevival(db, cfg, inputs[..k])
    decreases |inputs|
  {
    var m :| 0 <= m < |inputs| && Repeats(inputs, m) && Commits(Process(db, cfg, inputs[..m]), cfg, inputs[m].event);
    if NoRevival(db, cfg, inputs[..m]) {
      k := m;
    } else {
      k := FirstRevival(db, cfg, inputs[..m]);
      RepeatsPrefix(inputs, m, k);
      assert inputs[..m][..k] == inputs[..k];
    }
  }

  lemma CommitIsNew(db: Db, cfg: Config, e: Event)
    requires e.sale != "" && Commits(db, cfg, e)
    ensures !LogHas(db.events, e.kind, e.sale)
  {}

  /** Without its repeats, the key of a revival never enters the log. */
  lemma {:induction false} DroppedNeverLogs(db: Db, cfg: Config, inputs: seq<Input>, k: nat, n: nat)
    requires k <= n <= |inputs| && k < |inputs| && Repeats(inputs, k) && NoRevival(db, cfg, inputs[..k])
    requires Commits(Process(db, cfg, inputs[..k]), cfg, inputs[k].event)
    ensures !LogHas(Process(db, cfg, DropRepeats(inputs[..n])).events, inputs[k].event.kind, inputs[k].event.sale)
    decreases n
  {
    hide Step, Commits, LogHas;
    if n == k {
      CommitIsNew(Process(db, cfg, inputs[..k]), cfg, inputs[k].event);
      DroppingKeepsProcess(db, cfg, inputs[..k]);
    } else {
      var m, e := n - 1, inputs[k].event;
      DroppedNeverLogs(db, cfg, inputs, k, m);
      assert inputs[..n][..m] == inputs[..m] && inputs[..n][m] == inputs[m];
      RepeatsPrefix(inputs, n, m);
      if !Repeats(inputs, m) {
        var kept := DropRepeats(inputs[..m]);
        assert (kept + [inputs[m]])[..|kept|] == kept;
        var i :| 0 <= i < k && SameKey(inputs[i], inputs[k]);
        assert !SameKey(inputs[i], inputs[m]);
        LogStep(Process(db, cfg, kept), cfg, inputs[m], e.kind, e.sale);
      }
    }
  }

  /**
   Deleting every repeat of a (type, non-empty sale) changes nothing, log
   included, if and only if no repeat commits when it arrives.
   */
  lemma Replay(db: Db, cfg: Config, inputs: seq<Input>)
    ensures Process(db, cfg, DropRepeats(inputs)) == Process(db, cfg, inputs) <==> NoRevival(db, cfg, inputs)
  {
    if NoRevival(db, cfg, inputs) {
      DroppingKeepsProcess(db, cfg, inputs);
    } else {
      var k := FirstRevival(db, cfg, inputs);
      var e := inputs[k].event;
      ProcessNext(db, cfg, inputs, k);
      LogStep(Process(db, cfg, inputs[..k]), cfg, inputs[k], e.kind, e.sale);
      LogStays(db, cfg, inputs, k + 1, e.kind, e.sale);
      DroppedNeverLogs(db, cfg, inputs, k, |inputs|);
      assert inputs[..|inputs|] == inputs;
    }
  }

  /** A delivery that did not abort put its key into the log, so a repeat does not commit. */
  lemma RepeatIsLogged(db: Db, cfg: Config, inputs: seq<Input>, i: nat, k: nat)
    requires i < k < |inputs| && SameKey(inputs[i], inputs[k])
    requires !Aborts(Process(db, cfg, inputs[..i]), cfg, inputs[i].event)
    ensures !Commits(Process(db, cfg, inputs[..k]), cfg, inputs[k].event)
  {
    hide Step, LogHas, Aborts, Process;
    var e := inputs[i].event;
    ProcessNext(db, cfg, inputs, i);
    LogStep(Process(db, cfg, inputs[..i]), cfg, inputs[i], e.kind, e.sale);
    assert inputs[..k][..i + 1] == inputs[..i + 1];
    LogStays(db, cfg, inputs[..k], i + 1, e.kind, e.sale);
  }

  /** When no first delivery of a key aborts, every repeat is harmless. */
  lemma ReplayOfCommitted(db: Db, cfg: Config, inputs: seq<Input>)
    requires forall k | 0 <= k < |inputs| && inputs[k].Delivery? && !Repeats(inputs, k) ::
               !Aborts(Process(db, cfg, inputs[..k]), cfg, inputs[k].event)
    ensures Process(db, cfg, DropRepeats(inputs)) == Process(db, cfg, inputs)
  {
    hide Commits, Aborts, Process, DropRepeats;
    forall k | 0 <= k < |inputs| && Repeats(inputs, k)
      ensures !Commits(Process(db, cfg, inputs[..k]), cfg, inputs[k].event)
    {
      var i := FirstOfKey(inputs, k);
      RepeatIsLogged(db, cfg, inputs, i, k);
    }
    DroppingKeepsProcess(db, cfg, inputs);
  }

  lemma {:induction false} FirstOfKey(inputs: seq<Input>, k: nat) returns (i: nat)
    requires k < |inputs| && Repeats(inputs, k)
    ensures i < k && SameKey(inputs[i], inputs[k]) && !Repeats(inputs, i)
  {
    i :| 0 <= i < k && SameKey(inputs[i], inputs[k]);
    if Repeats(inputs, i) {
      i := FirstOfKey(inputs, i);
    }
  }

  /** A sale for a workspace that does not exist yet is forgotten, so its repeat is not one. */
  lemma RepeatAfterSignup(cfg: Config)
    ensures var e := Event("sale", "s", "p", "", "", Some(1), 100, "usd", None, None, 0);
            var inputs := [Delivery(e, 0), Signup(1), Delivery(e, 1)];
            var empty := Db(map[], map[], []);
            && "s" in Process(empty, cfg, inputs).purchases
            && "s" !in Process(empty, cfg, DropRepeats(inputs)).purchases
  {
    var e := Event("sale", "s", "p", "", "", Some(1), 100, "usd", None, None, 0);
    var inputs := [Delivery(e, 0), Signup(1), Delivery(e, 1)];
    var empty := Db(map[], map[], []);
    assert inputs[..1] == [Delivery(e, 0)] && inputs[..2] == [Delivery(e, 0), Signup(1)];
    ProcessNext(empty, cfg, inputs, 0);
    ProcessNext(empty, cfg, inputs, 1);
    ProcessNext(empty, cfg, inputs, 2);
    assert inputs[..3] == inputs;
    assert Process(empty, cfg, inputs[..1]) == empty;
    var joined := Process(empty, cfg, inputs[..2]);
    assert joined == Db(map[1 := FRESH_TENANT], map[], []);
    assert !Aborts(joined, cfg, e);
    assert SameKey(inputs[0], inputs[2]) && Repeats(inputs, 2);
    assert inputs[..2][..1] == inputs[..1] && inputs[..1][..0] == [];
    assert DropRepeats(inputs[..1]) == inputs[..1];
    assert inputs[..2][1] == inputs[1];
    assert DropRepeats(inputs[..2]) == inputs[..1] + [inputs[1]];
    assert DropRepeats(inputs) == inputs[..2];
  }

  // ---------------------------------------------------------------- the invariant

  predicate TenantInv(row: TenantRow) {
    && (row.pendingPlan.None? <==> row.pendingPlanAt.None?)
    && (row.pendingPlan.Some? ==> row.pendingPlan == Some(Free) && row.renewsAt == row.pendingPlanAt)
  }

  predicate PurchaseInv(db: Db, p: Purchase) {
    && (p.status == Refunded <==> p.refundedAt.Some?)
    && (p.tenant.Some? ==> p.tenant.value in db.tenants)
    && p.license != Some("")
  }

  ghost predicate LicensesUnique(purchases: map<string, Purchase>) {
    forall s, t | s in purchases && t in purchases && s != t && purchases[s].license.Some? ::
      purchases[s].license != purchases[t].license
  }

  predicate DedupHolds(events: seq<EventRow>) {
    forall i, k | 0 <= i < k < |events| && events[k].sale.Some? ::
      events[i].kind != events[k].kind || events[i].sale != events[k].sale
  }

  ghost predicate Inv(db: Db) {
    && (forall t | t in db.tenants :: TenantInv(db.tenants[t]))
    && (forall s | s in db.purchases :: PurchaseInv(db, db.purchases[s]))
    && LicensesUnique(db.purchases)
    && DedupHolds(db.events)
  }

  /** The billing columns of tenants before the first webhook: any plan, nothing pending. */
  predicate Init(db: Db) {
    && db.purchases == map[] && db.events == []
    && forall t | t in db.tenants :: db.tenants[t].pendingPlan.None? && db.tenants[t].pendingPlanAt.None?
  }

  lemma DedupStep(db: Db, cfg: Config, input: Input)
    requires DedupHolds(db.events)
    ensures DedupHolds(Step(db, cfg, input).events)
  {
    LogAfter(db, cfg, input);
    hide Step;
  }

  lemma PurchaseStep(db: Db, cfg: Config, input: Input, s: string)
    requires s in Step(db, cfg, input).purchases && (s in db.purchases ==> PurchaseInv(db, db.purchases[s]))
    ensures PurchaseInv(Step(db, cfg, input), Step(db, cfg, input).purchases[s])
  {
    hide Logged, RowAfter, LicenseTaken;
    if input.Delivery? && s != input.event.sale {
      DeliveryFrame(db, cfg, input.event, input.at);
    }
  }

  lemma LicensesStep(db: Db, cfg: Config, e: Event, at: Time)
    requires Commits(db, cfg, e) && LicensesUnique(db.purchases)
    ensures LicensesUnique(PurchasesAfter(db, cfg, e, at))
  {
    hide Logged;
    var after := PurchasesAfter(db, cfg, e, at);
    assert forall s | s in after && s != e.sale :: s in db.purchases && after[s] == db.purchases[s];
    assert e.license != "" && Upserts(e) && e.tenant.Some? && e.sale !in db.purchases ==>
        forall s | s in db.purchases :: db.purchases[s].license != Some(e.license);
  }

  lemma TenantsStep(db: Db, cfg: Config, input: Input)
    requires forall t | t in db.tenants :: TenantInv(db.tenants[t])
    ensures var after := Step(db, cfg, input);
            && (!input.Remove? ==> db.tenants.Keys <= after.tenants.Keys)
            && forall t | t in after.tenants :: TenantInv(after.tenants[t])
  {}

  lemma InvPreserved(db: Db, cfg: Config, input: Input)
    requires Inv(db)
    ensures Inv(Step(db, cfg, input))
  {
    hide TenantInv, PurchaseInv, DedupHolds, LicensesUnique, Aborts, Logged;
    TenantsStep(db, cfg, input);
    DedupStep(db, cfg, input);
    var after := Step(db, cfg, input);
    forall s | s in after.purchases ensures PurchaseInv(after, after.purchases[s]) {
      PurchaseStep(db, cfg, input, s);
    }
    if input.Delivery? && Commits(db, cfg, input.event) {
      LicensesStep(db, cfg, input.event, input.at);
    } else if input.Remove? {
      LicensesKept(db, input.tenant);
    }
  }

  lemma LicensesKept(db: Db, t: TenantId)
    requires LicensesUnique(db.purchases)
    ensures LicensesUnique(DeleteTenant(db, t).purchases)
  {}

  lemma {:induction false} InvAlways(db: Db, cfg: Config, inputs: seq<Input>)
    requires Init(db)
    ensures Inv(Process(db, cfg, inputs))
  {
    if inputs != [] {
      InvAlways(db, cfg, inputs[..|inputs| - 1]);
      InvPreserved(Process(db, cfg, inputs[..|inputs| - 1]), cfg, inputs[|inputs| - 1]);
    }
  }

  // ---------------------------------------------------------------- what stays

  /**
   The later purchase q is the earlier p: of the same thing, and of the same tenant or, once it was
   deleted, of none.
   */
  predicate SamePurchase(p: Purchase, q: Purchase) {
    (q.tenant == p.tenant || q.tenant == None) && p.license == q.license && p.product == q.product
      && p.purchasedAt == q.purchasedAt
  }

  /** A recorded sale stays; its tenant is kept or cleared, never changed to another. */
  lemma {:induction false} PurchasesKeepTheirTenant(db: Db, cfg: Config, inputs: seq<Input>, i: nat, sale: string)
    requires i <= |inputs| && sale in Process(db, cfg, inputs[..i]).purchases
    ensures sale in Process(db, cfg, inputs).purchases
    ensures SamePurchase(Process(db, cfg, inputs[..i]).purchases[sale], Process(db, cfg, inputs).purchases[sale])
    decreases |inputs|
  {
    if i == |inputs| {
      assert inputs[..i] == inputs;
    } else {
      var n := |inputs| - 1;
      assert inputs[..n][..i] == inputs[..i];
      PurchasesKeepTheirTenant(db, cfg, inputs[..n], i, sale);
    }
  }

  /** The input is a delivery to this tenant, an override of its plan, or its deletion. */
  predicate Concerns(input: Input, t: TenantId) {
    || (input.Delivery? && input.event.tenant == Some(t))
    || ((input.Override? || input.Remove?) && input.tenant == t)
  }

  /** A delivery rewrites no tenant but its own and no purchase but its sale's. */
  lemma DeliveryFrame(db: Db, cfg: Config, e: Event, at: Time)
    ensures var after := Deliver(db, cfg, e, at);
            && after.tenants.Keys == db.tenants.Keys
            && (forall t | t in db.tenants && e.tenant != Some(t) :: after.tenants[t] == db.tenants[t])
            && (forall s | s in after.purchases && s != e.sale ::
                  s in db.purchases && after.purchases[s] == db.purchases[s])
            && (e.tenant.None? ==> after.tenants == db.tenants && after.purchases == db.purchases)
  {}

  /**
   Deliveries to other tenants, overrides of theirs and their deletions never change a tenant's row,
   however many there are.
   */
  lemma {:induction false} OtherTenantsUntouched(db: Db, cfg: Config, inputs: seq<Input>, t: TenantId)
    requires t in db.tenants && forall k | 0 <= k < |inputs| :: !Concerns(inputs[k], t)
    ensures t in Process(db, cfg, inputs).tenants && Process(db, cfg, inputs).tenants[t] == db.tenants[t]
  {
    if inputs != [] {
      var n := |inputs| - 1;
      forall k | 0 <= k < n ensures !Concerns(inputs[..n][k], t) {
        assert inputs[..n][k] == inputs[k];
      }
      OtherTenantsUntouched(db, cfg, inputs[..n], t);
      if inputs[n].Delivery? {
        DeliveryFrame(Process(db, cfg, inputs[..n]), cfg, inputs[n].event, inputs[n].at);
      }
    }
  }

  /** The input may write the purchase of this sale: a delivery that names it, or the deletion of its tenant. */
  predicate Writes(input: Input, sale: string, owner: Option<TenantId>) {
    || (input.Delivery? && input.event.sale == sale && input.event.tenant.Some?)
    || (input.Remove? && owner == Some(input.tenant))
  }

  /** Nor a purchase, unless one of them names its sale or deletes its tenant. */
  lemma {:induction false} OtherPurchasesUntouched(db: Db, cfg: Config, inputs: seq<Input>, sale: string)
    requires sale in db.purchases
    requires forall k | 0 <= k < |inputs| :: !Writes(inputs[k], sale, db.purchases[sale].tenant)
    ensures sale in Process(db, cfg, inputs).purchases && Process(db, cfg, inputs).purchases[sale] == db.purchases[sale]
  {
    if inputs != [] {
      var n := |inputs| - 1;
      forall k | 0 <= k < n ensures !Writes(inputs[..n][k], sale, db.purchases[sale].tenant) {
        assert inputs[..n][k] == inputs[k];
      }
      OtherPurchasesUntouched(db, cfg, inputs[..n], sale);
      if inputs[n].Delivery? {
        SaleStays(Process(db, cfg, inputs[..n]), cfg, inputs[n].event, inputs[n].at, sale);
      }
    }
  }

  lemma SaleStays(db: Db, cfg: Config, e: Event, at: Time, sale: string)
    requires sale in db.purchases && (e.sale != sale || e.tenant.None?)
    ensures sale in Deliver(db, cfg, e, at).purchases && Deliver(db, cfg, e, at).purchases[sale] == db.purchases[sale]
  {}

  // ---------------------------------------------------------------- what each kind of event means

  /** The tier a product of this kind is sold as; rescues and unknown products are one-time purchases. */
  predicate SoldAs(kind: Kind, plan: Option<Plan>) {
    match kind
    case StarterKind => plan == Some(Pro)
    case GrowthKind => plan == Some(Growth)
    case AgencyKind => plan == Some(Agency)
    case RescueKind => plan == None
    case UnknownKind => plan == None
  }

  /** The end of a period that the event names, or else one month after `start`. */
  predicate EndsPeriod(cfg: Config, e: Event, start: Time, end: Option<Time>) {
    if e.endsAt.Some? then end == e.endsAt else end == Some(cfg.month(start))
  }

  /**
   A sale or update of a tier puts the tenant on it until the period ends; of anything else it leaves
   the row alone.
   */
  lemma TierIsGranted(db: Db, cfg: Config, e: Event, at: Time, t: TenantId)
    requires Commits(db, cfg, e) && e.tenant == Some(t) && e.kind in {"sale", "subscription_updated"}
    ensures t in db.tenants && t in Deliver(db, cfg, e, at).tenants
    ensures var was, row := db.tenants[t], Deliver(db, cfg, e, at).tenants[t];
            var kind := if e.product in cfg.catalog then cfg.catalog[e.product] else UnknownKind;
            if kind in {StarterKind, GrowthKind, AgencyKind} then
              && SoldAs(kind, Some(row.plan)) && EndsPeriod(cfg, e, e.purchasedAt, row.renewsAt)
              && row.pendingPlan == None && row.pendingPlanAt == None
              && row.subscription == if e.kind == "sale" && e.subscription != "" then Some(e.subscription)
                                     else was.subscription
            else row == was
  {
    hide Logged, LicenseTaken;
  }

  /**
   A cancellation keeps the plan until the period ends, an end or a refund of a sale
   on record with a tier takes it at once, and no other event touches the row.
   */
  lemma TierIsTaken(db: Db, cfg: Config, e: Event, at: Time, t: TenantId)
    requires Commits(db, cfg, e) && e.tenant == Some(t) && e.kind !in {"sale", "subscription_updated"}
    ensures t in db.tenants && t in Deliver(db, cfg, e, at).tenants
    ensures var was, row := db.tenants[t], Deliver(db, cfg, e, at).tenants[t];
            if e.kind == "subscription_cancelled" then
              && EndsPeriod(cfg, e, at, row.renewsAt) && row.pendingPlan == Some(Free)
              && row.pendingPlanAt == row.renewsAt && row.plan == was.plan && row.subscription == was.subscription
            else if e.kind == "subscription_ended" ||
                    (e.kind == "refund" && e.sale in db.purchases && db.purchases[e.sale].plan != Free) then
              row == TenantRow(Free, None, None, None, was.subscription)
            else row == was
  {
    hide Logged, LicenseTaken;
  }

  /**
   A sale, and an update that names one, is recorded as active with the event's tier
   (or free) and price; a sale on record keeps its tenant, license, product and date.
   A refund of a sale on record marks it, and no other event changes any purchase.
   */
  lemma PurchaseIsRecorded(db: Db, cfg: Config, e: Event, at: Time)
    requires Commits(db, cfg, e) && e.tenant.Some?
    ensures var after := Deliver(db, cfg, e, at).purchases;
            var kind := if e.product in cfg.catalog then cfg.catalog[e.product] else UnknownKind;
            if e.kind == "sale" || (e.kind == "subscription_updated" && e.sale != "") then
              && e.sale in after && after == db.purchases[e.sale := after[e.sale]]
              && var p := after[e.sale];
              && SoldAs(kind, if p.plan == Free then None else Some(p.plan))
              && p.cents == e.cents && p.currency == e.currency && p.status == Active && p.refundedAt == None
              && if e.sale in db.purchases then
                   var was := db.purchases[e.sale];
                   p.tenant == was.tenant && p.license == was.license && p.product == was.product
                   && p.purchasedAt == was.purchasedAt
                 else
                   && p.tenant == e.tenant && p.product == e.product && p.purchasedAt == e.purchasedAt
                   && p.license == if e.license == "" then None else Some(e.license)
            else if e.kind == "refund" && e.sale in db.purchases then
              var when := if e.refundedAt.Some? then e.refundedAt.value else at;
              after == db.purchases[e.sale := db.purchases[e.sale].(status := Refunded, refundedAt := Some(when))]
            else after == db.purchases
  {
    hide Logged, LicenseTaken;
  }

  /**
   Every delivery that commits is logged with its sale, tenant and product; one without a tenant only
   with an error.
   */
  lemma EventIsLogged(db: Db, cfg: Config, e: Event, at: Time)
    requires Commits(db, cfg, e)
    ensures var sale := if e.sale == "" then None else Some(e.sale);
            var product := if e.product == "" then None else Some(e.product);
            Deliver(db, cfg, e, at).events == db.events +
              [if e.tenant.None? && e.kind != "ping"
               then EventRow(e.kind, sale, None, None, Some("missing tenant_id custom field"))
               else EventRow(e.kind, sale, e.tenant, product, None)]
  {}

  /** A delivery does not commit if it is logged, or a statement of it fails. */
  lemma CommitsExactly(db: Db, cfg: Config, e: Event)
    ensures Commits(db, cfg, e) <==>
            && (e.sale == "" || forall i | 0 <= i < |db.events| ::
                  db.events[i].kind != e.kind || db.events[i].sale != Some(e.sale))
            && (e.tenant.Some? ==>
                  && e.tenant.value in db.tenants
                  && (e.kind == "subscription_updated" && e.sale != "" ==>
                        e.product in cfg.catalog && cfg.catalog[e.product] in {StarterKind, GrowthKind, AgencyKind})
                  && (e.kind == "sale" || (e.kind == "subscription_updated" && e.sale != "") ==>
                        || e.sale in db.purchases || e.license == ""
                        || forall s | s in db.purchases :: db.purchases[s].license != Some(e.license)))
  {}

  /** An override sets the plan, for a month of the database's calendar unless it is free, with nothing pending. */
  lemma OverrideMeans(db: Db, cfg: Config, t: TenantId, plan: Plan, now: Time)
    requires t in db.tenants
    ensures var row := TenantRow(plan, if plan == Free then None else Some(cfg.sqlMonth(now)), None, None,
                                 db.tenants[t].subscription);
            SetPlan(db, cfg, t, plan, now) == Db(db.tenants[t := row], db.purchases, db.events)
  {}

  /** After a tenant is deleted nothing names it, and no row of another changes. */
  lemma DeletionMeans(db: Db, t: TenantId)
    requires t in db.tenants
    ensures var after := DeleteTenant(db, t);
            && after.tenants == (map u | u in db.tenants && u != t :: db.tenants[u])
            && after.purchases.Keys == db.purchases.Keys && |after.events| == |db.events|
            && (forall s | s in db.purchases ::
                  var was, p := db.purchases[s], after.purchases[s];
                  p.tenant != Some(t) && p == was.(tenant := if was.tenant == Some(t) then None else was.tenant))
            && (forall i | 0 <= i < |db.events| ::
                  var was, r := db.events[i], after.events[i];
                  r.tenant != Some(t) && r == was.(tenant := if was.tenant == Some(t) then None else was.tenant))
  {}

  // ---------------------------------------------------------------- refunds

  /** A refund that commits downgrades its tenant exactly when the sale is on record with a paid plan. */
  lemma RefundDowngradesPaidSales(db: Db, cfg: Config, e: Event, at: Time)
    requires e.kind == "refund" && e.tenant.Some? && Commits(db, cfg, e)
    ensures var after := Deliver(db, cfg, e, at);
            && (PaidSale(db.purchases, e.sale) ==>
                after.tenants == db.tenants[e.tenant.value := Downgraded(db.tenants[e.tenant.value])])
            && (!PaidSale(db.purchases, e.sale) ==> after.tenants == db.tenants)
            && (e.sale in db.purchases ==>
                  && after.purchases.Keys == db.purchases.Keys && after.purchases[e.sale].status == Refunded
                  && after.purchases[e.sale].plan == db.purchases[e.sale].plan)
            && (e.sale !in db.purchases ==> after.purchases == db.purchases)
  {
    assert db.tenants[e.tenant.value := db.tenants[e.tenant.value]] == db.tenants;
  }

  /**
   Nothing compares the event's tenant with the sale's. A refund changes a tenant's
   row, unless it has none of what a refund takes, if and only if the sale is on
   record with a paid plan and the event names that tenant, whoever bought it.
   */
  lemma ForeignRefund(db: Db, cfg: Config, e: Event, at: Time, t: TenantId)
    requires Commits(db, cfg, e) && e.kind == "refund" && e.tenant.Some?
    requires t in db.tenants && db.tenants[t] != Downgraded(db.tenants[t])
    ensures var after := Deliver(db, cfg, e, at);
            && t in after.tenants
            && (after.tenants[t] != db.tenants[t] <==> PaidSale(db.purchases, e.sale) && e.tenant == Some(t))
            && (after.tenants[t] != db.tenants[t] ==> after.tenants[t] == Downgraded(db.tenants[t]))
            && (e.sale in db.purchases ==>
                  && after.purchases[e.sale].status == Refunded
                  && after.purchases[e.sale].tenant == db.purchases[e.sale].tenant)
  {
    RefundDowngradesPaidSales(db, cfg, e, at);
  }

  lemma PlanSoldOnRecord(db: Db, cfg: Config, e: Event, at: Time)
    requires e.kind == "sale" && e.tenant.Some? && Commits(db, cfg, e)
    ensures var after := Deliver(db, cfg, e, at);
            && PaidSale(after.purchases, e.sale) == TierOf(KindOf(cfg, e)).Some?
            && after.tenants.Keys == db.tenants.Keys
            && (TierOf(KindOf(cfg, e)).None? ==> after.tenants == db.tenants)
  {
    if TierOf(KindOf(cfg, e)).None? {
      assert db.tenants[e.tenant.value := db.tenants[e.tenant.value]] == db.tenants;
    }
  }

  /**
   Buying and refunding a one-time product never touches a running subscription; refunding a tier
   leaves the tenant on free.
   */
  lemma SaleThenRefund(db: Db, cfg: Config, buy: Event, back: Event, at: Time, later: Time)
    requires buy.kind == "sale" && back.kind == "refund" && buy.sale == back.sale && buy.tenant == back.tenant
             && buy.tenant.Some?
    requires Commits(db, cfg, buy) && Commits(Deliver(db, cfg, buy, at), cfg, back)
    ensures var after := Deliver(Deliver(db, cfg, buy, at), cfg, back, later);
            if TierOf(KindOf(cfg, buy)).None? then after.tenants == db.tenants
            else buy.tenant.value in after.tenants && after.tenants[buy.tenant.value].plan == Free
                 && after.tenants[buy.tenant.value].renewsAt == None
  {
    hide Deliver, PaidSale;
    PlanSoldOnRecord(db, cfg, buy, at);
    RefundDowngradesPaidSales(Deliver(db, cfg, buy, at), cfg, back, later);
  }

  /** A cancellation keeps the plan until the period ends, and a later renewal calls the downgrade off. */
  lemma CancelThenRenew(db: Db, cfg: Config, cancel: Event, renew: Event, at: Time, later: Time)
    requires cancel.kind == "subscription_cancelled" && cancel.tenant.Some? && Commits(db, cfg, cancel)
    requires SetsPlan(cfg, renew) && renew.tenant == cancel.tenant && Commits(Deliver(db, cfg, cancel, at), cfg, renew)
    ensures var t, mid := cancel.tenant.value, Deliver(db, cfg, cancel, at);
            var after := Deliver(mid, cfg, renew, later);
            && t in db.tenants && t in mid.tenants && t in after.tenants
            && mid.tenants[t].plan == db.tenants[t].plan && mid.tenants[t].pendingPlan == Some(Free)
            && (cancel.endsAt.Some? ==> mid.tenants[t].pendingPlanAt == cancel.endsAt)
            && Some(after.tenants[t].plan) == TierOf(KindOf(cfg, renew)) && after.tenants[t].pendingPlan == None
            && (renew.endsAt.Some? ==> after.tenants[t].renewsAt == renew.endsAt)
            && mid.purchases == db.purchases
  {
    hide Logged, LicenseTaken;
    assert Deliver(db, cfg, cancel, at).purchases == db.purchases;
  }

  /** A refund that overtakes its sale is lost: the sale then grants its plan, and the refund's repeats are skipped. */
  lemma RefundBeforeSaleIsLost(db: Db, cfg: Config, back: Event, buy: Event, at: Time, later: Time, again: Time)
    requires buy.kind == "sale" && back.kind == "refund" && back.sale == buy.sale != "" && back.tenant == buy.tenant
             && back.tenant.Some?
    requires buy.sale !in db.purchases && Commits(db, cfg, back) && Commits(Deliver(db, cfg, back, at), cfg, buy)
    requires SetsPlan(cfg, buy)
    ensures var after := Deliver(Deliver(db, cfg, back, at), cfg, buy, later);
            && after.purchases[buy.sale].status == Active
            && after.tenants[buy.tenant.value].plan == PlanSold(cfg, buy) != Free
            && Deliver(after, cfg, back, again) == after
  {
    var mid := Deliver(db, cfg, back, at);
    var after := Deliver(mid, cfg, buy, later);
    assert mid.events[|db.events|] == RowOf(back) && after.events[|db.events|] == RowOf(back);
    assert Logged(after.events, back);
  }

  // ---------------------------------------------------------------- why a tenant has its plan

  /** The delivery takes its tenant off its plan. */
  predicate Revokes(db: Db, e: Event) {
    e.kind == "subscription_ended" || (e.kind == "refund" && PaidSale(db.purchases, e.sale))
  }

  /** The plan the input puts tenant t on when it arrives, if it changes it. */
  function PlanChange(db: Db, cfg: Config, input: Input, t: TenantId): Option<Plan> {
    if !Concerns(input, t) then None
    else if input.Remove? then Some(Free) // whoever signs up under that id again starts on free
    else if input.Override? then Some(input.plan)
    else if !Commits(db, cfg, input.event) then None
    else if SetsPlan(cfg, input.event) then TierOf(KindOf(cfg, input.event))
    else if Revokes(db, input.event) then Some(Free)
    else None
  }

  /** Input i put the tenant on `plan`, and nothing since ended, refunded, replaced or overrode it. */
  ghost predicate LastChange(db: Db, cfg: Config, inputs: seq<Input>, i: nat, t: TenantId, plan: Plan) {
    && i < |inputs| && t in Process(db, cfg, inputs[..i]).tenants
    && PlanChange(Process(db, cfg, inputs[..i]), cfg, inputs[i], t) == Some(plan)
    && forall k | i < k < |inputs| :: PlanChange(Process(db, cfg, inputs[..k]), cfg, inputs[k], t).None?
  }

  lemma PlanStep(db: Db, cfg: Config, input: Input, t: TenantId)
    requires t in db.tenants && !(input.Remove? && input.tenant == t)
    ensures t in Step(db, cfg, input).tenants
    ensures Step(db, cfg, input).tenants[t].plan ==
            match PlanChange(db, cfg, input, t) case Some(plan) => plan case None => db.tenants[t].plan
  {
    hide Logged, LicenseTaken, PaidSale;
  }

  lemma RemovalEndsPlan(db: Db, cfg: Config, input: Input, t: TenantId)
    ensures input.Remove? && input.tenant == t ==>
              PlanChange(db, cfg, input, t) == Some(Free) && t !in Step(db, cfg, input).tenants
  {}

  lemma NewTenantIsFree(db: Db, cfg: Config, input: Input, t: TenantId)
    requires t !in db.tenants && t in Step(db, cfg, input).tenants
    ensures Step(db, cfg, input).tenants[t].plan == Free
  {}

  lemma LastChangePrefix(db: Db, cfg: Config, inputs: seq<Input>, n: nat, i: nat, t: TenantId, plan: Plan)
    requires |inputs| == n + 1 && i < n
    ensures LastChange(db, cfg, inputs, i, t, plan) <==>
            && LastChange(db, cfg, inputs[..n], i, t, plan)
            && PlanChange(Process(db, cfg, inputs[..n]), cfg, inputs[n], t).None?
  {
    hide PlanChange, Process;
    assert forall k | 0 <= k < n :: inputs[..n][..k] == inputs[..k] && inputs[..n][k] == inputs[k];
  }

  /** The last change of a tenant's plan is the plan it has. */
  lemma {:induction false} LastChangeHolds(db: Db, cfg: Config, inputs: seq<Input>, i: nat, t: TenantId, plan: Plan)
    requires LastChange(db, cfg, inputs, i, t, plan) && plan != Free
    ensures t in Process(db, cfg, inputs).tenants && Process(db, cfg, inputs).tenants[t].plan == plan
    decreases |inputs|
  {
    hide PlanChange, Step;
    var n := |inputs| - 1;
    if i < n {
      LastChangePrefix(db, cfg, inputs, n, i, t, plan);
      LastChangeHolds(db, cfg, inputs[..n], i, t, plan);
    }
    RemovalEndsPlan(Process(db, cfg, inputs[..n]), cfg, inputs[n], t);
    PlanStep(Process(db, cfg, inputs[..n]), cfg, inputs[n], t);
  }

  /** A paid plan that the tenant did not start with was put there by some input. */
  lemma {:induction false} PaidPlanWasSet(db: Db, cfg: Config, inputs: seq<Input>, t: TenantId) returns (i: nat)
    requires t in Process(db, cfg, inputs).tenants && Process(db, cfg, inputs).tenants[t].plan != Free
    requires t !in db.tenants || db.tenants[t].plan == Free
    ensures LastChange(db, cfg, inputs, i, t, Process(db, cfg, inputs).tenants[t].plan)
    decreases |inputs|
  {
    hide PlanChange, Step;
    var n := |inputs| - 1;
    var was := Process(db, cfg, inputs[..n]);
    if t !in was.tenants {
      NewTenantIsFree(was, cfg, inputs[n], t);
    }
    RemovalEndsPlan(was, cfg, inputs[n], t);
    PlanStep(was, cfg, inputs[n], t);
    if PlanChange(was, cfg, inputs[n], t).Some? {
      i := n;
    } else {
      i := PaidPlanWasSet(db, cfg, inputs[..n], t);
      LastChangePrefix(db, cfg, inputs, n, i, t, was.tenants[t].plan);
    }
  }

  /** The input is what may put the tenant on that plan: a committed sale or update of its tier, or an override. */
  predicate Grants(db: Db, cfg: Config, input: Input, t: TenantId, plan: Plan) {
    || (input.Override? && input.tenant == t && input.plan == plan)
    || (input.Delivery? && input.event.tenant == Some(t) && Commits(db, cfg, input.event)
        && input.event.kind in {"sale", "subscription_updated"} && TierOf(KindOf(cfg, input.event)) == Some(plan))
  }

  /**
   A tenant that signed up on the free plan has a paid plan if and only if the
   last of its plan changes was to that plan: a committed sale or update of that
   tier for that very tenant, or an override to it, with nothing ending,
   refunding, replacing or overriding it since.
   */
  lemma PaidPlanHasCause(db: Db, cfg: Config, inputs: seq<Input>, t: TenantId, plan: Plan)
    requires plan != Free && (t !in db.tenants || db.tenants[t].plan == Free)
    ensures (t in Process(db, cfg, inputs).tenants && Process(db, cfg, inputs).tenants[t].plan == plan) <==>
            exists i: nat :: LastChange(db, cfg, inputs, i, t, plan)
    ensures forall i: nat | LastChange(db, cfg, inputs, i, t, plan) ::
              Grants(Process(db, cfg, inputs[..i]), cfg, inputs[i], t, plan)
  {
    if t in Process(db, cfg, inputs).tenants && Process(db, cfg, inputs).tenants[t].plan == plan {
      var i := PaidPlanWasSet(db, cfg, inputs, t);
    }
    if i: nat :| LastChange(db, cfg, inputs, i, t, plan) {
      LastChangeHolds(db, cfg, inputs, i, t, plan);
    }
  }
}
