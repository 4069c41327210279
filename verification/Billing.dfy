/**
 Gumroad billing: each webhook delivery is one transaction that logs the event,
 rewrites the tenant and purchase rows it concerns, and commits. A delivery whose
 (type, sale) is already in the log does nothing; a statement that fails aborts
 the transaction, and with it the log entry.
 */
module Billing {
  import opened Base

  type TenantId = nat

  datatype Kind = StarterKind | GrowthKind | AgencyKind | RescueKind | UnknownKind

  // The values of the enum plan_tier.
  datatype Plan = Free | Starter | Pro | Growth | Agency | Enterprise

  datatype PurchaseStatus = Active | Refunded

  datatype Event = Event(
    kind: string,
    sale: string, // "" when the event names none
    product: string,
    license: string,
    subscription: string,
    tenant: Option<TenantId>,
    cents: int,
    currency: string,
    endsAt: Option<Time>,
    refundedAt: Option<Time>,
    purchasedAt: Time)

  datatype TenantRow = TenantRow(
    plan: Plan,
    renewsAt: Option<Time>,
    pendingPlan: Option<Plan>,
    pendingPlanAt: Option<Time>,
    subscription: Option<string>)

  datatype Purchase = Purchase(
    tenant: Option<TenantId>,
    license: Option<string>,
    product: string,
    plan: Plan,
    cents: int,
    currency: string,
    status: PurchaseStatus,
    purchasedAt: Time,
    refundedAt: Option<Time>)

  datatype EventRow = EventRow(
    kind: string,
    sale: Option<string>,
    tenant: Option<TenantId>,
    product: Option<string>,
    error: Option<string>)

  /** `purchases` is keyed by the unique column gumroad_sale_id. */
  datatype Db = Db(tenants: map<TenantId, TenantRow>, purchases: map<string, Purchase>, events: seq<EventRow>)

  /**
   The product catalog, Go's AddDate(0, 1, 0), and PostgreSQL's interval '1 month', which ends long
   months differently.
   */
  datatype Config = Config(catalog: map<string, Kind>, month: Time -> Time, sqlMonth: Time -> Time)

  const MISSING_TENANT := "missing tenant_id custom field"
  const FRESH_TENANT := TenantRow(Free, None, None, None, None)

  function KindOf(cfg: Config, e: Event): Kind {
    if e.product in cfg.catalog then cfg.catalog[e.product] else UnknownKind
  }

  /** Product.PlanTier, with None for "". */
  function TierOf(k: Kind): Option<Plan> {
    match k
    case StarterKind => Some(Pro)
    case GrowthKind => Some(Growth)
    case AgencyKind => Some(Agency)
    case _ => None
  }

  // ---------------------------------------------------------------- what a delivery means

  /** The event puts its tenant on the tier of its product. */
  predicate SetsPlan(cfg: Config, e: Event) {
    e.kind in {"sale", "subscription_updated"} && TierOf(KindOf(cfg, e)).Some?
  }

  predicate Upserts(e: Event) {
    e.kind == "sale" || (e.kind == "subscription_updated" && e.sale != "")
  }

  /** The sale is on record as one that granted a plan. */
  predicate PaidSale(purchases: map<string, Purchase>, sale: string) {
    sale in purchases && purchases[sale].plan != Free
  }

  predicate LicenseTaken(purchases: map<string, Purchase>, license: string) {
    license != "" && exists s | s in purchases :: purchases[s].license == Some(license)
  }

  function Downgraded(row: TenantRow): TenantRow {
    row.(plan := Free, renewsAt := None, pendingPlan := None, pendingPlanAt := None)
  }

  function PeriodEnd(cfg: Config, e: Event, start: Time): Time {
    if e.endsAt.Some? then e.endsAt.value else cfg.month(start)
  }

  function RowAfter(db: Db, cfg: Config, row: TenantRow, e: Event, now: Time): TenantRow {
    if SetsPlan(cfg, e) then
      TenantRow(TierOf(KindOf(cfg, e)).value, Some(PeriodEnd(cfg, e, e.purchasedAt)), None, None,
                if e.kind == "sale" && e.subscription != "" then Some(e.subscription) else row.subscription)
    else if e.kind == "subscription_cancelled" then
      row.(renewsAt := Some(PeriodEnd(cfg, e, now)),
           pendingPlan := Some(Free), pendingPlanAt := Some(PeriodEnd(cfg, e, now)))
    else if e.kind == "subscription_ended" || (e.kind == "refund" && PaidSale(db.purchases, e.sale)) then
      Downgraded(row)
    else row
  }

  function TenantsAfter(db: Db, cfg: Config, e: Event, now: Time): map<TenantId, TenantRow> {
    if e.tenant.Some? && e.tenant.value in db.tenants then
      db.tenants[e.tenant.value := RowAfter(db, cfg, db.tenants[e.tenant.value], e, now)]
    else db.tenants
  }

  /** A recorded sale keeps its tenant, license, product and date; a new one takes the event's. */
  function Upserted(purchases: map<string, Purchase>, e: Event, plan: Plan): Purchase {
    if e.sale in purchases then
      purchases[e.sale].(plan := plan, cents := e.cents, currency := e.currency, status := Active, refundedAt := None)
    else
      Purchase(e.tenant, NullIfEmpty(e.license), e.product, plan, e.cents, e.currency, Active, e.purchasedAt, None)
  }

  function PlanSold(cfg: Config, e: Event): Plan {
    if TierOf(KindOf(cfg, e)).Some? then TierOf(KindOf(cfg, e)).value else Free
  }

  function PurchasesAfter(db: Db, cfg: Config, e: Event, now: Time): map<string, Purchase> {
    if e.tenant.None? then db.purchases
    else if Upserts(e) then db.purchases[e.sale := Upserted(db.purchases, e, PlanSold(cfg, e))]
    else if e.kind == "refund" && e.sale in db.purchases then
      db.purchases[e.sale := db.purchases[e.sale].(
        status := Refunded, refundedAt := Some(if e.refundedAt.Some? then e.refundedAt.value else now))]
    else db.purchases
  }

  function RowOf(e: Event): EventRow {
    if e.tenant.None? && e.kind != "ping" then EventRow(e.kind, NullIfEmpty(e.sale), None, None, Some(MISSING_TENANT))
    else EventRow(e.kind, NullIfEmpty(e.sale), e.tenant, NullIfEmpty(e.product), None)
  }

  predicate LogHas(events: seq<EventRow>, kind: string, sale: string) {
    exists i | 0 <= i < |events| :: events[i].kind == kind && events[i].sale == Some(sale)
  }

  /** gumroad_webhook_events_uniq: a committed row has the event's type and its sale id, which is not NULL. */
  predicate Logged(events: seq<EventRow>, e: Event) {
    e.sale != "" && LogHas(events, e.kind, e.sale)
  }

  /**
   Some statement fails: the tenant does not exist, the updated subscription's
   product has no tier to store, or a new purchase has another purchase's license.
   */
  predicate Aborts(db: Db, cfg: Config, e: Event) {
    e.tenant.Some? && (
      || e.tenant.value !in db.tenants
      || (e.kind == "subscription_updated" && Upserts(e) && TierOf(KindOf(cfg, e)).None?)
      || (Upserts(e) && e.sale !in db.purchases && LicenseTaken(db.purchases, e.license)))
  }

  function Deliver(db: Db, cfg: Config, e: Event, now: Time): Db {
    if Logged(db.events, e) || Aborts(db, cfg, e) then db
    else Db(TenantsAfter(db, cfg, e, now), PurchasesAfter(db, cfg, e, now), db.events + [RowOf(e)])
  }

  /** A super-admin's override: any tier of the enum, for the time being, and nothing pending. */
  function Overridden(cfg: Config, row: TenantRow, plan: Plan, now: Time): TenantRow {
    row.(plan := plan, renewsAt := if plan == Free then None else Some(cfg.sqlMonth(now)),
         pendingPlan := None, pendingPlanAt := None)
  }

  function SetPlan(db: Db, cfg: Config, t: TenantId, plan: Plan, now: Time): Db {
    if t in db.tenants then db.(tenants := db.tenants[t := Overridden(cfg, db.tenants[t], plan, now)]) else db
  }

  function ClearedPurchase(p: Purchase, t: TenantId): Purchase {
    if p.tenant == Some(t) then p.(tenant := None) else p
  }

  function ClearedEvent(r: EventRow, t: TenantId): EventRow {
    if r.tenant == Some(t) then r.(tenant := None) else r
  }

  /** DELETE FROM tenants WHERE id = t, with the ON DELETE SET NULL of purchases and log rows. */
  function DeleteTenant(db: Db, t: TenantId): Db {
    if t !in db.tenants then db
    else
      Db(db.tenants - {t},
         map s | s in db.purchases :: ClearedPurchase(db.purchases[s], t),
         seq(|db.events|, i requires 0 <= i < |db.events| => ClearedEvent(db.events[i], t)))
  }

  // ---------------------------------------------------------------- the handlers

  /** An open transaction: once a statement has failed, so do all later ones and the commit. */
  class Tx {
    var db: Db
    var failed: bool

    constructor (db: Db)
      ensures this.db == db && !failed
    {
      this.db := db;
      failed := false;
    }

    /** UPDATE tenants SET ... WHERE id = t. */
    method UpdateTenant(t: TenantId, row: TenantRow) returns (ok: bool)
      modifies this
      ensures failed == old(failed) && ok == !failed && db.events == old(db.events)
      ensures ok ==>
              db == old(db).(tenants := if t in old(db.tenants) then old(db.tenants)[t := row] else old(db.tenants))
    {
      if !failed && t in db.tenants {
        db := db.(tenants := db.tenants[t := row]);
      }
      ok := !failed;
    }

    /** INSERT INTO purchases ... ON CONFLICT (gumroad_sale_id) DO UPDATE; `plan` None is the text ''. */
    method UpsertPurchase(e: Event, plan: Option<Plan>) returns (ok: bool)
      modifies this
      ensures ok == !failed && db.events == old(db.events)
      ensures failed <==>
              || old(failed) || plan.None?
              || (e.sale !in old(db.purchases) &&
                  ((e.tenant.Some? && e.tenant.value !in old(db.tenants))
                   || LicenseTaken(old(db.purchases), e.license)))
      ensures ok ==>
              db == old(db).(purchases := old(db.purchases)[e.sale := Upserted(old(db.purchases), e, plan.value)])
    {
      if failed || plan.None? {
        failed := true; // invalid input value for enum plan_tier
        return false;
      }
      if e.sale in db.purchases {
        var p := db.purchases[e.sale];
        p := p.(plan := plan.value, cents := e.cents, currency := e.currency);
        p := p.(status := Active, refundedAt := None);
        db := db.(purchases := db.purchases[e.sale := p]);
        return true;
      }
      if (e.tenant.Some? && e.tenant.value !in db.tenants) || LicenseTaken(db.purchases, e.license) {
        failed := true; // purchases_tenant_id_fkey or purchases_license_key_key
        return false;
      }
      var p := Purchase(e.tenant, NullIfEmpty(e.license), e.product, plan.value, e.cents, e.currency, Active,
                        e.purchasedAt, None);
      db := db.(purchases := db.purchases[e.sale := p]);
      ok := true;
    }

    /** UPDATE purchases SET status = 'refunded' ... RETURNING plan. */
    method RefundPurchase(sale: string, at: Time) returns (plan: Option<Plan>)
      requires !failed
      modifies this
      ensures !failed
      ensures plan == if sale in old(db.purchases) then Some(old(db.purchases)[sale].plan) else None
      ensures db == old(db).(purchases :=
                if sale in old(db.purchases) then
                  old(db.purchases)[sale := old(db.purchases)[sale].(status := Refunded, refundedAt := Some(at))]
                else old(db.purchases))
    {
      plan := None;
      if sale in db.purchases {
        var p := db.purchases[sale].(status := Refunded, refundedAt := Some(at));
        db := db.(purchases := db.purchases[sale := p]);
        plan := Some(p.plan);
      }
    }

    /** INSERT INTO gumroad_webhook_events ... ON CONFLICT DO NOTHING RETURNING id. */
    method InsertEvent(e: Event) returns (id: Option<nat>)
      requires !failed
      modifies this
      ensures !failed
      ensures id == if Logged(old(db.events), e) then None else Some(|old(db.events)|)
      ensures db == old(db).(events := if id.None? then old(db.events)
                                        else old(db.events) + [EventRow(e.kind, NullIfEmpty(e.sale), None, None, None)])
    {
      if Logged(db.events, e) {
        return None;
      }
      id := Some(|db.events|);
      db := db.(events := db.events + [EventRow(e.kind, NullIfEmpty(e.sale), None, None, None)]);
    }

    /** UPDATE gumroad_webhook_events SET ... WHERE id = id. */
    method UpdateEvent(id: nat, row: EventRow) returns (ok: bool)
      requires id < |db.events|
      modifies this
      ensures ok == !failed
      ensures failed <==> old(failed) || (row.tenant.Some? && row.tenant.value !in old(db.tenants))
      ensures ok ==> db == old(db).(events := old(db.events)[id := row])
    {
      if row.tenant.Some? && row.tenant.value !in db.tenants {
        failed := true; // gumroad_webhook_events_tenant_id_fkey
      }
      if !failed {
        db := db.(events := db.events[id := row]);
      }
      ok := !failed;
    }
  }

  class Dispatcher {
    const cfg: Config

    constructor (cfg: Config)
      ensures this.cfg == cfg
    {
      this.cfg := cfg;
    }

    /** The tables the event leaves, its own log row aside. */
    ghost predicate Applied(was: Db, now: Db, e: Event, at: Time) {
      now == was.(tenants := TenantsAfter(was, cfg, e, at), purchases := PurchasesAfter(was, cfg, e, at))
    }

    method HandleSale(tx: Tx, e: Event, at: Time) returns (ok: bool)
      requires !tx.failed && e.kind == "sale" && e.tenant.Some?
      modifies tx
      ensures ok == !tx.failed && |tx.db.events| == |old(tx.db.events)|
      ensures e.tenant.value in old(tx.db.tenants) ==> (ok <==> !Aborts(old(tx.db), cfg, e))
      ensures ok ==> Applied(old(tx.db), tx.db, e, at)
    {
      var kind := KindOf(cfg, e);
      var plan := TierOf(kind);
      if plan.None? {
        plan := Some(Free);
      }
      ghost var was := tx.db;
      ok := tx.UpsertPurchase(e, plan);
      if !ok {
        return;
      }
      if kind.StarterKind? || kind.GrowthKind? || kind.AgencyKind? {
        if e.tenant.value in tx.db.tenants {
          var row := tx.db.tenants[e.tenant.value];
          row := row.(plan := plan.value, renewsAt := Some(PeriodEnd(cfg, e, e.purchasedAt)));
          row := row.(pendingPlan := None, pendingPlanAt := None);
          if e.subscription != "" {
            row := row.(subscription := Some(e.subscription));
          }
          ok := tx.UpdateTenant(e.tenant.value, row);
        }
      } else {
        assert TenantsAfter(was, cfg, e, at) == was.tenants;
      }
    }

    method HandleSubscriptionUpdated(tx: Tx, e: Event, at: Time) returns (ok: bool)
      requires !tx.failed && e.kind == "subscription_updated" && e.tenant.Some?
      modifies tx
      ensures ok && |tx.db.events| == |old(tx.db.events)|
      ensures e.tenant.value in old(tx.db.tenants) ==> (tx.failed <==> Aborts(old(tx.db), cfg, e))
      ensures !tx.failed ==> Applied(old(tx.db), tx.db, e, at)
    {
      var plan := TierOf(KindOf(cfg, e));
      ghost var was := tx.db;
      if plan.Some? && e.tenant.value in tx.db.tenants {
        var row := tx.db.tenants[e.tenant.value];
        row := row.(plan := plan.value, renewsAt := Some(PeriodEnd(cfg, e, e.purchasedAt)));
        ok := tx.UpdateTenant(e.tenant.value, row.(pendingPlan := None, pendingPlanAt := None));
      } else {
        assert TenantsAfter(was, cfg, e, at) == was.tenants;
      }
      if e.sale != "" {
        ok := tx.UpsertPurchase(e, plan); // the error is dropped; the transaction stays failed
      }
      ok := true;
    }

    method HandleSubscriptionCancelled(tx: Tx, e: Event, at: Time) returns (ok: bool)
      requires !tx.failed && e.kind == "subscription_cancelled" && e.tenant.Some?
      modifies tx
      ensures ok && !tx.failed && Applied(old(tx.db), tx.db, e, at)
    {
      var endsAt := PeriodEnd(cfg, e, at);
      ok := true;
      if e.tenant.value in tx.db.tenants {
        var row := tx.db.tenants[e.tenant.value];
        row := row.(pendingPlan := Some(Free), pendingPlanAt := Some(endsAt), renewsAt := Some(endsAt));
        ok := tx.UpdateTenant(e.tenant.value, row);
      }
    }

    method Downgrade(tx: Tx, t: TenantId) returns (ok: bool)
      requires !tx.failed
      modifies tx
      ensures ok && !tx.failed
      ensures tx.db == old(tx.db).(tenants :=
                if t in old(tx.db.tenants) then old(tx.db.tenants)[t := Downgraded(old(tx.db.tenants)[t])]
                else old(tx.db.tenants))
    {
      ok := true;
      if t in tx.db.tenants {
        var row := tx.db.tenants[t].(plan := Free, renewsAt := None);
        ok := tx.UpdateTenant(t, row.(pendingPlan := None, pendingPlanAt := None));
      }
    }

    method HandleSubscriptionEnded(tx: Tx, e: Event, at: Time) returns (ok: bool)
      requires !tx.failed && e.kind == "subscription_ended" && e.tenant.Some?
      modifies tx
      ensures ok && !tx.failed && Applied(old(tx.db), tx.db, e, at)
    {
      ok := Downgrade(tx, e.tenant.value);
    }

    method HandleRefund(tx: Tx, e: Event, at: Time) returns (ok: bool)
      requires !tx.failed && e.kind == "refund" && e.tenant.Some?
      modifies tx
      ensures ok && !tx.failed && Applied(old(tx.db), tx.db, e, at)
    {
      ghost var was := tx.db;
      var refundedAt := if e.refundedAt.Some? then e.refundedAt.value else at;
      var plan := tx.RefundPurchase(e.sale, refundedAt);
      if plan.None? || plan.value == Free {
        assert TenantsAfter(was, cfg, e, at) == was.tenants;
        return true; // an unknown sale, or a one-time charge
      }
      ok := Downgrade(tx, e.tenant.value);
    }

    method Dispatch(tx: Tx, id: nat, e: Event, at: Time) returns (ok: bool)
      requires !tx.failed && id == |tx.db.events| - 1
      requires tx.db.events[id] == EventRow(e.kind, NullIfEmpty(e.sale), None, None, None)
      modifies tx
      ensures tx.failed <==> Aborts(old(tx.db), cfg, e)
      ensures !tx.failed ==> Applied(old(tx.db).(events := old(tx.db.events)[id := RowOf(e)]), tx.db, e, at)
      ensures ok ==> !tx.failed
    {
      ghost var was := tx.db;
      if e.tenant.None? && e.kind != "ping" {
        ok := tx.UpdateEvent(id, EventRow(e.kind, NullIfEmpty(e.sale), None, None, Some(MISSING_TENANT)));
        return false;
      }
      ok := true;
      if e.tenant.Some? {
        if e.kind == "sale" {
          ok := HandleSale(tx, e, at);
        } else if e.kind == "subscription_updated" {
          ok := HandleSubscriptionUpdated(tx, e, at);
        } else if e.kind == "subscription_cancelled" {
          ok := HandleSubscriptionCancelled(tx, e, at);
        } else if e.kind == "subscription_ended" {
          ok := HandleSubscriptionEnded(tx, e, at);
        } else if e.kind == "refund" {
          ok := HandleRefund(tx, e, at);
        } else {
          assert TenantsAfter(was, cfg, e, at) == was.tenants;
        }
      }
      if !ok {
        return; // markErr's UPDATE fails like every statement after the first failure
      }
      ok := tx.UpdateEvent(id, EventRow(e.kind, NullIfEmpty(e.sale), e.tenant, NullIfEmpty(e.product), None));
    }
  }

  /** The database the handlers of all requests share. */
  class Pool {
    var db: Db

    constructor (db: Db)
      ensures this.db == db
    {
      this.db := db;
    }
  }

  class Webhook {
    const pool: Pool
    const dispatcher: Dispatcher

    constructor (pool: Pool, dispatcher: Dispatcher)
      ensures this.pool == pool && this.dispatcher == dispatcher
    {
      this.pool := pool;
      this.dispatcher := dispatcher;
    }

    /** The handler for a delivery with a valid signature. */
    method GumroadWebhook(e: Event, at: Time)
      modifies pool
      ensures pool.db == Deliver(old(pool.db), dispatcher.cfg, e, at)
    {
      var tx := new Tx(pool.db);
      var id := tx.InsertEvent(e);
      if id.None? {
        return; // already processed
      }
      ghost var was := tx.db;
      var ok := dispatcher.Dispatch(tx, id.value, e, at);
      if !tx.failed {
        assert was.events[id.value := RowOf(e)] == pool.db.events + [RowOf(e)];
        pool.db := tx.db; // committed whether or not Dispatch reported an error
      }
    }
  }

  class AdminHandlers {
    const pool: Pool
    const cfg: Config

    constructor (pool: Pool, cfg: Config)
      ensures this.pool == pool && this.cfg == cfg
    {
      this.pool, this.cfg := pool, cfg;
    }

    /** The handler for a super-admin's request with a valid tier; false is 404. */
    method TenantSetPlan(t: TenantId, plan: Plan, now: Time) returns (found: bool)
      modifies pool
      ensures pool.db == SetPlan(old(pool.db), cfg, t, plan, now)
      ensures found == (t in old(pool.db.tenants))
    {
      if t !in pool.db.tenants {
        return false;
      }
      var row := pool.db.tenants[t].(plan := plan, pendingPlan := None, pendingPlanAt := None);
      if plan == Free {
        row := row.(renewsAt := None);
      } else {
        row := row.(renewsAt := Some(cfg.sqlMonth(now)));
      }
      pool.db := pool.db.(tenants := pool.db.tenants[t := row]);
      found := true;
    }
  }
}
