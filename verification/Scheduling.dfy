/**
 Scheduled monitoring: any number of schedulers claim due stores, each by one
 statement that locks rows, skips those others have locked, and moves the next
 audit on; then they enqueue an audit and its job for every store they claimed.
 Changes of the monitoring settings and forced audits interleave.
 */
module Scheduling {
  import opened Base
  import JobTable

  type StoreId = nat
  type TenantId = nat
  type AuditId = nat
  type SchedulerId = nat

  const DEFAULT_BATCH := 100

  datatype StoreRow = StoreRow(tenant: TenantId, enabled: bool, frequency: Time, lastAuditAt: Option<Time>,
                               nextAuditAt: Option<Time>)

  datatype AuditRow = AuditRow(id: AuditId, tenant: TenantId, store: StoreId, origin: Origin)

  datatype JobRow = JobRow(audit: AuditId, tenant: TenantId, store: StoreId, runAt: Time, maxAttempts: int)

  // Why an audit was enqueued: for the n-th committed claim, or by the button.
  datatype Origin = Claimed(n: nat) | Forced

  /** A committed claim, with the instant and the frequency its statement read. */
  datatype Claim = Claim(store: StoreId, at: Time, frequency: Time)

  predicate Due(row: StoreRow, now: Time) {
    row.enabled && (row.nextAuditAt.None? || row.nextAuditAt.value <= now)
  }

  /** ORDER BY next_audit_at NULLS FIRST. */
  predicate NoLater(a: Option<Time>, b: Option<Time>) {
    a.None? || (b.Some? && a.value <= b.value)
  }

  /** What claimDue may return: at most `batch` of the oldest unlocked due stores, each once. */
  ghost predicate Picked(stores: map<StoreId, StoreRow>, locked: set<StoreId>, now: Time, batch: nat,
                         ids: seq<StoreId>) {
    && |ids| <= batch
    && (forall i, k | 0 <= i < k < |ids| :: ids[i] != ids[k])
    && (forall i | 0 <= i < |ids| :: ids[i] in stores && ids[i] !in locked && Due(stores[ids[i]], now))
    && (forall s | s in stores && s !in locked && Due(stores[s], now) && s !in ids ::
          |ids| == batch && forall i | 0 <= i < |ids| :: NoLater(stores[ids[i]].nextAuditAt, stores[s].nextAuditAt))
  }

  /**
   A claim takes stores whose monitoring is on and whose next audit is unset or not
   in the future. It leaves such a store to others only if they have locked it or its
   batch is full, and then of stores whose next audit is not before those it took,
   an unset one coming first.
   */
  lemma PickedExactly(stores: map<StoreId, StoreRow>, locked: set<StoreId>, now: Time, batch: nat, ids: seq<StoreId>,
                      s: StoreId)
    requires Picked(stores, locked, now, batch, ids) && s in stores
    ensures var row := stores[s];
            var due := row.enabled && (row.nextAuditAt == None || row.nextAuditAt.value <= now);
            && |ids| <= batch
            && (s in ids ==> due && s !in locked)
            && (s !in ids && due && s !in locked ==>
                  && |ids| == batch
                  && forall i | 0 <= i < |ids| ::
                       && ids[i] in stores
                       && var first := stores[ids[i]].nextAuditAt;
                       first == None || (row.nextAuditAt.Some? && first.value <= row.nextAuditAt.value))
  {}

  /** A claimed store is due again exactly one frequency later. */
  lemma DueAgainExactly(row: StoreRow, now: Time, later: Time)
    requires row.enabled
    ensures Due(Advanced(row, now), later) <==> now + row.frequency <= later
    ensures Advanced(row, now).lastAuditAt == Some(now)
    ensures Advanced(row, now) == row.(nextAuditAt := Advanced(row, now).nextAuditAt, lastAuditAt := Some(now))
  {}

  /**
   Switched off, a store is never due. Switched on, with whatever frequency, it is
   due when it was planned to be, or at once if nothing was planned.
   */
  lemma UpdatedIsDue(row: StoreRow, frequency: Option<Time>, now: Time, later: Time)
    ensures frequency.None? ==> !Due(Updated(row, frequency, now), later)
    ensures frequency.Some? ==>
              && Updated(row, frequency, now).frequency == frequency.value
              && (Due(Updated(row, frequency, now), later) <==>
                    (if row.nextAuditAt.Some? then row.nextAuditAt.value else now) <= later)
    ensures Updated(row, frequency, now).tenant == row.tenant
            && Updated(row, frequency, now).lastAuditAt == row.lastAuditAt
    ensures frequency.None? ==> Updated(row, frequency, now) == row.(enabled := false)
  {}

  function Advanced(row: StoreRow, now: Time): StoreRow {
    row.(nextAuditAt := Some(now + row.frequency), lastAuditAt := Some(now))
  }

  /** MonitoringUpdate: enabling keeps a pending next audit, whatever the new frequency. */
  function Updated(row: StoreRow, frequency: Option<Time>, now: Time): StoreRow {
    if frequency.None? then row.(enabled := false)
    else row.(enabled := true, frequency := frequency.value,
              nextAuditAt := if row.nextAuditAt.Some? then row.nextAuditAt else Some(now))
  }

  // ---------------------------------------------------------------- one scheduler, as it runs

  class Database {
    var stores: map<StoreId, StoreRow>
    var audits: seq<AuditRow>
    var jobs: seq<JobRow>

    constructor (stores: map<StoreId, StoreRow>)
      ensures this.stores == stores && audits == [] && jobs == []
    {
      this.stores, audits, jobs := stores, [], [];
    }

    /** SELECT ... ORDER BY next_audit_at NULLS FIRST FOR UPDATE SKIP LOCKED LIMIT batch. */
    method SelectDue(locked: set<StoreId>, now: Time, batch: nat) returns (ids: seq<StoreId>)
      ensures Picked(stores, locked, now, batch, ids)
    {
      ids := [];
      var rest := set s | s in stores && s !in locked && Due(stores[s], now);
      while |ids| < batch && rest != {}
        invariant |ids| <= batch
        invariant forall s | s in rest :: s in stores && s !in locked && Due(stores[s], now) && s !in ids
        invariant forall s | s in stores && s !in locked && Due(stores[s], now) :: s in rest || s in ids
        invariant forall i, k | 0 <= i < k < |ids| :: ids[i] != ids[k]
        invariant forall i | 0 <= i < |ids| :: ids[i] in stores && ids[i] !in locked && Due(stores[ids[i]], now)
        invariant forall i, s | 0 <= i < |ids| && s in rest ::
                  NoLater(stores[ids[i]].nextAuditAt, stores[s].nextAuditAt)
        decreases rest
      {
        var next := Oldest(rest);
        ids := ids + [next];
        rest := rest - {next};
      }
    }

    method Oldest(rest: set<StoreId>) returns (oldest: StoreId)
      requires rest != {} && forall s | s in rest :: s in stores
      ensures oldest in rest && forall s | s in rest :: NoLater(stores[oldest].nextAuditAt, stores[s].nextAuditAt)
    {
      EmptyOrHasInt(set s: nat | s in rest :: s as int);
      oldest :| oldest in rest;
      var todo := rest - {oldest};
      while todo != {}
        invariant todo <= rest && oldest in rest
        invariant forall s | s in rest - todo :: NoLater(stores[oldest].nextAuditAt, stores[s].nextAuditAt)
        decreases todo
      {
        var s: StoreId :| s in todo;
        todo := todo - {s};
        if !NoLater(stores[oldest].nextAuditAt, stores[s].nextAuditAt) {
          oldest := s;
        }
      }
    }

    /** The UPDATE of claimDue. */
    method ClaimDue(locked: set<StoreId>, now: Time, batch: nat) returns (ids: seq<StoreId>)
      modifies this`stores
      ensures Picked(old(stores), locked, now, batch, ids)
      ensures stores == map s | s in old(stores) :: if s in ids then Advanced(old(stores)[s], now) else old(stores)[s]
    {
      ids := SelectDue(locked, now, batch);
      stores := map s | s in stores :: if s in ids then Advanced(stores[s], now) else stores[s];
    }

    /** One transaction: an audit and its job, or neither. */
    method EnqueueAudit(id: AuditId, store: StoreId, tenant: TenantId, origin: Origin, now: Time, ok: bool)
      modifies this`audits, this`jobs
      ensures audits == old(audits) + if ok then [AuditRow(id, tenant, store, origin)] else []
      ensures jobs == old(jobs) + if ok then [JobRow(id, tenant, store, now, JobTable.SCHEMA_MAX_ATTEMPTS)] else []
    {
      var insertedAudits := audits + [AuditRow(id, tenant, store, origin)];
      var insertedJobs := jobs + [JobRow(id, tenant, store, now, JobTable.SCHEMA_MAX_ATTEMPTS)];
      if ok { // committed
        audits, jobs := insertedAudits, insertedJobs;
      }
    }
  }

  /** Rows come in pairs: the k-th job is the k-th audit's. */
  predicate Paired(audits: seq<AuditRow>, jobs: seq<JobRow>) {
    && |audits| == |jobs|
    && forall k | 0 <= k < |jobs| ::
         jobs[k].audit == audits[k].id && jobs[k].store == audits[k].store && jobs[k].tenant == audits[k].tenant
         && jobs[k].maxAttempts == JobTable.SCHEMA_MAX_ATTEMPTS
  }

  /** A store whose audit was enqueued, and when its job may be claimed. */
  datatype Entry = Entry(store: StoreId, runAt: Time)

  /** The claimed stores in order, those whose transaction failed left out; the k-th one's reads clock(k + 1). */
  function Enqueued(ids: seq<StoreId>, oks: seq<bool>, clock: nat -> Time): seq<Entry>
    requires |oks| == |ids|
  {
    if ids == [] then []
    else
      var n := |ids| - 1;
      Enqueued(ids[..n], oks[..n], clock) + (if oks[n] then [Entry(ids[n], clock(n + 1))] else [])
  }

  function EntriesOf(jobs: seq<JobRow>): seq<Entry> {
    seq(|jobs|, k requires 0 <= k < |jobs| => Entry(jobs[k].store, jobs[k].runAt))
  }

  /** Each audit belongs to its store's tenant. */
  predicate TenantsFit(stores: map<StoreId, StoreRow>, audits: seq<AuditRow>, from: nat) {
    forall k | from <= k < |audits| :: audits[k].store in stores && audits[k].tenant == stores[audits[k].store].tenant
  }

  class Scheduler {
    const db: Database
    const batchSize: nat

    constructor (db: Database, batchSize: nat)
      ensures this.db == db && this.batchSize == if batchSize == 0 then DEFAULT_BATCH else batchSize
    {
      this.db := db;
      this.batchSize := if batchSize == 0 then DEFAULT_BATCH else batchSize;
    }

    /**
     One tick. The claim reads clock(0) and the k-th enqueue clock(k + 1); `newIds`
     are the random audit ids; `oks` tells which enqueues commit: each of those
     adds exactly one audit and one job, for its store.
     */
    method RunOnce(locked: set<StoreId>, clock: nat -> Time, newIds: seq<AuditId>, oks: seq<bool>, base: nat)
        returns (claimed: seq<StoreId>)
      requires Paired(db.audits, db.jobs) && |newIds| == |oks| == batchSize
      modifies db
      ensures Picked(old(db.stores), locked, clock(0), batchSize, claimed)
      ensures db.stores == map s | s in old(db.stores) ::
              if s in claimed then Advanced(old(db.stores)[s], clock(0)) else old(db.stores)[s]
      ensures Paired(db.audits, db.jobs) && old(db.audits) <= db.audits && old(db.jobs) <= db.jobs
      ensures EntriesOf(db.jobs) == EntriesOf(old(db.jobs)) + Enqueued(claimed, oks[..|claimed|], clock)
      ensures TenantsFit(db.stores, db.audits, |old(db.audits)|)
    {
      claimed := db.ClaimDue(locked, clock(0), batchSize);
      hide Picked;
      var i := 0;
      assert claimed[..0] == [] && oks[..0] == [];
      while i < |claimed|
        invariant 0 <= i <= |claimed|
        invariant db.stores.Keys == old(db.stores.Keys)
        invariant db.stores == map s | s in old(db.stores) ::
                  if s in claimed then Advanced(old(db.stores)[s], clock(0)) else old(db.stores)[s]
        invariant Paired(db.audits, db.jobs) && old(db.audits) <= db.audits && old(db.jobs) <= db.jobs
        invariant EntriesOf(db.jobs) == EntriesOf(old(db.jobs)) + Enqueued(claimed[..i], oks[..i], clock)
        invariant TenantsFit(db.stores, db.audits, |old(db.audits)|)
      {
        ghost var was := db.jobs;
        db.EnqueueAudit(newIds[i], claimed[i], db.stores[claimed[i]].tenant, Claimed(base + i), clock(i + 1), oks[i]);
        assert EntriesOf(db.jobs) == EntriesOf(was) + if oks[i] then [Entry(claimed[i], clock(i + 1))] else [];
        assert claimed[..i + 1][..i] == claimed[..i] && oks[..i + 1][..i] == oks[..i];
        i := i + 1;
      }
      assert claimed[..i] == claimed;
    }
  }
}

/**
 The same with any number of schedulers: their claims, enqueues and crashes interleave
 with each other, with changes of the monitoring settings and with forced audits.
 */
module SchedulingRuns {
  import opened Base
  import JobTable
  import opened Scheduling

  // A claim statement that has locked its rows and not yet committed.
  datatype Open = Open(now: Time, ids: seq<StoreId>)

  datatype State = State(
    stores: map<StoreId, StoreRow>,
    open: map<SchedulerId, Open>,
    toEnqueue: map<SchedulerId, seq<nat>>, // the committed claims a scheduler still has to enqueue
    claims: seq<Claim>,
    audits: seq<AuditRow>,
    jobs: seq<JobRow>)

  datatype Step =
    | Lock(scheduler: SchedulerId, now: Time, batch: nat, ids: seq<StoreId>)
    | Commit(scheduler: SchedulerId)
    | Abort(scheduler: SchedulerId)
    | Enqueue(scheduler: SchedulerId, audit: AuditId, now: Time, ok: bool)
    | Crash(scheduler: SchedulerId)
    | Update(store: StoreId, frequency: Option<Time>, now: Time)
    | Force(store: StoreId, audit: AuditId, now: Time)
    | AddStore(store: StoreId, row: StoreRow)

  function LockedRows(s: State): set<StoreId> {
    set c, k | c in s.open && 0 <= k < |s.open[c].ids| :: s.open[c].ids[k]
  }

  function Left(s: State, c: SchedulerId): seq<nat> {
    if c in s.toEnqueue then s.toEnqueue[c] else []
  }

  predicate FreshAudit(s: State, id: AuditId) {
    forall k | 0 <= k < |s.audits| :: s.audits[k].id != id
  }

  ghost predicate Enabled(s: State, step: Step) {
    match step
    case Lock(c, now, batch, ids) =>
      c !in s.open && Left(s, c) == [] && Picked(s.stores, LockedRows(s), now, batch, ids)
    case Commit(c) => c in s.open
    case Abort(c) => c in s.open
    case Enqueue(c, audit, _, _) => Left(s, c) != [] && Left(s, c)[0] < |s.claims| && FreshAudit(s, audit)
    case Crash(_) => true
    case Update(id, frequency, _) => id in s.stores && id !in LockedRows(s) && (frequency.Some? ==> frequency.value > 0)
    case Force(id, audit, _) => id in s.stores && FreshAudit(s, audit)
    case AddStore(id, row) => id !in s.stores && row.frequency > 0
  }

  function NewClaims(stores: map<StoreId, StoreRow>, open: Open): seq<Claim> {
    seq(|open.ids|, k requires 0 <= k < |open.ids| =>
      Claim(open.ids[k], open.now, if open.ids[k] in stores then stores[open.ids[k]].frequency else 0))
  }

  function TenantOf(s: State, id: StoreId): TenantId {
    if id in s.stores then s.stores[id].tenant else 0
  }

  function WithAudit(s: State, id: AuditId, store: StoreId, origin: Origin, now: Time): State {
    s.(audits := s.audits + [AuditRow(id, TenantOf(s, store), store, origin)],
       jobs := s.jobs + [JobRow(id, TenantOf(s, store), store, now, JobTable.SCHEMA_MAX_ATTEMPTS)])
  }

  ghost function Next(s: State, step: Step): State
    requires Enabled(s, step)
  {
    match step
    case Lock(c, now, _, ids) => s.(open := s.open[c := Open(now, ids)])
    case Commit(c) =>
      var o := s.open[c];
      s.(stores := map id | id in s.stores :: if id in o.ids then Advanced(s.stores[id], o.now) else s.stores[id],
         claims := s.claims + NewClaims(s.stores, o),
         toEnqueue := s.toEnqueue[c := seq(|o.ids|, k requires 0 <= k < |o.ids| => |s.claims| + k)],
         open := s.open - {c})
    case Abort(c) => s.(open := s.open - {c})
    case Enqueue(c, audit, now, ok) =>
      var t := s.(toEnqueue := s.toEnqueue[c := Left(s, c)[1..]]);
      if ok then WithAudit(t, audit, s.claims[Left(s, c)[0]].store, Claimed(Left(s, c)[0]), now) else t
    case Crash(c) => s.(open := s.open - {c}, toEnqueue := s.toEnqueue - {c})
    case Update(id, frequency, now) => s.(stores := s.stores[id := Updated(s.stores[id], frequency, now)])
    case Force(id, audit, now) => WithAudit(s, audit, id, Forced, now)
    case AddStore(id, row) => s.(stores := s.stores[id := row])
  }

  predicate Init(s: State) {
    && (forall id | id in s.stores :: s.stores[id].frequency > 0)
    && s.open == map[] && s.toEnqueue == map[] && s.claims == [] && s.audits == [] && s.jobs == []
  }

  ghost predicate Behaviour(states: seq<State>, steps: seq<Step>) {
    && |states| == |steps| + 1
    && Init(states[0])
    && forall i | 0 <= i < |steps| :: Enabled(states[i], steps[i]) && states[i + 1] == Next(states[i], steps[i])
  }

  // ---------------------------------------------------------------- claims

  /** Rows a claim has locked are still due for it, and nobody else's. */
  ghost predicate OpenInv(s: State) {
    && (forall c, k | c in s.open && 0 <= k < |s.open[c].ids| ::
          s.open[c].ids[k] in s.stores && Due(s.stores[s.open[c].ids[k]], s.open[c].now))
    && (forall c, i, k | c in s.open && 0 <= i < k < |s.open[c].ids| :: s.open[c].ids[i] != s.open[c].ids[k])
    && (forall c, d, i, k | c in s.open && d in s.open && c != d && 0 <= i < |s.open[c].ids|
          && 0 <= k < |s.open[d].ids| ::
          s.open[c].ids[i] != s.open[d].ids[k])
  }

  /** The next audit of a claimed store is a frequency or more after every claim of it so far. */
  predicate NextInv(s: State) {
    && (forall id | id in s.stores :: s.stores[id].frequency > 0)
    && forall i | 0 <= i < |s.claims| ::
         var row := s.claims[i].store;
         && s.claims[i].frequency > 0 && row in s.stores
         && s.stores[row].nextAuditAt.Some? && s.claims[i].at + s.claims[i].frequency <= s.stores[row].nextAuditAt.value
  }

  predicate ClaimsApart(claims: seq<Claim>) {
    forall i, k | 0 <= i < k < |claims| && claims[i].store == claims[k].store ::
      claims[i].at + claims[i].frequency <= claims[k].at
  }

  lemma LockedHas(s: State, c: SchedulerId, k: nat)
    requires c in s.open && k < |s.open[c].ids|
    ensures s.open[c].ids[k] in LockedRows(s)
  {}

  lemma OpenStep(s: State, step: Step)
    requires OpenInv(s) && Enabled(s, step)
    ensures OpenInv(Next(s, step))
  {
    forall c, k: nat | c in s.open && k < |s.open[c].ids| ensures s.open[c].ids[k] in LockedRows(s) {
      LockedHas(s, c, k);
    }
  }

  lemma CommitStep(s: State, c: SchedulerId)
    requires OpenInv(s) && NextInv(s) && ClaimsApart(s.claims) && c in s.open
    ensures NextInv(Next(s, Commit(c))) && ClaimsApart(Next(s, Commit(c)).claims)
  {
    var t, o, n := Next(s, Commit(c)), s.open[c], |s.claims|;
    forall k | n <= k < |t.claims|
      ensures t.claims[k] == Claim(o.ids[k - n], o.now, s.stores[o.ids[k - n]].frequency) {}
    forall i | 0 <= i < n ensures t.claims[i] == s.claims[i] {}
    forall i, k | 0 <= i < k < |t.claims| && t.claims[i].store == t.claims[k].store
      ensures t.claims[i].at + t.claims[i].frequency <= t.claims[k].at
    {
      if k >= n {
        assert Due(s.stores[o.ids[k - n]], o.now);
      }
    }
    forall i | 0 <= i < |t.claims|
      ensures var row := t.claims[i].store;
              t.claims[i].frequency > 0 && row in t.stores && t.stores[row].nextAuditAt.Some?
              && t.claims[i].at + t.claims[i].frequency <= t.stores[row].nextAuditAt.value
    {
      var row := t.claims[i].store;
      if i < n && row in o.ids {
        var k :| 0 <= k < |o.ids| && o.ids[k] == row;
        assert Due(s.stores[o.ids[k]], o.now);
      }
    }
  }

  ghost predicate Inv(s: State) {
    OpenInv(s) && NextInv(s) && ClaimsApart(s.claims) && OriginInv(s) && Paired(s.audits, s.jobs)
  }

  // ---------------------------------------------------------------- audits

  /** The claims still to be enqueued wait in one place each. */
  predicate WaitingInv(s: State) {
    && (forall c, i | c in s.toEnqueue && 0 <= i < |s.toEnqueue[c]| :: s.toEnqueue[c][i] < |s.claims|)
    && (forall c, i, k | c in s.toEnqueue && 0 <= i < k < |s.toEnqueue[c]| :: s.toEnqueue[c][i] != s.toEnqueue[c][k])
    && (forall c, d, i, k | c in s.toEnqueue && d in s.toEnqueue && c != d
          && 0 <= i < |s.toEnqueue[c]| && 0 <= k < |s.toEnqueue[d]| :: s.toEnqueue[c][i] != s.toEnqueue[d][k])
  }

  /** An audit made for a claim is for its store; the claim no longer waits and has no second audit. */
  predicate AuditInv(s: State) {
    && (forall a | 0 <= a < |s.audits| && s.audits[a].origin.Claimed? ::
          s.audits[a].origin.n < |s.claims| && s.audits[a].store == s.claims[s.audits[a].origin.n].store)
    && (forall a, c, i | 0 <= a < |s.audits| && s.audits[a].origin.Claimed? && c in s.toEnqueue
          && 0 <= i < |s.toEnqueue[c]| ::
          s.audits[a].origin.n != s.toEnqueue[c][i])
    && OneAuditPerClaim(s.audits)
    && (forall a, b | 0 <= a < b < |s.audits| :: s.audits[a].id != s.audits[b].id)
  }

  predicate OriginInv(s: State) {
    WaitingInv(s) && AuditInv(s)
  }

  predicate OneAuditPerClaim(audits: seq<AuditRow>) {
    forall a, b | 0 <= a < b < |audits| && audits[a].origin.Claimed? :: audits[a].origin != audits[b].origin
  }

  lemma OriginStep(s: State, step: Step)
    requires OriginInv(s) && Enabled(s, step)
    ensures OriginInv(Next(s, step))
  {
    hide Picked, WaitingInv, AuditInv;
    match step {
      case Commit(c) => OriginCommit(s, c);
      case Enqueue(c, audit, now, ok) => OriginEnqueue(s, c, audit, now, ok);
      case _ =>
        WaitingOther(s, step);
        AuditOther(s, step);
    }
  }

  lemma WaitingOther(s: State, step: Step)
    requires WaitingInv(s) && Enabled(s, step) && !step.Commit? && !step.Enqueue?
    ensures WaitingInv(Next(s, step))
  {
    hide Picked;
  }

  lemma AuditOther(s: State, step: Step)
    requires AuditInv(s) && Enabled(s, step) && !step.Commit? && !step.Enqueue?
    ensures AuditInv(Next(s, step))
  {
    hide Picked;
  }

  lemma OriginCommit(s: State, c: SchedulerId)
    requires OriginInv(s) && c in s.open
    ensures OriginInv(Next(s, Commit(c)))
  {
    var t := Next(s, Commit(c));
    assert forall n | 0 <= n < |s.claims| :: t.claims[n] == s.claims[n];
  }

  lemma WaitingLess(s: State, c: SchedulerId, t: State)
    requires WaitingInv(s) && Left(s, c) != [] && t.claims == s.claims
             && t.toEnqueue == s.toEnqueue[c := Left(s, c)[1..]]
    ensures WaitingInv(t)
    ensures forall d, i | d in t.toEnqueue && 0 <= i < |t.toEnqueue[d]| ::
              d in s.toEnqueue && t.toEnqueue[d][i] in s.toEnqueue[d] && t.toEnqueue[d][i] != Left(s, c)[0]
  {
    assert c in s.toEnqueue;
    assert forall d, i | d in t.toEnqueue && 0 <= i < |t.toEnqueue[d]| ::
        d in s.toEnqueue && t.toEnqueue[d][i] == s.toEnqueue[d][if d == c then i + 1 else i];
  }

  lemma OriginEnqueue(s: State, c: SchedulerId, audit: AuditId, now: Time, ok: bool)
    requires OriginInv(s) && Enabled(s, Enqueue(c, audit, now, ok))
    ensures OriginInv(Next(s, Enqueue(c, audit, now, ok)))
  {
    var t := Next(s, Enqueue(c, audit, now, ok));
    WaitingLess(s, c, t);
    hide WaitingInv;
    assert Left(s, c)[0] == s.toEnqueue[c][0];
  }

  lemma InvPreserved(s: State, step: Step)
    requires Inv(s) && Enabled(s, step)
    ensures Inv(Next(s, step))
  {
    hide OpenInv, OriginInv, Picked;
    OpenStep(s, step);
    OriginStep(s, step);
    if step.Commit? {
      CommitStep(s, step.scheduler);
    }
  }

  lemma {:induction false} Safety(states: seq<State>, steps: seq<Step>, i: nat)
    requires Behaviour(states, steps) && i < |states|
    ensures Inv(states[i])
  {
    if i > 0 {
      Safety(states, steps, i - 1);
      InvPreserved(states[i - 1], steps[i - 1]);
    }
  }

  /** Two claims of a store are at least the frequency the first one read apart, whoever made them. */
  lemma ClaimsAreApart(states: seq<State>, steps: seq<Step>, i: nat)
    requires Behaviour(states, steps) && i < |states|
    ensures ClaimsApart(states[i].claims)
  {
    Safety(states, steps, i);
  }

  /**
   Two scheduled audits of a store come from two claims, so they are as far apart; and every audit has
   exactly its job.
   */
  lemma ScheduledAuditsAreApart(states: seq<State>, steps: seq<Step>, i: nat, a: nat, b: nat)
    requires Behaviour(states, steps) && i < |states| && a < |states[i].audits| && b < |states[i].audits| && a != b
    requires states[i].audits[a].origin.Claimed? && states[i].audits[b].origin.Claimed?
    requires states[i].audits[a].store == states[i].audits[b].store
    ensures var s := states[i];
            var m, n := s.audits[a].origin.n, s.audits[b].origin.n;
            && m < |s.claims| && n < |s.claims| && m != n
            && (m < n ==> s.claims[m].at + s.claims[m].frequency <= s.claims[n].at)
            && (n < m ==> s.claims[n].at + s.claims[n].frequency <= s.claims[m].at)
  {
    Safety(states, steps, i);
  }

  /** From i to n the store's monitoring is not switched on. */
  ghost predicate StaysOff(steps: seq<Step>, s: StoreId, i: nat, n: nat)
    requires n <= |steps|
  {
    forall k | i <= k < n && steps[k].Update? && steps[k].store == s :: steps[k].frequency.None?
  }

  /** Once a store is switched off and no claim under way holds it, no claim takes it until it is switched on again. */
  lemma {:induction false} OffIsNotClaimed(states: seq<State>, steps: seq<Step>, s: StoreId, i: nat, n: nat)
    requires Behaviour(states, steps) && i <= n < |states| && StaysOff(steps, s, i, n)
    requires s in states[i].stores && !states[i].stores[s].enabled && s !in LockedRows(states[i])
    ensures s in states[n].stores && !states[n].stores[s].enabled && s !in LockedRows(states[n])
    ensures |states[i].claims| <= |states[n].claims|
    ensures forall k | |states[i].claims| <= k < |states[n].claims| :: states[n].claims[k].store != s
    decreases n
  {
    if i < n {
      OffIsNotClaimed(states, steps, s, i, n - 1);
      OffStep(states[n - 1], steps[n - 1], s);
    }
  }

  lemma OffStep(s: State, step: Step, id: StoreId)
    requires Enabled(s, step) && id in s.stores && !s.stores[id].enabled && id !in LockedRows(s)
    requires step.Update? && step.store == id ==> step.frequency.None?
    ensures var t := Next(s, step);
            && id in t.stores && !t.stores[id].enabled && id !in LockedRows(t)
            && s.claims <= t.claims && forall k | |s.claims| <= k < |t.claims| :: t.claims[k].store != id
  {
    var t := Next(s, step);
    forall c, k | c in t.open && 0 <= k < |t.open[c].ids| ensures t.open[c].ids[k] != id {
      assert c in s.open && s.open[c] == t.open[c] ==> s.open[c].ids[k] in LockedRows(s);
    }
    if step.Commit? {
      forall k | 0 <= k < |s.open[step.scheduler].ids| ensures s.open[step.scheduler].ids[k] != id {
        LockedHas(s, step.scheduler, k);
      }
    }
  }

  /**
   A scheduled and a forced audit belong to their store's tenant, and their job is due at once, with
   five attempts.
   */
  lemma AuditsAreDueAtOnce(s: State, step: Step)
    requires Inv(s) && Enabled(s, step) && ((step.Enqueue? && step.ok) || step.Force?)
    ensures var store := if step.Force? then step.store else s.claims[Left(s, step.scheduler)[0]].store;
            && store in s.stores
            && var tenant := s.stores[store].tenant;
            && Next(s, step).jobs == s.jobs + [JobRow(step.audit, tenant, store, step.now, 5)]
            && |Next(s, step).audits| == |s.audits| + 1 && s.audits <= Next(s, step).audits
            && var a := Next(s, step).audits[|s.audits|];
            && a.id == step.audit && a.tenant == tenant && a.store == store
            && (step.Force? <==> a.origin == Forced)
  {}

  lemma EveryAuditHasItsJob(states: seq<State>, steps: seq<Step>, i: nat)
    requires Behaviour(states, steps) && i < |states|
    ensures Paired(states[i].audits, states[i].jobs)
  {
    Safety(states, steps, i);
  }
}
