/**
 The alert dispatcher: after an audit, one row (and one mail) for each matching
 subscription and fired trigger, at most one per audit, user and trigger, and at
 most one rate-limited alert per user and store in any 24 hours.
 */
module Monitoring {
  import opened Base
  import Audit

  type Id = nat

  const NEW_CRITICAL := "new_critical"
  const SCORE_DROP := "score_drop"
  const AUDIT_FAILED := "audit_failed"
  const GMC_CHANGE := "gmc_account_change"

  const DAY := 86400

  datatype AuditResult = AuditResult(audit: Id, tenant: Id, store: Id, status: string)

  type Diff = Audit.Diff

  datatype Subscription = Subscription(
    id: Id,
    tenant: Id,
    store: Option<Id>, // None: every store of the tenant
    user: Id,
    enabled: bool,
    channel: string,
    onNewCritical: bool,
    onScoreDrop: bool,
    onAuditFailed: bool,
    onGMCChange: bool,
    scoreDropThreshold: int)

  datatype Row = Row(tenant: Id, user: Id, store: Id, audit: Id, subscription: Id, trigger: string, sentAt: Time)

  datatype Mail = Mail(audit: Id, user: Id, trigger: string, subscription: Id)

  /** The triggers for which the dispatcher skips the lookup. */
  predicate AlwaysSend(trigger: string) {
    trigger in {NEW_CRITICAL, AUDIT_FAILED}
  }

  /** The triggers whose rows the lookup counts. */
  predicate RateLimited(trigger: string) {
    trigger !in {AUDIT_FAILED, NEW_CRITICAL}
  }

  function Fired(res: AuditResult, diff: Option<Diff>): seq<string> {
    if res.status == "failed" then [AUDIT_FAILED]
    else if diff.None? then []
    else
      (if diff.value.newCriticalCount > 0 then [NEW_CRITICAL] else []) +
      (if diff.value.prevScore.Some? && diff.value.scoreDelta <= -1 then [SCORE_DROP] else [])
  }

  predicate SubscribesTo(s: Subscription, trigger: string) {
    if trigger == NEW_CRITICAL then s.onNewCritical
    else if trigger == SCORE_DROP then s.onScoreDrop
    else if trigger == AUDIT_FAILED then s.onAuditFailed
    else if trigger == GMC_CHANGE then s.onGMCChange
    else false
  }

  predicate Matches(s: Subscription, res: AuditResult) {
    s.tenant == res.tenant && (s.store.None? || s.store == Some(res.store)) && s.enabled && s.channel == "email"
  }

  /** The subscription asks for this alert of this audit. */
  predicate Wants(s: Subscription, res: AuditResult, diff: Option<Diff>, trigger: string) {
    && trigger in Fired(res, diff) && SubscribesTo(s, trigger)
    && (trigger == SCORE_DROP && diff.Some? ==> diff.value.scoreDelta <= -s.scoreDropThreshold)
  }

  /**
   Who is owed what: subscribers of the store or the whole tenant with email alerts
   switched on. A failed audit alerts of nothing but its failure, any other never of
   it; a new critical issue and a drop of the score need a previous audit's diff, and
   the drop must reach the subscriber's threshold and at least one point.
   */
  lemma WantedExactly(s: Subscription, res: AuditResult, diff: Option<Diff>, trigger: string)
    ensures Matches(s, res) && Wants(s, res, diff, trigger) <==>
            && s.tenant == res.tenant && s.store in {None, Some(res.store)} && s.enabled && s.channel == "email"
            && (|| (trigger == "audit_failed" && res.status == "failed" && s.onAuditFailed)
                || (trigger == "new_critical" && res.status != "failed" && diff.Some?
                    && diff.value.newCriticalCount > 0 && s.onNewCritical)
                || (trigger == "score_drop" && res.status != "failed" && diff.Some? && diff.value.prevScore.Some?
                    && diff.value.scoreDelta <= -1 && diff.value.scoreDelta <= -s.scoreDropThreshold && s.onScoreDrop))
  {}

  predicate Logged(log: seq<Row>, audit: Id, user: Id, trigger: string) {
    exists i | 0 <= i < |log| :: log[i].audit == audit && log[i].user == user && log[i].trigger == trigger
  }

  predicate Limited(r: Row, user: Id, store: Id) {
    r.user == user && r.store == store && RateLimited(r.trigger)
  }

  /** recentlyAlerted: its count is not 0. */
  predicate Recent(log: seq<Row>, user: Id, store: Id, now: Time) {
    exists i | 0 <= i < |log| :: Limited(log[i], user, store) && log[i].sentAt > now - DAY
  }

  ghost predicate UniquePerTrigger(log: seq<Row>) {
    forall i, k | 0 <= i < k < |log| ::
      log[i].audit != log[k].audit || log[i].user != log[k].user || log[i].trigger != log[k].trigger
  }

  /** Rate-limited alerts of one user and store are at least 24 hours apart. */
  ghost predicate DayApart(log: seq<Row>) {
    forall i, k | 0 <= i < k < |log| && RateLimited(log[k].trigger) && Limited(log[i], log[k].user, log[k].store) ::
      log[i].sentAt + DAY <= log[k].sentAt
  }

  /** Score drops of one store are alerted to a user at most once in 24 hours. */
  ghost predicate ScoreDropsApart(log: seq<Row>) {
    forall i, k | 0 <= i < k < |log| && log[i].trigger == log[k].trigger == "score_drop"
                  && log[i].user == log[k].user && log[i].store == log[k].store ::
      log[i].sentAt + 86400 <= log[k].sentAt
  }

  /** Some alert other than a new critical issue or a failed audit went to the user for the store after `from`. */
  ghost predicate AlertedSince(log: seq<Row>, user: Id, store: Id, from: Time) {
    exists i | 0 <= i < |log| :: log[i].user == user && log[i].store == store && log[i].sentAt > from
                                 && log[i].trigger != "new_critical" && log[i].trigger != "audit_failed"
  }

  lemma LimitsMean(log: seq<Row>, user: Id, store: Id, now: Time)
    ensures DayApart(log) ==> ScoreDropsApart(log)
    ensures Recent(log, user, store, now) <==> AlertedSince(log, user, store, now - 86400)
  {}

  // ---------------------------------------------------------------- one insert

  function InsertRow(log: seq<Row>, r: Row): seq<Row> {
    if Logged(log, r.audit, r.user, r.trigger) then log else log + [r]
  }

  /** The unique index, not the dispatcher, keeps rows distinct: any interleaving of inserts does. */
  lemma InsertKeepsUnique(log: seq<Row>, r: Row)
    requires UniquePerTrigger(log)
    ensures UniquePerTrigger(InsertRow(log, r)) && Logged(InsertRow(log, r), r.audit, r.user, r.trigger)
  {
    var after := InsertRow(log, r);
    if !Logged(log, r.audit, r.user, r.trigger) {
      assert after[|log|] == r;
    }
  }

  /**
   A dispatch looked the log up when it was `seen` and inserts when others have
   added `since`: the rows stay a day apart exactly when none of those is a
   rate-limited alert of the same user and store less than a day old.
   */
  lemma LimitedInsert(seen: seq<Row>, since: seq<Row>, r: Row, lookedAt: Time)
    requires DayApart(seen + since) && RateLimited(r.trigger) && !Recent(seen, r.user, r.store, lookedAt)
             && lookedAt <= r.sentAt
    ensures DayApart(seen + since + [r]) <==> !Recent(since, r.user, r.store, r.sentAt)
  {
    var log, n := seen + since + [r], |seen + since|;
    if DayApart(log) {
      forall i | 0 <= i < |since| && Limited(since[i], r.user, r.store) ensures since[i].sentAt <= r.sentAt - DAY {
        assert log[|seen| + i] == since[i] && log[n] == r;
      }
    }
    if !Recent(since, r.user, r.store, r.sentAt) {
      forall i, k | 0 <= i < k < |log| && RateLimited(log[k].trigger) && Limited(log[i], log[k].user, log[k].store)
        ensures log[i].sentAt + DAY <= log[k].sentAt
      {
        if k == n {
          assert log[k] == r;
          assert if i < |seen| then log[i] == seen[i] else log[i] == since[i - |seen|];
        } else {
          assert log[i] == (seen + since)[i] && log[k] == (seen + since)[k];
        }
      }
    }
  }

  // ---------------------------------------------------------------- the dispatcher, one dispatch at a time

  class Dispatcher {
    var log: seq<Row>
    var mails: seq<Mail> // handed to the mailer
    // The k-th statement sees now() == clock(k), and is lost if fails(k).
    const clock: nat -> Time
    const fails: nat -> bool
    var statements: nat
    ghost var lookupsOk: bool // no rate lookup has failed so far

    ghost predicate Monotone() {
      forall i: nat, k: nat | i <= k :: clock(i) <= clock(k)
    }

    ghost predicate Valid()
      reads this
    {
      Monotone() && UniquePerTrigger(log) && (lookupsOk ==> DayApart(log))
    }

    lemma ClockForward()
      requires Monotone()
      ensures forall k: nat | statements <= k :: clock(statements) <= clock(k)
    {}

    ghost predicate NoneFailed(from: nat, to: nat) {
      forall k | from <= k < to :: !fails(k)
    }

    constructor (clock: nat -> Time, fails: nat -> bool)
      requires forall i: nat, k: nat | i <= k :: clock(i) <= clock(k)
      ensures Valid() && log == [] && mails == [] && lookupsOk && statements == 0 && this.clock == clock
              && this.fails == fails
    {
      this.clock, this.fails, log, mails, statements, lookupsOk := clock, fails, [], [], 0, true;
    }

    method RecentlyAlerted(user: Id, store: Id) returns (limited: bool, ok: bool)
      modifies this`statements
      ensures statements == old(statements) + 1 && ok == !fails(old(statements))
      ensures limited == (ok && Recent(log, user, store, clock(old(statements))))
    {
      ok := !fails(statements);
      limited := false;
      var i := 0;
      while i < |log|
        invariant 0 <= i <= |log| && statements == old(statements)
        invariant limited == (ok && Recent(log[..i], user, store, clock(statements)))
      {
        RecentNext(log, i, user, store, clock(statements));
        limited := limited || (ok && Limited(log[i], user, store) && log[i].sentAt > clock(statements) - DAY);
        i := i + 1;
      }
      assert log[..|log|] == log;
      statements := statements + 1;
    }

    method Send(res: AuditResult, s: Subscription, trigger: string) returns (ok: bool)
      modifies this`log, this`mails, this`statements
      ensures statements == old(statements) + 1 && ok == !fails(old(statements))
      ensures mails == old(mails) + if ok then [Mail(res.audit, s.user, trigger, s.id)] else []
      ensures log == if ok
              then InsertRow(old(log),
                             Row(res.tenant, s.user, res.store, res.audit, s.id, trigger, clock(old(statements))))
                     else old(log)
    {
      var row := Row(res.tenant, s.user, res.store, res.audit, s.id, trigger, clock(statements));
      ok := !fails(statements);
      if ok && !Logged(log, row.audit, row.user, row.trigger) { // ON CONFLICT DO NOTHING
        log := log + [row];
      }
      if ok { // committed, whether or not a row went in
        mails := mails + [Mail(res.audit, s.user, trigger, s.id)];
      }
      statements := statements + 1;
    }

    method LoadSubscriptions(subscriptions: seq<Subscription>, res: AuditResult)
        returns (out: seq<Subscription>, ok: bool)
      modifies this`statements
      ensures statements == old(statements) + 1 && ok == !fails(old(statements))
      ensures ok ==> forall s :: s in out <==> s in subscriptions && Matches(s, res)
    {
      ok := !fails(statements);
      statements := statements + 1;
      out := [];
      var i := 0;
      while i < |subscriptions|
        invariant 0 <= i <= |subscriptions|
        invariant forall s :: s in out <==> s in subscriptions[..i] && Matches(s, res)
      {
        if Matches(subscriptions[i], res) {
          out := out + [subscriptions[i]];
        }
        i := i + 1;
      }
      assert subscriptions[..i] == subscriptions;
    }

    /** The row comes from a subscription that asks for it. */
    ghost predicate Asked(r: Row, subscriptions: seq<Subscription>, res: AuditResult, diff: Option<Diff>) {
      && r.audit == res.audit && r.store == res.store && r.tenant == res.tenant
      && exists s | s in subscriptions :: Matches(s, res) && s.user == r.user && Wants(s, res, diff, r.trigger)
    }

    /**
     The user has this alert of this audit, or it is rate-limited and the user had one for the store
     within the day before `start`.
     */
    ghost predicate Served(s: Subscription, res: AuditResult, trigger: string, start: Time)
      reads this
    {
      Logged(log, res.audit, s.user, trigger) || (RateLimited(trigger) && Recent(log, s.user, res.store, start))
    }

    /** Send, serially: since the lookup nothing was inserted. */
    method SendLimited(res: AuditResult, s: Subscription, trigger: string, ghost lookedAt: Time)
      requires Valid() && lookedAt <= clock(statements)
      requires lookupsOk && RateLimited(trigger) ==> !Recent(log, s.user, res.store, lookedAt)
      modifies this`log, this`mails, this`statements
      ensures Valid() && statements == old(statements) + 1
      ensures var row := Row(res.tenant, s.user, res.store, res.audit, s.id, trigger, clock(old(statements)));
              log == old(log) || log == old(log) + [row]
      ensures !fails(old(statements)) ==> Logged(log, res.audit, s.user, trigger)
    {
      hide UniquePerTrigger, DayApart, Recent, Logged;
      ghost var row := Row(res.tenant, s.user, res.store, res.audit, s.id, trigger, clock(statements));
      InsertKeepsUnique(log, row);
      if lookupsOk {
        SerialInsert(log, row, lookedAt);
      }
      var sent := Send(res, s, trigger);
    }

    /** The alert of one subscription and trigger; a failed rate lookup lets it through, a failed insert loses it. */
    method Alert(res: AuditResult, diff: Option<Diff>, s: Subscription, trigger: string, ghost start: Time)
      requires Valid() && trigger in Fired(res, diff) && start <= clock(statements)
      modifies this
      ensures Valid() && statements >= old(statements) && start <= clock(statements)
      ensures log == old(log) || (exists r: Row :: log == old(log) + [r] && Wants(s, res, diff, trigger)
                                    && r == Row(res.tenant, s.user, res.store, res.audit, s.id, trigger, r.sentAt))
      ensures NoneFailed(old(statements), statements) ==>
                lookupsOk == old(lookupsOk) && (Wants(s, res, diff, trigger) ==> Served(s, res, trigger, start))
    {
      hide UniquePerTrigger, DayApart, Fired, Recent, Logged, Monotone;
      ClockForward();
      if !SubscribesTo(s, trigger) {
        return;
      }
      ghost var lookedAt := clock(statements);
      if !AlwaysSend(trigger) {
        var rateLimited, ok := RecentlyAlerted(s.user, res.store);
        lookupsOk := lookupsOk && ok;
        if rateLimited {
          RecentEarlier(log, s.user, res.store, lookedAt, start);
          return;
        }
      }
      if trigger == SCORE_DROP && diff.Some? {
        if diff.value.scoreDelta > -s.scoreDropThreshold {
          return;
        }
      }
      SendLimited(res, s, trigger, lookedAt);
    }

    /** The inner loop: every fired trigger, for one subscription. */
    method AlertAll(res: AuditResult, diff: Option<Diff>, s: Subscription, subscriptions: seq<Subscription>,
                    ghost start: Time)
      requires Valid() && s in subscriptions && Matches(s, res) && start <= clock(statements)
      modifies this
      ensures Valid() && old(log) <= log && statements >= old(statements) && start <= clock(statements)
      ensures forall q | |old(log)| <= q < |log| :: Asked(log[q], subscriptions, res, diff)
      ensures NoneFailed(old(statements), statements) ==>
                lookupsOk == old(lookupsOk) && forall t | Wants(s, res, diff, t) :: Served(s, res, t, start)
    {
      hide UniquePerTrigger, DayApart, Recent, Logged, Fired, Matches;
      var triggered := Fired(res, diff);
      var k := 0;
      while k < |triggered|
        invariant 0 <= k <= |triggered| && old(statements) <= statements
        invariant Valid() && old(log) <= log && start <= clock(statements)
        invariant forall q | |old(log)| <= q < |log| :: Asked(log[q], subscriptions, res, diff)
        invariant NoneFailed(old(statements), statements) ==>
                    && lookupsOk == old(lookupsOk)
                    && (forall q | 0 <= q < k && Wants(s, res, diff, triggered[q]) ::
                          Served(s, res, triggered[q], start))
      {
        ghost var was, before := log, statements;
        Alert(res, diff, s, triggered[k], start);
        assert NoneFailed(old(statements), statements) ==>
          NoneFailed(old(statements), before) && NoneFailed(before, statements);
        LogGrew(was, log);
        k := k + 1;
      }
    }

    /**
     Dispatches of audits, one after the other, in whatever order they finish:
     every row is one some subscription asked for, the log stays unique and, while
     no rate lookup fails, a day apart; and if no statement of this dispatch fails,
     everyone who asked is served.
     */
    method Dispatch(res: AuditResult, diff: Option<Diff>, subscriptions: seq<Subscription>)
      requires Valid()
      modifies this
      ensures Valid() && old(log) <= log && statements >= old(statements)
      ensures forall i | |old(log)| <= i < |log| :: Asked(log[i], subscriptions, res, diff)
      ensures lookupsOk ==> ScoreDropsApart(log)
      ensures NoneFailed(old(statements), statements) ==>
                && lookupsOk == old(lookupsOk)
                && forall s, t | s in subscriptions && Matches(s, res) && Wants(s, res, diff, t) ::
                     || Logged(log, res.audit, s.user, t)
                     || (t != "new_critical" && t != "audit_failed"
                         && AlertedSince(log, s.user, res.store, clock(old(statements)) - 86400))
    {
      if Fired(res, diff) == [] {
        LimitsMean(log, 0, 0, 0);
        return;
      }
      hide UniquePerTrigger, DayApart, Recent, Logged, Wants, Fired, Matches, Asked;
      ghost var start, first := clock(statements), statements;
      var subs, ok := LoadSubscriptions(subscriptions, res);
      if !ok {
        LimitsMean(log, 0, 0, 0);
        return;
      }
      var i := 0;
      while i < |subs|
        invariant 0 <= i <= |subs| && first < statements
        invariant Valid() && old(log) <= log && start <= clock(statements)
        invariant forall k | |old(log)| <= k < |log| :: Asked(log[k], subscriptions, res, diff)
        invariant NoneFailed(first, statements) ==>
                    && lookupsOk == old(lookupsOk)
                    && forall m, t | 0 <= m < i && Wants(subs[m], res, diff, t) :: Served(subs[m], res, t, start)
      {
        ghost var was, before := log, statements;
        assert subs[i] in subs;
        AlertAll(res, diff, subs[i], subscriptions, start);
        assert NoneFailed(first, statements) ==> NoneFailed(first, before) && NoneFailed(before, statements);
        LogGrew(was, log);
        i := i + 1;
      }
      forall user ensures Recent(log, user, res.store, start) <==> AlertedSince(log, user, res.store, start - 86400) {
        LimitsMean(log, user, res.store, start);
      }
      LimitsMean(log, 0, 0, 0);
    }
  }

  lemma RecentNext(log: seq<Row>, i: nat, user: Id, store: Id, now: Time)
    requires i < |log|
    ensures Recent(log[..i + 1], user, store, now) <==>
            Recent(log[..i], user, store, now) || (Limited(log[i], user, store) && log[i].sentAt > now - DAY)
  {
    if Recent(log[..i], user, store, now) {
      var k :| 0 <= k < i && Limited(log[..i][k], user, store) && log[..i][k].sentAt > now - DAY;
      assert log[..i + 1][k] == log[..i][k];
    }
    assert log[..i + 1][i] == log[i];
    if Recent(log[..i + 1], user, store, now) {
      var k :| 0 <= k < i + 1 && Limited(log[..i + 1][k], user, store) && log[..i + 1][k].sentAt > now - DAY;
      assert k < i ==> log[..i][k] == log[..i + 1][k];
    }
  }

  /** Serially, nothing comes between the lookup and the insert. */
  lemma SerialInsert(log: seq<Row>, r: Row, lookedAt: Time)
    requires DayApart(log) && lookedAt <= r.sentAt
             && (RateLimited(r.trigger) ==> !Recent(log, r.user, r.store, lookedAt))
    ensures DayApart(InsertRow(log, r))
  {
    if RateLimited(r.trigger) {
      assert log + [] == log;
      LimitedInsert(log, [], r, lookedAt);
    }
  }

  lemma RecentEarlier(log: seq<Row>, user: Id, store: Id, now: Time, earlier: Time)
    requires Recent(log, user, store, now) && earlier <= now
    ensures Recent(log, user, store, earlier)
  {}

  lemma LogGrew(was: seq<Row>, log: seq<Row>)
    requires was <= log
    ensures forall audit, user, t | Logged(was, audit, user, t) :: Logged(log, audit, user, t)
    ensures forall user, store, now | Recent(was, user, store, now) :: Recent(log, user, store, now)
  {
    forall audit, user, t | Logged(was, audit, user, t) ensures Logged(log, audit, user, t) {
      var i :| 0 <= i < |was| && was[i].audit == audit && was[i].user == user && was[i].trigger == t;
      assert log[i] == was[i];
    }
    forall user, store, now | Recent(was, user, store, now) ensures Recent(log, user, store, now) {
      var i :| 0 <= i < |was| && Limited(was[i], user, store) && was[i].sentAt > now - DAY;
      assert log[i] == was[i];
    }
  }
}

/**
 Dispatches that run concurrently, as the worker starts them: each looks the log
 up and inserts in two statements, and others' statements come between.
 */
module MonitoringRuns {
  import opened Base
  import opened Monitoring

  type DispatchId = nat

  // One alert a dispatch is about to send.
  datatype Alert = Alert(tenant: Id, user: Id, store: Id, audit: Id, subscription: Id, trigger: string)

  // `seen`: how many rows the log had when it was looked up, 0 if it was not.
  datatype Phase = Ready(alert: Alert) | Passed(alert: Alert, seen: nat, lookedAt: Time)

  datatype State = State(clock: Time, log: seq<Row>, mails: seq<Mail>, dispatches: map<DispatchId, Phase>)

  datatype Step =
    | Tick(to: Time)
    | Begin(dispatch: DispatchId, alert: Alert)
    | Look(dispatch: DispatchId, ok: bool)   // a failed lookup lets the alert through
    | Insert(dispatch: DispatchId, ok: bool) // a failed insert loses it

  function RowAt(a: Alert, at: Time): Row {
    Row(a.tenant, a.user, a.store, a.audit, a.subscription, a.trigger, at)
  }

  function MailOf(a: Alert): Mail {
    Mail(a.audit, a.user, a.trigger, a.subscription)
  }

  predicate Enabled(s: State, step: Step) {
    match step
    case Tick(to) => s.clock <= to
    case Begin(d, _) => d !in s.dispatches
    case Look(d, _) => d in s.dispatches && s.dispatches[d].Ready?
    case Insert(d, _) => d in s.dispatches && s.dispatches[d].Passed?
  }

  function Next(s: State, step: Step): State
    requires Enabled(s, step)
  {
    match step
    case Tick(to) => s.(clock := to)
    case Begin(d, a) =>
      s.(dispatches := s.dispatches[d := if AlwaysSend(a.trigger) then Passed(a, 0, s.clock) else Ready(a)])
    case Look(d, ok) =>
      var a := s.dispatches[d].alert;
      if ok && Recent(s.log, a.user, a.store, s.clock) then s.(dispatches := s.dispatches - {d})
      else s.(dispatches := s.dispatches[d := Passed(a, if ok then |s.log| else 0, s.clock)])
    case Insert(d, ok) =>
      var a := s.dispatches[d].alert;
      s.(log := if ok then InsertRow(s.log, RowAt(a, s.clock)) else s.log,
         mails := if ok then s.mails + [MailOf(a)] else s.mails,
         dispatches := s.dispatches - {d})
  }

  ghost predicate Behaviour(states: seq<State>, steps: seq<Step>) {
    && |states| == |steps| + 1
    && states[0].log == [] && states[0].mails == [] && states[0].dispatches == map[]
    && forall i | 0 <= i < |steps| :: Enabled(states[i], steps[i]) && states[i + 1] == Next(states[i], steps[i])
  }

  /** When an alert passed its lookup, nothing in the log limited it. */
  ghost predicate PassedInv(s: State, p: Phase) {
    p.Passed? ==>
      && p.seen <= |s.log| && p.lookedAt <= s.clock
      && (RateLimited(p.alert.trigger) ==> !Recent(s.log[..p.seen], p.alert.user, p.alert.store, p.lookedAt))
  }

  ghost predicate Inv(s: State) {
    UniquePerTrigger(s.log) && forall d | d in s.dispatches :: PassedInv(s, s.dispatches[d])
  }

  lemma PassedStep(s: State, step: Step, d: DispatchId)
    requires Inv(s) && Enabled(s, step) && d in Next(s, step).dispatches
    ensures PassedInv(Next(s, step), Next(s, step).dispatches[d])
  {
    hide Recent, Logged, UniquePerTrigger;
    var t := Next(s, step);
    NeverRecent();
    assert s.log[..|s.log|] == s.log;
    if d in s.dispatches && t.dispatches[d] == s.dispatches[d] && t.dispatches[d].Passed? {
      assert PassedInv(s, s.dispatches[d]);
      assert t.log[..t.dispatches[d].seen] == s.log[..t.dispatches[d].seen];
    }
  }

  lemma NeverRecent()
    ensures forall user, store, now :: !Recent([], user, store, now)
    ensures forall log: seq<Row> :: log[..0] == []
  {}

  lemma {:induction false} InvAlways(states: seq<State>, steps: seq<Step>, n: nat)
    requires Behaviour(states, steps) && n < |states|
    ensures Inv(states[n])
  {
    hide UniquePerTrigger, PassedInv, Logged, Recent;
    if n == 0 {
      NothingLogged();
    } else {
      InvAlways(states, steps, n - 1);
      var s, step := states[n - 1], steps[n - 1];
      forall d | d in states[n].dispatches ensures PassedInv(states[n], states[n].dispatches[d]) {
        PassedStep(s, step, d);
      }
      if step.Insert? {
        InsertKeepsUnique(s.log, RowAt(s.dispatches[step.dispatch].alert, s.clock));
      }
    }
  }

  lemma NothingLogged()
    ensures UniquePerTrigger([])
  {}

  /** However dispatches interleave, rows are unique per audit, user and trigger. */
  lemma RowsAreUnique(states: seq<State>, steps: seq<Step>, n: nat)
    requires Behaviour(states, steps) && n < |states|
    ensures UniquePerTrigger(states[n].log)
  {
    InvAlways(states, steps, n);
  }

  /** The step inserts a rate-limited row although one less than a day old came in since its lookup. */
  ghost predicate Crowds(s: State, step: Step) {
    && step.Insert? && step.ok && Enabled(s, step)
    && var p := s.dispatches[step.dispatch];
    && RateLimited(p.alert.trigger) && !Logged(s.log, p.alert.audit, p.alert.user, p.alert.trigger)
    && p.seen <= |s.log| && Recent(s.log[p.seen..], p.alert.user, p.alert.store, s.clock)
  }

  lemma PrefixApart(log: seq<Row>, r: Row)
    requires DayApart(log + [r])
    ensures DayApart(log)
  {
    forall i, k | 0 <= i < k < |log| && RateLimited(log[k].trigger) && Limited(log[i], log[k].user, log[k].store)
      ensures log[i].sentAt + DAY <= log[k].sentAt
    {
      assert (log + [r])[i] == log[i] && (log + [r])[k] == log[k];
    }
  }

  lemma ApartStep(s: State, step: Step)
    requires Inv(s) && Enabled(s, step)
    ensures DayApart(Next(s, step).log) <==> DayApart(s.log) && !Crowds(s, step)
  {
    hide DayApart, Recent, UniquePerTrigger, Logged;
    if step.Insert? && step.ok {
      var p := s.dispatches[step.dispatch];
      assert PassedInv(s, p);
      var r := RowAt(p.alert, s.clock);
      if !Logged(s.log, r.audit, r.user, r.trigger) {
        assert s.log == s.log[..p.seen] + s.log[p.seen..];
        if DayApart(s.log + [r]) {
          PrefixApart(s.log, r);
        }
        if !RateLimited(r.trigger) && DayApart(s.log) {
          UnlimitedInsert(s.log, r);
        }
        if DayApart(s.log) && RateLimited(r.trigger) {
          LimitedInsert(s.log[..p.seen], s.log[p.seen..], r, p.lookedAt);
        }
      }
    }
  }

  lemma UnlimitedInsert(log: seq<Row>, r: Row)
    requires DayApart(log) && !RateLimited(r.trigger)
    ensures DayApart(log + [r])
  {}

  /** Rate-limited alerts are a day apart if and only if no insert so far crowded one that came in since its lookup. */
  lemma {:induction false} ApartExactly(states: seq<State>, steps: seq<Step>, n: nat)
    requires Behaviour(states, steps) && n < |states|
    ensures DayApart(states[n].log) <==> forall i | 0 <= i < n :: !Crowds(states[i], steps[i])
  {
    if n > 0 {
      hide DayApart, Crowds, Enabled, Next, Inv;
      ApartExactly(states, steps, n - 1);
      InvAlways(states, steps, n - 1);
      ApartStep(states[n - 1], steps[n - 1]);
    }
  }

  /** One dispatch at a time, with every lookup answered. */
  ghost predicate Serial(states: seq<State>, steps: seq<Step>)
    requires |states| == |steps| + 1
  {
    forall i | 0 <= i < |steps| ::
      && (steps[i].Begin? ==> states[i].dispatches == map[])
      && (steps[i].Look? ==> steps[i].ok)
  }

  /** Nothing was inserted since the one dispatch under way looked the log up. */
  ghost predicate SerialInv(s: State) {
    && (forall d, e | d in s.dispatches && e in s.dispatches :: d == e)
    && (forall d | d in s.dispatches && s.dispatches[d].Passed? && RateLimited(s.dispatches[d].alert.trigger) ::
          s.dispatches[d].seen == |s.log|)
  }

  lemma {:induction false} SerialAlways(states: seq<State>, steps: seq<Step>, n: nat)
    requires Behaviour(states, steps) && Serial(states, steps) && n < |states|
    ensures SerialInv(states[n])
  {
    if n > 0 {
      hide Recent, Logged;
      SerialAlways(states, steps, n - 1);
    }
  }

  /** Run one after the other, dispatches keep their rows a day apart. */
  lemma SerialDispatchesStayApart(states: seq<State>, steps: seq<Step>, n: nat)
    requires Behaviour(states, steps) && Serial(states, steps) && n < |states|
    ensures DayApart(states[n].log)
  {
    hide DayApart;
    forall i | 0 <= i < n ensures !Crowds(states[i], steps[i]) {
      SerialAlways(states, steps, i);
      if steps[i].Insert? {
        var p := states[i].dispatches[steps[i].dispatch];
        assert p.seen == |states[i].log| ==> states[i].log[p.seen..] == [];
      }
    }
    ApartExactly(states, steps, n);
  }

  /** So no user is alerted twice of score drops of one store within a day. */
  lemma ScoreDropsStayApart(states: seq<State>, steps: seq<Step>, n: nat)
    requires Behaviour(states, steps) && Serial(states, steps) && n < |states|
    ensures ScoreDropsApart(states[n].log)
  {
    SerialDispatchesStayApart(states, steps, n);
    LimitsMean(states[n].log, 0, 0, 0);
  }

  function TwoDispatches(a: Alert, b: Alert): seq<Step> {
    [Begin(0, a), Begin(1, b), Look(0, true), Look(1, true), Insert(0, true), Insert(1, true)]
  }

  function TwoDispatchStates(a: Alert, b: Alert, now: Time): seq<State> {
    [State(now, [], [], map[]),
     State(now, [], [], map[0 := Ready(a)]),
     State(now, [], [], map[0 := Ready(a), 1 := Ready(b)]),
     State(now, [], [], map[0 := Passed(a, 0, now), 1 := Ready(b)]),
     State(now, [], [], map[0 := Passed(a, 0, now), 1 := Passed(b, 0, now)]),
     State(now, [RowAt(a, now)], [MailOf(a)], map[1 := Passed(b, 0, now)]),
     State(now, [RowAt(a, now), RowAt(b, now)], [MailOf(a), MailOf(b)], map[])]
  }

  lemma TwoDispatchStep(a: Alert, b: Alert, now: Time, i: nat)
    requires i < 6 && RateLimited(a.trigger) && RateLimited(b.trigger) && a.audit != b.audit
    ensures var states, step := TwoDispatchStates(a, b, now), TwoDispatches(a, b)[i];
            Enabled(states[i], step) && states[i + 1] == Next(states[i], step)
  {
    var states, step := TwoDispatchStates(a, b, now), TwoDispatches(a, b)[i];
    NeverRecent();
    assert !Logged([], a.audit, a.user, a.trigger) && !Logged([RowAt(a, now)], b.audit, b.user, b.trigger);
    var t := Next(states[i], step);
    assert t.log == states[i + 1].log && t.mails == states[i + 1].mails && t.dispatches == states[i + 1].dispatches;
  }

  /** Two dispatches, for two audits of a store that finish together, both look the log up before either inserts. */
  lemma ConcurrentDispatchesAlertTwice(a: Alert, b: Alert, now: Time)
    requires RateLimited(a.trigger) && RateLimited(b.trigger) && a.user == b.user && a.store == b.store
             && a.audit != b.audit
    ensures var states := TwoDispatchStates(a, b, now);
            Behaviour(states, TwoDispatches(a, b)) && !DayApart(states[6].log)
  {
    hide DayApart, Enabled, Next;
    var states, steps := TwoDispatchStates(a, b, now), TwoDispatches(a, b);
    forall i | 0 <= i < 6 ensures Enabled(states[i], steps[i]) && states[i + 1] == Next(states[i], steps[i]) {
      TwoDispatchStep(a, b, now, i);
    }
    assert |states| == 7 && |steps| == 6;
    assert Behaviour(states, steps);
    SecondCrowds(a, b, now);
    ApartExactly(states, steps, 6);
  }

  lemma SecondCrowds(a: Alert, b: Alert, now: Time)
    requires RateLimited(a.trigger) && RateLimited(b.trigger) && a.user == b.user && a.store == b.store
             && a.audit != b.audit
    ensures Crowds(TwoDispatchStates(a, b, now)[5], TwoDispatches(a, b)[5])
  {
    var s := TwoDispatchStates(a, b, now)[5];
    assert s.log[0..] == s.log && Limited(s.log[0], b.user, b.store);
  }

  // ---------------------------------------------------------------- mails

  predicate Mailed(mails: seq<Mail>, audit: Id, user: Id, trigger: string) {
    exists i | 0 <= i < |mails| :: mails[i].audit == audit && mails[i].user == user && mails[i].trigger == trigger
  }

  ghost predicate UniqueMails(mails: seq<Mail>) {
    forall i, k | 0 <= i < k < |mails| ::
      mails[i].audit != mails[k].audit || mails[i].user != mails[k].user || mails[i].trigger != mails[k].trigger
  }

  /** Exactly the alerts in the log were mailed, however often. */
  ghost predicate MailsMatch(s: State) {
    forall audit, user, trigger :: Logged(s.log, audit, user, trigger) <==> Mailed(s.mails, audit, user, trigger)
  }

  lemma LoggedMore(log: seq<Row>, r: Row, audit: Id, user: Id, trigger: string)
    ensures Logged(log + [r], audit, user, trigger) <==>
            Logged(log, audit, user, trigger) || (r.audit == audit && r.user == user && r.trigger == trigger)
  {
    assert (log + [r])[|log|] == r;
    if Logged(log, audit, user, trigger) {
      var i :| 0 <= i < |log| && log[i].audit == audit && log[i].user == user && log[i].trigger == trigger;
      assert (log + [r])[i] == log[i];
    }
  }

  lemma MailedMore(mails: seq<Mail>, m: Mail, audit: Id, user: Id, trigger: string)
    ensures Mailed(mails + [m], audit, user, trigger) <==>
            Mailed(mails, audit, user, trigger) || (m.audit == audit && m.user == user && m.trigger == trigger)
    ensures UniqueMails(mails + [m]) <==> UniqueMails(mails) && !Mailed(mails, m.audit, m.user, m.trigger)
  {
    var more := mails + [m];
    assert more[|mails|] == m;
    assert forall i | 0 <= i < |mails| :: more[i] == mails[i];
  }

  lemma MailsMatchStep(s: State, step: Step)
    requires MailsMatch(s) && Enabled(s, step)
    ensures MailsMatch(Next(s, step))
  {
    hide Logged, Mailed, Recent;
    var t := Next(s, step);
    if step.Insert? && step.ok {
      var a := s.dispatches[step.dispatch].alert;
      forall audit, user, trigger
        ensures Logged(t.log, audit, user, trigger) <==> Mailed(t.mails, audit, user, trigger)
      {
        LoggedMore(s.log, RowAt(a, s.clock), audit, user, trigger);
        MailedMore(s.mails, MailOf(a), audit, user, trigger);
      }
    }
  }

  lemma {:induction false} MailsMatchAlways(states: seq<State>, steps: seq<Step>, n: nat)
    requires Behaviour(states, steps) && n < |states|
    ensures MailsMatch(states[n])
  {
    if n > 0 {
      hide MailsMatch, Enabled, Next;
      MailsMatchAlways(states, steps, n - 1);
      MailsMatchStep(states[n - 1], steps[n - 1]);
    }
  }

  /** The insert conflicts with a row that is there: the code mails all the same. */
  ghost predicate Conflicts(s: State, step: Step) {
    && step.Insert? && step.ok && Enabled(s, step)
    && var a := s.dispatches[step.dispatch].alert;
    Logged(s.log, a.audit, a.user, a.trigger)
  }

  lemma MailStep(s: State, step: Step)
    requires MailsMatch(s) && Enabled(s, step)
    ensures UniqueMails(Next(s, step).mails) <==> UniqueMails(s.mails) && !Conflicts(s, step)
  {
    hide Logged, Mailed, Recent, UniqueMails;
    if step.Insert? && step.ok {
      var a := s.dispatches[step.dispatch].alert;
      MailedMore(s.mails, MailOf(a), a.audit, a.user, a.trigger);
    }
  }

  /** Nobody is mailed twice about one audit and trigger if and only if no insert so far conflicted with a row. */
  lemma {:induction false} MailedOnceExactly(states: seq<State>, steps: seq<Step>, n: nat)
    requires Behaviour(states, steps) && n < |states|
    ensures UniqueMails(states[n].mails) <==> forall i | 0 <= i < n :: !Conflicts(states[i], steps[i])
  {
    if n > 0 {
      hide UniqueMails, Conflicts, Enabled, Next, MailsMatch;
      MailedOnceExactly(states, steps, n - 1);
      MailsMatchAlways(states, steps, n - 1);
      MailStep(states[n - 1], steps[n - 1]);
    }
  }

  function TwoSubscriptionStates(a: Alert, b: Alert, now: Time): seq<State> {
    [State(now, [], [], map[]),
     State(now, [], [], map[0 := Passed(a, 0, now)]),
     State(now, [RowAt(a, now)], [MailOf(a)], map[]),
     State(now, [RowAt(a, now)], [MailOf(a)], map[0 := Passed(b, 0, now)]),
     State(now, [RowAt(a, now)], [MailOf(a), MailOf(b)], map[])]
  }

  /**
   A user with a subscription to the store and one to the whole tenant gets an unlimited alert twice,
   even serially.
   */
  lemma TwoSubscriptionsMailTwice(a: Alert, b: Alert, now: Time)
    requires a.trigger in {NEW_CRITICAL, AUDIT_FAILED} && b == a.(subscription := b.subscription)
    ensures var states, steps :=
              TwoSubscriptionStates(a, b, now), [Begin(0, a), Insert(0, true), Begin(0, b), Insert(0, true)];
            Behaviour(states, steps) && Serial(states, steps) && !UniqueMails(states[4].mails)
            && states[4].mails == [Mail(a.audit, a.user, a.trigger, a.subscription),
                                   Mail(a.audit, a.user, a.trigger, b.subscription)]
  {
    var states, steps := TwoSubscriptionStates(a, b, now), [Begin(0, a), Insert(0, true), Begin(0, b), Insert(0, true)];
    assert Logged([RowAt(a, now)], b.audit, b.user, b.trigger) by {
      assert [RowAt(a, now)][0].audit == b.audit;
    }
    assert !Logged([], a.audit, a.user, a.trigger);
    forall i | 0 <= i < 4 ensures Enabled(states[i], steps[i]) && states[i + 1] == Next(states[i], steps[i]) {
      var t := Next(states[i], steps[i]);
      assert t.log == states[i + 1].log && t.mails == states[i + 1].mails && t.dispatches == states[i + 1].dispatches;
    }
    var mails := states[4].mails;
    assert mails[0].audit == mails[1].audit && mails[0].user == mails[1].user && mails[0].trigger == mails[1].trigger;
  }
}
