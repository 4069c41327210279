/**
 The login rate limiter. `LoginLimiter` keeps a pruned list of failures, a streak
 counter and a lockout per address; it answers as `Verdict` does on the complete
 list of failures since the address last logged in.
 */
module LoginLimiting {
  import opened Base

  // Instants are nanoseconds after Go's zero time, which `lockUntil` starts at.
  const SECOND := 1_000_000_000
  const WINDOW := 15 * 60 * SECOND
  const MAX_PER_WINDOW := 5
  const BACKOFF_AFTER := 3

  datatype Answer = Allowed | Denied(retryAfter: Time)

  function Pow2(e: nat): nat {
    if e == 0 then 1 else 2 * Pow2(e - 1)
  }

  /** How long the k-th failure in a row locks the address out. */
  function Lockout(k: nat): Time {
    if k <= BACKOFF_AFTER then 0
    else SECOND * Pow2(if k - BACKOFF_AFTER > 8 then 8 else k - BACKOFF_AFTER)
  }

  // ---------------------------------------------------------------- the answer, from the full history

  ghost predicate Sorted(times: seq<Time>) {
    forall i, k | 0 <= i <= k < |times| :: times[i] <= times[k]
  }

  function LockUntil(failures: seq<Time>): Time {
    if |failures| <= BACKOFF_AFTER then 0 else failures[|failures| - 1] + Lockout(|failures|)
  }

  /** What one failure adds to the recent ones. */
  function Recent(t: Time, cutoff: Time): seq<Time> {
    if t > cutoff then [t] else []
  }

  /** The failures strictly after `cutoff`, wherever they stand in the list. */
  function After(failures: seq<Time>, cutoff: Time): seq<Time> {
    if failures == [] then []
    else Recent(failures[0], cutoff) + After(failures[1..], cutoff)
  }

  function Verdict(failures: seq<Time>, now: Time): Answer {
    if now < LockUntil(failures) then Denied(LockUntil(failures) - now)
    else
      var recent := After(failures, now - WINDOW);
      if |recent| >= MAX_PER_WINDOW then Denied(recent[0] + WINDOW - now) else Allowed
  }

  lemma AfterCons(t: Time, rest: seq<Time>, cutoff: Time)
    ensures After([t] + rest, cutoff) == Recent(t, cutoff) + After(rest, cutoff)
  {
    assert ([t] + rest)[1..] == rest;
  }

  lemma AfterEmpty(cutoff: Time)
    ensures After([], cutoff) == []
  {}

  lemma {:induction false} AfterSplit(a: seq<Time>, b: seq<Time>, cutoff: Time)
    ensures After(a + b, cutoff) == After(a, cutoff) + After(b, cutoff)
  {
    hide After, Recent;
    if a == [] {
      AfterEmpty(cutoff);
      assert a + b == b;
    } else {
      var t, rest := a[0], a[1..];
      AfterSplit(rest, b, cutoff);
      AfterCons(t, rest, cutoff);
      AfterCons(t, rest + b, cutoff);
      assert a == [t] + rest;
      assert a + b == [t] + (rest + b);
      assert Recent(t, cutoff) + (After(rest, cutoff) + After(b, cutoff)) ==
             (Recent(t, cutoff) + After(rest, cutoff)) + After(b, cutoff);
    }
  }

  lemma {:induction false} AfterNone(a: seq<Time>, cutoff: Time)
    requires forall i | 0 <= i < |a| :: a[i] <= cutoff
    ensures After(a, cutoff) == []
  {
    if a != [] {
      AfterNone(a[1..], cutoff);
    }
  }

  lemma {:induction false} AfterAll(a: seq<Time>, cutoff: Time)
    requires forall i | 0 <= i < |a| :: a[i] > cutoff
    ensures After(a, cutoff) == a
  {
    if a != [] {
      AfterAll(a[1..], cutoff);
    }
  }

  /** In a sorted list the recent failures are one suffix. */
  lemma AfterIsSuffix(a: seq<Time>, n: nat, cutoff: Time)
    requires n <= |a|
    requires forall i | 0 <= i < n :: a[i] <= cutoff
    requires forall i | n <= i < |a| :: a[i] > cutoff
    ensures After(a, cutoff) == a[n..]
  {
    assert a == a[..n] + a[n..];
    AfterSplit(a[..n], a[n..], cutoff);
    AfterNone(a[..n], cutoff);
    AfterAll(a[n..], cutoff);
  }

  // ---------------------------------------------------------------- what an answer promises

  lemma {:induction false} Pow2Positive(e: nat)
    ensures Pow2(e) >= 1
  {
    if e > 0 {
      Pow2Positive(e - 1);
    }
  }

  /**
   How many seconds the m-th failure in a row locks the address out: 2 after the fourth, then twice as
   many each time, 256 in the end.
   */
  function LockoutSeconds(m: nat): nat {
    if m < 4 then 0 else if m < 11 then [2, 4, 8, 16, 32, 64, 128][m - 4] else 256
  }

  lemma LockoutLasts(m: nat)
    ensures Lockout(m) == SECOND * LockoutSeconds(m)
  {
    assert Pow2(4) == 16 && Pow2(8) == 256;
  }

  lemma LockoutGrows(k: nat)
    ensures 0 <= Lockout(k) <= Lockout(k + 1)
  {
    Pow2Positive(if k - BACKOFF_AFTER > 8 then 8 else if k < BACKOFF_AFTER then 0 else k - BACKOFF_AFTER);
  }

  ghost predicate Grows(failures: seq<Time>, more: seq<Time>, from: Time, to: Time) {
    && Sorted(failures + more)
    && (forall i | 0 <= i < |failures| :: 0 <= failures[i] <= from)
    && (forall i | 0 <= i < |more| :: from <= more[i] <= to)
  }

  /** Recording more failures never moves the end of the lockout backwards. */
  lemma {:induction false} LockUntilGrows(failures: seq<Time>, more: seq<Time>)
    requires Sorted(failures + more) && forall i | 0 <= i < |failures + more| :: 0 <= (failures + more)[i]
    ensures LockUntil(failures) <= LockUntil(failures + more)
    decreases |more|
  {
    if more == [] {
      assert failures + more == failures;
    } else {
      var init := more[..|more| - 1];
      var all := failures + init;
      assert failures + more == all + [more[|more| - 1]];
      forall i | 0 <= i < |all| ensures all[i] == (failures + more)[i] {}
      LockUntilGrows(failures, init);
      LockoutGrows(|all|);
      if all != [] {
        assert (failures + more)[|all| - 1] <= (failures + more)[|all|];
      }
    }
  }

  lemma {:induction false} AfterHead(a: seq<Time>, cutoff: Time)
    requires After(a, cutoff) != []
    ensures cutoff < After(a, cutoff)[0]
  {
    if a[0] <= cutoff {
      AfterHead(a[1..], cutoff);
    }
  }

  /** A later cutoff that is still before the first recent failure of a sorted list drops nothing. */
  lemma {:induction false} AfterStable(a: seq<Time>, c1: Time, c2: Time)
    requires Sorted(a) && c1 <= c2 && After(a, c1) != [] && c2 < After(a, c1)[0]
    ensures After(a, c2) == After(a, c1)
  {
    if a[0] > c1 {
      AfterAll(a, c1);
      AfterAll(a, c2);
    } else {
      forall i, k | 0 <= i <= k < |a[1..]| ensures a[1..][i] <= a[1..][k] {
        assert a[i + 1] <= a[k + 1];
      }
      AfterStable(a[1..], c1, c2);
    }
  }

  lemma LockoutDenialLasts(failures: seq<Time>, now: Time, more: seq<Time>, later: Time)
    requires 0 <= now && Grows(failures, more, now, later) && later < LockUntil(failures)
    ensures Verdict(failures + more, later).Denied?
  {
    hide LockUntil, After;
    forall i | 0 <= i < |failures + more| ensures 0 <= (failures + more)[i] {
      assert (failures + more)[i] == if i < |failures| then failures[i] else more[i - |failures|];
    }
    LockUntilGrows(failures, more);
  }

  lemma WindowDenialLasts(failures: seq<Time>, now: Time, more: seq<Time>, later: Time)
    requires Grows(failures, more, now, later) && now <= later
    requires |After(failures, now - WINDOW)| >= MAX_PER_WINDOW && later < After(failures, now - WINDOW)[0] + WINDOW
    ensures Verdict(failures + more, later).Denied?
  {
    hide LockUntil, After;
    forall i, k | 0 <= i <= k < |failures| ensures failures[i] <= failures[k] {
      assert (failures + more)[i] <= (failures + more)[k];
    }
    AfterStable(failures, now - WINDOW, later - WINDOW);
    AfterSplit(failures, more, later - WINDOW);
  }

  /** The first failure after the cutoff. */
  ghost predicate FirstAfter(failures: seq<Time>, cutoff: Time, p: nat) {
    p < |failures| && failures[p] > cutoff && forall i | 0 <= i < p :: failures[i] <= cutoff
  }

  lemma {:induction false} RecentFrom(failures: seq<Time>, cutoff: Time) returns (n: nat)
    requires Sorted(failures)
    ensures n <= |failures| && After(failures, cutoff) == failures[n..]
    ensures n < |failures| ==> FirstAfter(failures, cutoff, n)
    ensures n == |failures| ==> forall i | 0 <= i < n :: failures[i] <= cutoff
  {
    n := 0;
    while n < |failures| && failures[n] <= cutoff
      invariant n <= |failures| && forall i | 0 <= i < n :: failures[i] <= cutoff
    {
      n := n + 1;
    }
    AfterIsSuffix(failures, n, cutoff);
  }

  /**
   The answer, told from the failures since the last success: denied until the
   lockout of the last one is over, then as long as the fifth from the end is less
   than a quarter of an hour old, and otherwise allowed; a denial names the wait
   until the lockout is over or the oldest recent failure leaves the window.
   */
  lemma VerdictExactly(failures: seq<Time>, now: Time)
    requires Sorted(failures) && 0 <= now && forall i | 0 <= i < |failures| :: 0 <= failures[i] <= now
    ensures var m, window := |failures|, 900 * SECOND;
            var locked := m >= 4 && now < failures[m - 1] + SECOND * LockoutSeconds(m);
            var crowded := m >= 5 && now < failures[m - 5] + window;
            && (Verdict(failures, now) == Allowed <==> !locked && !crowded)
            && (locked ==> Verdict(failures, now) == Denied(failures[m - 1] + SECOND * LockoutSeconds(m) - now))
            && (crowded && !locked ==>
                  exists p: nat :: FirstAfter(failures, now - window, p)
                                   && Verdict(failures, now) == Denied(failures[p] + window - now))
  {
    hide After, LockoutSeconds, Lockout;
    LockoutLasts(|failures|);
    var n := RecentFrom(failures, now - WINDOW);
  }

  /**
   A denial lasts: it names a positive wait, and until the wait is over every
   check is denied, however many failures are recorded meanwhile.
   */
  lemma DenialLasts(failures: seq<Time>, now: Time, more: seq<Time>, later: Time)
    requires Verdict(failures, now).Denied? && Grows(failures, more, now, later)
    requires 0 <= now <= later < now + Verdict(failures, now).retryAfter
    ensures Verdict(failures, now).retryAfter > 0
    ensures Verdict(failures + more, later).Denied?
  {
    hide LockUntil, After, Grows;
    if now < LockUntil(failures) {
      LockoutDenialLasts(failures, now, more, later);
    } else {
      AfterHead(failures, now - WINDOW);
      WindowDenialLasts(failures, now, more, later);
    }
  }

  // ---------------------------------------------------------------- whole runs of failed attempts

  /**
   A failed login: its check ran at `checked`, after `seen` failures of the streak
   had been recorded, and its own failure was recorded at `failed`.
   */
  datatype Attempt = Attempt(seen: nat, checked: Time, failed: Time)

  function Failures(run: seq<Attempt>): (f: seq<Time>)
    ensures |f| == |run| && forall i | 0 <= i < |run| :: f[i] == run[i].failed
  {
    seq(|run|, i requires 0 <= i < |run| => run[i].failed)
  }

  /**
   A streak between two successes in which every failure follows a check that
   allowed it, with at most `c` attempts past their check at any time.
   */
  ghost predicate Streak(run: seq<Attempt>, c: nat) {
    var f := Failures(run);
    && Sorted(f)
    && forall i | 0 <= i < |run| ::
         && run[i].seen <= i < run[i].seen + c
         && 0 <= run[i].checked <= run[i].failed
         && (run[i].seen > 0 ==> f[run[i].seen - 1] <= run[i].checked)
         && Verdict(f[..run[i].seen], run[i].checked).Allowed?
  }

  lemma {:induction false} AfterAtLeast(a: seq<Time>, n: nat, cutoff: Time)
    requires n <= |a| && forall i | n <= i < |a| :: a[i] > cutoff
    ensures |After(a, cutoff)| >= |a| - n
  {
    assert a == a[..n] + a[n..];
    AfterSplit(a[..n], a[n..], cutoff);
    AfterAll(a[n..], cutoff);
  }

  /**
   No fifteen-minute window of a streak holds more than 4 + c failures: five when
   attempts are serial, and one more for each extra attempt in flight.
   */
  lemma WindowHoldsFew(run: seq<Attempt>, c: nat, lo: nat, hi: nat)
    requires Streak(run, c) && lo <= hi < |run|
    requires run[hi].failed - run[lo].failed < WINDOW
    ensures hi - lo + 1 <= MAX_PER_WINDOW - 1 + c
  {
    hide LockUntil, After;
    var f := Failures(run);
    var seen, now := run[hi].seen, run[hi].checked;
    if hi - lo + 1 > MAX_PER_WINDOW - 1 + c {
      forall i | lo <= i < seen ensures f[..seen][i] > now - WINDOW {
        assert f[lo] <= f[i];
      }
      AfterAtLeast(f[..seen], lo, now - WINDOW);
    }
  }

  /**
   A failure whose check came after the m-th failure of the streak was recorded is
   recorded at least that one's lockout later; serially, m is every k.
   */
  lemma FailuresBackOff(run: seq<Attempt>, c: nat, m: nat, k: nat)
    requires Streak(run, c) && k < |run| && 4 <= m <= run[k].seen
    requires forall i | 0 <= i < |run| :: 0 <= run[i].failed
    ensures run[m - 1].failed + SECOND * LockoutSeconds(m) <= run[k].failed
  {
    hide After, LockUntil, Lockout, LockoutSeconds;
    var seen := Failures(run)[..run[k].seen];
    assert seen == seen[..m] + seen[m..];
    LockUntilGrows(seen[..m], seen[m..]);
    LockedFrom(seen[..m]);
  }

  lemma LockedFrom(failures: seq<Time>)
    requires |failures| >= 4
    ensures LockUntil(failures) == failures[|failures| - 1] + SECOND * LockoutSeconds(|failures|)
  {
    hide Lockout, LockoutSeconds;
    LockoutLasts(|failures|);
  }

  // ---------------------------------------------------------------- the limiter itself

  lemma NoFailures(now: Time)
    requires 0 <= now
    ensures Verdict([], now) == Allowed
  {}

  method PruneBefore(t: seq<Time>, cutoff: Time) returns (kept: seq<Time>)
    ensures |kept| <= |t| && kept == t[|t| - |kept|..]
    ensures forall i | 0 <= i < |t| - |kept| :: t[i] <= cutoff
    ensures kept != [] ==> kept[0] > cutoff
  {
    var i := 0;
    while i < |t|
      invariant 0 <= i <= |t|
      invariant forall k | 0 <= k < i :: t[k] <= cutoff
    {
      if t[i] > cutoff {
        break;
      }
      i := i + 1;
    }
    kept := t[i..];
  }

  /**
   The stored failures, lockout and streak are what pruning may have left of the
   full list `full` by the instant `latest`.
   */
  ghost predicate Represents(stored: seq<Time>, lockUntil: Time, streakFail: nat, full: seq<Time>, latest: Time) {
    && Sorted(full)
    && (full != [] ==> 0 <= full[0] && full[|full| - 1] <= latest)
    && streakFail == |full|
    && lockUntil == LockUntil(full)
    && |stored| <= |full|
    && stored == full[|full| - |stored|..]
    && (forall i | 0 <= i < |full| - |stored| :: full[i] <= latest - WINDOW)
  }

  lemma LockedAnswer(stored: seq<Time>, lockUntil: Time, streakFail: nat, full: seq<Time>, latest: Time, now: Time)
    requires Represents(stored, lockUntil, streakFail, full, latest) && latest <= now < lockUntil
    ensures Represents(stored, lockUntil, streakFail, full, now)
    ensures Verdict(full, now) == Denied(lockUntil - now)
  {
    hide LockUntil, After, Sorted;
  }

  lemma PrunedAnswer(stored: seq<Time>, lockUntil: Time, streakFail: nat, full: seq<Time>, latest: Time,
                     kept: seq<Time>, now: Time)
    requires Represents(stored, lockUntil, streakFail, full, latest) && latest <= now && lockUntil <= now
    requires |kept| <= |stored| && kept == stored[|stored| - |kept|..]
    requires forall i | 0 <= i < |stored| - |kept| :: stored[i] <= now - WINDOW
    requires kept != [] ==> kept[0] > now - WINDOW
    ensures Represents(kept, lockUntil, streakFail, full, now)
    ensures Verdict(full, now) ==
            if |kept| >= MAX_PER_WINDOW then Denied(kept[0] + WINDOW - now) else Allowed
  {
    hide LockUntil, After;
    var n := |full| - |kept|;
    forall i | 0 <= i < n ensures full[i] <= now - WINDOW {
      if i >= |full| - |stored| {
        assert full[i] == stored[i - (|full| - |stored|)];
      }
    }
    AfterIsSuffix(full, n, now - WINDOW);
  }

  lemma SortedAppend(full: seq<Time>, now: Time)
    requires Sorted(full) && (full != [] ==> full[|full| - 1] <= now)
    ensures Sorted(full + [now])
  {
    var all := full + [now];
    forall i, k | 0 <= i <= k < |all| ensures all[i] <= all[k] {
      if full != [] && i < |full| {
        assert full[i] <= full[|full| - 1];
      }
    }
  }

  lemma LockUntilAppend(full: seq<Time>, now: Time)
    ensures LockUntil(full + [now]) ==
            if |full| + 1 <= BACKOFF_AFTER then LockUntil(full) else now + Lockout(|full| + 1)
  {
    hide Lockout;
  }

  lemma FailureRepresents(stored: seq<Time>, lockUntil: Time, streakFail: nat, full: seq<Time>, latest: Time, now: Time)
    requires 0 <= now && latest <= now && Represents(stored, lockUntil, streakFail, full, latest)
    ensures Represents(stored + [now], LockUntil(full + [now]), streakFail + 1, full + [now], now)
    ensures LockUntil(full + [now]) ==
            if streakFail + 1 <= BACKOFF_AFTER then lockUntil else now + Lockout(streakFail + 1)
  {
    hide LockUntil, Lockout, Sorted;
    SortedAppend(full, now);
    LockUntilAppend(full, now);
    var all := full + [now];
    assert stored + [now] == all[|all| - |stored + [now]|..];
  }

  class LoginState {
    var failures: seq<Time>
    var lockUntil: Time
    var streakFail: nat
    ghost var full: seq<Time> // every failure since the state was created
    ghost var asOf: Time      // the last clock reading that looked at the state

    ghost predicate Valid()
      reads this
    {
      Represents(failures, lockUntil, streakFail, full, asOf)
    }

    constructor ()
      ensures Valid() && full == [] && asOf == 0
    {
      failures, lockUntil, streakFail := [], 0, 0;
      full, asOf := [], 0;
    }

    method Check(now: Time) returns (retryAfter: Time, allowed: bool)
      requires Valid() && asOf <= now
      modifies this
      ensures Valid() && asOf == now && full == old(full)
      ensures (if allowed then Allowed else Denied(retryAfter)) == Verdict(full, now)
      ensures allowed ==> retryAfter == 0
    {
      hide Represents, Verdict;
      ghost var before := asOf;
      asOf := now;
      if now < lockUntil {
        LockedAnswer(failures, lockUntil, streakFail, full, before, now);
        return lockUntil - now, false;
      }
      var kept := PruneBefore(failures, now - WINDOW);
      PrunedAnswer(failures, lockUntil, streakFail, full, before, kept, now);
      failures := kept;
      if |failures| >= MAX_PER_WINDOW {
        var oldest := failures[0];
        return oldest + WINDOW - now, false;
      }
      return 0, true;
    }

    method RecordFailure(now: Time)
      requires Valid() && 0 <= asOf <= now
      modifies this
      ensures Valid() && asOf == now && full == old(full) + [now]
    {
      hide Represents, LockUntil;
      FailureRepresents(failures, lockUntil, streakFail, full, asOf, now);
      failures := failures + [now];
      streakFail := streakFail + 1;
      if streakFail > BACKOFF_AFTER {
        var exp := streakFail - BACKOFF_AFTER;
        if exp > 8 {
          exp := 8;
        }
        lockUntil := now + SECOND * Pow2(exp);
      }
      full, asOf := full + [now], now;
    }
  }

  class LoginLimiter {
    var state: map<string, LoginState>
    ghost var latest: Time // the last reading of the clock

    ghost predicate Valid()
      reads this, state.Values
    {
      && 0 <= latest
      && (forall ip | ip in state :: state[ip].Valid() && 0 <= state[ip].asOf <= latest)
      && (forall a, b | a in state && b in state && a != b :: state[a] != state[b])
    }

    /** Every failure of the address since its last success. */
    ghost function History(ip: string): seq<Time>
      reads this, state.Values
    {
      if ip in state then state[ip].full else []
    }

    constructor ()
      ensures Valid() && latest == 0 && state == map[]
    {
      state, latest := map[], 0;
    }

    /** Whatever was pruned before, the answer is the verdict on the full history. */
    method Check(ip: string, now: Time) returns (retryAfter: Time, allowed: bool)
      requires Valid() && latest <= now
      modifies this`latest, state.Values
      ensures Valid() && latest == now
      ensures forall a :: History(a) == old(History(a))
      ensures (if allowed then Allowed else Denied(retryAfter)) == Verdict(old(History(ip)), now)
      ensures allowed ==> retryAfter == 0
    {
      hide Represents, Verdict;
      latest := now;
      if ip !in state {
        NoFailures(now);
        return 0, true;
      }
      retryAfter, allowed := state[ip].Check(now);
    }

    method RecordFailure(ip: string, now: Time)
      requires Valid() && latest <= now
      modifies this, state.Values
      ensures Valid() && latest == now
      ensures History(ip) == old(History(ip)) + [now]
      ensures forall a | a != ip :: History(a) == old(History(a))
      ensures fresh(state.Values - old(state.Values))
    {
      hide Represents;
      latest := now;
      if ip !in state {
        var blank := new LoginState();
        state := state[ip := blank];
      }
      state[ip].RecordFailure(now);
    }

    method RecordSuccess(ip: string)
      requires Valid()
      modifies this
      ensures Valid() && latest == old(latest)
      ensures History(ip) == []
      ensures forall a | a != ip :: History(a) == old(History(a))
    {
      state := state - {ip};
    }
  }
}
