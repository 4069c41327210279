/**
 The settings service: a registry of keys, values in an encrypted backend with
 the environment as fallback, and a cache with a time to live.
 */
module Settings {
  import opened Base

  type Blob = string

  datatype Definition = Definition(key: string, envVar: string)

  datatype Error = NotRegistered | Unset | DecryptFailed | BackendDown | EncryptFailed | AuditFailed

  datatype Result = Ok(value: string) | Err(error: Error)

  datatype CacheEntry = CacheEntry(value: string, storedAt: Time)

  /** What is fixed for the life of a process; `decrypt` is None for a blob the key does not open. */
  datatype Env = Env(registry: map<string, Definition>, vars: map<string, string>, decrypt: Blob -> Option<string>)

  const DEFAULT_CACHE_TTL := 300

  predicate Unexpired(entry: CacheEntry, ttl: Time, now: Time) {
    now - entry.storedAt < ttl
  }

  /** The value of a key: the backend's if it has one, else the environment's if that is set. */
  function Load(env: Env, stored: map<string, Blob>, def: Definition): Result {
    if def.key in stored then
      var plain := env.decrypt(stored[def.key]);
      if plain.Some? then Ok(plain.value) else Err(DecryptFailed)
    else if def.envVar != "" && def.envVar in env.vars && env.vars[def.envVar] != "" then Ok(env.vars[def.envVar])
    else Err(Unset)
  }

  /** The registry maps a key to the definition of that key. */
  ghost predicate WellRegistered(env: Env) {
    forall k | k in env.registry :: env.registry[k].key == k
  }

  function TrueValue(env: Env, stored: map<string, Blob>, key: string): Result {
    if key in env.registry then Load(env, stored, env.registry[key]) else Err(NotRegistered)
  }

  /**
   A registered key has the value the backend's blob decrypts to if there is a blob,
   and only if there is none the environment variable's, if one is named and it is
   not empty. A blob the key does not open is an error, never a fallback.
   */
  lemma TrueValueExactly(env: Env, stored: map<string, Blob>, key: string, v: string)
    requires WellRegistered(env)
    ensures var r := TrueValue(env, stored, key);
            && (r == Err(NotRegistered) <==> key !in env.registry)
            && (key in env.registry && key in stored ==>
                  && (r == Ok(v) <==> env.decrypt(stored[key]) == Some(v))
                  && (r == Err(DecryptFailed) <==> env.decrypt(stored[key]) == None))
            && (key in env.registry && key !in stored ==>
                  var name := env.registry[key].envVar;
                  && (r == Ok(v) <==> name != "" && name in env.vars && v != "" && env.vars[name] == v)
                  && (r == Err(Unset) <==> name == "" || name !in env.vars || env.vars[name] == ""))
  {}

  // ---------------------------------------------------------------- one process, one writer

  class Backend {
    var stored: map<string, Blob>

    constructor (stored: map<string, Blob>)
      ensures this.stored == stored
    {
      this.stored := stored;
    }
  }

  class Service {
    const env: Env
    const cacheTTL: Time
    const backend: Backend
    var cache: map<string, CacheEntry>

    /** Every cached value is the one a load would return now, however old. */
    ghost predicate Valid()
      reads this, backend
    {
      WellRegistered(env) && forall k | k in cache :: TrueValue(env, backend.stored, k) == Ok(cache[k].value)
    }

    /** The key is cached and its time to live is not over. */
    predicate Live(cache: map<string, CacheEntry>, key: string, now: Time) {
      key in cache && Unexpired(cache[key], cacheTTL, now)
    }

    /** `ttl` is None unless the option that sets it is given. */
    constructor (env: Env, backend: Backend, ttl: Option<Time>)
      requires WellRegistered(env)
      ensures Valid() && this.env == env && this.backend == backend && cache == map[]
      ensures cacheTTL == if ttl.Some? then ttl.value else DEFAULT_CACHE_TTL
    {
      this.env, this.backend, cache := env, backend, map[];
      cacheTTL := if ttl.Some? then ttl.value else DEFAULT_CACHE_TTL;
    }

    /** `now` and `later` are the clock before and after the load; `up` tells whether the backend answers. */
    method Get(key: string, now: Time, later: Time, up: bool) returns (r: Result)
      requires Valid()
      modifies this`cache
      ensures Valid()
      ensures r == TrueValue(env, backend.stored, key) || (!up && r == Err(BackendDown))
      ensures key in env.registry && key in old(cache) && now < old(cache)[key].storedAt + cacheTTL ==>
              r == Ok(old(cache)[key].value) && cache == old(cache)
      ensures key in env.registry && !(key in old(cache) && now < old(cache)[key].storedAt + cacheTTL) ==>
                && (r == Err(BackendDown) <==> !up)
                && cache == if r.Ok? then old(cache)[key := CacheEntry(r.value, later)] else old(cache)
      ensures key !in env.registry ==> cache == old(cache)
    {
      if key !in env.registry {
        return Err(NotRegistered);
      }
      if Live(cache, key, now) {
        return Ok(cache[key].value);
      }
      r := if up then Load(env, backend.stored, env.registry[key]) else Err(BackendDown);
      if r.Ok? {
        cache := cache[key := CacheEntry(r.value, later)];
      }
    }

    /**
     `blob` is what the cipher made of the value, None if it failed; `audited` is
     false if the audit entry could not be written. The value is stored even then.
     */
    method Set(key: string, value: string, blob: Option<Blob>, up: bool, audited: bool) returns (r: Result)
      requires Valid() && (blob.Some? ==> env.decrypt(blob.value) == Some(value))
      modifies this`cache, backend
      ensures Valid()
      ensures r.Ok? <==> key in env.registry && blob.Some? && up && audited
      ensures backend.stored == if key in env.registry && blob.Some? && up then old(backend.stored)[key := blob.value]
                                else old(backend.stored)
      ensures cache == if key in env.registry && blob.Some? && up then old(cache) - {key} else old(cache)
      ensures r.Ok? ==> TrueValue(env, backend.stored, key) == Ok(value)
    {
      if key !in env.registry {
        return Err(NotRegistered);
      }
      if blob.None? {
        return Err(EncryptFailed);
      }
      if !up {
        return Err(BackendDown);
      }
      backend.stored := backend.stored[key := blob.value];
      cache := cache - {key};
      r := if audited then Ok(value) else Err(AuditFailed);
    }

    method InvalidateCache()
      modifies this`cache
      ensures cache == map[]
    {
      cache := map[];
    }
  }
}

/**
 The same cache under concurrency: calls of Get interleave with each other, with
 writes by this and any other process, and with cache deletions.
 */
module SettingsRuns {
  import opened Base
  import opened Settings

  type CallId = nat

  // A Get reads the cache, then the clock, then (on a miss) the backend, then stores and returns.
  datatype Phase =
    | Looked(key: string, entry: Option<CacheEntry>)
    | Missed(key: string)
    | Loaded(key: string, value: string)

  datatype State = State(
    clock: Time,
    stored: map<string, Blob>,
    cache: map<string, CacheEntry>,
    calls: map<CallId, Phase>)

  datatype Step =
    | Tick(to: Time)
    | Write(key: string, blob: Option<Blob>) // any process sets or deletes a value
    | Drop(key: string)                      // this process's Set forgets the key, InvalidateCache all of them
    | Look(call: CallId, key: string)
    | Check(call: CallId)
    | Read(call: CallId, up: bool)
    | Store(call: CallId)

  predicate Hit(s: State, ttl: Time, c: CallId)
    requires c in s.calls && s.calls[c].Looked?
  {
    s.calls[c].entry.Some? && Unexpired(s.calls[c].entry.value, ttl, s.clock)
  }

  predicate Enabled(s: State, env: Env, step: Step) {
    match step
    case Tick(to) => s.clock <= to
    case Write(_, _) => true
    case Drop(_) => true
    case Look(c, key) => c !in s.calls && key in env.registry
    case Check(c) => c in s.calls && s.calls[c].Looked?
    case Read(c, _) => c in s.calls && s.calls[c].Missed?
    case Store(c) => c in s.calls && s.calls[c].Loaded?
  }

  function Next(s: State, env: Env, ttl: Time, step: Step): State
    requires Enabled(s, env, step)
  {
    match step
    case Tick(to) => s.(clock := to)
    case Write(key, blob) => s.(stored := if blob.Some? then s.stored[key := blob.value] else s.stored - {key})
    case Drop(key) => s.(cache := s.cache - {key})
    case Look(c, key) => s.(calls := s.calls[c := Looked(key, if key in s.cache then Some(s.cache[key]) else None)])
    case Check(c) =>
      if Hit(s, ttl, c) then s.(calls := s.calls - {c}) // returns the cached value
      else s.(calls := s.calls[c := Missed(s.calls[c].key)])
    case Read(c, up) =>
      var r := TrueValue(env, s.stored, s.calls[c].key);
      if up && r.Ok? then s.(calls := s.calls[c := Loaded(s.calls[c].key, r.value)])
      else s.(calls := s.calls - {c}) // returns the error
    case Store(c) =>
      var p := s.calls[c];
      s.(cache := s.cache[p.key := CacheEntry(p.value, s.clock)], calls := s.calls - {c}) // returns the value
  }

  /** `states` is what the steps of `steps`, taken in order, pass through. */
  ghost predicate Run(states: seq<State>, steps: seq<Step>, env: Env, ttl: Time) {
    && |states| == |steps| + 1
    && forall i | 0 <= i < |steps| ::
       Enabled(states[i], env, steps[i]) && states[i + 1] == Next(states[i], env, ttl, steps[i])
  }

  ghost predicate Behaviour(states: seq<State>, steps: seq<Step>, env: Env, ttl: Time) {
    Run(states, steps, env, ttl) && states[0].cache == map[] && states[0].calls == map[]
  }

  /** The value the step returns to its caller, if it returns one, and the key asked for. */
  function Returned(s: State, env: Env, ttl: Time, step: Step): Option<(string, string)>
    requires Enabled(s, env, step)
  {
    match step
    case Check(c) => if Hit(s, ttl, c) then Some((s.calls[c].key, s.calls[c].entry.value.value)) else None
    case Store(c) => Some((s.calls[c].key, s.calls[c].value))
    case _ => None
  }

  // ---------------------------------------------------------------- where a value came from

  /** Call c read the value, true at that moment, in step m and has held it up to state n. */
  ghost predicate LoadedSince(states: seq<State>, steps: seq<Step>, env: Env, c: CallId, key: string, value: string,
                              m: nat, n: nat) {
    && m < n < |states| && m < |steps| && steps[m] == Read(c, true)
    && c in states[m].calls && states[m].calls[c] == Missed(key)
    && TrueValue(env, states[m].stored, key) == Ok(value)
    && forall q | m < q <= n :: c in states[q].calls && states[q].calls[c] == Loaded(key, value)
  }

  /** Call c read the value in step m and stored it in step k. */
  ghost predicate StoredBy(states: seq<State>, steps: seq<Step>, env: Env, key: string, entry: CacheEntry, m: nat,
                           k: nat, c: CallId) {
    && k < |steps| && k < |states| && steps[k] == Store(c)
    && LoadedSince(states, steps, env, c, key, entry.value, m, k)
    && entry.storedAt == states[k].clock
  }

  ghost predicate Stored(states: seq<State>, steps: seq<Step>, env: Env, key: string, entry: CacheEntry, n: nat) {
    exists m: nat, k: nat, c: CallId | k < n :: StoredBy(states, steps, env, key, entry, m, k, c)
  }

  ghost predicate Held(states: seq<State>, steps: seq<Step>, env: Env, c: CallId, key: string, value: string, n: nat) {
    exists m: nat :: LoadedSince(states, steps, env, c, key, value, m, n)
  }

  ghost predicate CallInv(states: seq<State>, steps: seq<Step>, env: Env, n: nat, c: CallId, p: Phase) {
    match p
    case Looked(key, entry) => entry.Some? ==> Stored(states, steps, env, key, entry.value, n)
    case Missed(_) => true
    case Loaded(key, value) => Held(states, steps, env, c, key, value, n)
  }

  ghost predicate Inv(states: seq<State>, steps: seq<Step>, env: Env, n: nat)
    requires n < |states|
  {
    && (forall k | k in states[n].cache :: Stored(states, steps, env, k, states[n].cache[k], n))
    && (forall c | c in states[n].calls :: CallInv(states, steps, env, n, c, states[n].calls[c]))
  }

  lemma StoredStays(states: seq<State>, steps: seq<Step>, env: Env, key: string, entry: CacheEntry, n: nat)
    requires Stored(states, steps, env, key, entry, n)
    ensures Stored(states, steps, env, key, entry, n + 1)
  {
    var m: nat, k: nat, c: CallId :| k < n && StoredBy(states, steps, env, key, entry, m, k, c);
    assert k < n + 1 && StoredBy(states, steps, env, key, entry, m, k, c);
  }

  lemma HeldStays(states: seq<State>, steps: seq<Step>, env: Env, c: CallId, key: string, value: string, n: nat)
    requires Held(states, steps, env, c, key, value, n)
    requires n + 1 < |states| && c in states[n + 1].calls && states[n + 1].calls[c] == Loaded(key, value)
    ensures Held(states, steps, env, c, key, value, n + 1)
  {
    var m: nat :| LoadedSince(states, steps, env, c, key, value, m, n);
    assert LoadedSince(states, steps, env, c, key, value, m, n + 1);
  }

  lemma StoreStep(states: seq<State>, steps: seq<Step>, env: Env, c: CallId, key: string, value: string, n: nat)
    requires Held(states, steps, env, c, key, value, n) && n < |steps| && steps[n] == Store(c)
    ensures n < |states| && Stored(states, steps, env, key, CacheEntry(value, states[n].clock), n + 1)
  {
    var m: nat :| LoadedSince(states, steps, env, c, key, value, m, n);
    assert StoredBy(states, steps, env, key, CacheEntry(value, states[n].clock), m, n, c);
  }

  lemma ReadStep(states: seq<State>, steps: seq<Step>, env: Env, c: CallId, key: string, value: string, n: nat)
    requires n + 1 < |states| && n < |steps| && steps[n] == Read(c, true)
    requires c in states[n].calls && states[n].calls[c] == Missed(key)
             && TrueValue(env, states[n].stored, key) == Ok(value)
    requires c in states[n + 1].calls && states[n + 1].calls[c] == Loaded(key, value)
    ensures Held(states, steps, env, c, key, value, n + 1)
  {
    assert LoadedSince(states, steps, env, c, key, value, n, n + 1);
  }

  lemma CallStep(states: seq<State>, steps: seq<Step>, env: Env, ttl: Time, n: nat, c: CallId)
    requires Behaviour(states, steps, env, ttl) && n < |steps| && Inv(states, steps, env, n) && c in states[n + 1].calls
    ensures CallInv(states, steps, env, n + 1, c, states[n + 1].calls[c])
  {
    hide Held, Stored, TrueValue;
    var p := states[n + 1].calls[c];
    if c in states[n].calls && states[n].calls[c] == p {
      assert CallInv(states, steps, env, n, c, p);
      match p {
        case Looked(key, entry) => if entry.Some? { StoredStays(states, steps, env, key, entry.value, n); }
        case Missed(_) =>
        case Loaded(key, value) => HeldStays(states, steps, env, c, key, value, n);
      }
    } else if p.Loaded? {
      ReadStep(states, steps, env, c, p.key, p.value, n);
    } else if p.Looked? && p.entry.Some? {
      StoredStays(states, steps, env, p.key, p.entry.value, n);
    }
  }

  lemma CacheStep(states: seq<State>, steps: seq<Step>, env: Env, ttl: Time, n: nat, key: string)
    requires Behaviour(states, steps, env, ttl) && n < |steps| && Inv(states, steps, env, n)
             && key in states[n + 1].cache
    ensures Stored(states, steps, env, key, states[n + 1].cache[key], n + 1)
  {
    hide Held, Stored, TrueValue;
    if steps[n].Store? && states[n].calls[steps[n].call].key == key {
      var c := steps[n].call;
      assert CallInv(states, steps, env, n, c, states[n].calls[c]);
      StoreStep(states, steps, env, c, key, states[n].calls[c].value, n);
    } else {
      StoredStays(states, steps, env, key, states[n].cache[key], n);
    }
  }

  /** Every cached value, and every value a call holds, was read from the backend while it was the true one. */
  lemma {:induction false} InvAlways(states: seq<State>, steps: seq<Step>, env: Env, ttl: Time, n: nat)
    requires Behaviour(states, steps, env, ttl) && n < |states|
    ensures Inv(states, steps, env, n)
  {
    if n > 0 {
      InvAlways(states, steps, env, ttl, n - 1);
      forall key | key in states[n].cache ensures Stored(states, steps, env, key, states[n].cache[key], n) {
        CacheStep(states, steps, env, ttl, n - 1, key);
      }
      forall c | c in states[n].calls ensures CallInv(states, steps, env, n, c, states[n].calls[c]) {
        CallStep(states, steps, env, ttl, n - 1, c);
      }
    }
  }

  lemma {:induction false} ClockRises(states: seq<State>, steps: seq<Step>, env: Env, ttl: Time, i: nat, k: nat)
    requires Behaviour(states, steps, env, ttl) && i <= k < |states|
    ensures states[i].clock <= states[k].clock
    decreases k
  {
    if i < k {
      ClockRises(states, steps, env, ttl, i, k - 1);
    }
  }

  /**
   Whatever other processes write meanwhile, a value returned at time t was the
   true one when some load read it: later than t - ttl - d, where d is how long
   that load took from reading to storing.
   */
  lemma Freshness(states: seq<State>, steps: seq<Step>, env: Env, ttl: Time, i: nat) returns (m: nat, k: nat, c: CallId)
    requires Behaviour(states, steps, env, ttl) && i < |steps|
    requires Returned(states[i], env, ttl, steps[i]).Some?
    ensures var (key, value) := Returned(states[i], env, ttl, steps[i]).value;
            k <= i && StoredBy(states, steps, env, key, CacheEntry(value, states[k].clock), m, k, c)
    ensures TrueValue(env, states[m].stored, Returned(states[i], env, ttl, steps[i]).value.0) ==
            Ok(Returned(states[i], env, ttl, steps[i]).value.1)
    ensures steps[i].Store? ==> k == i
    ensures steps[i].Check? ==> states[i].clock - states[k].clock < ttl
    ensures ttl > 0 ==> states[m].clock > states[i].clock - ttl - (states[k].clock - states[m].clock)
    ensures states[m].clock <= states[k].clock <= states[i].clock
  {
    InvAlways(states, steps, env, ttl, i);
    c := steps[i].call;
    var p := states[i].calls[c];
    assert CallInv(states, steps, env, i, c, p);
    if steps[i].Check? {
      assert Stored(states, steps, env, p.key, p.entry.value, i);
      m, k, c :| k < i && StoredBy(states, steps, env, p.key, p.entry.value, m, k, c);
    } else {
      k := i;
      assert Held(states, steps, env, c, p.key, p.value, i);
      m :| LoadedSince(states, steps, env, c, p.key, p.value, m, i);
    }
    ClockRises(states, steps, env, ttl, m, k);
    ClockRises(states, steps, env, ttl, k, i);
  }

  // ---------------------------------------------------------------- when a Set is seen by every later Get

  /** A Set of the key has just finished: its value is stored and nothing is cached. */
  predicate JustSet(s: State, env: Env, key: string, v: string) {
    key !in s.cache && TrueValue(env, s.stored, key) == Ok(v)
  }

  /** A call that began earlier still holds another value, read before the Set. */
  predicate OldLoad(s: State, key: string, v: string) {
    exists c | c in s.calls :: s.calls[c].Loaded? && s.calls[c].key == key && s.calls[c].value != v
  }

  ghost predicate NoWrites(steps: seq<Step>, key: string) {
    forall q | 0 <= q < |steps| && steps[q].Write? :: steps[q].key != key
  }

  /** Call c looked the key up in this run, and is still at it in state n. */
  ghost predicate Begun(states: seq<State>, steps: seq<Step>, key: string, c: CallId, n: nat) {
    exists l | 0 <= l < n :: BegunIn(states, steps, key, c, l, n)
  }

  ghost predicate BegunIn(states: seq<State>, steps: seq<Step>, key: string, c: CallId, l: nat, n: nat) {
    && l < n < |states| && l < |steps| && steps[l] == Look(c, key)
    && forall q | l < q <= n :: c in states[q].calls
  }

  /** Step n returns, to a call that began in this run, a value of the key that is not v. */
  ghost predicate ReturnsOther(states: seq<State>, steps: seq<Step>, env: Env, ttl: Time, key: string, v: string,
                               n: nat) {
    && n < |steps| && n < |states| && Enabled(states[n], env, steps[n])
    && Returned(states[n], env, ttl, steps[n]).Some? && Returned(states[n], env, ttl, steps[n]).value.1 != v
    && Begun(states, steps, key, steps[n].call, n)
  }

  /** From s on, with no further write of the key, a call that begins may be answered with something else than v. */
  ghost predicate StaleReachable(s: State, env: Env, ttl: Time, key: string, v: string) {
    exists states: seq<State>, steps: seq<Step>, n: nat ::
      Run(states, steps, env, ttl) && states[0] == s && NoWrites(steps, key)
        && ReturnsOther(states, steps, env, ttl, key, v, n)
  }

  /** An entry stored in this run; it is v's unless an old load may have stored it. */
  predicate EntryFits(e: CacheEntry, clock: Time, clean: bool, v: string) {
    e.storedAt <= clock && (clean ==> e.value == v)
  }

  predicate BegunFits(p: Phase, key: string, clock: Time, clean: bool, v: string) {
    && p.key == key
    && (p.Looked? && p.entry.Some? ==> EntryFits(p.entry.value, clock, clean, v))
    && (p.Loaded? ==> p.value == v)
  }

  /** What holds n steps after the Set; `clean` if no call held an old value then. */
  ghost predicate SinceSet(states: seq<State>, steps: seq<Step>, env: Env, key: string, v: string, clean: bool, n: nat)
    requires n < |states|
  {
    var s := states[n];
    && TrueValue(env, s.stored, key) == Ok(v)
    && (key in s.cache ==> EntryFits(s.cache[key], s.clock, clean, v))
    && (clean ==> !OldLoad(s, key, v))
    && (forall c | c in s.calls && Begun(states, steps, key, c, n) :: BegunFits(s.calls[c], key, s.clock, clean, v))
  }

  lemma TrueValueStep(env: Env, ttl: Time, s: State, step: Step, key: string)
    requires WellRegistered(env) && Enabled(s, env, step) && (step.Write? ==> step.key != key)
    ensures TrueValue(env, Next(s, env, ttl, step).stored, key) == TrueValue(env, s.stored, key)
  {}

  lemma BegunBefore(states: seq<State>, steps: seq<Step>, key: string, c: CallId, n: nat)
    requires Begun(states, steps, key, c, n + 1) && n < |steps| && steps[n] != Look(c, key)
    ensures Begun(states, steps, key, c, n) && c in states[n].calls
  {
    var l :| 0 <= l < n + 1 && BegunIn(states, steps, key, c, l, n + 1);
    assert BegunIn(states, steps, key, c, l, n);
  }

  lemma NoOldLoadStep(s: State, env: Env, ttl: Time, step: Step, key: string, v: string)
    requires Enabled(s, env, step) && TrueValue(env, s.stored, key) == Ok(v) && !OldLoad(s, key, v)
    ensures !OldLoad(Next(s, env, ttl, step), key, v)
  {
    hide TrueValue;
    var t := Next(s, env, ttl, step);
    forall c | c in t.calls && t.calls[c].Loaded? && t.calls[c].key == key ensures t.calls[c].value == v {
      assert c in s.calls;
      assert s.calls[c].Loaded? ==> s.calls[c].value == t.calls[c].value;
    }
  }

  lemma CacheSince(s: State, env: Env, ttl: Time, step: Step, key: string, v: string, clean: bool)
    requires Enabled(s, env, step) && (key in s.cache ==> EntryFits(s.cache[key], s.clock, clean, v))
    requires clean ==> !OldLoad(s, key, v)
    ensures var t := Next(s, env, ttl, step); key in t.cache ==> EntryFits(t.cache[key], t.clock, clean, v)
  {
    hide TrueValue;
  }

  lemma BegunSince(states: seq<State>, steps: seq<Step>, env: Env, ttl: Time, key: string, v: string, clean: bool,
                   n: nat, c: CallId)
    requires Run(states, steps, env, ttl) && n < |steps| && SinceSet(states, steps, env, key, v, clean, n)
    requires c in states[n + 1].calls && Begun(states, steps, key, c, n + 1)
    ensures BegunFits(states[n + 1].calls[c], key, states[n + 1].clock, clean, v)
  {
    hide TrueValue, Begun, OldLoad;
    assert Enabled(states[n], env, steps[n]) && states[n + 1] == Next(states[n], env, ttl, steps[n]);
    if steps[n] != Look(c, key) {
      BegunBefore(states, steps, key, c, n);
      assert BegunFits(states[n].calls[c], key, states[n].clock, clean, v);
    }
  }

  lemma {:induction false} SinceSetAlways(states: seq<State>, steps: seq<Step>, env: Env, ttl: Time, key: string,
                                          v: string, clean: bool, n: nat)
    requires Run(states, steps, env, ttl) && WellRegistered(env) && NoWrites(steps, key) && n < |states|
    requires JustSet(states[0], env, key, v) && (clean ==> !OldLoad(states[0], key, v))
    ensures SinceSet(states, steps, env, key, v, clean, n)
  {
    hide TrueValue, OldLoad, EntryFits, BegunFits, Next, Enabled;
    if n == 0 {
      NothingBegun(states, steps, key);
    } else {
      var s, step := states[n - 1], steps[n - 1];
      SinceSetAlways(states, steps, env, ttl, key, v, clean, n - 1);
      TrueValueStep(env, ttl, s, step, key);
      if clean {
        NoOldLoadStep(s, env, ttl, step, key, v);
      }
      CacheSince(s, env, ttl, step, key, v, clean);
      forall c | c in states[n].calls && Begun(states, steps, key, c, n)
        ensures BegunFits(states[n].calls[c], key, states[n].clock, clean, v)
      {
        BegunSince(states, steps, env, ttl, key, v, clean, n - 1, c);
      }
    }
  }

  lemma NothingBegun(states: seq<State>, steps: seq<Step>, key: string)
    ensures forall c :: !Begun(states, steps, key, c, 0)
  {}

  /**
   After a Set, no call that begins can be answered with another value, provided
   no call held an old one, or nothing is ever served from the cache.
   */
  lemma CleanSetIsSeen(states: seq<State>, steps: seq<Step>, env: Env, ttl: Time, key: string, v: string, n: nat)
    requires Run(states, steps, env, ttl) && WellRegistered(env) && NoWrites(steps, key)
    requires JustSet(states[0], env, key, v) && (ttl > 0 ==> !OldLoad(states[0], key, v))
    ensures !ReturnsOther(states, steps, env, ttl, key, v, n)
  {
    hide TrueValue, OldLoad, Begun;
    if n < |steps| && Returned(states[n], env, ttl, steps[n]).Some? && Begun(states, steps, key, steps[n].call, n) {
      SinceSetAlways(states, steps, env, ttl, key, v, ttl > 0, n);
      assert BegunFits(states[n].calls[steps[n].call], key, states[n].clock, ttl > 0, v);
    }
  }

  /** An old load stores its value after the deletion, and the next call is served it. */
  lemma OldLoadGoesStale(s: State, env: Env, ttl: Time, key: string, v: string)
    requires OldLoad(s, key, v) && key in env.registry && ttl > 0
    ensures StaleReachable(s, env, ttl, key, v)
  {
    var c :| c in s.calls && s.calls[c].Loaded? && s.calls[c].key == key && s.calls[c].value != v;
    var stored := Next(s, env, ttl, Store(c));
    var looked := Next(stored, env, ttl, Look(c, key));
    var states, steps := [s, stored, looked, Next(looked, env, ttl, Check(c))], [Store(c), Look(c, key), Check(c)];
    assert Hit(looked, ttl, c);
    assert steps[0] == Store(c) && steps[1] == Look(c, key) && steps[2] == Check(c);
    assert states[1] == stored && states[2] == looked;
    assert Run(states, steps, env, ttl);
    assert BegunIn(states, steps, key, c, 1, 2);
    assert Begun(states, steps, key, c, 2);
    assert ReturnsOther(states, steps, env, ttl, key, v, 2);
  }

  /**
   After a Set has finished, a call that begins later can be answered with
   something else if and only if a load that began earlier still holds another
   value and the cache serves entries at all.
   */
  lemma StaleExactly(s: State, env: Env, ttl: Time, key: string, v: string)
    requires WellRegistered(env) && JustSet(s, env, key, v)
    ensures StaleReachable(s, env, ttl, key, v) <==> OldLoad(s, key, v) && ttl > 0
  {
    hide OldLoad, ReturnsOther, NoWrites, Load, Enabled, Next;
    if OldLoad(s, key, v) && ttl > 0 {
      OldLoadGoesStale(s, env, ttl, key, v);
    } else {
      forall states: seq<State>, steps: seq<Step>, n: nat | Run(states, steps, env, ttl) && states[0] == s
        && NoWrites(steps, key)
        ensures !ReturnsOther(states, steps, env, ttl, key, v, n)
      {
        CleanSetIsSeen(states, steps, env, ttl, key, v, n);
      }
    }
  }

  // ---------------------------------------------------------------- a behaviour with an old load

  /** A load reads the old value; then a whole Set of the new one goes by. */
  function RaceSteps(key: string, before: Blob, after: Blob): seq<Step> {
    [Write(key, Some(before)), Look(0, key), Check(0), Read(0, true), Write(key, Some(after)), Drop(key)]
  }

  function RaceStates(key: string, before: Blob, after: Blob, value: string): seq<State> {
    var s1 := State(0, map[key := before], map[], map[]);
    var s5 := State(0, map[key := after], map[], map[0 := Loaded(key, value)]);
    [State(0, map[], map[], map[]), s1, s1.(calls := map[0 := Looked(key, None)]), s1.(calls := map[0 := Missed(key)]),
     s1.(calls := map[0 := Loaded(key, value)]), s5, s5]
  }

  lemma RaceStep(env: Env, ttl: Time, key: string, before: Blob, after: Blob, i: nat)
    requires key in env.registry && env.registry[key].key == key && i < 6 && env.decrypt(before).Some?
    ensures var states, step :=
              RaceStates(key, before, after, env.decrypt(before).value), RaceSteps(key, before, after)[i];
            Enabled(states[i], env, step) && states[i + 1] == Next(states[i], env, ttl, step)
  {
    var states := RaceStates(key, before, after, env.decrypt(before).value);
    var t := Next(states[i], env, ttl, RaceSteps(key, before, after)[i]);
    assert t.calls == states[i + 1].calls;
    assert t.cache == states[i + 1].cache && t.stored == states[i + 1].stored;
  }

  /**
   The hazard is real: a service that starts afresh can reach, by a load that
   overlaps a whole Set, a state in which the Set has finished and a Get that
   begins later may still be answered with the old value.
   */
  lemma StaleAfterSet(env: Env, ttl: Time, key: string, before: Blob, after: Blob)
    requires WellRegistered(env) && key in env.registry && ttl > 0
    requires env.decrypt(before).Some? && env.decrypt(after).Some? && env.decrypt(before) != env.decrypt(after)
    ensures var v := env.decrypt(after).value;
            exists states: seq<State> ::
              && Behaviour(states, RaceSteps(key, before, after), env, ttl)
              && JustSet(states[6], env, key, v) && StaleReachable(states[6], env, ttl, key, v)
  {
    hide Enabled, Next, StaleReachable;
    var v := env.decrypt(after).value;
    var states, steps := RaceStates(key, before, after, env.decrypt(before).value), RaceSteps(key, before, after);
    assert |steps| == 6 && |states| == 7;
    forall i | 0 <= i < |steps|
      ensures Enabled(states[i], env, steps[i]) && states[i + 1] == Next(states[i], env, ttl, steps[i]) {
      RaceStep(env, ttl, key, before, after, i);
    }
    assert Behaviour(states, steps, env, ttl);
    assert 0 in states[6].calls && states[6].calls[0].Loaded?;
    StaleExactly(states[6], env, ttl, key, v);
    assert JustSet(states[6], env, key, v);
  }
}
