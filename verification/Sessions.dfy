/**
 The in-memory session store. Two maps, by token hash and by id, share row
 objects; an update through one is meant to be seen through the other. Whether a
 token is accepted is a function of the whole history of calls.
 */
module Sessions {
  import opened Base

  type Id = nat
  type Hash = string

  datatype Impersonation = Impersonation(user: Option<Id>, tenant: Option<Id>, log: Option<Id>)

  const NOT_IMPERSONATING := Impersonation(None, None, None)

  datatype RowValue = RowValue(
    id: Id,
    user: Id,
    hash: Hash,
    ip: string,
    agent: string,
    createdAt: Time,
    expiresAt: Time,
    lastSeenAt: Time,
    revokedAt: Option<Time>,
    impersonation: Impersonation)

  datatype Session = Session(row: RowValue, token: string)

  // ---------------------------------------------------------------- the history

  /** The calls that change the store; those that find no session to change are in it too. */
  datatype Call =
    | Create(id: Id, token: string, user: Id, ip: string, agent: string, at: Time)
    | Extend(id: Id, at: Time)
    | Revoke(id: Id, at: Time)
    | Impersonate(id: Id, who: Impersonation)

  predicate Unrevoked(rows: map<Id, RowValue>, id: Id) {
    id in rows && rows[id].revokedAt.None?
  }

  function After(rows: map<Id, RowValue>, call: Call, ttl: Time, hash: string -> Hash): map<Id, RowValue> {
    match call
    case Create(id, token, user, ip, agent, at) =>
      rows[id := RowValue(id, user, hash(token), ip, agent, at, at + ttl, at, None, NOT_IMPERSONATING)]
    case Extend(id, at) =>
      if Unrevoked(rows, id) then rows[id := rows[id].(expiresAt := at + ttl, lastSeenAt := at)] else rows
    case Revoke(id, at) =>
      if Unrevoked(rows, id) then rows[id := rows[id].(revokedAt := Some(at))] else rows
    case Impersonate(id, who) =>
      if id in rows then rows[id := rows[id].(impersonation := who)] else rows
  }

  function Rows(history: seq<Call>, ttl: Time, hash: string -> Hash): map<Id, RowValue> {
    if history == [] then map[]
    else After(Rows(history[..|history| - 1], ttl, hash), history[|history| - 1], ttl, hash)
  }

  predicate CreatesFor(call: Call, token: string, hash: string -> Hash) {
    call.Create? && hash(call.token) == hash(token)
  }

  /** Random ids and tokens: no two sessions share an id or a token hash. */
  predicate FreshCreates(history: seq<Call>, hash: string -> Hash) {
    forall i, k | 0 <= i < k < |history| && history[i].Create? && history[k].Create? ::
      history[i].id != history[k].id && hash(history[i].token) != hash(history[k].token)
  }

  /** The session created by call i was never revoked, and call j was the last to set its expiry. */
  predicate Current(history: seq<Call>, i: nat, j: nat) {
    && i <= j < |history| && history[i].Create?
    && (j == i || (history[j].Extend? && history[j].id == history[i].id))
    && (forall k | j < k < |history| && history[k].Extend? :: history[k].id != history[i].id)
    && (forall k | i < k < |history| && history[k].Revoke? :: history[k].id != history[i].id)
  }

  /** When a token must be accepted, told from the calls alone. */
  ghost predicate Accepted(history: seq<Call>, token: string, now: Time, ttl: Time, hash: string -> Hash) {
    && token != ""
    && exists i, j | 0 <= i <= j < |history| ::
         Current(history, i, j) && CreatesFor(history[i], token, hash) && now < history[j].at + ttl
  }

  /** The session was revoked by call k first, after call j had set its expiry last. */
  predicate RevokedBy(history: seq<Call>, i: nat, j: nat, k: nat, at: Time) {
    && i <= j < k < |history| && history[i].Create? && history[k] == Revoke(history[i].id, at)
    && (forall q | i < q < k && history[q].Revoke? :: history[q].id != history[i].id)
    && (forall q | j < q < k && history[q].Extend? :: history[q].id != history[i].id)
  }

  /** Call m was the last to say who the session impersonates, its creation that it is nobody. */
  predicate ImpersonatesSince(history: seq<Call>, i: nat, m: nat, who: Impersonation) {
    && i <= m < |history| && history[i].Create?
    && (if m == i then who == NOT_IMPERSONATING else history[m] == Impersonate(history[i].id, who))
    && (forall q | m < q < |history| && history[q].Impersonate? :: history[q].id != history[i].id)
  }

  /** The row tells the session's creation i, last extension j, revocation k and impersonation m. */
  predicate RowFits(row: RowValue, history: seq<Call>, ttl: Time, hash: string -> Hash,
                    i: nat, j: nat, k: nat, m: nat) {
    && i <= j < |history| && history[i].Create?
    && var made := history[i];
    && row.id == made.id && row.hash == hash(made.token) && row.user == made.user
    && row.ip == made.ip && row.agent == made.agent && row.createdAt == made.at
    && (j == i || (history[j].Extend? && history[j].id == made.id))
    && row.lastSeenAt == history[j].at && row.expiresAt == history[j].at + ttl
    && (row.revokedAt.None? ==> Current(history, i, j))
    && (row.revokedAt.Some? ==> RevokedBy(history, i, j, k, row.revokedAt.value))
    && ImpersonatesSince(history, i, m, row.impersonation)
  }

  lemma CurrentNext(init: seq<Call>, call: Call, i: nat, j: nat)
    requires Current(init, i, j)
    ensures init[i].Create? && (init + [call])[i] == init[i]
    ensures var id := init[i].id;
            && (call.Extend? && call.id == id ==> Current(init + [call], i, |init|))
            && (call.Revoke? && call.id == id ==> RevokedBy(init + [call], i, j, |init|, call.at))
            && (!(call.Extend? && call.id == id) && !(call.Revoke? && call.id == id) ==> Current(init + [call], i, j))
  {}

  lemma RevokedNext(init: seq<Call>, call: Call, i: nat, j: nat, k: nat, at: Time)
    requires RevokedBy(init, i, j, k, at)
    ensures RevokedBy(init + [call], i, j, k, at)
  {}

  lemma ImpersonatesNext(init: seq<Call>, call: Call, i: nat, m: nat, who: Impersonation)
    requires ImpersonatesSince(init, i, m, who)
    ensures init[i].Create?
    ensures if call.Impersonate? && call.id == init[i].id then ImpersonatesSince(init + [call], i, |init|, call.who)
            else ImpersonatesSince(init + [call], i, m, who)
  {}

  lemma CreatedFits(init: seq<Call>, call: Call, ttl: Time, hash: string -> Hash)
    requires call.Create?
    ensures var row := After(map[], call, ttl, hash)[call.id]; var n := |init|;
            RowFits(row, init + [call], ttl, hash, n, n, n, n)
  {}

  lemma RowFitsNext(rows: map<Id, RowValue>, id: Id, init: seq<Call>, call: Call, ttl: Time, hash: string -> Hash,
                    i: nat, j: nat, k: nat, m: nat)
    requires id in rows && RowFits(rows[id], init, ttl, hash, i, j, k, m) && rows[id].id == id
    requires !(call.Create? && call.id == id)
    ensures var n, live := |init|, rows[id].revokedAt.None?;
            RowFits(After(rows, call, ttl, hash)[id], init + [call], ttl, hash, i,
                    if call.Extend? && call.id == id && live then n else j,
                    if call.Revoke? && call.id == id && live then n else k,
                    if call.Impersonate? && call.id == id then n else m)
  {
    if rows[id].revokedAt.None? {
      CurrentNext(init, call, i, j);
    } else {
      RevokedNext(init, call, i, j, k, rows[id].revokedAt.value);
    }
    ImpersonatesNext(init, call, i, m, rows[id].impersonation);
    hide Current, RevokedBy, ImpersonatesSince;
    assert (init + [call])[i] == init[i] && (init + [call])[j] == init[j];
  }

  /** What the calls so far say about session id is what its row says. */
  lemma {:induction false} RowHistory(history: seq<Call>, ttl: Time, hash: string -> Hash, id: Id)
      returns (i: nat, j: nat, k: nat, m: nat)
    requires FreshCreates(history, hash) && id in Rows(history, ttl, hash)
    ensures RowFits(Rows(history, ttl, hash)[id], history, ttl, hash, i, j, k, m)
    ensures Rows(history, ttl, hash)[id].id == id
    ensures Rows(history, ttl, hash)[id].revokedAt.None? <==> NeverRevoked(history, i)
    decreases |history|
  {
    var n := |history| - 1;
    var init, call := history[..n], history[n];
    assert history == init + [call];
    if call.Create? && call.id == id {
      i, j, k, m := n, n, n, n;
      CreatedFits(init, call, ttl, hash);
    } else {
      var was := Rows(init, ttl, hash);
      i, j, k, m := RowHistory(init, ttl, hash, id);
      RowFitsNext(was, id, init, call, ttl, hash, i, j, k, m);
      NeverRevokedStep(history, n, i);
      hide RowFits, NeverRevoked;
      if was[id].revokedAt.None? && call.Extend? && call.id == id {
        j := n;
      }
      if was[id].revokedAt.None? && call.Revoke? && call.id == id {
        k := n;
      }
      if call.Impersonate? && call.id == id {
        m := n;
      }
    }
  }

  predicate NeverRevoked(history: seq<Call>, i: nat)
    requires i < |history| && history[i].Create?
  {
    forall k | i < k < |history| && history[k].Revoke? :: history[k].id != history[i].id
  }

  lemma NeverRevokedStep(history: seq<Call>, n: nat, i: nat)
    requires |history| == n + 1 && i < n && history[i].Create?
    ensures NeverRevoked(history, i) <==>
            NeverRevoked(history[..n], i) && !(history[n].Revoke? && history[n].id == history[i].id)
  {
    if NeverRevoked(history, i) {
      forall k | i < k < n && history[..n][k].Revoke? ensures history[..n][k].id != history[..n][i].id {
        assert history[k] == history[..n][k];
      }
    }
    if NeverRevoked(history[..n], i) && !(history[n].Revoke? && history[n].id == history[i].id) {
      forall k | i < k < |history| && history[k].Revoke? ensures history[k].id != history[i].id {
        if k < n {
          assert history[k] == history[..n][k];
        }
      }
    }
  }

  lemma {:induction false} CreatedStays(history: seq<Call>, ttl: Time, hash: string -> Hash, i: nat)
    requires i < |history| && history[i].Create?
    ensures history[i].id in Rows(history, ttl, hash)
  {
    var n := |history| - 1;
    if i < n {
      CreatedStays(history[..n], ttl, hash, i);
    }
  }

  predicate RowAccepts(row: RowValue, now: Time) {
    row.revokedAt.None? && now < row.expiresAt
  }

  ghost predicate SomeRowAccepts(rows: map<Id, RowValue>, hash: Hash, now: Time) {
    exists id | id in rows :: rows[id].hash == hash && RowAccepts(rows[id], now)
  }

  /** The rows accept a token exactly when the history does. */
  lemma AcceptedByRows(history: seq<Call>, token: string, now: Time, ttl: Time, hash: string -> Hash)
    requires FreshCreates(history, hash) && token != ""
    ensures Accepted(history, token, now, ttl, hash) <==>
            SomeRowAccepts(Rows(history, ttl, hash), hash(token), now)
  {
    var rows := Rows(history, ttl, hash);
    if id :| id in rows && rows[id].hash == hash(token) && RowAccepts(rows[id], now) {
      var i, j, _, _ := RowHistory(history, ttl, hash, id);
      assert Current(history, i, j) && CreatesFor(history[i], token, hash);
    }
    if Accepted(history, token, now, ttl, hash) {
      var i, j :| 0 <= i <= j < |history| && Current(history, i, j) && CreatesFor(history[i], token, hash)
        && now < history[j].at + ttl;
      CreatedStays(history, ttl, hash, i);
      var c, e, _, _ := RowHistory(history, ttl, hash, history[i].id);
      assert c == i;
      assert NeverRevoked(history, i);
      assert e == j;
      assert rows[history[i].id].hash == hash(token) && RowAccepts(rows[history[i].id], now);
    }
  }

  /** Revocation is permanent: whatever is called later, the token is never accepted again. */
  lemma RevokedForever(history: seq<Call>, i: nat, k: nat, now: Time, ttl: Time, hash: string -> Hash)
    requires FreshCreates(history, hash) && i < k < |history|
    requires history[i].Create? && history[k].Revoke? && history[k].id == history[i].id
    ensures !Accepted(history, history[i].token, now, ttl, hash)
  {
    forall c, j | 0 <= c <= j < |history| && CreatesFor(history[c], history[i].token, hash)
      ensures !Current(history, c, j)
    {
      assert c == i;
    }
  }

  /**
   After an Extend the session's token is accepted if and only if the session was
   never revoked and the new time to live is not over, however long it had expired.
   */
  lemma ExtendRevives(history: seq<Call>, i: nat, at: Time, now: Time, ttl: Time, hash: string -> Hash)
    requires FreshCreates(history, hash) && i < |history| && history[i].Create? && history[i].token != ""
    ensures Accepted(history + [Extend(history[i].id, at)], history[i].token, now, ttl, hash) <==>
            NeverRevoked(history, i) && now < at + ttl
  {
    var longer, token := history + [Extend(history[i].id, at)], history[i].token;
    assert longer[|history|] == Extend(history[i].id, at);
    if NeverRevoked(history, i) && now < at + ttl {
      assert Current(longer, i, |history|) && CreatesFor(longer[i], token, hash);
    }
    forall c, j | 0 <= c <= j < |longer| && Current(longer, c, j) && CreatesFor(longer[c], token, hash)
      && now < longer[j].at + ttl
      ensures NeverRevoked(history, i) && now < at + ttl
    {
      assert c < |history| && longer[c] == history[c] && longer[i] == history[i];
      assert c == i;
      assert j == |history|;
      assert forall k | i < k < |history| :: longer[k] == history[k];
    }
  }

  // ---------------------------------------------------------------- the database

  class SessionRow {
    const id: Id
    const user: Id
    const hash: Hash
    const ip: string
    const agent: string
    const createdAt: Time
    var expiresAt: Time
    var lastSeenAt: Time
    var revokedAt: Option<Time>
    var impersonation: Impersonation

    constructor (r: RowValue)
      ensures Value() == r
    {
      id, user, hash, ip, agent, createdAt := r.id, r.user, r.hash, r.ip, r.agent, r.createdAt;
      expiresAt, lastSeenAt, revokedAt, impersonation := r.expiresAt, r.lastSeenAt, r.revokedAt, r.impersonation;
    }

    function Value(): RowValue
      reads this
    {
      RowValue(id, user, hash, ip, agent, createdAt, expiresAt, lastSeenAt, revokedAt, impersonation)
    }
  }

  class MemSessionDB {
    var byHash: map<Hash, SessionRow>
    var byID: map<Id, SessionRow>

    /** Both maps reach the same row objects. */
    ghost predicate Valid()
      reads this
    {
      && (forall h | h in byHash :: byHash[h].hash == h && byHash[h].id in byID && byID[byHash[h].id] == byHash[h])
      && (forall id | id in byID :: byID[id].id == id && byID[id].hash in byHash && byHash[byID[id].hash] == byID[id])
    }

    ghost function Objects(): set<object>
      reads this
    {
      set id | id in byID :: byID[id]
    }

    ghost function Contents(): map<Id, RowValue>
      reads this, Objects()
    {
      map id | id in byID :: byID[id].Value()
    }

    constructor ()
      ensures Valid() && Contents() == map[] && Objects() == {}
    {
      byHash, byID := map[], map[];
    }

    method Insert(r: RowValue)
      requires Valid() && r.id !in byID && r.hash !in byHash
      modifies this
      ensures Valid() && Contents() == old(Contents())[r.id := r]
      ensures byHash.Keys == old(byHash.Keys) + {r.hash}
      ensures fresh(Objects() - old(Objects()))
    {
      var cp := new SessionRow(r);
      byHash := byHash[r.hash := cp];
      byID := byID[r.id := cp];
      assert Valid();
      hide Valid;
    }

    method FindActiveByTokenHash(hash: Hash, now: Time) returns (r: Option<RowValue>)
      requires Valid()
      ensures r.Some? ==>
              r.value.id in Contents() && Contents()[r.value.id] == r.value && r.value.hash == hash
              && RowAccepts(r.value, now)
      ensures r.Some? <==> SomeRowAccepts(Contents(), hash, now)
    {
      if hash !in byHash {
        return None;
      }
      var row := byHash[hash];
      if row.revokedAt.Some? || row.expiresAt <= now {
        return None;
      }
      r := Some(row.Value());
      assert row.id in Contents() && RowAccepts(Contents()[row.id], now);
    }

    method UpdateExpiry(id: Id, expires: Time, lastSeen: Time) returns (ok: bool)
      requires Valid()
      modifies Objects()
      ensures Valid() && ok == Unrevoked(old(Contents()), id)
      ensures Contents() == if ok
              then old(Contents())[id := old(Contents())[id].(expiresAt := expires, lastSeenAt := lastSeen)]
                            else old(Contents())
    {
      if id !in byID || byID[id].revokedAt.Some? {
        return false;
      }
      var row := byID[id];
      row.expiresAt := expires;
      row.lastSeenAt := lastSeen;
      ok := true;
    }

    method Revoke(id: Id, at: Time) returns (ok: bool)
      requires Valid()
      modifies Objects()
      ensures Valid() && ok == Unrevoked(old(Contents()), id)
      ensures Contents() == if ok then old(Contents())[id := old(Contents())[id].(revokedAt := Some(at))]
              else old(Contents())
    {
      if id !in byID || byID[id].revokedAt.Some? {
        return false;
      }
      var row := byID[id];
      row.revokedAt := Some(at);
      ok := true;
    }

    method SetImpersonation(id: Id, who: Impersonation) returns (ok: bool)
      requires Valid()
      modifies Objects()
      ensures Valid() && ok == (id in old(Contents()))
      ensures Contents() == if ok then old(Contents())[id := old(Contents())[id].(impersonation := who)]
              else old(Contents())
    {
      if id !in byID {
        return false;
      }
      var row := byID[id];
      row.impersonation := who;
      ok := true;
    }
  }

  // ---------------------------------------------------------------- the store

  class SessionStore {
    const db: MemSessionDB
    const ttl: Time
    const hash: string -> Hash
    ghost var history: seq<Call>

    ghost predicate Valid()
      reads this, db, db.Objects()
    {
      && db.Valid() && this !in db.Objects()
      && FreshCreates(history, hash)
      && db.Contents() == Rows(history, ttl, hash)
    }

    /** The id and the token a Create draws were never drawn before. */
    ghost predicate Unused(id: Id, token: string)
      reads this
    {
      forall k | 0 <= k < |history| && history[k].Create? ::
        history[k].id != id && hash(history[k].token) != hash(token)
    }

    constructor (ttl: Time, hash: string -> Hash)
      ensures Valid() && history == [] && this.ttl == ttl && this.hash == hash && fresh(db)
    {
      this.ttl, this.hash, history := ttl, hash, [];
      db := new MemSessionDB();
    }

    method Create(id: Id, token: string, user: Id, ip: string, agent: string, now: Time) returns (s: Session)
      requires Valid() && token != "" && Unused(id, token)
      modifies this`history, db
      ensures Valid() && history == old(history) + [Call.Create(id, token, user, ip, agent, now)]
      ensures s.token == token && id in db.Contents() && s.row == db.Contents()[id]
      ensures s.row.id == id && s.row.user == user && s.row.expiresAt == now + ttl
    {
      hide FreshCreates, Rows, MemSessionDB.Valid, MemSessionDB.Contents, Unused;
      var row := RowValue(id, user, hash(token), ip, agent, now, now + ttl, now, None, NOT_IMPERSONATING);
      UnusedIsAbsent(id, token);
      FreshGrows(id, token, user, ip, agent, now);
      db.Insert(row);
      assert this !in db.Objects();
      Extended(Call.Create(id, token, user, ip, agent, now));
      history := history + [Call.Create(id, token, user, ip, agent, now)];
      s := Session(row, token);
    }

    method Get(token: string, now: Time) returns (s: Option<Session>)
      requires Valid()
      ensures s.Some? <==> Accepted(history, token, now, ttl, hash)
      ensures s.Some? ==> s.value.token == token && s.value.row.hash == hash(token)
                          && s.value.row.id in db.Contents() && s.value.row == db.Contents()[s.value.row.id]
    {
      if token == "" {
        return None;
      }
      var row := db.FindActiveByTokenHash(hash(token), now);
      AcceptedByRows(history, token, now, ttl, hash);
      s := if row.None? then None else Some(Session(row.value, token));
    }

    method Extend(id: Id, now: Time) returns (ok: bool)
      requires Valid()
      modifies this`history, db.Objects()
      ensures Valid() && history == old(history) + [Call.Extend(id, now)] && ok == Unrevoked(old(db.Contents()), id)
    {
      hide FreshCreates, Rows, MemSessionDB.Valid, MemSessionDB.Contents;
      ok := db.UpdateExpiry(id, now + ttl, now);
      Extended(Call.Extend(id, now));
      FreshStays(Call.Extend(id, now));
      history := history + [Call.Extend(id, now)];
    }

    method Revoke(id: Id, now: Time) returns (ok: bool)
      requires Valid()
      modifies this`history, db.Objects()
      ensures Valid() && history == old(history) + [Call.Revoke(id, now)] && ok == Unrevoked(old(db.Contents()), id)
    {
      hide FreshCreates, Rows, MemSessionDB.Valid, MemSessionDB.Contents;
      ok := db.Revoke(id, now);
      Extended(Call.Revoke(id, now));
      FreshStays(Call.Revoke(id, now));
      history := history + [Call.Revoke(id, now)];
    }

    method SetImpersonation(id: Id, who: Impersonation) returns (ok: bool)
      requires Valid()
      modifies this`history, db.Objects()
      ensures Valid() && history == old(history) + [Impersonate(id, who)] && ok == (id in old(db.Contents()))
    {
      hide FreshCreates, Rows, MemSessionDB.Valid, MemSessionDB.Contents;
      ok := db.SetImpersonation(id, who);
      Extended(Impersonate(id, who));
      FreshStays(Impersonate(id, who));
      history := history + [Impersonate(id, who)];
    }

    lemma FreshStays(call: Call)
      requires FreshCreates(history, hash) && !call.Create?
      ensures FreshCreates(history + [call], hash)
    {}

    lemma Extended(call: Call)
      ensures Rows(history + [call], ttl, hash) == After(Rows(history, ttl, hash), call, ttl, hash)
    {
      assert (history + [call])[..|history|] == history;
    }

    lemma FreshGrows(id: Id, token: string, user: Id, ip: string, agent: string, now: Time)
      requires FreshCreates(history, hash) && Unused(id, token)
      ensures FreshCreates(history + [Call.Create(id, token, user, ip, agent, now)], hash)
    {}

    lemma UnusedIsAbsent(id: Id, token: string)
      requires Valid() && Unused(id, token)
      ensures id !in db.byID && hash(token) !in db.byHash
    {
      if id in db.byID {
        assert id in db.Contents();
        var i, j, _, _ := RowHistory(history, ttl, hash, id);
      }
      if hash(token) in db.byHash {
        var other := db.byHash[hash(token)].id;
        assert other in db.Contents() && db.Contents()[other].hash == hash(token);
        var i, j, _, _ := RowHistory(history, ttl, hash, other);
      }
    }
  }
}
