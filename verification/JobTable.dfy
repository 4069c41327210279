/**
 The `audit_jobs` table and the statements a worker process runs against it:
 the SKIP LOCKED claim, the three mark statements, the handler that chooses
 between them, and the poll loop that fills the worker's semaphore.
 */
module JobTable {
  import opened Base

  type JobId = nat
  type WorkerId = nat

  // The `failed` member of the enum is declared by the schema and never written.
  datatype Status = Queued | Running | Succeeded | Failed | Dead

  datatype Row = Row(
    status: Status,
    runAt: Time,
    attempts: nat,
    maxAttempts: int,
    kind: string,
    lockedAt: Option<Time>,
    lockedBy: Option<WorkerId>,
    lastError: Option<string>,
    finishedAt: Option<Time>)

  /** What the claim statement returns to the worker: a snapshot of the row. */
  datatype Job = Job(id: JobId, kind: string, attempts: nat, maxAttempts: int)

  datatype Outcome = Ok | Err(message: string)

  datatype Mark =
    | MarkSucceeded(at: Time)
    | MarkRetry(error: string, runAt: Time)
    | MarkDead(error: string, at: Time)

  // Durations in seconds.
  const BACKOFFS: seq<Time> := [30, 120, 600]

  // audit_jobs.max_attempts has this default, and no INSERT overrides it.
  const SCHEMA_MAX_ATTEMPTS := 5

  /** The row an INSERT that names only kind and run_at creates. */
  function NewRow(kind: string, runAt: Time, maxAttempts: int): Row {
    Row(Queued, runAt, 0, maxAttempts, kind, None, None, None, None)
  }

  predicate Due(r: Row, now: Time) {
    r.status == Queued && r.runAt <= now
  }

  function ClaimRow(r: Row, worker: WorkerId, now: Time): Row {
    r.(status := Running, lockedAt := Some(now), lockedBy := Some(worker), attempts := r.attempts + 1)
  }

  function Snapshot(id: JobId, r: Row): Job {
    Job(id, r.kind, r.attempts, r.maxAttempts)
  }

  /** The position in BACKOFFS a job that has been claimed `attempts` times waits for. */
  function BackoffIndex(attempts: int): (i: nat)
    ensures i < |BACKOFFS|
  {
    var i := attempts - 1;
    if i < 0 then 0 else if i >= |BACKOFFS| then |BACKOFFS| - 1 else i
  }

  function Backoff(attempts: int): Time {
    BACKOFFS[BackoffIndex(attempts)]
  }

  function MarkRow(r: Row, mark: Mark): Row {
    match mark
    case MarkSucceeded(at) => r.(status := Succeeded, finishedAt := Some(at))
    case MarkRetry(error, runAt) =>
      r.(status := Queued, lastError := Some(error), runAt := runAt, lockedAt := None, lockedBy := None)
    case MarkDead(error, at) => r.(status := Dead, lastError := Some(error), finishedAt := Some(at))
  }

  /** An UPDATE keyed on `id` alone: it touches the row whatever its status or owner. */
  function UpdateById(rows: map<JobId, Row>, id: JobId, mark: Mark): map<JobId, Row> {
    if id in rows then rows[id := MarkRow(rows[id], mark)] else rows
  }

  /** The transition `handle` picks once the handler has returned at time `now`. */
  function ChooseMark(j: Job, registered: bool, outcome: Outcome, now: Time): Mark {
    if !registered then MarkDead("no handler registered for kind=" + j.kind, now)
    else match outcome
      case Ok => MarkSucceeded(now)
      case Err(message) =>
        if j.attempts >= j.maxAttempts then MarkDead(message, now)
        else MarkRetry(message, now + Backoff(j.attempts))
  }

  /** No due row is left that another transaction has not locked. */
  ghost predicate NothingDue(rows: map<JobId, Row>, locked: set<JobId>, now: Time) {
    forall id | id in rows && id !in locked :: !Due(rows[id], now)
  }

  ghost predicate OldestDue(rows: map<JobId, Row>, locked: set<JobId>, now: Time, id: JobId) {
    && id in rows && id !in locked && Due(rows[id], now)
    && forall other | other in rows && other !in locked && Due(rows[other], now) ::
         rows[id].runAt <= rows[other].runAt
  }

  /** One claim: the oldest due row nobody has locked turned `before` into `after`. */
  ghost predicate ClaimedAt(before: map<JobId, Row>, after: map<JobId, Row>, job: Job,
                            locked: set<JobId>, worker: WorkerId, now: Time) {
    && OldestDue(before, locked, now, job.id)
    && after == before[job.id := ClaimRow(before[job.id], worker, now)]
    && job == Snapshot(job.id, after[job.id])
  }

  /**
   A claim takes a queued, unlocked row whose time has come, the oldest such, and
   there is none to take if it takes none. It counts an attempt and signs the row.
   */
  lemma ClaimMeans(before: Rows, after: Rows, job: Job, locked: set<JobId>, worker: WorkerId, now: Time)
    ensures NothingDue(before, locked, now) <==>
            !exists id | id in before && id !in locked :: before[id].status == Queued && before[id].runAt <= now
    ensures ClaimedAt(before, after, job, locked, worker, now) <==>
            && job.id in before && job.id !in locked
            && before[job.id].status == Queued && before[job.id].runAt <= now
            && (forall id | id in before && id !in locked && before[id].status == Queued ::
                  before[id].runAt <= now ==> before[job.id].runAt <= before[id].runAt)
            && after == before[job.id := before[job.id].(status := Running, attempts := before[job.id].attempts + 1,
                                                         lockedAt := Some(now), lockedBy := Some(worker))]
            && job == Job(job.id, before[job.id].kind, before[job.id].attempts + 1, before[job.id].maxAttempts)
  {}

  type Rows = map<JobId, Row>

  /** A tick's claims: the k-th finds the table found(k), whatever others made of it, and leaves left[k]. */
  ghost predicate Drained(found: nat -> Rows, left: seq<Rows>, claimed: seq<Job>,
                          locked: nat -> set<JobId>, worker: WorkerId, clock: nat -> Time) {
    && |left| == |claimed|
    && forall k | 0 <= k < |claimed| :: ClaimedAt(found(k), left[k], claimed[k], locked(k), worker, clock(k))
  }

  /** No row goes, and no attempt is taken back. */
  ghost predicate Advances(before: Rows, after: Rows) {
    forall id | id in before :: id in after && before[id].attempts <= after[id].attempts
  }

  /** Between the tick's claims others let the table advance. */
  ghost predicate OthersAdvance(found: nat -> Rows, left: seq<Rows>) {
    forall k | 0 <= k < |left| :: Advances(left[k], found(k + 1))
  }

  /** The job's attempt is counted in the table. */
  predicate Counted(rows: Rows, job: Job) {
    job.id in rows && job.attempts <= rows[job.id].attempts
  }

  lemma CountedStays(before: Rows, after: Rows, job: Job)
    requires Counted(before, job) && Advances(before, after)
    ensures Counted(after, job)
  {}

  lemma ClaimAdvances(before: Rows, after: Rows, job: Job, locked: set<JobId>, worker: WorkerId, now: Time)
    requires ClaimedAt(before, after, job, locked, worker, now)
    ensures Advances(before, after) && Counted(after, job)
  {}

  /** A claimed attempt is counted in every table a later claim finds. */
  lemma {:induction false} AttemptStays(found: nat -> Rows, left: seq<Rows>, claimed: seq<Job>,
                                        locked: nat -> set<JobId>, worker: WorkerId, clock: nat -> Time, i: nat, k: nat)
    requires Drained(found, left, claimed, locked, worker, clock) && OthersAdvance(found, left) && i < k <= |claimed|
    ensures Counted(found(k), claimed[i])
    decreases k
  {
    hide ClaimedAt, Counted, Advances, Drained, OthersAdvance;
    var m := k - 1;
    DrainedAt(found, left, claimed, locked, worker, clock, m);
    ClaimAdvances(found(m), left[m], claimed[m], locked(m), worker, clock(m));
    if i < m {
      AttemptStays(found, left, claimed, locked, worker, clock, i, m);
      CountedStays(found(m), left[m], claimed[i]);
    }
    CountedStays(left[m], found(m + 1), claimed[i]);
  }

  lemma DrainedAt(found: nat -> Rows, left: seq<Rows>, claimed: seq<Job>,
                  locked: nat -> set<JobId>, worker: WorkerId, clock: nat -> Time, m: nat)
    requires Drained(found, left, claimed, locked, worker, clock) && OthersAdvance(found, left) && m < |claimed|
    ensures |left| == |claimed| && Advances(left[m], found(m + 1))
    ensures ClaimedAt(found(m), left[m], claimed[m], locked(m), worker, clock(m))
  {
    hide ClaimedAt, Advances;
  }

  /**
   Whatever other transactions do between a tick's claims, short of deleting rows or
   attempts: no attempt of a job is claimed twice, and a job that was queued and
   unlocked when an earlier claim passed it over is younger than the one it took.
   */
  lemma DrainsOldestFirst(found: nat -> Rows, left: seq<Rows>, claimed: seq<Job>,
                          locked: nat -> set<JobId>, worker: WorkerId, clock: nat -> Time, i: nat, k: nat)
    requires Drained(found, left, claimed, locked, worker, clock) && OthersAdvance(found, left) && i < k < |claimed|
    ensures claimed[i].id == claimed[k].id ==> claimed[i].attempts < claimed[k].attempts
    ensures var rows, id := found(i), claimed[k].id;
            && claimed[i].id in rows
            && (id in rows && id !in locked(i) && rows[id].status == Queued ==>
                rows[claimed[i].id].runAt <= rows[id].runAt)
  {
    AttemptStays(found, left, claimed, locked, worker, clock, i, k);
    assert ClaimedAt(found(i), left[i], claimed[i], locked(i), worker, clock(i));
    assert ClaimedAt(found(k), left[k], claimed[k], locked(k), worker, clock(k));
  }

  class Table {
    var rows: map<JobId, Row>

    constructor ()
      ensures rows == map[]
    {
      rows := map[];
    }

    /** Claims the oldest due row no concurrent transaction holds a lock on. */
    method Claim(worker: WorkerId, now: Time, locked: set<JobId>) returns (job: Option<Job>)
      modifies this
      ensures job.None? ==> rows == old(rows) && NothingDue(rows, locked, now)
      ensures job.Some? ==> ClaimedAt(old(rows), rows, job.value, locked, worker, now)
    {
      var best: Option<JobId> := None;
      var todo := rows.Keys - locked;
      while todo != {}
        invariant todo <= rows.Keys - locked
        invariant best.Some? ==> best.value in rows && best.value !in locked && Due(rows[best.value], now)
        invariant forall id | id in rows && id !in locked && id !in todo && Due(rows[id], now) ::
                    best.Some? && rows[best.value].runAt <= rows[id].runAt
        decreases todo
      {
        var id :| id in todo;
        todo := todo - {id};
        if Due(rows[id], now) && (best.None? || rows[id].runAt < rows[best.value].runAt) {
          best := Some(id);
        }
      }
      if best.None? {
        return None;
      }
      rows := rows[best.value := ClaimRow(rows[best.value], worker, now)];
      job := Some(Snapshot(best.value, rows[best.value]));
    }

    /** A mark's UPDATE; one that fails is logged and forgotten. */
    method Apply(id: JobId, mark: Mark, sent: bool)
      modifies this
      ensures rows == if sent then UpdateById(old(rows), id, mark) else old(rows)
    {
      if sent && id in rows {
        rows := rows[id := MarkRow(rows[id], mark)];
      }
    }
  }

  class Worker {
    const id: WorkerId
    const maxConcurrent: nat
    var handlers: set<string>
    var held: nat          // tokens taken from the semaphore channel
    var inFlight: seq<Job> // goroutines that have not released theirs

    ghost predicate Valid()
      reads this
    {
      held == |inFlight| <= maxConcurrent
    }

    constructor (id: WorkerId, maxConcurrent: nat, handlers: set<string>)
      ensures Valid() && inFlight == [] && this.handlers == handlers
      ensures this.id == id && this.maxConcurrent == maxConcurrent
    {
      this.id, this.maxConcurrent, this.handlers := id, maxConcurrent, handlers;
      held, inFlight := 0, [];
    }

    /**
     One tick of the poll loop: take a slot, claim, start a goroutine, until the
     slots run out, nothing is due, or the claim query with number `errAt` fails.
     The k-th claim finds the table found(k), whatever other transactions made of
     it, reads clock(k), and skips the rows of locked(k).
     */
    method Drain(table: Table, found: nat -> Rows, clock: nat -> Time, locked: nat -> set<JobId>, errAt: Option<nat>)
      returns (claimed: seq<Job>, ghost left: seq<Rows>)
      requires Valid()
      modifies this, table
      ensures Valid() && handlers == old(handlers)
      ensures inFlight == old(inFlight) + claimed
      ensures Drained(found, left, claimed, locked, id, clock)
      ensures var n := |claimed|;
              if held == maxConcurrent then table.rows == if n == 0 then old(table.rows) else left[n - 1]
              else table.rows == found(n) && (errAt == Some(n) || NothingDue(table.rows, locked(n), clock(n)))
    {
      hide ClaimedAt, NothingDue;
      claimed, left := [], [];
      while true
        invariant Valid() && handlers == old(handlers)
        invariant inFlight == old(inFlight) + claimed
        invariant Drained(found, left, claimed, locked, id, clock)
        invariant table.rows == if claimed == [] then old(table.rows) else left[|claimed| - 1]
        decreases maxConcurrent - held
      {
        if held == maxConcurrent {
          return;
        }
        held := held + 1;
        table.rows := found(|claimed|);
        if errAt == Some(|claimed|) {
          held := held - 1;
          return;
        }
        var job := table.Claim(id, clock(|claimed|), locked(|claimed|));
        if job.None? {
          held := held - 1;
          return;
        }
        claimed, left := claimed + [job.value], left + [table.rows];
        inFlight := inFlight + [job.value];
      }
    }

    /** The body of a job's goroutine once its handler has returned `outcome`, up to the deferred release. */
    method Handle(table: Table, k: nat, outcome: Outcome, now: Time, sent: bool)
      requires Valid() && k < |inFlight|
      modifies this, table
      ensures Valid() && handlers == old(handlers)
      ensures inFlight == old(inFlight[..k] + inFlight[k + 1..])
      ensures var j := old(inFlight[k]);
              table.rows == if sent
                then UpdateById(old(table.rows), j.id, ChooseMark(j, j.kind in handlers, outcome, now))
                            else old(table.rows)
    {
      var j := inFlight[k];
      if j.kind !in handlers {
        table.Apply(j.id, MarkDead("no handler registered for kind=" + j.kind, now), sent);
      } else if outcome.Ok? {
        table.Apply(j.id, MarkSucceeded(now), sent);
      } else if j.attempts >= j.maxAttempts {
        table.Apply(j.id, MarkDead(outcome.message, now), sent);
      } else {
        var delay := j.attempts - 1;
        if delay < 0 {
          delay := 0;
        }
        if delay >= |BACKOFFS| {
          delay := |BACKOFFS| - 1;
        }
        table.Apply(j.id, MarkRetry(outcome.message, now + BACKOFFS[delay]), sent);
      }
      inFlight := inFlight[..k] + inFlight[k + 1..];
      held := held - 1;
    }
  }
}
