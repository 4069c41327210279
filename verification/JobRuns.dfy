/** What every run of the job queue keeps, counts, waits for and finally settles. */
module JobRuns {
  import opened Base
  import opened JobTable
  import opened JobProtocol
  import opened Sums

  /** The instants the claims of job `id` read from the clock, in order. */
  function ClaimTimes(steps: seq<Step>, id: JobId): seq<Time> {
    if steps == [] then []
    else
      var last := steps[|steps| - 1];
      ClaimTimes(steps[..|steps| - 1], id) + (if last.Claim? && last.id == id then [last.now] else [])
  }

  lemma ClaimTimesStep(steps: seq<Step>, i: nat, id: JobId)
    requires i < |steps|
    ensures ClaimTimes(steps[..i + 1], id) ==
            ClaimTimes(steps[..i], id) + (if steps[i].Claim? && steps[i].id == id then [steps[i].now] else [])
  {
    assert steps[..i + 1][..i] == steps[..i];
  }

  // ---------------------------------------------------------------- safety, in a reader's terms

  /**
   In every interleaving a job has at most one live handler execution, it is a
   running job's only one, and the executions ever started are its attempts.
   */
  lemma AtMostOneExecution(states: seq<State>, steps: seq<Step>, i: nat, id: JobId)
    requires Behaviour(states, steps) && i < |states| && id in states[i].rows
    ensures var s := states[i];
            && |ClaimTimes(steps[..i], id)| == s.rows[id].attempts <= s.rows[id].maxAttempts
            && (s.rows[id].status != Running ==>
                  forall e | e in s.execs && s.execs[e].Live() :: s.execs[e].job.id != id)
            && (forall e, f | e in s.execs && f in s.execs && s.execs[e].Live() && s.execs[f].Live()
                              && s.execs[e].job.id == id == s.execs[f].job.id :: e == f)
  {
    Safety(states, steps, i);
    assert RowInv(states[i].rows[id]);
    forall e | e in states[i].execs && states[i].execs[e].Live() && states[i].execs[e].job.id == id
      ensures states[i].rows[id].status == Running
    {
      assert ExecInv(states[i], e);
    }
    Pace(states, steps, i, id);
  }

  // ---------------------------------------------------------------- backoff over whole runs

  /** Claim k+1 of a job comes at least the k-th backoff after claim k. */
  ghost predicate Spaced(times: seq<Time>) {
    forall k | 1 <= k < |times| :: times[k - 1] + Backoff(k) <= times[k]
  }

  ghost predicate PaceInv(s: State, id: JobId, times: seq<Time>) {
    && |times| == (if id in s.rows then s.rows[id].attempts else 0)
    && Spaced(times)
    && (times != [] ==> times[|times| - 1] <= s.clock)
    && (id in s.rows && s.rows[id].status == Queued && times != [] ==>
          times[|times| - 1] + Backoff(|times|) <= s.rows[id].runAt)
    && (forall e | e in s.execs && s.execs[e].job.id == id && s.execs[e].phase.Marking?
          && s.execs[e].phase.mark.MarkRetry? ::
          times != [] && times[|times| - 1] + Backoff(|times|) <= s.execs[e].phase.mark.runAt)
  }

  /** Nothing executes a job that is not running. */
  lemma NoLiveExec(s: State, id: JobId)
    requires Inv(s) && (id in s.rows ==> s.rows[id].status != Running)
    ensures forall e | e in s.execs && s.execs[e].Live() :: s.execs[e].job.id != id
  {
    hide SlotInv, OneExecPerJob, RowInv;
    forall e | e in s.execs && s.execs[e].Live() ensures s.execs[e].job.id != id {
      assert ExecInv(s, e);
    }
  }

  lemma PaceClaim(s: State, step: Step, id: JobId, times: seq<Time>)
    requires Inv(s) && Enabled(s, step) && PaceInv(s, id, times) && step.Claim?
    ensures PaceInv(Next(s, step), id, times + (if step.id == id then [step.now] else []))
  {
    hide Inv;
    NoLiveExec(s, step.id);
  }

  lemma PaceReturn(s: State, step: Step, id: JobId, times: seq<Time>)
    requires Inv(s) && Enabled(s, step) && PaceInv(s, id, times) && step.Return?
    ensures PaceInv(Next(s, step), id, times)
  {
    assert ExecInv(s, step.exec);
    assert RowInv(s.rows[s.execs[step.exec].job.id]);
  }

  lemma PaceOther(s: State, step: Step, id: JobId, times: seq<Time>)
    requires Inv(s) && Enabled(s, step) && PaceInv(s, id, times) && !step.Claim? && !step.Return?
    ensures PaceInv(Next(s, step), id, times)
  {
    if step.SendMark? {
      assert ExecInv(s, step.exec);
    } else if step.Enqueue? {
      NoLiveExec(s, step.id);
    }
  }

  lemma {:induction false} Pace(states: seq<State>, steps: seq<Step>, i: nat, id: JobId)
    requires Behaviour(states, steps) && i < |states|
    ensures PaceInv(states[i], id, ClaimTimes(steps[..i], id))
  {
    if i > 0 {
      Pace(states, steps, i - 1, id);
      Safety(states, steps, i - 1);
      var s, step, times := states[i - 1], steps[i - 1], ClaimTimes(steps[..i - 1], id);
      hide PaceInv, Inv, Enabled, Next;
      if step.Claim? {
        PaceClaim(s, step, id, times);
      } else if step.Return? {
        PaceReturn(s, step, id, times);
      } else {
        PaceOther(s, step, id, times);
      }
      assert times + [] == times;
      ClaimTimesStep(steps, i - 1, id);
      assert steps[..i] == steps[..i - 1 + 1];
    }
  }

  /** The sum of the first k backoffs. */
  function TotalBackoff(k: nat): Time {
    if k == 0 then 0 else TotalBackoff(k - 1) + Backoff(k)
  }

  lemma {:induction false} TotalBackoffIs(k: nat)
    ensures TotalBackoff(k) == if k == 0 then 0 else if k == 1 then 30 else 150 + 600 * (k - 2)
  {
    if k > 0 {
      TotalBackoffIs(k - 1);
    }
  }

  lemma {:induction false} SpacedFromFirst(times: seq<Time>, k: nat)
    requires Spaced(times) && k < |times|
    ensures times[0] + TotalBackoff(k) <= times[k]
  {
    if k > 0 {
      SpacedFromFirst(times, k - 1);
    }
  }

  /** The k-th claim of a job is no earlier than its first plus the k-1 backoffs in between. */
  lemma BackoffHolds(states: seq<State>, steps: seq<Step>, i: nat, id: JobId, k: nat)
    requires Behaviour(states, steps) && i < |states|
    requires 1 <= k <= |ClaimTimes(steps[..i], id)|
    ensures var times := ClaimTimes(steps[..i], id);
            times[0] + TotalBackoff(k - 1) <= times[k - 1]
  {
    Pace(states, steps, i, id);
    SpacedFromFirst(ClaimTimes(steps[..i], id), k - 1);
  }

  /**
   A retry of a job that may run m times takes its delay from the first m-1
   entries of BACKOFFS, so three attempts never reach the ten-minute one.
   */
  lemma RetryUsesEarlyBackoffs(states: seq<State>, steps: seq<Step>, i: nat)
    requires Behaviour(states, steps) && i < |steps| && steps[i].Return?
    requires var x := states[i + 1].execs[steps[i].exec]; x.phase.mark.MarkRetry?
    ensures var x := states[i + 1].execs[steps[i].exec];
            && x.phase.mark.runAt == states[i].clock + BACKOFFS[BackoffIndex(x.job.attempts)]
            && BackoffIndex(x.job.attempts) <= x.job.maxAttempts - 2
            && (x.job.maxAttempts <= 3 ==> BACKOFFS[BackoffIndex(x.job.attempts)] < 600)
  {
    Safety(states, steps, i);
    assert ExecInv(states[i], steps[i].exec);
    assert RowInv(states[i].rows[states[i].execs[steps[i].exec].job.id]);
  }

  // ---------------------------------------------------------------- how an attempt ends

  /** The handler's execution e, in step r, returned what ends its job for good: `dead` or succeeded. */
  ghost predicate Ends(states: seq<State>, steps: seq<Step>, r: nat, e: ExecId, job: Job, dead: bool)
    requires r < |steps| && |states| == |steps| + 1
  {
    && steps[r].Return? && steps[r].exec == e && e in states[r].execs && states[r].execs[e].job == job
    && if dead then !steps[r].registered || (steps[r].outcome.Err? && job.attempts == job.maxAttempts)
       else steps[r].registered && steps[r].outcome.Ok?
  }

  /**
   What a handler returns decides what becomes of its job. Without a handler the
   job dies; success ends it; a failure is retried, 30 seconds, two minutes or ten
   minutes later, as long as the job has an attempt left, and kills it otherwise.
   */
  lemma ReturnDecides(states: seq<State>, steps: seq<Step>, i: nat)
    requires Behaviour(states, steps) && i < |steps| && steps[i].Return?
    ensures steps[i].exec in states[i].execs && steps[i].exec in states[i + 1].execs
    ensures var job, now := states[i].execs[steps[i].exec].job, states[i].clock;
            var x := states[i + 1].execs[steps[i].exec];
            var wait := if job.attempts <= 1 then 30 else if job.attempts == 2 then 120 else 600;
            && x.job == job && x.phase.Marking? && 1 <= job.attempts <= job.maxAttempts
            && x.phase.mark ==
               if !steps[i].registered then MarkDead("no handler registered for kind=" + job.kind, now)
               else if steps[i].outcome.Ok? then MarkSucceeded(now)
               else if job.attempts == job.maxAttempts then MarkDead(steps[i].outcome.message, now)
               else MarkRetry(steps[i].outcome.message, now + wait)
  {
    Safety(states, steps, i);
    var x := states[i].execs[steps[i].exec];
    assert ExecInv(states[i], steps[i].exec);
    assert RowInv(states[i].rows[x.job.id]);
  }

  /** A pending mark that ends its job was decided by the return of its handler. */
  ghost predicate PendingHasCause(states: seq<State>, steps: seq<Step>, i: nat, e: ExecId)
    requires i < |states| == |steps| + 1
  {
    e in states[i].execs && states[i].execs[e].phase.Marking? ==>
      var x := states[i].execs[e];
      && (x.phase.mark.MarkDead? ==> exists r | 0 <= r < i :: Ends(states, steps, r, e, x.job, true))
      && (x.phase.mark.MarkSucceeded? ==> exists r | 0 <= r < i :: Ends(states, steps, r, e, x.job, false))
  }

  lemma {:induction false} PendingMarkHasCause(states: seq<State>, steps: seq<Step>, i: nat, e: ExecId)
    requires Behaviour(states, steps) && i < |states|
    ensures PendingHasCause(states, steps, i, e)
  {
    if i > 0 {
      PendingMarkHasCause(states, steps, i - 1, e);
      if steps[i - 1].Return? && steps[i - 1].exec == e {
        ReturnDecides(states, steps, i - 1);
        var job := states[i - 1].execs[e].job;
        assert states[i].execs[e].phase.mark.MarkDead? ==> Ends(states, steps, i - 1, e, job, true);
        assert states[i].execs[e].phase.mark.MarkSucceeded? ==> Ends(states, steps, i - 1, e, job, false);
      }
    }
  }

  /** Some handler of the job returned what ended it. */
  ghost predicate Ended(states: seq<State>, steps: seq<Step>, i: nat, id: JobId, dead: bool)
    requires i <= |steps| && |states| == |steps| + 1
  {
    exists r, e | 0 <= r < i && e in states[r].execs && states[r].execs[e].job.id == id ::
      Ends(states, steps, r, e, states[r].execs[e].job, dead)
  }

  /**
   A job is dead only if a handler failed in its last permitted attempt or there
   was none for its kind, and succeeded only if a handler succeeded.
   */
  lemma {:induction false} EndHasCause(states: seq<State>, steps: seq<Step>, i: nat, id: JobId)
    requires Behaviour(states, steps) && i < |states| && id in states[i].rows
    ensures states[i].rows[id].status == Dead ==> Ended(states, steps, i, id, true)
    ensures states[i].rows[id].status == Succeeded ==> Ended(states, steps, i, id, false)
  {
    if i > 0 {
      hide Ends;
      var s, step := states[i - 1], steps[i - 1];
      if id in s.rows {
        EndHasCause(states, steps, i - 1, id);
      }
      if step.SendMark? && s.execs[step.exec].job.id == id {
        PendingMarkHasCause(states, steps, i - 1, step.exec);
      }
    }
  }

  /** Execution e, waiting to send `mark`, is untouched by the steps from i up to k. */
  ghost predicate Undisturbed(states: seq<State>, steps: seq<Step>, i: nat, k: nat, e: ExecId, worker: WorkerId)
    requires k <= |steps|
  {
    forall q | i <= q < k :: steps[q] != SendMark(e) && steps[q] != LoseMark(e) && steps[q] != Crash(worker)
  }

  lemma {:induction false} MarkStays(states: seq<State>, steps: seq<Step>, i: nat, k: nat, e: ExecId)
    requires Behaviour(states, steps) && i <= k < |states| && e in states[i].execs && states[i].execs[e].phase.Marking?
    requires Undisturbed(states, steps, i, k, e, states[i].execs[e].worker)
    ensures e in states[k].execs && states[k].execs[e] == states[i].execs[e]
    decreases k
  {
    if i < k {
      MarkStays(states, steps, i, k - 1, e);
    }
  }

  /**
   Unless its mark is lost or its worker crashes, a failed attempt puts its job
   back into the queue, unlocked, with the error and the wait of that attempt, or
   kills it if that was the last; a success finishes it. Nothing else of the row changes.
   */
  lemma OutcomeIsRecorded(states: seq<State>, steps: seq<Step>, i: nat, k: nat)
    requires Behaviour(states, steps) && i < k < |steps| && steps[i].Return? && steps[i].registered
    requires steps[k] == SendMark(steps[i].exec) && steps[i].exec in states[i].execs
    requires Undisturbed(states, steps, i + 1, k, steps[i].exec, states[i].execs[steps[i].exec].worker)
    ensures var job, now := states[i].execs[steps[i].exec].job, states[i].clock;
            && job.id in states[k].rows && job.id in states[k + 1].rows
            && var was, row := states[k].rows[job.id], states[k + 1].rows[job.id];
            && was.status == Running
               && (row.attempts, row.maxAttempts, row.kind) == (was.attempts, was.maxAttempts, was.kind)
            && match steps[i].outcome
               case Ok => row.status == Succeeded && row.finishedAt == Some(now) && row.lastError == was.lastError
               case Err(message) =>
                 && row.lastError == Some(message)
                 && if job.attempts == job.maxAttempts then row.status == Dead && row.finishedAt == Some(now)
                    else
                      && row.status == Queued && row.lockedAt == None && row.lockedBy == None
                      && row.runAt == now + if job.attempts <= 1 then 30 else if job.attempts == 2 then 120 else 600
  {
    ReturnDecides(states, steps, i);
    MarkStays(states, steps, i + 1, k, steps[i].exec);
    Safety(states, steps, k);
    assert ExecInv(states[k], steps[i].exec);
  }

  /** No job is claimed before the instant it was enqueued for. */
  lemma FirstClaimWaits(states: seq<State>, steps: seq<Step>, i: nat, m: nat)
    requires Behaviour(states, steps) && m < i < |states| && steps[m].Enqueue?
    requires ClaimTimes(steps[..i], steps[m].id) != []
    ensures steps[m].runAt <= ClaimTimes(steps[..i], steps[m].id)[0]
  {
    NeverEarly(states, steps, i, m);
  }

  lemma UnclaimedStep(s: State, step: Step, id: JobId)
    requires Inv(s) && Enabled(s, step) && id in s.rows
    ensures id in Next(s, step).rows
    ensures step.Claim? && step.id == id ==> s.rows[id].runAt <= step.now
    ensures s.rows[id].attempts == 0 && !(step.Claim? && step.id == id) ==> Next(s, step).rows[id] == s.rows[id]
  {
    hide SlotInv, OneExecPerJob;
    if step.SendMark? {
      assert ExecInv(s, step.exec);
      assert RowInv(s.rows[s.execs[step.exec].job.id]);
    }
  }

  lemma {:induction false} NeverEarly(states: seq<State>, steps: seq<Step>, i: nat, m: nat)
    requires Behaviour(states, steps) && m < i < |states| && steps[m].Enqueue?
    ensures var id, times := steps[m].id, ClaimTimes(steps[..i], steps[m].id);
            && id in states[i].rows
            && if times == [] then states[i].rows[id].runAt == steps[m].runAt else steps[m].runAt <= times[0]
    decreases i
  {
    hide Inv, Enabled, Next, ClaimTimes, Init;
    var id, s, step := steps[m].id, states[i - 1], steps[i - 1];
    ClaimsAreAttempts(states, steps, i - 1, id);
    ClaimTimesStep(steps, i - 1, id);
    assert steps[..i] == steps[..i - 1 + 1];
    if m == i - 1 {
      EnqueuedRow(s, step);
    } else {
      NeverEarly(states, steps, i - 1, m);
      Safety(states, steps, i - 1);
      UnclaimedStep(s, step, id);
    }
  }

  lemma EnqueuedRow(s: State, step: Step)
    requires Enabled(s, step) && step.Enqueue?
    ensures step.id !in s.rows && step.id in Next(s, step).rows && Next(s, step).rows[step.id].runAt == step.runAt
  {}

  lemma ClaimsAreAttempts(states: seq<State>, steps: seq<Step>, i: nat, id: JobId)
    requires Behaviour(states, steps) && i < |states|
    ensures |ClaimTimes(steps[..i], id)| == if id in states[i].rows then states[i].rows[id].attempts else 0
  {
    Pace(states, steps, i, id);
  }

  // ---------------------------------------------------------------- termination

  const ROW_WEIGHT: Row -> nat :=
    (r: Row) => if r.status in {Succeeded, Dead} || r.maxAttempts < r.attempts then 0
      else 4 * (r.maxAttempts - r.attempts)

  const EXEC_WEIGHT: Exec -> nat :=
    (x: Exec) => match x.phase case Handling => 3 case Marking(_) => 2 case Finished => 1

  /** An upper bound on the protocol steps the jobs now in the table can still take. */
  ghost function Fuel(s: State): nat {
    SumOver(s.rows, ROW_WEIGHT) + SumOver(s.execs, EXEC_WEIGHT)
  }

  predicate Works(step: Step) {
    step.Claim? || step.Return? || step.SendMark? || step.LoseMark? || step.Release?
  }

  function Supplied(step: Step): nat {
    if step.Enqueue? && 1 <= step.maxAttempts then 4 * step.maxAttempts else 0
  }

  function WorkSteps(steps: seq<Step>): nat {
    if steps == [] then 0
    else WorkSteps(steps[..|steps| - 1]) + (if Works(steps[|steps| - 1]) then 1 else 0)
  }

  function TotalSupplied(steps: seq<Step>): nat {
    if steps == [] then 0 else TotalSupplied(steps[..|steps| - 1]) + Supplied(steps[|steps| - 1])
  }

  lemma FuelClaim(s: State, step: Step)
    requires Inv(s) && Enabled(s, step) && step.Claim?
    ensures Fuel(Next(s, step)) < Fuel(s)
  {
    var t := Next(s, step);
    assert RowInv(s.rows[step.id]);
    SumUpdate(s.rows, ROW_WEIGHT, step.id, t.rows[step.id]);
    SumUpdate(s.execs, EXEC_WEIGHT, step.exec, t.execs[step.exec]);
  }

  lemma FuelMark(s: State, step: Step)
    requires Inv(s) && Enabled(s, step) && step.SendMark?
    ensures Fuel(Next(s, step)) < Fuel(s)
  {
    var t, id := Next(s, step), s.execs[step.exec].job.id;
    assert ExecInv(s, step.exec);
    SumUpdate(s.rows, ROW_WEIGHT, id, t.rows[id]);
    SumUpdate(s.execs, EXEC_WEIGHT, step.exec, t.execs[step.exec]);
  }

  /** Every protocol step burns fuel, only an enqueue adds some, and nothing else touches it upwards. */
  lemma FuelFalls(s: State, step: Step)
    requires Inv(s) && Enabled(s, step)
    ensures Fuel(Next(s, step)) + (if Works(step) then 1 else 0) <= Fuel(s) + Supplied(step)
  {
    var t := Next(s, step);
    match step
    case Enqueue(id, kind, runAt, maxAttempts) =>
      SumUpdate(s.rows, ROW_WEIGHT, id, NewRow(kind, runAt, maxAttempts));
    case Crash(_) =>
      SumSubmap(t.execs, s.execs, EXEC_WEIGHT);
    case Claim(_, _, _, _) => FuelClaim(s, step);
    case Return(e, _, _) =>
      SumUpdate(s.execs, EXEC_WEIGHT, e, t.execs[e]);
    case SendMark(_) => FuelMark(s, step);
    case LoseMark(e) =>
      SumUpdate(s.execs, EXEC_WEIGHT, e, t.execs[e]);
    case Release(e) =>
      SumWithout(s.execs, EXEC_WEIGHT, e);
    case _ =>
  }

  /** Finitely many enqueues allow finitely many steps: four per attempt each enqueued job is allowed. */
  lemma {:induction false} StepsAreBounded(states: seq<State>, steps: seq<Step>, i: nat)
    requires Behaviour(states, steps) && i < |states|
    ensures WorkSteps(steps[..i]) + Fuel(states[i]) <= TotalSupplied(steps[..i])
  {
    if i > 0 {
      StepsAreBounded(states, steps, i - 1);
      Safety(states, steps, i - 1);
      FuelFalls(states[i - 1], steps[i - 1]);
      assert steps[..i][..i - 1] == steps[..i - 1];
    }
  }

  // ---------------------------------------------------------------- settled rows

  /** Finished, dead, or abandoned: running with nobody left to mark it. */
  ghost predicate Settled(s: State, id: JobId) {
    && id in s.rows && s.rows[id].status != Queued
    && (forall e | e in s.execs && s.execs[e].Live() :: s.execs[e].job.id != id)
  }

  /** A terminal row never changes again, and neither does one whose mark was lost. */
  lemma {:induction false} SettledStays(states: seq<State>, steps: seq<Step>, i: nat, k: nat, id: JobId)
    requires Behaviour(states, steps) && i <= k < |states| && Settled(states[i], id)
    ensures Settled(states[k], id) && states[k].rows[id] == states[i].rows[id]
    decreases k
  {
    if i < k {
      SettledStays(states, steps, i, k - 1, id);
    }
  }

  /** Losing the mark abandons the job: it stays running for the rest of the run. */
  lemma LostMarkAbandons(states: seq<State>, steps: seq<Step>, i: nat, k: nat)
    requires Behaviour(states, steps) && i < k < |states| && steps[i].LoseMark?
    ensures var id := states[i].execs[steps[i].exec].job.id;
            id in states[k].rows && states[k].rows[id].status == Running
  {
    Safety(states, steps, i);
    assert ExecInv(states[i], steps[i].exec);
    SettledStays(states, steps, i + 1, k, states[i].execs[steps[i].exec].job.id);
  }

  /** No live execution is left to mark this running job. */
  ghost predicate Abandoned(s: State, id: JobId) {
    && id in s.rows && s.rows[id].status == Running
    && (forall e | e in s.execs && s.execs[e].Live() :: s.execs[e].job.id != id)
  }

  /** The step loses the mark of an execution of the job, or crashes the worker of a live one. */
  ghost predicate Abandons(s: State, step: Step, id: JobId) {
    || (step.LoseMark? && step.exec in s.execs && s.execs[step.exec].Live() && s.execs[step.exec].job.id == id)
    || (step.Crash? && exists e | e in s.execs ::
        s.execs[e].worker == step.worker && s.execs[e].Live() && s.execs[e].job.id == id)
  }

  /** Some step so far abandoned the job. */
  ghost predicate EverAbandoned(states: seq<State>, steps: seq<Step>, i: nat, id: JobId)
    requires i <= |steps| && |states| == |steps| + 1
  {
    exists k | 0 <= k < i :: Abandons(states[k], steps[k], id)
  }

  lemma NothingAbandoned(states: seq<State>, steps: seq<Step>, id: JobId)
    requires |states| == |steps| + 1 && Init(states[0])
    ensures !Abandoned(states[0], id) && !EverAbandoned(states, steps, 0, id)
  {}

  lemma EverAbandonedStep(states: seq<State>, steps: seq<Step>, i: nat, id: JobId)
    requires i < |steps| && |states| == |steps| + 1
    ensures EverAbandoned(states, steps, i + 1, id) <==>
            EverAbandoned(states, steps, i, id) || Abandons(states[i], steps[i], id)
  {
    hide Abandons;
  }

  lemma AbandonStep(s: State, step: Step, id: JobId)
    requires Inv(s) && Enabled(s, step)
    ensures Abandoned(Next(s, step), id) <==> Abandoned(s, id) || Abandons(s, step, id)
  {
    var t := Next(s, step);
    if Abandoned(t, id) && !Abandoned(s, id) {
      AbandonHasCause(s, step, id);
    }
    if Abandons(s, step, id) {
      AbandonFollows(s, step, id);
    }
  }

  lemma AbandonHasCause(s: State, step: Step, id: JobId)
    requires Inv(s) && Enabled(s, step) && Abandoned(Next(s, step), id) && !Abandoned(s, id)
    ensures Abandons(s, step, id)
  {
    hide SlotInv, OneExecPerJob, RowInv;
    var t := Next(s, step);
    if step.Claim? {
      assert t.execs[step.exec].Live();
    }
    if e :| e in s.execs && s.execs[e].Live() && s.execs[e].job.id == id {
      assert ExecInv(s, e);
      assert e in t.execs ==> !t.execs[e].Live();
    }
  }

  lemma AbandonFollows(s: State, step: Step, id: JobId)
    requires Inv(s) && Enabled(s, step) && Abandons(s, step, id)
    ensures Abandoned(Next(s, step), id)
  {
    var t := Next(s, step);
    var e :| e in s.execs && s.execs[e].Live() && s.execs[e].job.id == id && (e in t.execs ==> !t.execs[e].Live());
    assert ExecInv(s, e);
    forall f | f in t.execs && t.execs[f].Live() ensures t.execs[f].job.id != id {
      assert f in s.execs && s.execs[f].Live() && f != e;
    }
  }

  /**
   A running job is left with nobody to mark it exactly when some step so far
   lost its mark or crashed the worker of its live execution; otherwise a
   running job always has a live execution.
   */
  lemma {:induction false} AbandonedExactly(states: seq<State>, steps: seq<Step>, i: nat, id: JobId)
    requires Behaviour(states, steps) && i < |states|
    ensures Abandoned(states[i], id) <==> EverAbandoned(states, steps, i, id)
  {
    hide Abandoned, Abandons, EverAbandoned, Next, Enabled, Inv, Init;
    if i == 0 {
      NothingAbandoned(states, steps, id);
    } else {
      AbandonedExactly(states, steps, i - 1, id);
      Safety(states, steps, i - 1);
      AbandonStep(states[i - 1], steps[i - 1], id);
      EverAbandonedStep(states, steps, i - 1, id);
    }
  }

  // ---------------------------------------------------------------- runs that reach the ten-minute backoff

  lemma Extend(states: seq<State>, steps: seq<Step>, step: Step) returns (run: seq<State>, taken: seq<Step>)
    requires Behaviour(states, steps) && Enabled(states[|steps|], step)
    ensures Behaviour(run, taken)
    ensures run == states + [Next(states[|steps|], step)] && taken == steps + [step]
  {
    run, taken := states + [Next(states[|steps|], step)], steps + [step];
  }

  /** A lone worker, one slot, nothing in flight. */
  ghost predicate Resting(s: State) {
    s.workers == map[0 := Slots(1, 0, false)] && s.execs == map[]
  }

  /** The worker's only goroutine is about to send its mark for job `id`. */
  ghost predicate Marks(s: State, id: JobId, mark: Mark) {
    && s.workers == map[0 := Slots(1, 1, false)]
    && id in s.rows && s.rows[id].status == Running
    && s.execs == map[0 := Exec(0, Snapshot(id, s.rows[id]), Marking(mark))]
  }

  /** A queued job is claimed and its handler fails. */
  lemma RunAndFail(states: seq<State>, steps: seq<Step>, id: JobId) returns (run: seq<State>, taken: seq<Step>)
    requires Behaviour(states, steps)
    requires var s := states[|steps|]; Resting(s) && id in s.rows && s.rows[id].status == Queued
    ensures Behaviour(run, taken) && taken != [] && taken[|taken| - 1] == Return(0, true, Err("crawl failed"))
    ensures var s, t := states[|steps|], run[|taken|];
            && id in t.rows
            && t.rows[id].attempts == s.rows[id].attempts + 1 && t.rows[id].maxAttempts == s.rows[id].maxAttempts
            && run[|taken| - 1].clock == t.clock
            && Marks(t, id, ChooseMark(Snapshot(id, t.rows[id]), true, Err("crawl failed"), t.clock))
  {
    var s := states[|steps|];
    var at := if s.clock < s.rows[id].runAt then s.rows[id].runAt else s.clock;
    run, taken := Extend(states, steps, Tick(at));
    run, taken := Extend(run, taken, Acquire(0));
    run, taken := Extend(run, taken, Claim(0, id, at, 0));
    run, taken := Extend(run, taken, Return(0, true, Err("crawl failed")));
  }

  /** The retry mark lands and the slot is released. */
  lemma Requeue(states: seq<State>, steps: seq<Step>, id: JobId, mark: Mark) returns (run: seq<State>, taken: seq<Step>)
    requires Behaviour(states, steps) && mark.MarkRetry? && Marks(states[|steps|], id, mark)
    ensures Behaviour(run, taken)
    ensures var s, t := states[|steps|], run[|taken|];
            Resting(t) && id in t.rows && t.rows[id] == MarkRow(s.rows[id], mark)
  {
    run, taken := Extend(states, steps, SendMark(0));
    run, taken := Extend(run, taken, Release(0));
    assert run[|taken|].execs == map[];
  }

  /** Both happen: a lost mark, or a crash, leaves a running job behind. */
  lemma MarksAreLost() returns (states: seq<State>, lost: seq<Step>, crashed: seq<Step>, others: seq<State>)
    ensures Behaviour(states, lost) && Abandoned(states[|lost|], 7) && lost != [] && lost[|lost| - 1] == LoseMark(0)
    ensures Behaviour(others, crashed) && Abandoned(others[|crashed|], 7)
    ensures crashed != [] && crashed[|crashed| - 1] == Crash(0)
  {
    states, lost := FailsOnce();
    hide Behaviour;
    others, crashed := Extend(states, lost, Crash(0));
    states, lost := Extend(states, lost, LoseMark(0));
  }

  lemma FailsOnce() returns (states: seq<State>, steps: seq<Step>)
    ensures Behaviour(states, steps) && |states| == |steps| + 1
    ensures exists mark: Mark :: Marks(states[|steps|], 7, mark)
  {
    states, steps := [State(0, map[], map[], map[])], [];
    states, steps := Extend(states, steps, Boot(0, 1));
    states, steps := Extend(states, steps, Enqueue(7, "audit_store", 0, SCHEMA_MAX_ATTEMPTS));
    states, steps := RunAndFail(states, steps, 7);
  }

  /** In step i a handler of a job that may run m times fails and is to be tried again in ten minutes. */
  ghost predicate WaitsTenMinutes(states: seq<State>, steps: seq<Step>, i: nat, m: int) {
    && Behaviour(states, steps) && i < |steps| && steps[i].Return?
    && steps[i].exec in states[i + 1].execs
    && var x := states[i + 1].execs[steps[i].exec];
    && x.job.maxAttempts == m && x.phase.Marking? && x.phase.mark.MarkRetry?
    && x.phase.mark.runAt == states[i].clock + 600
  }

  lemma ThirdFailureWaits(m: int) returns (states: seq<State>, steps: seq<Step>, i: nat)
    requires 4 <= m
    ensures WaitsTenMinutes(states, steps, i, m)
  {
    states, steps := [State(0, map[], map[], map[])], [];
    states, steps := Extend(states, steps, Boot(0, 1));
    states, steps := Extend(states, steps, Enqueue(7, "audit_store", 0, m));
    states, steps := RunAndFail(states, steps, 7);
    states, steps := Requeue(states, steps, 7, states[|steps|].execs[0].phase.mark);
    states, steps := RunAndFail(states, steps, 7);
    states, steps := Requeue(states, steps, 7, states[|steps|].execs[0].phase.mark);
    states, steps := RunAndFail(states, steps, 7);
    i := |steps| - 1;
  }

  /** Some run reaches the ten-minute backoff if and only if the job may run at least four times. */
  lemma TenMinutesExactly(m: int)
    ensures (exists states: seq<State>, steps: seq<Step>, i: nat :: WaitsTenMinutes(states, steps, i, m)) <==> 4 <= m
  {
    if 4 <= m {
      var states, steps, i := ThirdFailureWaits(m);
    }
    forall states: seq<State>, steps: seq<Step>, i: nat | WaitsTenMinutes(states, steps, i, m) ensures 4 <= m {
      RetryUsesEarlyBackoffs(states, steps, i);
    }
  }

  /** The documented three attempts are not what the rows carry: the schema's default of five does reach it. */
  lemma DefaultRowsReachTenMinutes()
    ensures exists states: seq<State>, steps: seq<Step>, i: nat ::
            WaitsTenMinutes(states, steps, i, SCHEMA_MAX_ATTEMPTS)
  {
    TenMinutesExactly(SCHEMA_MAX_ATTEMPTS);
  }
}
