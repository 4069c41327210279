/**
 The job queue as a protocol: any number of worker processes, each with its own
 semaphore, interleave with handlers, mark statements, lost marks and crashes.
 Every SQL statement is one atomic step. Nothing but the row's id guards a mark,
 so safety rests on the invariant `Inv`, proved over every behaviour.
 */
module JobProtocol {
  import opened Base
  import opened JobTable

  type ExecId = nat

  // A goroutine runs its handler, then sends its mark, then releases its slot.
  datatype Phase = Handling | Marking(mark: Mark) | Finished

  datatype Exec = Exec(worker: WorkerId, job: Job, phase: Phase) {
    predicate Live() {
      !phase.Finished?
    }
  }

  // `acquiring`: the poll loop holds a slot that is not yet tied to a goroutine.
  datatype Slots = Slots(max: nat, held: nat, acquiring: bool)

  datatype State = State(
    clock: Time,
    rows: map<JobId, Row>,
    execs: map<ExecId, Exec>,
    workers: map<WorkerId, Slots>)

  datatype Step =
    | Tick(to: Time)
    | Enqueue(id: JobId, kind: string, runAt: Time, maxAttempts: int)
    | Boot(worker: WorkerId, max: nat)
    | Crash(worker: WorkerId)
    | Acquire(worker: WorkerId)
    | ClaimNothing(worker: WorkerId) // no due row, or the query failed
    | Claim(worker: WorkerId, id: JobId, now: Time, exec: ExecId)
    | Return(exec: ExecId, registered: bool, outcome: Outcome)
    | SendMark(exec: ExecId)
    | LoseMark(exec: ExecId) // the mark's UPDATE failed: logged and forgotten
    | Release(exec: ExecId)

  predicate Enabled(s: State, step: Step) {
    match step
    case Tick(to) => s.clock <= to
    case Enqueue(id, _, _, maxAttempts) => id !in s.rows && 1 <= maxAttempts
    case Boot(w, _) => w !in s.workers
    case Crash(w) => w in s.workers
    case Acquire(w) => w in s.workers && !s.workers[w].acquiring && s.workers[w].held < s.workers[w].max
    case ClaimNothing(w) => w in s.workers && s.workers[w].acquiring && 1 <= s.workers[w].held
    case Claim(w, id, now, e) =>
      && w in s.workers && s.workers[w].acquiring
      && id in s.rows && Due(s.rows[id], now) && now <= s.clock
      && e !in s.execs
    case Return(e, _, _) => e in s.execs && s.execs[e].phase.Handling?
    case SendMark(e) => e in s.execs && s.execs[e].phase.Marking?
    case LoseMark(e) => e in s.execs && s.execs[e].phase.Marking?
    case Release(e) =>
      && e in s.execs && s.execs[e].phase.Finished?
      && s.execs[e].worker in s.workers && 1 <= s.workers[s.execs[e].worker].held
  }

  function Next(s: State, step: Step): State
    requires Enabled(s, step)
  {
    match step
    case Tick(to) => s.(clock := to)
    case Enqueue(id, kind, runAt, maxAttempts) => s.(rows := s.rows[id := NewRow(kind, runAt, maxAttempts)])
    case Boot(w, max) => s.(workers := s.workers[w := Slots(max, 0, false)])
    case Crash(w) =>
      s.(workers := s.workers - {w}, execs := map e | e in s.execs && s.execs[e].worker != w :: s.execs[e])
    case Acquire(w) => s.(workers := s.workers[w := s.workers[w].(held := s.workers[w].held + 1, acquiring := true)])
    case ClaimNothing(w) =>
      s.(workers := s.workers[w := s.workers[w].(held := s.workers[w].held - 1, acquiring := false)])
    case Claim(w, id, now, e) =>
      var row := ClaimRow(s.rows[id], w, now);
      s.(rows := s.rows[id := row],
         execs := s.execs[e := Exec(w, Snapshot(id, row), Handling)],
         workers := s.workers[w := s.workers[w].(acquiring := false)])
    case Return(e, registered, outcome) =>
      var mark := ChooseMark(s.execs[e].job, registered, outcome, s.clock);
      s.(execs := s.execs[e := s.execs[e].(phase := Marking(mark))])
    case SendMark(e) =>
      s.(rows := UpdateById(s.rows, s.execs[e].job.id, s.execs[e].phase.mark),
         execs := s.execs[e := s.execs[e].(phase := Finished)])
    case LoseMark(e) => s.(execs := s.execs[e := s.execs[e].(phase := Finished)])
    case Release(e) =>
      var w := s.execs[e].worker;
      s.(execs := s.execs - {e}, workers := s.workers[w := s.workers[w].(held := s.workers[w].held - 1)])
  }

  /** Every step lets the rows of the table advance only: none goes, and no attempt is taken back. */
  lemma StepsAdvance(s: State, step: Step)
    requires Enabled(s, step)
    ensures Advances(s.rows, Next(s, step).rows)
  {}

  predicate Init(s: State) {
    s.rows == map[] && s.execs == map[] && s.workers == map[]
  }

  /** `states` is what the steps of `steps`, taken in order from an empty system, pass through. */
  ghost predicate Behaviour(states: seq<State>, steps: seq<Step>) {
    && |states| == |steps| + 1
    && Init(states[0])
    && forall i | 0 <= i < |steps| :: Enabled(states[i], steps[i]) && states[i + 1] == Next(states[i], steps[i])
  }

  // ---------------------------------------------------------------- the invariant

  predicate RowInv(r: Row) {
    && r.attempts <= r.maxAttempts && 1 <= r.maxAttempts
    && (r.status == Queued ==> r.attempts < r.maxAttempts)
    && (r.status != Queued ==> 1 <= r.attempts)
    && r.status != Failed
  }

  /** A live execution still owns its row: the row is running, at the attempt the execution claimed. */
  predicate ExecInv(s: State, e: ExecId)
    requires e in s.execs
  {
    var x := s.execs[e];
    && x.worker in s.workers
    && (x.Live() ==>
          && x.job.id in s.rows
          && s.rows[x.job.id].status == Running
          && x.job == Snapshot(x.job.id, s.rows[x.job.id]))
    && (x.phase.Marking? && x.phase.mark.MarkRetry? ==> x.job.attempts < x.job.maxAttempts)
  }

  predicate OneExecPerJob(s: State) {
    forall e, f | e in s.execs && f in s.execs && e != f && s.execs[e].Live() && s.execs[f].Live() ::
      s.execs[e].job.id != s.execs[f].job.id
  }

  function InFlight(s: State, w: WorkerId): set<ExecId> {
    set e | e in s.execs && s.execs[e].worker == w
  }

  predicate SlotInv(s: State, w: WorkerId)
    requires w in s.workers
  {
    var n := s.workers[w];
    n.held == |InFlight(s, w)| + (if n.acquiring then 1 else 0) && n.held <= n.max
  }

  ghost predicate Inv(s: State) {
    && (forall id | id in s.rows :: RowInv(s.rows[id]))
    && (forall e | e in s.execs :: ExecInv(s, e))
    && OneExecPerJob(s)
    && (forall w | w in s.workers :: SlotInv(s, w))
  }

  lemma RowInvPreserved(s: State, step: Step, id: JobId)
    requires Inv(s) && Enabled(s, step) && id in Next(s, step).rows
    ensures RowInv(Next(s, step).rows[id])
  {
    assert id in s.rows ==> RowInv(s.rows[id]);
    if step.SendMark? {
      assert ExecInv(s, step.exec);
    }
  }

  lemma ExecInvPreserved(s: State, step: Step, e: ExecId)
    requires Inv(s) && Enabled(s, step) && e in Next(s, step).execs
    ensures ExecInv(Next(s, step), e)
  {
    hide SlotInv, InFlight;
    assert e in s.execs ==> ExecInv(s, e);
    if step.SendMark? && step.exec != e {
      assert s.execs[e].Live() ==> s.execs[e].job.id != s.execs[step.exec].job.id;
    }
  }

  lemma OneExecPerJobPreserved(s: State, step: Step)
    requires Inv(s) && Enabled(s, step)
    ensures OneExecPerJob(Next(s, step))
  {
    hide SlotInv, InFlight, RowInv;
    if step.Claim? {
      forall f | f in s.execs && s.execs[f].Live() ensures s.execs[f].job.id != step.id {
        assert ExecInv(s, f);
      }
    }
  }

  lemma InFlightStep(s: State, step: Step, w: WorkerId)
    requires Enabled(s, step) && w in Next(s, step).workers && !step.Boot?
    ensures InFlight(Next(s, step), w) ==
            if step.Claim? && step.worker == w then InFlight(s, w) + {step.exec}
            else if step.Release? then InFlight(s, w) - {step.exec}
            else InFlight(s, w)
    ensures step.Claim? ==> step.exec !in InFlight(s, w)
    ensures step.Release? ==> (step.exec in InFlight(s, w) <==> s.execs[step.exec].worker == w)
  {}

  lemma InFlightBoot(s: State, step: Step, w: WorkerId)
    requires Inv(s) && Enabled(s, step) && step.Boot? && w in Next(s, step).workers
    ensures InFlight(Next(s, step), w) == if w == step.worker then {} else InFlight(s, w)
  {
    hide SlotInv, RowInv, OneExecPerJob;
    forall e | e in s.execs ensures s.execs[e].worker != step.worker {
      assert ExecInv(s, e);
    }
  }

  lemma SlotInvPreserved(s: State, step: Step, w: WorkerId)
    requires Inv(s) && Enabled(s, step) && w in Next(s, step).workers
    ensures SlotInv(Next(s, step), w)
  {
    hide OneExecPerJob, RowInv, ExecInv, InFlight;
    assert w in s.workers ==> SlotInv(s, w);
    if step.Boot? {
      InFlightBoot(s, step, w);
    } else {
      InFlightStep(s, step, w);
    }
  }

  lemma InvPreserved(s: State, step: Step)
    requires Inv(s) && Enabled(s, step)
    ensures Inv(Next(s, step))
  {
    hide Inv, RowInv, ExecInv, SlotInv, OneExecPerJob, Enabled, Next;
    var t := Next(s, step);
    forall id | id in t.rows ensures RowInv(t.rows[id]) { RowInvPreserved(s, step, id); }
    forall e | e in t.execs ensures ExecInv(t, e) { ExecInvPreserved(s, step, e); }
    forall w | w in t.workers ensures SlotInv(t, w) { SlotInvPreserved(s, step, w); }
    OneExecPerJobPreserved(s, step);
    InvFromParts(t);
  }

  lemma InvFromParts(t: State)
    requires forall id | id in t.rows :: RowInv(t.rows[id])
    requires forall e | e in t.execs :: ExecInv(t, e)
    requires OneExecPerJob(t)
    requires forall w | w in t.workers :: SlotInv(t, w)
    ensures Inv(t)
  {}

  /** The invariant holds throughout every behaviour. */
  lemma {:induction false} Safety(states: seq<State>, steps: seq<Step>, i: nat)
    requires Behaviour(states, steps) && i < |states|
    ensures Inv(states[i])
  {
    if i > 0 {
      Safety(states, steps, i - 1);
      InvPreserved(states[i - 1], steps[i - 1]);
    }
  }
}
