/**
 Queue, pipeline and persister together: every job carries one audit, every
 claimed job runs the pipeline, and the statements of concurrent runs interleave
 with each other and with every step of the queue.
 */
module AuditLifecycle {
  import opened Base
  import opened Text
  import opened Audit
  import opened Persist
  import J = JobTable
  import Q = JobProtocol
  import P = Pipeline

  type JobId = J.JobId
  type ExecId = Q.ExecId

  /** One pipeline run: the statements it will send, of which the first `done` were sent. */
  datatype Run = Run(id: AuditId, trace: seq<Effect>, at: nat, err: Option<string>, done: nat)

  datatype System = System(
    queue: Q.State,
    tables: Tables,
    auditOf: map<JobId, AuditId>,
    runs: map<ExecId, Run>)

  datatype Step =
    | QueueStep(step: Q.Step)                 // a queue step that leaves audits alone
    | Enqueue(step: Q.Step, audit: AuditId) // one transaction inserts the audit and its job
    | Claim(step: Q.Step, run: Run)         // the claimed job starts some pipeline run
    | Send(exec: ExecId)                    // the run's next statement
    | Return(step: Q.Step)                  // the handler returns what the run returned

  /** What RunShape says of a run whose audit row exists, without naming the tables. */
  predicate Planned(run: Run) {
    && run.at < |run.trace| && run.trace[run.at].Save?
    && (forall i | 0 <= i < |run.trace| :: run.trace[i].id == run.id && (i != run.at ==> run.trace[i].Flush?))
    && (run.err.None? <==> P.StatusOf(run.trace[run.at].report) == AuditSucceeded && Lands(run.trace[run.at]))
    && (run.err.Some? ==> run.at == |run.trace| - 1)
    && (P.StatusOf(run.trace[run.at].report) == AuditSucceeded ==> run.at > 0)
    && (P.StatusOf(run.trace[run.at].report) == AuditFailed ==> run.trace[run.at].report.results == [])
  }

  /** The Save commits, given that its audit row exists. */
  predicate Lands(e: Effect)
    requires e.Save?
  {
    e.dbOk && Storable(e.report.results)
  }

  lemma {:induction false} AuditRowsStay(t: Tables, effects: seq<Effect>)
    ensures ApplyAll(t, effects).audits.Keys == t.audits.Keys
  {
    if effects != [] {
      AuditRowsStay(t, effects[..|effects| - 1]);
    }
  }

  /** Every run of the pipeline on an audit that exists is a planned run. */
  lemma PipelineRunsArePlanned(id: AuditId, before: Tables, trace: seq<Effect>, at: nat, err: Option<string>)
    requires P.RunShape(id, before, trace, at, err) && id in before.audits
    ensures Planned(Run(id, trace, at, err, 0))
  {
    AuditRowsStay(before, trace[..at]);
  }

  predicate Enabled(s: System, step: Step) {
    match step
    case QueueStep(q) => !q.Enqueue? && !q.Claim? && !q.Return? && Q.Enabled(s.queue, q)
    case Enqueue(q, audit) => q.Enqueue? && Q.Enabled(s.queue, q) && audit !in s.tables.audits
    case Claim(q, run) =>
      && q.Claim? && Q.Enabled(s.queue, q) && q.id in s.auditOf
      && Planned(run) && run.id == s.auditOf[q.id] && run.done == 0
    case Send(e) => e in s.runs && s.runs[e].done < |s.runs[e].trace|
    case Return(q) =>
      && q.Return? && Q.Enabled(s.queue, q) && q.exec in s.runs
      && s.runs[q.exec].done == |s.runs[q.exec].trace|
      && q.registered && (q.outcome.Ok? <==> s.runs[q.exec].err.None?)
  }

  function Next(s: System, step: Step): System
    requires Enabled(s, step)
  {
    match step
    case QueueStep(q) =>
      var queue := Q.Next(s.queue, q);
      s.(queue := queue, runs := map e | e in s.runs && e in queue.execs :: s.runs[e])
    case Enqueue(q, audit) =>
      s.(queue := Q.Next(s.queue, q), auditOf := s.auditOf[q.id := audit],
         tables := s.tables.(audits := s.tables.audits[audit := QUEUED_ROW]))
    case Claim(q, run) =>
      s.(queue := Q.Next(s.queue, q), runs := s.runs[q.exec := run])
    case Send(e) =>
      var run := s.runs[e];
      s.(tables := ApplyEffect(s.tables, run.trace[run.done]), runs := s.runs[e := run.(done := run.done + 1)])
    case Return(q) =>
      s.(queue := Q.Next(s.queue, q), runs := s.runs - {q.exec})
  }

  predicate Init(s: System) {
    Q.Init(s.queue) && s.tables == Tables(map[], [], map[]) && s.auditOf == map[] && s.runs == map[]
  }

  ghost predicate Behaviour(states: seq<System>, steps: seq<Step>) {
    && |states| == |steps| + 1
    && Init(states[0])
    && forall i | 0 <= i < |steps| :: Enabled(states[i], steps[i]) && states[i + 1] == Next(states[i], steps[i])
  }

  // ---------------------------------------------------------------- the invariant

  predicate Linked(s: System) {
    && s.auditOf.Keys == s.queue.rows.Keys
    && (forall j | j in s.auditOf :: s.auditOf[j] in s.tables.audits)
    && (forall j, k | j in s.auditOf && k in s.auditOf && j != k :: s.auditOf[j] != s.auditOf[k])
  }

  /** A run belongs to a handler that is still running, on the audit of its job. */
  predicate RunInv(s: System, e: ExecId)
    requires e in s.runs
  {
    var run := s.runs[e];
    && Planned(run) && run.done <= |run.trace|
    && e in s.queue.execs && s.queue.execs[e].phase.Handling?
    && s.queue.execs[e].job.id in s.auditOf && s.auditOf[s.queue.execs[e].job.id] == run.id
    && run.id in s.tables.audits
  }

  function StatusAt(s: System, j: JobId): AuditStatus
    requires j in s.auditOf && s.auditOf[j] in s.tables.audits
  {
    s.tables.audits[s.auditOf[j]].status
  }

  /** What the audit's status tells about its job's. */
  predicate RowAgrees(st: AuditStatus, job: J.Status) {
    && st in {AuditQueued, AuditRunning, AuditSucceeded, AuditFailed}
    && (st == AuditSucceeded ==> job in {J.Running, J.Succeeded})
    && (job == J.Succeeded ==> st == AuditSucceeded)
  }

  /** The status is a success exactly when the current run has saved one. */
  predicate RunAgrees(st: AuditStatus, run: Run) {
    st == AuditSucceeded <==> run.done > run.at && run.err.None?
  }

  /** The pending mark reports success exactly when the audit has succeeded. */
  predicate MarkAgrees(st: AuditStatus, phase: Q.Phase) {
    phase.Marking? ==> (st == AuditSucceeded <==> phase.mark.MarkSucceeded?)
  }

  ghost predicate JobInv(s: System, j: JobId) {
    && j in s.auditOf && j in s.queue.rows && s.auditOf[j] in s.tables.audits
    && RowAgrees(StatusAt(s, j), s.queue.rows[j].status)
    && (forall e | e in s.runs && e in s.queue.execs && s.queue.execs[e].job.id == j ::
          RunAgrees(StatusAt(s, j), s.runs[e]))
    && (forall e | e in s.queue.execs && s.queue.execs[e].job.id == j ::
          MarkAgrees(StatusAt(s, j), s.queue.execs[e].phase))
  }

  ghost predicate HasRuns(s: System) {
    && (forall e | e in s.queue.execs && s.queue.execs[e].phase.Handling? :: e in s.runs)
    && (forall e | e in s.runs :: e in s.queue.execs && RunInv(s, e))
  }

  ghost predicate Inv(s: System) {
    Q.Inv(s.queue) && Linked(s) && HasRuns(s) && forall j | j in s.auditOf :: JobInv(s, j)
  }

  // ---------------------------------------------------------------- every step keeps it

  lemma QueueInvPreserved(s: System, step: Step)
    requires Inv(s) && Enabled(s, step)
    ensures Q.Inv(Next(s, step).queue)
  {
    hide Q.Inv, Q.Enabled, Q.Next;
    match step
    case Send(_) =>
    case QueueStep(q) => Q.InvPreserved(s.queue, q);
    case Enqueue(q, _) => Q.InvPreserved(s.queue, q);
    case Claim(q, _) => Q.InvPreserved(s.queue, q);
    case Return(q) => Q.InvPreserved(s.queue, q);
  }

  // What the steps of the queue mean for rows and executions, one kind at a time.

  ghost predicate Idle(s: Q.State, j: JobId) {
    forall e | e in s.execs && s.execs[e].Live() :: s.execs[e].job.id != j
  }

  lemma QueueOther(s: Q.State, q: Q.Step)
    requires Q.Inv(s) && Q.Enabled(s, q) && !q.Enqueue? && !q.Claim? && !q.Return?
    ensures var t := Q.Next(s, q);
            && t.rows.Keys == s.rows.Keys
            && (forall e | e in t.execs :: e in s.execs && t.execs[e].job == s.execs[e].job)
            && (forall e | e in t.execs && t.execs[e].Live() :: t.execs[e].phase == s.execs[e].phase)
            && (forall e | e in t.execs && s.execs[e].phase.Handling? :: t.execs[e].phase.Handling?)
            && (!q.SendMark? ==> t.rows == s.rows)
            && (q.SendMark? ==>
                  q.exec in s.execs &&
                  var x := s.execs[q.exec];
                  && x.phase.Marking? && s.rows[x.job.id].status == J.Running && Idle(t, x.job.id)
                  && t.rows == s.rows[x.job.id := J.MarkRow(s.rows[x.job.id], x.phase.mark)])
  {
    if q.SendMark? {
      assert Q.ExecInv(s, q.exec);
    }
  }

  lemma QueueEnqueue(s: Q.State, q: Q.Step)
    requires Q.Inv(s) && Q.Enabled(s, q) && q.Enqueue?
    ensures var t := Q.Next(s, q);
            && q.id !in s.rows && t.rows == s.rows[q.id := t.rows[q.id]] && t.rows[q.id].status == J.Queued
            && t.execs == s.execs && Idle(s, q.id)
  {
    forall e | e in s.execs && s.execs[e].Live() ensures s.execs[e].job.id != q.id {
      assert Q.ExecInv(s, e);
    }
  }

  lemma QueueClaim(s: Q.State, q: Q.Step)
    requires Q.Inv(s) && Q.Enabled(s, q) && q.Claim?
    ensures var t := Q.Next(s, q);
            && q.id in s.rows && s.rows[q.id].status == J.Queued && Idle(s, q.id)
            && t.rows == s.rows[q.id := t.rows[q.id]] && t.rows[q.id].status == J.Running
            && q.exec !in s.execs && t.execs == s.execs[q.exec := t.execs[q.exec]]
            && t.execs[q.exec].phase.Handling? && t.execs[q.exec].job.id == q.id
            && t.rows[q.id].attempts == s.rows[q.id].attempts + 1
  {
    forall e | e in s.execs && s.execs[e].Live() ensures s.execs[e].job.id != q.id {
      assert Q.ExecInv(s, e);
    }
  }

  lemma QueueReturn(s: Q.State, q: Q.Step)
    requires Q.Inv(s) && Q.Enabled(s, q) && q.Return?
    ensures var t := Q.Next(s, q);
            && t.rows == s.rows && q.exec in s.execs && s.execs[q.exec].phase.Handling?
            && t.execs == s.execs[q.exec := t.execs[q.exec]]
            && t.execs[q.exec].job == s.execs[q.exec].job && t.execs[q.exec].phase.Marking?
            && (q.registered ==> (t.execs[q.exec].phase.mark.MarkSucceeded? <==> q.outcome.Ok?))
  {}

  lemma QueueStepPreserves(s: System, q: Q.Step)
    requires Inv(s) && Enabled(s, QueueStep(q))
    ensures Linked(Next(s, QueueStep(q))) && HasRuns(Next(s, QueueStep(q)))
  {
    hide Q.Inv, Q.Enabled, Q.Next, Planned, JobInv;
    QueueOther(s.queue, q);
  }

  lemma QueueStepJob(s: System, q: Q.Step, j: JobId)
    requires Q.Inv(s.queue) && Linked(s) && HasRuns(s) && JobInv(s, j) && Enabled(s, QueueStep(q))
    ensures JobInv(Next(s, QueueStep(q)), j)
  {
    hide Q.Inv, Q.Enabled, Q.Next, Planned, RunAgrees, RunInv;
    QueueOther(s.queue, q);
    var t := Next(s, QueueStep(q));
    assert t.tables == s.tables && t.auditOf == s.auditOf;
    assert RowAgrees(StatusAt(t, j), t.queue.rows[j].status);
    forall e | e in t.runs && e in t.queue.execs && t.queue.execs[e].job.id == j
      ensures RunAgrees(StatusAt(t, j), t.runs[e]) {
      assert e in s.runs;
    }
    forall e | e in t.queue.execs && t.queue.execs[e].job.id == j
      ensures MarkAgrees(StatusAt(t, j), t.queue.execs[e].phase) {
      assert e in s.queue.execs;
    }
  }

  lemma EnqueuePreserves(s: System, q: Q.Step, audit: AuditId)
    requires Inv(s) && Enabled(s, Enqueue(q, audit))
    ensures Linked(Next(s, Enqueue(q, audit))) && HasRuns(Next(s, Enqueue(q, audit)))
  {
    hide Q.Inv, Q.Enabled, Q.Next, Planned, JobInv;
    QueueEnqueue(s.queue, q);
  }

  lemma EnqueueJob(s: System, q: Q.Step, audit: AuditId, j: JobId)
    requires Q.Inv(s.queue) && Linked(s) && HasRuns(s) && Enabled(s, Enqueue(q, audit))
    requires j == q.id || JobInv(s, j)
    ensures JobInv(Next(s, Enqueue(q, audit)), j)
  {
    hide Q.Inv, Q.Enabled, Q.Next, Planned, RunAgrees;
    QueueEnqueue(s.queue, q);
  }

  lemma ClaimPreserves(s: System, q: Q.Step, run: Run)
    requires Inv(s) && Enabled(s, Claim(q, run))
    ensures Linked(Next(s, Claim(q, run))) && HasRuns(Next(s, Claim(q, run)))
  {
    hide Q.Inv, Q.Enabled, Q.Next, Planned, JobInv;
    QueueClaim(s.queue, q);
  }

  lemma ClaimJob(s: System, q: Q.Step, run: Run, j: JobId)
    requires Q.Inv(s.queue) && Linked(s) && HasRuns(s) && JobInv(s, j) && Enabled(s, Claim(q, run))
    ensures JobInv(Next(s, Claim(q, run)), j)
  {
    hide Q.Inv, Q.Enabled, Q.Next, Planned, RunInv;
    QueueClaim(s.queue, q);
  }

  lemma ReturnPreserves(s: System, q: Q.Step)
    requires Inv(s) && Enabled(s, Return(q))
    ensures Linked(Next(s, Return(q))) && HasRuns(Next(s, Return(q)))
  {
    hide Q.Inv, Q.Enabled, Q.Next, Planned, JobInv;
    QueueReturn(s.queue, q);
  }

  lemma ReturnJob(s: System, q: Q.Step, j: JobId)
    requires Q.Inv(s.queue) && Linked(s) && HasRuns(s) && JobInv(s, j) && Enabled(s, Return(q))
    ensures JobInv(Next(s, Return(q)), j)
  {
    hide Q.Inv, Q.Enabled, Q.Next;
    QueueReturn(s.queue, q);
    assert RunInv(s, q.exec);
  }

  /** The status of an audit after its run's next statement. */
  function SentStatus(st: AuditStatus, run: Run): AuditStatus
    requires Planned(run)
  {
    if run.done != run.at then
      (if st == AuditQueued && run.done < |run.trace| && run.trace[run.done].landed then AuditRunning else st)
    else if Lands(run.trace[run.at]) then P.StatusOf(run.trace[run.at].report)
    else st
  }

  /** t differs from s, in the audits, only by the status that run e's next statement gives to its audit. */
  ghost predicate Sent(s: System, e: ExecId, t: System) {
    && e in s.runs && Planned(s.runs[e])
    && e in s.queue.execs && s.queue.execs[e].phase.Handling?
    && var j := s.queue.execs[e].job.id;
    && j in s.auditOf && s.auditOf[j] in s.tables.audits && j in t.auditOf && t.auditOf[j] in t.tables.audits
    && t.tables.audits.Keys == s.tables.audits.Keys
    && (forall a | a in s.tables.audits && a != s.auditOf[j] :: t.tables.audits[a] == s.tables.audits[a])
    && StatusAt(t, j) == SentStatus(StatusAt(s, j), s.runs[e])
  }

  lemma EffectStatus(t: Tables, run: Run)
    requires Planned(run) && run.done < |run.trace| && run.id in t.audits
    ensures var after := ApplyEffect(t, run.trace[run.done]);
            && after.audits.Keys == t.audits.Keys
            && (forall a | a in t.audits && a != run.id :: after.audits[a] == t.audits[a])
            && after.audits[run.id].status == SentStatus(t.audits[run.id].status, run)
  {}

  lemma SendStatus(s: System, e: ExecId)
    requires Inv(s) && Enabled(s, Send(e))
    ensures Sent(s, e, Next(s, Send(e)))
  {
    hide Q.Inv, JobInv, ApplyEffect, SentStatus, Planned;
    assert RunInv(s, e);
    EffectStatus(s.tables, s.runs[e]);
  }

  lemma SentAgrees(st: AuditStatus, run: Run)
    requires Planned(run) && run.done < |run.trace| && RunAgrees(st, run) && RowAgrees(st, J.Running)
    ensures RunAgrees(SentStatus(st, run), run.(done := run.done + 1)) && RowAgrees(SentStatus(st, run), J.Running)
  {}

  lemma QueueAlone(s: Q.State, e: ExecId)
    requires Q.Inv(s) && e in s.execs && s.execs[e].Live()
    ensures forall f | f in s.execs && f != e && s.execs[f].Live() :: s.execs[f].job.id != s.execs[e].job.id
  {}

  lemma PlannedAdvances(run: Run)
    requires Planned(run)
    ensures Planned(run.(done := run.done + 1))
  {}

  lemma SendPreserves(s: System, e: ExecId)
    requires Inv(s) && Enabled(s, Send(e))
    ensures Linked(Next(s, Send(e))) && HasRuns(Next(s, Send(e)))
  {
    hide Q.Inv, ApplyEffect, Planned, JobInv;
    SendStatus(s, e);
    assert RunInv(s, e);
    PlannedAdvances(s.runs[e]);
  }

  lemma SendOtherJob(s: System, e: ExecId, j: JobId)
    requires Inv(s) && Enabled(s, Send(e)) && j in s.auditOf
    requires e in s.queue.execs && s.queue.execs[e].job.id != j
    ensures JobInv(Next(s, Send(e)), j)
  {
    hide Q.Inv, ApplyEffect, Planned, RunInv, RunAgrees, SentStatus, MarkAgrees;
    SendStatus(s, e);
    assert JobInv(s, j);
  }

  lemma SendOwnJob(s: System, e: ExecId)
    requires Inv(s) && Enabled(s, Send(e)) && e in s.queue.execs
    ensures JobInv(Next(s, Send(e)), s.queue.execs[e].job.id)
  {
    hide ApplyEffect, Planned, RunAgrees, SentStatus, RowAgrees, Q.Inv;
    SendStatus(s, e);
    var j := s.queue.execs[e].job.id;
    OwnRow(s, e);
    SentAgrees(StatusAt(s, j), s.runs[e]);
    OnlyRunOfJob(s, e);
  }

  lemma OwnRow(s: System, e: ExecId)
    requires Inv(s) && e in s.runs
    ensures var j := s.queue.execs[e].job.id;
            && j in s.auditOf && j in s.queue.rows && s.queue.rows[j].status == J.Running
            && RowAgrees(StatusAt(s, j), J.Running) && RunAgrees(StatusAt(s, j), s.runs[e])
  {
    hide Planned, RowAgrees, RunAgrees;
    assert RunInv(s, e) && Q.ExecInv(s.queue, e);
    assert JobInv(s, s.queue.execs[e].job.id);
  }

  lemma OnlyRunOfJob(s: System, e: ExecId)
    requires Inv(s) && e in s.runs
    ensures forall f | f in s.runs && f in s.queue.execs && s.queue.execs[f].job.id == s.queue.execs[e].job.id :: f == e
    ensures forall f | f in s.queue.execs && s.queue.execs[f].job.id == s.queue.execs[e].job.id ::
            !s.queue.execs[f].phase.Marking?
  {
    hide Planned, JobInv;
    assert RunInv(s, e);
    QueueAlone(s.queue, e);
    assert forall f | f in s.runs :: RunInv(s, f);
  }

  lemma JobPreserved(s: System, step: Step, j: JobId)
    requires Inv(s) && Enabled(s, step) && j in Next(s, step).auditOf
    ensures JobInv(Next(s, step), j)
  {
    hide Q.Inv, JobInv, RunInv;
    match step
    case QueueStep(q) => QueueStepJob(s, q, j);
    case Enqueue(q, audit) => EnqueueJob(s, q, audit, j);
    case Claim(q, run) => ClaimJob(s, q, run, j);
    case Send(e) =>
      SendStatus(s, e);
      if s.queue.execs[e].job.id == j { SendOwnJob(s, e); } else { SendOtherJob(s, e, j); }
    case Return(q) => ReturnJob(s, q, j);
  }

  lemma InvPreserved(s: System, step: Step)
    requires Inv(s) && Enabled(s, step)
    ensures Inv(Next(s, step))
  {
    hide Q.Inv, JobInv, RunInv, Enabled, Next;
    QueueInvPreserved(s, step);
    forall j | j in Next(s, step).auditOf ensures JobInv(Next(s, step), j) {
      JobPreserved(s, step, j);
    }
    match step
    case QueueStep(q) => QueueStepPreserves(s, q);
    case Enqueue(q, audit) => EnqueuePreserves(s, q, audit);
    case Claim(q, run) => ClaimPreserves(s, q, run);
    case Send(e) => SendPreserves(s, e);
    case Return(q) => ReturnPreserves(s, q);
  }

  lemma {:induction false} Safety(states: seq<System>, steps: seq<Step>, i: nat)
    requires Behaviour(states, steps) && i < |states|
    ensures Inv(states[i])
  {
    if i > 0 {
      Safety(states, steps, i - 1);
      InvPreserved(states[i - 1], steps[i - 1]);
    }
  }

  // ---------------------------------------------------------------- how an audit's status moves

  /**
   queued -> running -> succeeded or failed, queued -> failed, and failed -> succeeded
   or failed by a retry; queued -> succeeded only if nothing of the audit took effect before.
   */
  predicate Moves(from: AuditStatus, to: AuditStatus, untouched: bool) {
    || from == to
    || (from == AuditQueued && to in {AuditRunning, AuditFailed})
    || (from == AuditQueued && to == AuditSucceeded && untouched)
    || (from in {AuditRunning, AuditFailed} && to in {AuditSucceeded, AuditFailed})
  }

  lemma SentMoves(st: AuditStatus, run: Run)
    requires Planned(run) && run.done < |run.trace| && RunAgrees(st, run) && RowAgrees(st, J.Running)
    ensures Moves(st, SentStatus(st, run), true)
    ensures SentStatus(st, run) != st && SentStatus(st, run) != AuditRunning ==> run.done == run.at
  {}

  /**
   A step moves an audit's status along these edges only, and to an outcome only by the Save of a live
   run of its job.
   */
  lemma StatusMoves(states: seq<System>, steps: seq<Step>, i: nat, j: JobId)
    requires Behaviour(states, steps) && i < |steps| && j in states[i].auditOf
    ensures j in states[i + 1].auditOf && states[i + 1].auditOf[j] == states[i].auditOf[j]
    ensures states[i].auditOf[j] in states[i].tables.audits && states[i].auditOf[j] in states[i + 1].tables.audits
    ensures var from, to := StatusAt(states[i], j), StatusAt(states[i + 1], j);
            && Moves(from, to, Untouched(states, steps, i, states[i].auditOf[j]))
            && (to != from && to != AuditRunning ==>
                  && steps[i].Send? && steps[i].exec in states[i].queue.execs
                  && states[i].queue.execs[steps[i].exec].job.id == j
                  && var run := states[i].runs[steps[i].exec];
                  && run.done == run.at)
  {
    hide Q.Inv, Planned, Q.Enabled, Q.Next, ApplyEffect, SentStatus, RunAgrees, RowAgrees;
    Safety(states, steps, i);
    QueuedExactly(states, steps, i, states[i].auditOf[j]);
    var s, step := states[i], steps[i];
    if step.Send? {
      SendStatus(s, step.exec);
      if s.queue.execs[step.exec].job.id == j {
        OwnRow(s, step.exec);
        SentMoves(StatusAt(s, j), s.runs[step.exec]);
      }
    } else if step.Enqueue? {
      QueueEnqueue(s.queue, step.step);
    }
  }

  /** A succeeded audit stays succeeded. */
  lemma {:induction false} SucceededForever(states: seq<System>, steps: seq<Step>, i: nat, k: nat, j: JobId)
    requires Behaviour(states, steps) && i <= k < |states| && j in states[i].auditOf
    requires states[i].auditOf[j] in states[i].tables.audits && StatusAt(states[i], j) == AuditSucceeded
    ensures j in states[k].auditOf && states[k].auditOf[j] in states[k].tables.audits
            && StatusAt(states[k], j) == AuditSucceeded
    decreases k
  {
    hide Next, Enabled, Init;
    if i < k {
      SucceededForever(states, steps, i, k - 1, j);
      StatusMoves(states, steps, k - 1, j);
    }
  }

  /** A job that the queue marked succeeded has a succeeded audit; a dead one does not. */
  lemma JobAndAuditAgree(states: seq<System>, steps: seq<Step>, i: nat, j: JobId)
    requires Behaviour(states, steps) && i < |states| && j in states[i].auditOf
    ensures j in states[i].queue.rows && states[i].auditOf[j] in states[i].tables.audits
    ensures states[i].queue.rows[j].status == J.Succeeded ==> StatusAt(states[i], j) == AuditSucceeded
    ensures StatusAt(states[i], j) == AuditSucceeded ==> states[i].queue.rows[j].status in {J.Running, J.Succeeded}
  {
    hide Q.Inv, RunInv;
    Safety(states, steps, i);
    assert JobInv(states[i], j);
  }

  // ---------------------------------------------------------------- the rows a Save leaves

  datatype Saved = Saved(report: Report, diff: Diff, at: Time)

  /** The Save that the step commits for audit a, if it is one. */
  ghost function CommittedSave(s: System, step: Step, a: AuditId): Option<Saved> {
    if step.Send? && Enabled(s, step) then
      var run := s.runs[step.exec];
      var e := run.trace[run.done];
      if e.Save? && e.id == a && Commits(s.tables, e) then Some(Saved(e.report, e.diff, e.at)) else None
    else None
  }

  ghost function LastSave(states: seq<System>, steps: seq<Step>, i: nat, a: AuditId): Option<Saved>
    requires i <= |steps| && |states| == |steps| + 1
  {
    if i == 0 then None
    else
      var saved := CommittedSave(states[i - 1], steps[i - 1], a);
      if saved.Some? then saved else LastSave(states, steps, i - 1, a)
  }

  /** The tables hold, for audit a, exactly the report saved last, and a diff exactly if that was a success. */
  ghost predicate Shows(t: Tables, a: AuditId, saved: Option<Saved>) {
    match saved
    case None =>
      && RowsFor(t.issues, a) == [] && a !in t.diffs
      && (a in t.audits ==>
            && t.audits[a].status in {AuditQueued, AuditRunning}
            && t.audits[a].finishedAt.None? && t.audits[a].errorMessage.None?)
    case Some(Saved(report, diff, at)) =>
      && RowsFor(t.issues, a) == IssueRows(a, report.results, report.suggestions)
      && a in t.audits && t.audits[a].status == P.StatusOf(report)
      && ReportsOn(t.audits[a], report, at)
      && (P.StatusOf(report) == AuditFailed ==> report.results == [] && a !in t.diffs)
      && (P.StatusOf(report) == AuditSucceeded ==> a in t.diffs && t.diffs[a] == diff)
  }

  lemma EffectShows(t: Tables, e: Effect, a: AuditId, saved: Option<Saved>)
    requires Shows(t, a, saved)
    requires e.Save? ==>
               && e.id in t.audits && t.audits[e.id].status != AuditSucceeded
               && (P.StatusOf(e.report) == AuditFailed ==> e.report.results == [])
    ensures Shows(ApplyEffect(t, e), a,
                  if e.Save? && e.id == a && Commits(t, e) then Some(Saved(e.report, e.diff, e.at)) else saved)
  {
    hide RowsFor, IssueRows, Storable, Others, ReportsOn;
    EffectOnRows(t, e, a);
    if e.id == a && a in t.audits {
      if e.Save? {
        SavedRowReports(t.audits[a], e.report, e.at);
      } else if saved.Some? {
        FlushedRowReports(t.audits[a], e.stages, e.at, saved.value.report, saved.value.at);
      }
    }
  }

  lemma ShowsStep(s: System, step: Step, a: AuditId, saved: Option<Saved>)
    requires Inv(s) && Enabled(s, step) && Shows(s.tables, a, saved)
    ensures var now := CommittedSave(s, step, a);
            Shows(Next(s, step).tables, a, if now.Some? then now else saved)
  {
    hide Q.Inv, Q.Next, Q.Enabled, JobInv, ApplyEffect, Commits;
    if step.Send? {
      hide Shows;
      var run := s.runs[step.exec];
      assert RunInv(s, step.exec);
      OwnRow(s, step.exec);
      EffectShows(s.tables, run.trace[run.done], a, saved);
    }
  }

  /**
   However many retries happened and however they interleaved with other audits,
   an audit's rows are those of its last committed Save: exactly that run's
   issues and diff, and neither when that run had failed.
   */
  lemma {:induction false} TablesShowLastSave(states: seq<System>, steps: seq<Step>, i: nat, a: AuditId)
    requires Behaviour(states, steps) && i < |states|
    ensures Shows(states[i].tables, a, LastSave(states, steps, i, a))
  {
    if i > 0 {
      TablesShowLastSave(states, steps, i - 1, a);
      Safety(states, steps, i - 1);
      ShowsStep(states[i - 1], steps[i - 1], a, LastSave(states, steps, i - 1, a));
    }
  }

  /**
   So a reader of the audit's rows sees, for the k-th issue of result c of that Save, that issue and
   its suggestion.
   */
  lemma RowsShowLastSave(states: seq<System>, steps: seq<Step>, i: nat, a: AuditId, c: nat, k: nat)
    requires Behaviour(states, steps) && i < |states| && LastSave(states, steps, i, a).Some?
    requires var results := LastSave(states, steps, i, a).value.report.results;
             c < |results| && results[c].status != Pass && k < |results[c].issues|
    ensures var report := LastSave(states, steps, i, a).value.report;
            var rows, at := RowsFor(states[i].tables.issues, a), IssuesIn(report.results[..c]) + k;
            var key := report.results[c].meta.id + "#" + Decimal(k);
            && |rows| == IssuesIn(report.results) && at < |rows| && Tells(rows[at], report.results[c], k)
            && Holds(rows[at].fixInstructions, if key in report.suggestions then report.suggestions[key] else "")
  {
    hide Init, Enabled, Next, RowsFor, LastSave, IssueRows, Tells, Holds, ReportsOn, IssuesIn;
    TablesShowLastSave(states, steps, i, a);
    var report := LastSave(states, steps, i, a).value.report;
    RowsTell(a, report.results, report.suggestions, c, k);
  }

  /** An audit has a diff if and only if it has succeeded. */
  lemma DiffsAreOfSuccesses(states: seq<System>, steps: seq<Step>, i: nat, a: AuditId)
    requires Behaviour(states, steps) && i < |states|
    ensures a in states[i].tables.diffs <==>
            a in states[i].tables.audits && states[i].tables.audits[a].status == AuditSucceeded
  {
    hide Init, Enabled, Next, RowsFor, LastSave;
    TablesShowLastSave(states, steps, i, a);
  }

  // ---------------------------------------------------------------- which audits are still queued

  /** The step sends a statement of audit a that takes effect: an update that lands, or a Save that commits. */
  ghost predicate Touches(s: System, step: Step, a: AuditId) {
    && step.Send? && Enabled(s, step)
    && var e := s.runs[step.exec].trace[s.runs[step.exec].done];
    && e.id == a && (if e.Flush? then e.landed else Commits(s.tables, e))
  }

  lemma EffectTouches(t: Tables, e: Effect, a: AuditId)
    requires e.id in t.audits && a in t.audits
    ensures a in ApplyEffect(t, e).audits
    ensures ApplyEffect(t, e).audits[a].status == AuditQueued <==>
            t.audits[a].status == AuditQueued && !(e.id == a && (if e.Flush? then e.landed else Commits(t, e)))
  {
    hide Commits, Others, IssueRows;
  }

  /** An audit is queued after a step if it was, or if the step enqueues it, and the step does not touch it. */
  lemma QueuedStep(s: System, step: Step, a: AuditId)
    requires Inv(s) && Enabled(s, step) && a in Next(s, step).tables.audits
    ensures Next(s, step).tables.audits[a].status == AuditQueued <==>
            (a in s.tables.audits ==> s.tables.audits[a].status == AuditQueued) && !Touches(s, step, a)
  {
    hide Q.Inv, Q.Next, Q.Enabled, JobInv, ApplyEffect, Commits;
    if step.Send? {
      var run := s.runs[step.exec];
      assert RunInv(s, step.exec);
      EffectKeys(s.tables, run.trace[run.done]);
      EffectTouches(s.tables, run.trace[run.done], a);
    }
  }

  lemma EffectKeys(t: Tables, e: Effect)
    ensures ApplyEffect(t, e).audits.Keys == t.audits.Keys
  {}

  lemma AuditsGrow(s: System, step: Step)
    requires Inv(s) && Enabled(s, step)
    ensures s.tables.audits.Keys <= Next(s, step).tables.audits.Keys
    ensures forall a | Touches(s, step, a) :: a in s.tables.audits
  {
    hide Q.Inv, Q.Next, Q.Enabled, JobInv, ApplyEffect, Commits;
    if step.Send? {
      assert RunInv(s, step.exec);
      EffectKeys(s.tables, s.runs[step.exec].trace[s.runs[step.exec].done]);
    }
  }

  lemma {:induction false} TouchedExists(states: seq<System>, steps: seq<Step>, k: nat, i: nat, a: AuditId)
    requires Behaviour(states, steps) && k < i < |states| && Touches(states[k], steps[k], a)
    ensures a in states[i].tables.audits
    decreases i
  {
    hide Inv, Init, Enabled, Next, Touches;
    Safety(states, steps, i - 1);
    AuditsGrow(states[i - 1], steps[i - 1]);
    if k < i - 1 {
      TouchedExists(states, steps, k, i - 1, a);
    }
  }

  ghost predicate Untouched(states: seq<System>, steps: seq<Step>, i: nat, a: AuditId)
    requires i <= |steps| && |states| == |steps| + 1
  {
    forall k | 0 <= k < i :: !Touches(states[k], steps[k], a)
  }

  lemma UnknownIsUntouched(states: seq<System>, steps: seq<Step>, i: nat, a: AuditId)
    requires Behaviour(states, steps) && i < |states| && a !in states[i].tables.audits
    ensures Untouched(states, steps, i, a)
  {
    hide Inv, Init, Enabled, Next, Touches;
    forall k | 0 <= k < i ensures !Touches(states[k], steps[k], a) {
      if Touches(states[k], steps[k], a) {
        TouchedExists(states, steps, k, i, a);
      }
    }
  }

  lemma UntouchedStep(states: seq<System>, steps: seq<Step>, i: nat, a: AuditId)
    requires i < |steps| && |states| == |steps| + 1
    ensures Untouched(states, steps, i + 1, a) <==>
            Untouched(states, steps, i, a) && !Touches(states[i], steps[i], a)
  {
    hide Touches;
  }

  /** An audit is queued if and only if no statement of it has taken effect yet. */
  lemma {:induction false} QueuedExactly(states: seq<System>, steps: seq<Step>, i: nat, a: AuditId)
    requires Behaviour(states, steps) && i < |states| && a in states[i].tables.audits
    ensures states[i].tables.audits[a].status == AuditQueued <==> Untouched(states, steps, i, a)
  {
    if i > 0 {
      hide Inv, Init, Enabled, Next, Touches, Untouched;
      Safety(states, steps, i - 1);
      QueuedStep(states[i - 1], steps[i - 1], a);
      UntouchedStep(states, steps, i - 1, a);
      if a in states[i - 1].tables.audits {
        QueuedExactly(states, steps, i - 1, a);
      } else {
        UnknownIsUntouched(states, steps, i - 1, a);
      }
    }
  }

  /** The statement of audit a that the step sends, if it takes effect. */
  ghost function TakesEffect(s: System, step: Step, a: AuditId): Option<Effect> {
    if Touches(s, step, a) then Some(s.runs[step.exec].trace[s.runs[step.exec].done]) else None
  }

  ghost function FirstEffect(states: seq<System>, steps: seq<Step>, i: nat, a: AuditId): Option<Effect>
    requires i <= |steps| && |states| == |steps| + 1
  {
    if i == 0 then None
    else
      var first := FirstEffect(states, steps, i - 1, a);
      if first.Some? then first else TakesEffect(states[i - 1], steps[i - 1], a)
  }

  ghost function LastEffect(states: seq<System>, steps: seq<Step>, i: nat, a: AuditId): Option<Effect>
    requires i <= |steps| && |states| == |steps| + 1
  {
    if i == 0 then None
    else
      var last := TakesEffect(states[i - 1], steps[i - 1], a);
      if last.Some? then last else LastEffect(states, steps, i - 1, a)
  }

  /** The row was started by `first` and shows the stages of `last`. */
  predicate Stamped(row: AuditRow, first: Option<Effect>, last: Option<Effect>) {
    && row.startedAt == (if first.None? then None else Some(first.value.at))
    && row.progress == match last
                       case None => []
                       case Some(Flush(_, stages, _, _)) => stages
                       case Some(Save(_, report, _, _, _)) => report.stages
  }

  lemma EffectStamps(t: Tables, e: Effect, a: AuditId, first: Option<Effect>, last: Option<Effect>)
    requires e.id in t.audits && a in t.audits && Stamped(t.audits[a], first, last)
    ensures a in ApplyEffect(t, e).audits
    ensures var now := if e.id == a && (if e.Flush? then e.landed else Commits(t, e)) then Some(e) else None;
            Stamped(ApplyEffect(t, e).audits[a], if first.Some? then first else now, if now.Some? then now else last)
  {
    hide Commits, Others, IssueRows;
  }

  lemma StampStep(s: System, step: Step, a: AuditId, first: Option<Effect>, last: Option<Effect>)
    requires Inv(s) && Enabled(s, step) && a in Next(s, step).tables.audits
    requires if a in s.tables.audits then Stamped(s.tables.audits[a], first, last) else first.None? && last.None?
    ensures var now := TakesEffect(s, step, a);
            Stamped(Next(s, step).tables.audits[a], if first.Some? then first else now, if now.Some? then now else last)
  {
    hide Q.Inv, Q.Next, Q.Enabled, JobInv, ApplyEffect, Commits;
    if step.Send? {
      hide Stamped;
      var run := s.runs[step.exec];
      assert RunInv(s, step.exec);
      EffectKeys(s.tables, run.trace[run.done]);
      EffectStamps(s.tables, run.trace[run.done], a, first, last);
    }
  }

  lemma {:induction false} NothingYet(states: seq<System>, steps: seq<Step>, i: nat, a: AuditId)
    requires i <= |steps| && |states| == |steps| + 1 && Untouched(states, steps, i, a)
    ensures FirstEffect(states, steps, i, a).None? && LastEffect(states, steps, i, a).None?
  {
    hide Touches;
    if i > 0 {
      NothingYet(states, steps, i - 1, a);
    }
  }

  /**
   However attempts are retried and interleave, an audit's row says it was started
   by the first statement of it that took effect, and shows the stages the last one sent.
   */
  lemma {:induction false} ProgressIsLatest(states: seq<System>, steps: seq<Step>, i: nat, a: AuditId)
    requires Behaviour(states, steps) && i < |states| && a in states[i].tables.audits
    ensures Stamped(states[i].tables.audits[a], FirstEffect(states, steps, i, a), LastEffect(states, steps, i, a))
  {
    if i > 0 {
      hide Inv, Init, Enabled, Next, Touches, TakesEffect, Untouched, Stamped;
      if a in states[i - 1].tables.audits {
        ProgressIsLatest(states, steps, i - 1, a);
      } else {
        UnknownIsUntouched(states, steps, i - 1, a);
        NothingYet(states, steps, i - 1, a);
      }
      Safety(states, steps, i - 1);
      StampStep(states[i - 1], steps[i - 1], a, FirstEffect(states, steps, i - 1, a),
                LastEffect(states, steps, i - 1, a));
    }
  }

  /**
   A step takes an audit from queued straight to succeeded if and only if it
   commits a success and no statement of that audit has taken effect before.
   */
  lemma StraightToSucceededExactly(states: seq<System>, steps: seq<Step>, i: nat, a: AuditId)
    requires Behaviour(states, steps) && i < |steps| && a in states[i].tables.audits
    ensures a in states[i + 1].tables.audits
    ensures (states[i].tables.audits[a].status == AuditQueued
             && states[i + 1].tables.audits[a].status == AuditSucceeded) <==>
            && Untouched(states, steps, i, a)
            && CommittedSave(states[i], steps[i], a).Some?
            && P.StatusOf(CommittedSave(states[i], steps[i], a).value.report) == AuditSucceeded
  {
    hide Inv, Init, Enabled, Next, CommittedSave, Untouched;
    Safety(states, steps, i);
    AuditsGrow(states[i], steps[i]);
    QueuedExactly(states, steps, i, a);
    StatusAfterStep(states[i], steps[i], a);
  }

  lemma StatusAfterStep(s: System, step: Step, a: AuditId)
    requires Inv(s) && Enabled(s, step) && a in s.tables.audits
    ensures a in Next(s, step).tables.audits
    ensures var saved := CommittedSave(s, step, a);
            if saved.Some? then Next(s, step).tables.audits[a].status == P.StatusOf(saved.value.report)
            else Next(s, step).tables.audits[a].status in {s.tables.audits[a].status, AuditRunning}
  {
    hide Q.Inv, Q.Next, Q.Enabled, JobInv;
    if step.Send? {
      assert RunInv(s, step.exec);
    }
  }

  // A concrete run: its one progress update is lost, its Save is not.

  const SUCCESS := Report([], 100, "low", map[], [], map[], "", [], [])
  const NO_CHANGE := Diff(None, 0, 0, 0, 0, 0)
  const LOSING_RUN := Run(0, [Flush(0, [], 0, false), Effect.Save(0, SUCCESS, 0, true, NO_CHANGE)], 1, None, 0)

  lemma Extend(states: seq<System>, steps: seq<Step>, step: Step)
    returns (longer: seq<System>, taken: seq<Step>)
    requires Behaviour(states, steps) && Enabled(states[|steps|], step)
    ensures Behaviour(longer, taken)
    ensures longer == states + [Next(states[|steps|], step)] && taken == steps + [step]
  {
    hide Init, Enabled, Next;
    longer, taken := states + [Next(states[|steps|], step)], steps + [step];
  }

  /** A queued audit whose job has just been claimed, for a run that loses its update. */
  ghost predicate AboutToLose(s: System, e: ExecId) {
    && e in s.runs && s.runs[e] == LOSING_RUN
    && 0 in s.tables.audits && s.tables.audits[0] == QUEUED_ROW
  }

  lemma ClaimLosingRun() returns (states: seq<System>, steps: seq<Step>)
    ensures Behaviour(states, steps) && |steps| == 4 && AboutToLose(states[4], 0)
  {
    states, steps := [System(Q.State(0, map[], map[], map[]), Tables(map[], [], map[]), map[], map[])], [];
    states, steps := Extend(states, steps, QueueStep(Q.Boot(0, 1)));
    states, steps := Extend(states, steps, Enqueue(Q.Enqueue(0, "audit_store", 0, J.SCHEMA_MAX_ATTEMPTS), 0));
    states, steps := Extend(states, steps, QueueStep(Q.Acquire(0)));
    LosingRunIsPlanned();
    states, steps := Extend(states, steps, Claim(Q.Claim(0, 0, 0, 0), LOSING_RUN));
  }

  lemma LosingRunIsPlanned()
    ensures Planned(LOSING_RUN) && P.StatusOf(SUCCESS) == AuditSucceeded
  {}

  /** The straight move happens: some run takes a queued audit to succeeded in one step. */
  lemma StraightToSucceeded() returns (states: seq<System>, steps: seq<Step>)
    ensures Behaviour(states, steps) && |steps| == 6
    ensures 0 in states[5].tables.audits && states[5].tables.audits[0].status == AuditQueued
    ensures 0 in states[6].tables.audits && states[6].tables.audits[0].status == AuditSucceeded
  {
    states, steps := ClaimLosingRun();
    states, steps := Extend(states, steps, Send(0));
    states, steps := Extend(states, steps, Send(0));
    LosingRunIsPlanned();
  }

  // ---------------------------------------------------------------- how often an audit is saved

  ghost predicate SendsSave(s: System, step: Step, j: JobId) {
    && step.Send? && Enabled(s, step)
    && step.exec in s.queue.execs && s.queue.execs[step.exec].job.id == j
    && s.runs[step.exec].trace[s.runs[step.exec].done].Save?
  }

  ghost function SavesSent(states: seq<System>, steps: seq<Step>, i: nat, j: JobId): nat
    requires i <= |steps| && |states| == |steps| + 1
  {
    if i == 0 then 0
    else SavesSent(states, steps, i - 1, j) + (if SendsSave(states[i - 1], steps[i - 1], j) then 1 else 0)
  }

  /** `saves` Saves were sent for job j: at most one per attempt, the current one included once it has been sent. */
  ghost predicate SavesFit(s: System, j: JobId, saves: nat) {
    && (j in s.queue.rows ==> saves <= s.queue.rows[j].attempts)
    && (j !in s.queue.rows ==> saves == 0)
    && (forall e | e in s.runs && e in s.queue.execs && s.queue.execs[e].job.id == j
          && s.runs[e].done <= s.runs[e].at ::
          j in s.queue.rows && saves < s.queue.rows[j].attempts)
  }

  lemma SavesStep(s: System, step: Step, j: JobId, saves: nat)
    requires Inv(s) && Enabled(s, step) && SavesFit(s, j, saves)
    ensures SavesFit(Next(s, step), j, saves + if SendsSave(s, step, j) then 1 else 0)
  {
    hide Q.Inv, Q.Next, Q.Enabled, JobInv, ApplyEffect;
    match step
    case QueueStep(q) => QueueOther(s.queue, q);
    case Enqueue(q, _) => QueueEnqueue(s.queue, q);
    case Claim(q, _) => QueueClaim(s.queue, q);
    case Return(q) => QueueReturn(s.queue, q);
    case Send(e) =>
      assert RunInv(s, e);
      OwnRow(s, e);
      OnlyRunOfJob(s, e);
  }

  /** Each attempt of a job saves its audit at most once. */
  lemma {:induction false} SavesAreAttempts(states: seq<System>, steps: seq<Step>, i: nat, j: JobId)
    requires Behaviour(states, steps) && i < |states|
    ensures SavesFit(states[i], j, SavesSent(states, steps, i, j))
  {
    hide Next, Enabled, Inv;
    if i > 0 {
      SavesAreAttempts(states, steps, i - 1, j);
      Safety(states, steps, i - 1);
      SavesStep(states[i - 1], steps[i - 1], j, SavesSent(states, steps, i - 1, j));
    }
  }

  /** A handler that returns has saved its audit: all of its run's statements, the Save among them, were sent. */
  lemma ReturnAfterSave(states: seq<System>, steps: seq<Step>, i: nat)
    requires Behaviour(states, steps) && i < |steps| && steps[i].Return?
    ensures var run := states[i].runs[steps[i].step.exec];
            && run.at < run.done && run.trace[run.at].Save?
            && forall k | 0 <= k < run.done && k != run.at :: run.trace[k].Flush?
  {
    hide Q.Inv, Q.Next, Q.Enabled, JobInv;
    Safety(states, steps, i);
    assert RunInv(states[i], steps[i].step.exec);
  }

  // ---------------------------------------------------------------- who replaces a failure

  /** The attempt of the execution whose statement the step sends. */
  ghost function AttemptOf(s: System, step: Step): nat
    requires step.Send? && step.exec in s.queue.execs
  {
    s.queue.execs[step.exec].job.attempts
  }

  /** Attempt n of job j has sent its Save: a run that still has to is a later attempt's. */
  ghost predicate SavedBy(s: System, j: JobId, n: nat) {
    && j in s.queue.rows && n <= s.queue.rows[j].attempts
    && (s.queue.rows[j].attempts == n ==>
          forall e | e in s.runs && e in s.queue.execs && s.queue.execs[e].job.id == j :: s.runs[e].at < s.runs[e].done)
  }

  lemma SavedByStep(s: System, step: Step, j: JobId, n: nat)
    requires Inv(s) && Enabled(s, step) && SavedBy(s, j, n)
    ensures SavedBy(Next(s, step), j, n)
  {
    hide Q.Inv, Q.Next, Q.Enabled, JobInv, ApplyEffect, Planned;
    match step
    case QueueStep(q) => QueueOther(s.queue, q);
    case Enqueue(q, _) => QueueEnqueue(s.queue, q);
    case Claim(q, _) => QueueClaim(s.queue, q);
    case Return(q) => QueueReturn(s.queue, q);
    case Send(e) => assert RunInv(s, e);
  }

  lemma LiveAttempt(s: System, e: ExecId)
    requires Inv(s) && e in s.runs
    ensures e in s.queue.execs && s.queue.execs[e].job.id in s.queue.rows
    ensures s.queue.rows[s.queue.execs[e].job.id].attempts == s.queue.execs[e].job.attempts >= 1
  {
    hide Planned, JobInv;
    assert RunInv(s, e) && Q.ExecInv(s.queue, e);
    assert Q.RowInv(s.queue.rows[s.queue.execs[e].job.id]);
  }

  lemma SaveDone(s: System, step: Step, j: JobId)
    requires Inv(s) && SendsSave(s, step, j)
    ensures SavedBy(Next(s, step), j, AttemptOf(s, step))
    ensures s.runs[step.exec].done == s.runs[step.exec].at
  {
    hide Q.Inv, JobInv, ApplyEffect;
    assert RunInv(s, step.exec);
    LiveAttempt(s, step.exec);
    OnlyRunOfJob(s, step.exec);
  }

  lemma {:induction false} SavedByStays(states: seq<System>, steps: seq<Step>, i: nat, k: nat, j: JobId)
    requires Behaviour(states, steps) && i < k < |states| && SendsSave(states[i], steps[i], j)
    ensures SavedBy(states[k], j, AttemptOf(states[i], steps[i]))
    decreases k
  {
    hide Inv, Enabled, Next, SavedBy, Init;
    Safety(states, steps, k - 1);
    if k == i + 1 {
      SaveDone(states[i], steps[i], j);
    } else {
      SavedByStays(states, steps, i, k - 1, j);
      SavedByStep(states[k - 1], steps[k - 1], j, AttemptOf(states[i], steps[i]));
    }
  }

  /** Of two Saves of a job the later one is sent by a later attempt. */
  lemma SavesAreByLaterAttempts(states: seq<System>, steps: seq<Step>, i: nat, k: nat, j: JobId)
    requires Behaviour(states, steps) && i < k < |steps|
    requires SendsSave(states[i], steps[i], j) && SendsSave(states[k], steps[k], j)
    ensures 1 <= AttemptOf(states[i], steps[i]) < AttemptOf(states[k], steps[k])
  {
    hide Inv, Enabled, Next, Init;
    SavedByStays(states, steps, i, k, j);
    Safety(states, steps, i);
    Safety(states, steps, k);
    RunOfSave(states[i], steps[i], j);
    RunOfSave(states[k], steps[k], j);
    LiveAttempt(states[i], steps[i].exec);
    LiveAttempt(states[k], steps[k].exec);
    SaveDone(states[k], steps[k], j);
  }

  lemma RunOfSave(s: System, step: Step, j: JobId)
    requires Inv(s) && SendsSave(s, step, j)
    ensures step.exec in s.runs
  {}

  lemma {:induction false} LastSaveAt(states: seq<System>, steps: seq<Step>, i: nat, a: AuditId) returns (k: nat)
    requires i <= |steps| && |states| == |steps| + 1 && LastSave(states, steps, i, a).Some?
    ensures k < i && CommittedSave(states[k], steps[k], a) == LastSave(states, steps, i, a)
  {
    hide CommittedSave;
    if CommittedSave(states[i - 1], steps[i - 1], a).Some? {
      k := i - 1;
    } else {
      k := LastSaveAt(states, steps, i - 1, a);
    }
  }

  lemma CommittedIsSent(s: System, step: Step, j: JobId, a: AuditId)
    requires Inv(s) && CommittedSave(s, step, a).Some? && (j in s.auditOf ==> s.auditOf[j] == a)
    requires forall i | i in s.auditOf && s.auditOf[i] == a :: i == j
    ensures SendsSave(s, step, j)
  {
    hide JobInv, Q.Inv;
    assert RunInv(s, step.exec);
  }

  lemma {:induction false} AuditOfStays(states: seq<System>, steps: seq<Step>, k: nat, i: nat, j: JobId)
    requires Behaviour(states, steps) && k <= i < |states| && j in states[i].auditOf
    ensures forall x | x in states[k].auditOf && states[k].auditOf[x] == states[i].auditOf[j] :: x == j
    ensures j in states[k].auditOf ==> states[k].auditOf[j] == states[i].auditOf[j]
    decreases i
  {
    hide Inv, Enabled, Next, Init;
    Safety(states, steps, i);
    Safety(states, steps, k);
    forall x | x in states[k].auditOf ensures x in states[i].auditOf && states[i].auditOf[x] == states[k].auditOf[x] {
      AuditOfGrows(states, steps, k, i, x);
    }
    LinkedOnce(states[i]);
  }

  lemma LinkedOnce(s: System)
    requires Inv(s)
    ensures forall x, y | x in s.auditOf && y in s.auditOf && s.auditOf[x] == s.auditOf[y] :: x == y
  {}

  lemma {:induction false} AuditOfGrows(states: seq<System>, steps: seq<Step>, k: nat, i: nat, x: JobId)
    requires Behaviour(states, steps) && k <= i < |states| && x in states[k].auditOf
    ensures x in states[i].auditOf && states[i].auditOf[x] == states[k].auditOf[x]
    decreases i
  {
    hide Inv, Enabled, Next, Init;
    if k < i {
      AuditOfGrows(states, steps, k, i - 1, x);
      StatusMoves(states, steps, i - 1, x);
    }
  }

  /**
   A failed audit is replaced only by the Save of a later attempt than the one
   that saved the failure, so never on a first attempt.
   */
  lemma FailureIsReplacedLater(states: seq<System>, steps: seq<Step>, i: nat, j: JobId) returns (k: nat)
    requires Behaviour(states, steps) && i < |steps| && j in states[i].auditOf && SendsSave(states[i], steps[i], j)
    requires states[i].auditOf[j] in states[i].tables.audits && StatusAt(states[i], j) == AuditFailed
    ensures k < i && SendsSave(states[k], steps[k], j)
    ensures CommittedSave(states[k], steps[k], states[i].auditOf[j]) == LastSave(states, steps, i, states[i].auditOf[j])
    ensures LastSave(states, steps, i, states[i].auditOf[j]).Some?
    ensures P.StatusOf(LastSave(states, steps, i, states[i].auditOf[j]).value.report) == AuditFailed
    ensures 1 <= AttemptOf(states[k], steps[k]) < AttemptOf(states[i], steps[i])
  {
    hide Inv, Enabled, Next, Init, CommittedSave, SendsSave;
    var a := states[i].auditOf[j];
    TablesShowLastSave(states, steps, i, a);
    k := LastSaveAt(states, steps, i, a);
    AuditOfStays(states, steps, k, i, j);
    Safety(states, steps, k);
    CommittedIsSent(states[k], steps[k], j, a);
    ExecOfSave(states[k], steps[k], j);
    SavesAreByLaterAttempts(states, steps, k, i, j);
  }

  lemma ExecOfSave(s: System, step: Step, j: JobId)
    requires SendsSave(s, step, j)
    ensures step.Send? && step.exec in s.queue.execs
  {}
}
