/**
 The queue delivers executions: a claimed LIFECYCLE_EXECUTE job starts ExecuteAndVerify for its case, and the
 loop may complete the job only after that execution returned.  Deliveries repeat; executions do not.
 */
module Delivery {
  import Q = JobQueueRuns
  import Jobs = JobQueue
  import C = CaseRuns
  import Tables = CaseTables
  import D = Domain
  import Inv = CaseInvariant
  import Steps = CaseSteps
  import Theorems = CaseTheorems

  /** `org` is the organisation whose tables are modelled; `caseKey` names the job of a case. */
  datatype Setup = Setup(queue: Q.Config, org: string, caseKey: Tables.CaseId -> string)

  /** `running` says which execution a loop waits for. */
  datatype World = World(queue: Q.Sys, cases: C.State, running: map<Q.LoopId, C.ExecId>)

  datatype Step =
    | Queue(q: Q.Step)
    | Lifecycle(l: C.Step)
    | Deliver(loop: Q.LoopId, e: C.ExecId)

  const START: World := World(Q.EMPTY, C.EMPTY, map[])

  /** The work is an execution of a case of the organisation at hand. */
  predicate Executes(u: Setup, j: Jobs.Job) {
    j.work.LifecycleExecute? && j.org == u.org
  }

  predicate Holds(w: World, loop: Q.LoopId) {
    loop in w.queue.held && w.queue.held[loop].job in w.queue.jobs
  }

  function HeldJob(w: World, loop: Q.LoopId): Jobs.Job
    requires Holds(w, loop)
  {
    w.queue.jobs[w.queue.held[loop].job]
  }

  predicate HasReturned(w: World, loop: Q.LoopId) {
    loop in w.running && w.running[loop] in w.cases.execs && w.cases.execs[w.running[loop]].pc.Returned?
  }

  /** When the workers take a queue step: executeCase chooses the key, and success needs a returned execution. */
  predicate Allowed(u: Setup, w: World, q: Q.Step) {
    match q
    case Enqueue(_, _, work, key, _) => work.LifecycleExecute? ==> key == u.caseKey(work.caseId)
    case Complete(loop) => Holds(w, loop) && Executes(u, HeldJob(w, loop)) ==> HasReturned(w, loop)
    case _ => true
  }

  predicate Deliverable(u: Setup, w: World, loop: Q.LoopId) {
    Holds(w, loop) && Executes(u, HeldJob(w, loop)) && loop !in w.running
  }

  function Waiting(running: map<Q.LoopId, C.ExecId>, q: Q.Step): map<Q.LoopId, C.ExecId> {
    match q
    case Complete(loop) => running - {loop}
    case Fail(loop, _) => running - {loop}
    case Abandon(loop) => running - {loop}
    case _ => running
  }

  ghost function AfterQueue(u: Setup, w: World, q: Q.Step): World {
    if Allowed(u, w, q) then World(Q.Next(u.queue, w.queue, q), w.cases, Waiting(w.running, q)) else w
  }

  ghost function AfterLifecycle(w: World, l: C.Step): World {
    World(w.queue, C.Next(w.cases, l),
          if l.Crash? then map loop | loop in w.running && w.running[loop] != l.e :: w.running[loop] else w.running)
  }

  /** The handler: the guard of ExecuteAndVerify decides whether this delivery executes anything. */
  ghost function AfterDeliver(u: Setup, w: World, loop: Q.LoopId, e: C.ExecId): World {
    if Deliverable(u, w, loop) then
      var c := HeldJob(w, loop).work.caseId;
      var started := C.Next(w.cases, C.Begin(e, c));
      World(w.queue, started, if e !in w.cases.execs && e in started.execs then w.running[loop := e] else w.running)
    else w
  }

  ghost function Next(u: Setup, w: World, step: Step): World {
    match step
    case Queue(q) => AfterQueue(u, w, q)
    case Lifecycle(l) => AfterLifecycle(w, l)
    case Deliver(loop, e) => AfterDeliver(u, w, loop, e)
  }

  ghost function Run(u: Setup, steps: seq<Step>): World {
    if steps == [] then START else Next(u, Run(u, steps[..|steps| - 1]), steps[|steps| - 1])
  }

  // ----- Both halves are runs of their own -----

  ghost function QueueSteps(u: Setup, steps: seq<Step>): seq<Q.Step> {
    if steps == [] then []
    else
      var prior, last := steps[..|steps| - 1], steps[|steps| - 1];
      QueueSteps(u, prior) + if last.Queue? && Allowed(u, Run(u, prior), last.q) then [last.q] else []
  }

  ghost function CaseStepOf(u: Setup, w: World, step: Step): seq<C.Step> {
    match step
    case Queue(_) => []
    case Lifecycle(l) => [l]
    case Deliver(loop, e) => if Deliverable(u, w, loop) then [C.Begin(e, HeldJob(w, loop).work.caseId)] else []
  }

  ghost function CaseSteps(u: Setup, steps: seq<Step>): seq<C.Step> {
    if steps == [] then []
    else CaseSteps(u, steps[..|steps| - 1]) + CaseStepOf(u, Run(u, steps[..|steps| - 1]), steps[|steps| - 1])
  }

  /** Whatever holds of every run of the queue, or of every run of the lifecycle, holds of the two together. */
  lemma {:induction false} HalvesAreRuns(u: Setup, steps: seq<Step>)
    ensures Run(u, steps).queue == Q.Run(u.queue, Q.EMPTY, QueueSteps(u, steps))
    ensures Run(u, steps).cases == C.Run(C.EMPTY, CaseSteps(u, steps))
  {
    hide C.Next, Q.Next;
    if steps != [] {
      var prior, last := steps[..|steps| - 1], steps[|steps| - 1];
      HalvesAreRuns(u, prior);
      var w := Run(u, prior);
      assert QueueSteps(u, prior) + [] == QueueSteps(u, prior) && CaseSteps(u, prior) + [] == CaseSteps(u, prior);
      match last {
        case Queue(q) =>
          if Allowed(u, w, q) {
            Q.RunSnoc(u.queue, QueueSteps(u, prior), q);
          }
        case Lifecycle(l) => Theorems.RunSnoc(CaseSteps(u, prior), l);
        case Deliver(loop, e) =>
          if Deliverable(u, w, loop) {
            Theorems.RunSnoc(CaseSteps(u, prior), C.Begin(e, HeldJob(w, loop).work.caseId));
          }
      }
    }
  }

  /**
   At most once over an at-least-once queue: however often a job is enqueued, claimed, expired, retried or lost,
   one delivery at most passes the guard of a case and each action reaches its provider at most once.
   */
  lemma ExecutedAtMostOnce(u: Setup, steps: seq<Step>, c: Tables.CaseId, k: Tables.ActionKey)
    ensures var w := Run(u, steps);
            && w.cases.passed[c] <= 1 && w.cases.calls[k] <= 1
            && (w.cases.calls[k] > 0 ==> w.cases.passed[k.caseId] == 1)
  {
    HalvesAreRuns(u, steps);
    Theorems.AtMostOnce(CaseSteps(u, steps), c, k);
  }

  // ----- What the two halves keep together -----

  ghost predicate RunningOk(u: Setup, w: World) {
    forall loop :: loop in w.running ==>
                     && Holds(w, loop) && Executes(u, HeldJob(w, loop))
                     && w.running[loop] in w.cases.execs
                     && w.cases.execs[w.running[loop]].caseId == HeldJob(w, loop).work.caseId
  }

  /** A succeeded job has a finished case; the job of a case carries the key of the case. */
  ghost predicate JobsOk(u: Setup, w: World) {
    forall id :: id in w.queue.jobs ==>
                   var j := w.queue.jobs[id];
                   && (j.work.LifecycleExecute? ==> j.key == u.caseKey(j.work.caseId))
                   && (Executes(u, j) && j.status == Jobs.Succeeded ==> CaseFinished(w.cases, j.work.caseId))
  }

  predicate CaseFinished(s: C.State, c: Tables.CaseId) {
    c in s.db.cases && D.Finished(s.db.cases[c].status)
  }

  ghost predicate Sound(u: Setup, w: World) {
    Q.Inv(w.queue) && Inv.Inv(w.cases) && RunningOk(u, w) && JobsOk(u, w)
  }

  /** Executions stay until they crash, and keep their case. */
  lemma ExecStays(s: C.State, l: C.Step, e: C.ExecId)
    requires e in s.execs && l != C.Crash(e)
    ensures e in C.Next(s, l).execs && C.Next(s, l).execs[e].caseId == s.execs[e].caseId
  {
    hide C.AdvanceExec, C.Prepare, C.Surround, Tables.StartCase, C.LoadItems, C.LoadEnabled;
    if l.Advance? && l.e in s.execs && l.e != e {
      Theorems.OtherExecsStay(s, l.e, l.answer, e);
    }
  }

  lemma FinishedStays(s: C.State, l: C.Step, c: Tables.CaseId)
    requires Inv.Inv(s) && CaseFinished(s, c)
    ensures CaseFinished(C.Next(s, l), c)
  {
    hide Inv.Inv, C.Next;
    Theorems.StepMoves(s, l, c);
  }

  lemma LifecycleKeepsSound(u: Setup, w: World, l: C.Step)
    requires Sound(u, w)
    ensures Sound(u, AfterLifecycle(w, l))
  {
    hide Inv.Inv, Q.Inv, C.Next;
    var t := AfterLifecycle(w, l);
    Steps.StepKeepsInv(w.cases, l);
    forall loop | loop in t.running
      ensures t.running[loop] in t.cases.execs
      ensures t.cases.execs[t.running[loop]].caseId == w.cases.execs[t.running[loop]].caseId
    {
      ExecStays(w.cases, l, w.running[loop]);
    }
    forall id | id in t.queue.jobs && Executes(u, t.queue.jobs[id]) && t.queue.jobs[id].status == Jobs.Succeeded
      ensures CaseFinished(t.cases, t.queue.jobs[id].work.caseId)
    {
      FinishedStays(w.cases, l, t.queue.jobs[id].work.caseId);
    }
  }

  lemma BeginAddsExec(s: C.State, e: C.ExecId, c: Tables.CaseId)
    requires e !in s.execs
    ensures var t := C.Next(s, C.Begin(e, c)); e in t.execs ==> t.execs[e].caseId == c
  {
  }

  lemma DeliverKeepsSound(u: Setup, w: World, loop: Q.LoopId, e: C.ExecId)
    requires Sound(u, w)
    ensures Sound(u, AfterDeliver(u, w, loop, e))
  {
    hide Inv.Inv, Q.Inv, C.Next;
    if Deliverable(u, w, loop) {
      var l := C.Begin(e, HeldJob(w, loop).work.caseId);
      LifecycleKeepsSound(u, w, l);
      if e !in w.cases.execs {
        BeginAddsExec(w.cases, e, HeldJob(w, loop).work.caseId);
      }
    }
  }

  /** Queue steps keep the work of every job, and only a completion makes one succeed. */
  lemma QueueStepFacts(c: Q.Config, s: Q.Sys, q: Q.Step, id: Jobs.JobId)
    requires Q.Inv(s) && id in s.jobs
    ensures id in Q.Next(c, s, q).jobs && Q.SameJob(s.jobs[id], Q.Next(c, s, q).jobs[id])
    ensures Q.Next(c, s, q).jobs[id].status == Jobs.Succeeded && s.jobs[id].status != Jobs.Succeeded ==>
              q.Complete? && q.loop in s.held && s.held[q.loop].job == id
  {
    hide Q.Inv, Q.Next;
    Q.StepKeepsIdentity(c, s, q, id);
    OnlyCompletionSucceeds(c, s, q, id);
  }

  lemma OnlyCompletionSucceeds(c: Q.Config, s: Q.Sys, q: Q.Step, id: Jobs.JobId)
    requires id in s.jobs
    ensures id in Q.Next(c, s, q).jobs
    ensures Q.Next(c, s, q).jobs[id].status == Jobs.Succeeded && s.jobs[id].status != Jobs.Succeeded ==>
              q.Complete? && q.loop in s.held && s.held[q.loop].job == id
  {
  }

  /** The rows that a queue step adds are new. */
  lemma AddedJobs(c: Q.Config, s: Q.Sys, q: Q.Step, id: Jobs.JobId)
    requires id in Q.Next(c, s, q).jobs && id !in s.jobs
    ensures q.Enqueue? && Q.Next(c, s, q).jobs[id].work == q.work && Q.Next(c, s, q).jobs[id].key == q.key
    ensures Q.Next(c, s, q).jobs[id].status == Jobs.Queued
  {
  }

  lemma WaitingLoopsHold(c: Q.Config, s: Q.Sys, q: Q.Step, running: map<Q.LoopId, C.ExecId>, loop: Q.LoopId)
    requires loop in Waiting(running, q) && loop in s.held
    ensures loop in Q.Next(c, s, q).held && Q.Next(c, s, q).held[loop] == s.held[loop]
  {
  }

  lemma ReturnedMeansFinished(s: C.State, e: C.ExecId)
    requires Inv.Inv(s) && e in s.execs && s.execs[e].pc.Returned?
    ensures CaseFinished(s, s.execs[e].caseId)
  {
    assert Inv.ExecOk(s, e);
  }

  lemma QueueKeepsJobs(u: Setup, w: World, q: Q.Step, id: Jobs.JobId)
    requires Sound(u, w) && Allowed(u, w, q) && id in AfterQueue(u, w, q).queue.jobs
    ensures var j := AfterQueue(u, w, q).queue.jobs[id];
            && (j.work.LifecycleExecute? ==> j.key == u.caseKey(j.work.caseId))
            && (Executes(u, j) && j.status == Jobs.Succeeded ==> CaseFinished(w.cases, j.work.caseId))
  {
    hide Inv.Inv, Q.Inv, Q.Next;
    if id !in w.queue.jobs {
      AddedJobs(u.queue, w.queue, q, id);
    } else {
      QueueStepFacts(u.queue, w.queue, q, id);
      var j := AfterQueue(u, w, q).queue.jobs[id];
      if Executes(u, j) && j.status == Jobs.Succeeded && w.queue.jobs[id].status != Jobs.Succeeded {
        ReturnedMeansFinished(w.cases, w.running[q.loop]);
      }
    }
  }

  lemma QueueKeepsSound(u: Setup, w: World, q: Q.Step)
    requires Sound(u, w)
    ensures Sound(u, AfterQueue(u, w, q))
  {
    hide Inv.Inv, Q.Inv, Q.Next;
    if Allowed(u, w, q) {
      var t := AfterQueue(u, w, q);
      Q.StepKeepsInv(u.queue, w.queue, q);
      forall id | id in t.queue.jobs
        ensures var j := t.queue.jobs[id];
                && (j.work.LifecycleExecute? ==> j.key == u.caseKey(j.work.caseId))
                && (Executes(u, j) && j.status == Jobs.Succeeded ==> CaseFinished(t.cases, j.work.caseId))
      {
        QueueKeepsJobs(u, w, q, id);
      }
      forall loop | loop in t.running
        ensures Holds(t, loop) && Q.SameJob(HeldJob(w, loop), HeldJob(t, loop))
      {
        WaitingLoopsHold(u.queue, w.queue, q, w.running, loop);
        QueueStepFacts(u.queue, w.queue, q, w.queue.held[loop].job);
      }
    }
  }

  lemma {:induction false} RunIsSound(u: Setup, steps: seq<Step>)
    ensures Sound(u, Run(u, steps))
  {
    hide Sound, Next, Run;
    if steps == [] {
      StartIsSound(u);
    } else {
      RunIsSound(u, steps[..|steps| - 1]);
      StepKeepsSound(u, Run(u, steps[..|steps| - 1]), steps[|steps| - 1]);
    }
    RunUnfolds(u, steps);
  }

  lemma RunUnfolds(u: Setup, steps: seq<Step>)
    ensures Run(u, steps) == if steps == [] then START else Next(u, Run(u, steps[..|steps| - 1]), steps[|steps| - 1])
  {
  }

  lemma StartIsSound(u: Setup)
    ensures Sound(u, START)
  {
    Theorems.Reachable([]);
  }

  lemma StepKeepsSound(u: Setup, w: World, step: Step)
    requires Sound(u, w)
    ensures Sound(u, Next(u, w, step))
  {
    hide Sound, AfterQueue, AfterLifecycle, AfterDeliver;
    match step
    case Queue(q) => QueueKeepsSound(u, w, q);
    case Lifecycle(l) => LifecycleKeepsSound(u, w, l);
    case Deliver(loop, e) => DeliverKeepsSound(u, w, loop, e);
  }

  /** A job is reported SUCCEEDED only when its case has reached a final status, and one job stands for one case. */
  lemma SucceededMeansFinished(u: Setup, steps: seq<Step>, a: Jobs.JobId, b: Jobs.JobId)
    requires a in Run(u, steps).queue.jobs && b in Run(u, steps).queue.jobs
    requires Executes(u, Run(u, steps).queue.jobs[a]) && Executes(u, Run(u, steps).queue.jobs[b])
    ensures var w := Run(u, steps);
            && (w.queue.jobs[a].status == Jobs.Succeeded ==> CaseFinished(w.cases, w.queue.jobs[a].work.caseId))
            && (w.queue.jobs[a].work == w.queue.jobs[b].work ==> a == b)
  {
    hide Inv.Inv;
    RunIsSound(u, steps);
  }

  // ----- Interrupted executions -----

  /** Started, not finished, and no execution left that works on it. */
  ghost predicate Interrupted(s: C.State, c: Tables.CaseId) {
    && c in s.db.cases && (s.db.cases[c].status == D.Running || s.db.cases[c].status == D.Verifying)
    && forall e :: e in s.execs ==> s.execs[e].caseId != c
  }

  lemma OtherRowsStay(s: C.State, e: C.ExecId, answer: C.Answer, c: Tables.CaseId)
    requires Inv.Inv(s) && e in s.execs && c in s.db.cases && s.execs[e].caseId != c
    ensures c in C.AdvanceExec(s, e, answer).db.cases && C.AdvanceExec(s, e, answer).db.cases[c] == s.db.cases[c]
  {
    hide Inv.Inv, C.FinishExec, C.Mark, C.Act, C.Store, C.Record, C.Prove;
    if s.execs[e].pc.Concluding? || s.execs[e].pc.Closing? {
      FinalRowsStay(s, e, c);
    }
  }

  lemma FinalRowsStay(s: C.State, e: C.ExecId, c: Tables.CaseId)
    requires e in s.execs && c in s.db.cases && s.execs[e].caseId != c
    requires s.execs[e].pc.Concluding? || s.execs[e].pc.Closing?
    ensures c in C.FinishExec(s, e).db.cases && C.FinishExec(s, e).db.cases[c] == s.db.cases[c]
  {
    hide Tables.Verdict;
  }

  lemma InterruptedRowStays(s: C.State, l: C.Step, c: Tables.CaseId)
    requires Inv.Inv(s) && Interrupted(s, c)
    ensures c in C.Next(s, l).db.cases && C.Next(s, l).db.cases[c].status == s.db.cases[c].status
  {
    hide Inv.Inv, C.Next;
    Theorems.StepMoves(s, l, c);
    if l.Advance? {
      Theorems.AdvanceIsNext(s, l);
      if l.e in s.execs { OtherRowsStay(s, l.e, l.answer, c); }
    } else {
      QuietRows(s, l, c);
    }
  }

  /** No step but an execution of the case itself moves a case that has started. */
  lemma QuietRows(s: C.State, l: C.Step, c: Tables.CaseId)
    requires Interrupted(s, c) && !l.Advance?
    ensures c in C.Next(s, l).db.cases && C.Next(s, l).db.cases[c].status == s.db.cases[c].status
  {
    hide Tables.PlannedActions, C.Surround, C.AfterLoad, Tables.SkipActions;
  }

  lemma NewExecHasApprovedCase(s: C.State, l: C.Step, e: C.ExecId)
    requires e in C.Next(s, l).execs && e !in s.execs
    ensures l.Begin? && l.e == e && C.Next(s, l).execs[e].caseId == l.c
    ensures l.c in s.db.cases && s.db.cases[l.c].status == D.Approved
  {
    hide C.AdvanceExec, C.Prepare, C.Surround, C.LoadItems;
  }

  lemma StaysInterrupted(s: C.State, l: C.Step, c: Tables.CaseId)
    requires Inv.Inv(s) && Interrupted(s, c)
    ensures Interrupted(C.Next(s, l), c) && C.Next(s, l).db.cases[c].status == s.db.cases[c].status
  {
    hide Inv.Inv, C.Next;
    InterruptedRowStays(s, l, c);
    forall e | e in C.Next(s, l).execs
      ensures C.Next(s, l).execs[e].caseId != c
    {
      if e !in s.execs {
        NewExecHasApprovedCase(s, l, e);
      } else if l == C.Crash(e) {
        CrashRemoves(s, e);
      } else {
        ExecStays(s, l, e);
      }
    }
  }

  lemma CrashRemoves(s: C.State, e: C.ExecId)
    ensures e !in C.Next(s, C.Crash(e)).execs
  {
  }

  lemma StepStaysInterrupted(u: Setup, w: World, step: Step, c: Tables.CaseId)
    requires Inv.Inv(w.cases) && Interrupted(w.cases, c)
    ensures Interrupted(Next(u, w, step).cases, c)
    ensures Next(u, w, step).cases.db.cases[c].status == w.cases.db.cases[c].status
  {
    hide Inv.Inv, C.Next, Interrupted;
    assert c in w.cases.db.cases by { Started(w.cases, c); }
    match step {
      case Queue(_) =>
      case Lifecycle(l) => StaysInterrupted(w.cases, l, c);
      case Deliver(loop, e) =>
        if Deliverable(u, w, loop) {
          StaysInterrupted(w.cases, C.Begin(e, HeldJob(w, loop).work.caseId), c);
        }
    }
  }

  lemma Started(s: C.State, c: Tables.CaseId)
    requires Interrupted(s, c)
    ensures c in s.db.cases && !D.Finished(s.db.cases[c].status)
  {
  }

  /**
   Nothing resumes an interrupted execution: whatever is delivered, retried or started later, the case keeps its
   status and its job is never reported SUCCEEDED.
   */
  lemma {:induction false} InterruptedForever(u: Setup, steps: seq<Step>, more: seq<Step>, c: Tables.CaseId)
    requires Interrupted(Run(u, steps).cases, c)
    ensures var w := Run(u, steps + more);
            && Interrupted(w.cases, c)
            && w.cases.db.cases[c].status == Run(u, steps).cases.db.cases[c].status
            && forall id :: id in w.queue.jobs && Executes(u, w.queue.jobs[id]) && w.queue.jobs[id].work.caseId == c ==>
                              w.queue.jobs[id].status != Jobs.Succeeded
    decreases |more|
  {
    hide Inv.Inv, Next, Interrupted;
    Started(Run(u, steps).cases, c);
    if more == [] {
      assert steps + more == steps;
    } else {
      var prior := more[..|more| - 1];
      InterruptedForever(u, steps, prior, c);
      assert (steps + more)[..|steps + more| - 1] == steps + prior;
      RunIsSound(u, steps + prior);
      StepStaysInterrupted(u, Run(u, steps + prior), more[|more| - 1], c);
    }
    RunIsSound(u, steps + more);
    Started(Run(u, steps + more).cases, c);
  }
}
