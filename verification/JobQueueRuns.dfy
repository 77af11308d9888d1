/**
 Every interleaving of the worker loops over one shared job table.  A step that is not
 enabled leaves the system unchanged, so a run is any sequence of steps.
 */
module JobQueueRuns {
  import opened Common
  import opened JobQueue

  type LoopId = nat

  /** The worker id and the lease of each loop; loops of one process share them. */
  datatype Config = Config(name: LoopId -> string, lease: LoopId -> int)

  /** A loop between its claim and the update that ends `execute`. */
  datatype Held = Held(job: JobId, attempt: nat, max: nat)

  /** History of a job: attempts whose failure put it back in the queue, and expired leases taken over. */
  datatype History = History(retried: set<nat>, reclaims: nat)

  datatype Sys = Sys(now: int, jobs: map<JobId, Job>, held: map<LoopId, Held>, history: map<JobId, History>)

  datatype Step =
    | Tick(elapsed: nat)
    | Enqueue(id: JobId, org: string, work: Work, key: string, priority: int)
    | Claim(loop: LoopId, id: JobId)
    | Heartbeat(loop: LoopId, id: JobId)
    | Complete(loop: LoopId)
    | Fail(loop: LoopId, error: string)
    | Abandon(loop: LoopId)

  const EMPTY: Sys := Sys(0, map[], map[], map[])

  function StoredLease(c: Config, loop: LoopId): (seconds: int)
    ensures seconds >= 10
  {
    WholeSeconds(Lease(c.lease(loop)))
  }

  predicate Enabled(s: Sys, step: Step) {
    match step
    case Tick(_) => true
    case Enqueue(id, org, work, key, priority) =>
      ValidRequest(org, key, priority) && id !in s.jobs && !KeyTaken(s.jobs, org, key)
    case Claim(loop, id) => loop !in s.held && id in s.jobs && Claimable(s.jobs[id], s.now)
    case Heartbeat(_, id) => id in s.jobs
    case Complete(loop) => loop in s.held && s.held[loop].job in s.jobs
    case Fail(loop, _) => loop in s.held && s.held[loop].job in s.jobs
    case Abandon(loop) => loop in s.held
  }

  predicate KeyTaken(jobs: map<JobId, Job>, org: string, key: string) {
    exists id :: id in jobs && HasKey(jobs, id, org, key)
  }

  function Note(s: Sys, id: JobId): History {
    if id in s.history then s.history[id] else History({}, 0)
  }

  function Apply(c: Config, s: Sys, step: Step): Sys
    requires Enabled(s, step)
  {
    match step
    case Tick(elapsed) => s.(now := s.now + elapsed)
    case Enqueue(id, org, work, key, priority) =>
      s.(jobs := s.jobs[id := NewJob(org, work, key, priority, s.now)], history := s.history[id := History({}, 0)])
    case Claim(loop, id) =>
      var row := Claimed(s.jobs[id], c.name(loop), s.now, StoredLease(c, loop));
      var note := Note(s, id);
      s.(jobs := s.jobs[id := row],
         held := s.held[loop := Held(id, row.attempts, row.maxAttempts)],
         history := s.history[id :=
           if s.jobs[id].status == Running then note.(reclaims := note.reclaims + 1) else note])
    case Heartbeat(loop, id) =>
      s.(jobs := s.jobs[id := Extended(s.jobs[id], c.name(loop), s.now, StoredLease(c, loop))])
    case Complete(loop) =>
      var id := s.held[loop].job;
      s.(jobs := s.jobs[id := Completed(s.jobs[id], c.name(loop), s.now)], held := s.held - {loop})
    case Fail(loop, error) =>
      var h := s.held[loop];
      var row := Retried(s.jobs[h.job], c.name(loop), s.now, h.attempt, h.max, error);
      var note := Note(s, h.job);
      s.(jobs := s.jobs[h.job := row], held := s.held - {loop},
         history := s.history[h.job := if s.jobs[h.job].leaseOwner == Some(c.name(loop)) && row.status == Queued
                                       then note.(retried := note.retried + {h.attempt}) else note])
    case Abandon(loop) => s.(held := s.held - {loop})
  }

  function Next(c: Config, s: Sys, step: Step): Sys {
    if Enabled(s, step) then Apply(c, s, step) else s
  }

  function Run(c: Config, s: Sys, steps: seq<Step>): Sys {
    if steps == [] then s else Next(c, Run(c, s, steps[..|steps| - 1]), steps[|steps| - 1])
  }

  /** A run and one step more. */
  lemma RunSnoc(c: Config, prior: seq<Step>, step: Step)
    ensures Run(c, EMPTY, prior + [step]) == Next(c, Run(c, EMPTY, prior), step)
  {
    assert (prior + [step])[..|prior|] == prior;
  }

  /** Failures that changed the row: each requeued the job, except one that may have killed it. */
  function Failures(j: Job, h: History): nat {
    |h.retried| + if j.status == Dead then 1 else 0
  }

  // ----- What every step keeps -----

  ghost predicate RowOk(j: Job, h: History) {
    && 1 <= j.maxAttempts
    && (j.status == Running <==> j.leaseOwner.Some?)
    && (j.status == Running <==> j.leaseUntil.Some?)
    && (j.status == Dead ==> j.attempts >= j.maxAttempts)
    && j.attempts == Failures(j, h) + h.reclaims + (if j.status == Running || j.status == Succeeded then 1 else 0)
    && (forall n :: n in h.retried ==> 1 <= n < j.maxAttempts && n <= j.attempts)
  }

  ghost predicate HeldOk(s: Sys, loop: LoopId)
    requires loop in s.held
  {
    var h := s.held[loop];
    && h.job in s.jobs && h.job in s.history
    && 1 <= h.attempt <= s.jobs[h.job].attempts
    && h.max == s.jobs[h.job].maxAttempts
    && h.attempt !in s.history[h.job].retried
  }

  ghost predicate Inv(s: Sys) {
    && s.history.Keys == s.jobs.Keys
    && UniqueKeys(s.jobs)
    && (forall id :: id in s.jobs ==> RowOk(s.jobs[id], s.history[id]))
    && (forall loop :: loop in s.held ==> HeldOk(s, loop))
    && (forall a, b :: a in s.held && b in s.held && a != b && s.held[a].job == s.held[b].job ==>
                         s.held[a].attempt != s.held[b].attempt)
  }

  lemma ClaimKeepsInv(c: Config, s: Sys, loop: LoopId, id: JobId)
    requires Inv(s) && Enabled(s, Claim(loop, id))
    ensures Inv(Apply(c, s, Claim(loop, id)))
  {
    var t := Apply(c, s, Claim(loop, id));
    assert RowOk(s.jobs[id], s.history[id]);
    assert RowOk(t.jobs[id], t.history[id]);
    forall l | l in t.held
      ensures HeldOk(t, l)
      ensures l != loop && t.held[l].job == id ==> t.held[l].attempt < t.held[loop].attempt
    {
      assert l != loop ==> HeldOk(s, l);
    }
  }

  /** The columns that no statement changes. */
  predicate SameJob(j: Job, k: Job) {
    j.org == k.org && j.key == k.key && j.work == k.work && j.maxAttempts == k.maxAttempts
  }

  /** An update of one row that adds no claim. */
  lemma RowUpdateKeepsInv(s: Sys, t: Sys, id: JobId)
    requires Inv(s) && id in s.jobs
    requires t.jobs.Keys == s.jobs.Keys && t.history.Keys == s.history.Keys
    requires forall other :: other in s.jobs && other != id ==>
                               t.jobs[other] == s.jobs[other] && t.history[other] == s.history[other]
    requires RowOk(t.jobs[id], t.history[id])
    requires SameJob(s.jobs[id], t.jobs[id]) && t.jobs[id].attempts == s.jobs[id].attempts
    requires forall l :: l in t.held ==> l in s.held && t.held[l] == s.held[l]
    requires forall l :: l in t.held && t.held[l].job == id ==> t.held[l].attempt !in t.history[id].retried
    ensures Inv(t)
  {
    forall l | l in t.held
      ensures HeldOk(t, l)
    {
      assert HeldOk(s, l);
    }
  }

  lemma FailKeepsRow(j: Job, h: History, worker: string, now: int, attempt: nat, error: string)
    requires RowOk(j, h) && 1 <= attempt <= j.attempts && attempt !in h.retried && j.leaseOwner == Some(worker)
    ensures var row := Retried(j, worker, now, attempt, j.maxAttempts, error);
            RowOk(row, if row.status == Queued then h.(retried := h.retried + {attempt}) else h)
  {
  }

  lemma FailKeepsInv(c: Config, s: Sys, loop: LoopId, error: string)
    requires Inv(s) && Enabled(s, Fail(loop, error))
    ensures Inv(Apply(c, s, Fail(loop, error)))
  {
    var t := Apply(c, s, Fail(loop, error));
    var h := s.held[loop];
    assert HeldOk(s, loop);
    assert RowOk(s.jobs[h.job], s.history[h.job]);
    if s.jobs[h.job].leaseOwner == Some(c.name(loop)) {
      FailKeepsRow(s.jobs[h.job], s.history[h.job], c.name(loop), s.now, h.attempt, error);
    }
    forall l | l in t.held && t.held[l].job == h.job
      ensures t.held[l].attempt !in t.history[h.job].retried
    {
      assert HeldOk(s, l);
    }
    RowUpdateKeepsInv(s, t, h.job);
  }

  lemma EnqueueKeepsInv(c: Config, s: Sys, step: Step)
    requires step.Enqueue? && Inv(s) && Enabled(s, step)
    ensures Inv(Apply(c, s, step))
  {
    assert forall other :: other in s.jobs ==> !HasKey(s.jobs, other, step.org, step.key);
    var t := Apply(c, s, step);
    forall l | l in t.held
      ensures HeldOk(t, l)
    {
      assert HeldOk(s, l);
    }
  }

  lemma HeartbeatKeepsInv(c: Config, s: Sys, loop: LoopId, id: JobId)
    requires Inv(s) && Enabled(s, Heartbeat(loop, id))
    ensures Inv(Apply(c, s, Heartbeat(loop, id)))
  {
    var t := Apply(c, s, Heartbeat(loop, id));
    assert RowOk(s.jobs[id], s.history[id]);
    assert RowOk(t.jobs[id], t.history[id]);
    forall l | l in t.held && t.held[l].job == id
      ensures t.held[l].attempt !in t.history[id].retried
    {
      assert HeldOk(s, l);
    }
    RowUpdateKeepsInv(s, t, id);
  }

  lemma CompleteKeepsRow(j: Job, h: History, worker: string, now: int)
    requires RowOk(j, h)
    ensures RowOk(Completed(j, worker, now), h) && SameJob(j, Completed(j, worker, now))
    ensures Completed(j, worker, now).attempts == j.attempts
  {
  }

  lemma CompleteKeepsInv(c: Config, s: Sys, loop: LoopId)
    requires Inv(s) && Enabled(s, Complete(loop))
    ensures Inv(Apply(c, s, Complete(loop)))
  {
    var id := s.held[loop].job;
    var t := Apply(c, s, Complete(loop));
    CompleteKeepsRow(s.jobs[id], s.history[id], c.name(loop), s.now);
    hide RowOk, Completed;
    forall l | l in t.held && t.held[l].job == id
      ensures t.held[l].attempt !in t.history[id].retried
    {
      assert HeldOk(s, l);
    }
    RowUpdateKeepsInv(s, t, id);
  }

  /** Leaving all rows alone, advancing the clock or dropping a loop keeps the invariant. */
  lemma QuietKeepsInv(s: Sys, t: Sys)
    requires Inv(s) && t.jobs == s.jobs && t.history == s.history
    requires forall l :: l in t.held ==> l in s.held && t.held[l] == s.held[l]
    ensures Inv(t)
  {
    forall l | l in t.held
      ensures HeldOk(t, l)
    {
      assert HeldOk(s, l);
    }
  }

  lemma StepKeepsInv(c: Config, s: Sys, step: Step)
    requires Inv(s)
    ensures Inv(Next(c, s, step))
  {
    if Enabled(s, step) {
      match step
      case Tick(_) => QuietKeepsInv(s, Apply(c, s, step));
      case Enqueue(_, _, _, _, _) => EnqueueKeepsInv(c, s, step);
      case Claim(loop, id) => ClaimKeepsInv(c, s, loop, id);
      case Heartbeat(loop, id) => HeartbeatKeepsInv(c, s, loop, id);
      case Complete(loop) => CompleteKeepsInv(c, s, loop);
      case Fail(loop, error) => FailKeepsInv(c, s, loop, error);
      case Abandon(loop) => QuietKeepsInv(s, Apply(c, s, step));
    }
  }

  lemma {:induction false} RunKeepsInv(c: Config, s: Sys, steps: seq<Step>)
    requires Inv(s)
    ensures Inv(Run(c, s, steps))
  {
    if steps != [] {
      RunKeepsInv(c, s, steps[..|steps| - 1]);
      StepKeepsInv(c, Run(c, s, steps[..|steps| - 1]), steps[|steps| - 1]);
    }
  }

  // ----- Conservation and dead-lettering, for every assignment of worker ids -----

  /** Every claim is accounted for: by an applied failure, by a lease taken over, or by the current lease or success. */
  lemma Conservation(c: Config, steps: seq<Step>, id: JobId)
    requires id in Run(c, EMPTY, steps).jobs
    ensures var s := Run(c, EMPTY, steps); var j := s.jobs[id]; var h := Note(s, id);
            && j.attempts ==
               Failures(j, h) + h.reclaims + (if j.status == Running || j.status == Succeeded then 1 else 0)
            && (j.status == Running <==> j.leaseOwner.Some?) && (j.status == Running <==> j.leaseUntil.Some?)
            && (j.status == Dead ==> j.attempts >= j.maxAttempts)
  {
    RunKeepsInv(c, EMPTY, steps);
    var s := Run(c, EMPTY, steps);
    assert RowOk(s.jobs[id], s.history[id]);
  }

  lemma {:induction false} BoundedNats(s: set<nat>, n: nat)
    requires forall x :: x in s ==> 1 <= x <= n
    ensures |s| <= n
  {
    if n == 0 {
      assert s == {};
    } else {
      BoundedNats(s - {n}, n - 1);
      assert |s| <= |s - {n}| + 1;
    }
  }

  /** At most max_attempts failures are ever applied to a job, even when loops share a worker id. */
  lemma AtMostMaxFailures(c: Config, steps: seq<Step>, id: JobId)
    requires id in Run(c, EMPTY, steps).jobs
    ensures var s := Run(c, EMPTY, steps); Failures(s.jobs[id], Note(s, id)) <= s.jobs[id].maxAttempts
  {
    RunKeepsInv(c, EMPTY, steps);
    var s := Run(c, EMPTY, steps);
    assert RowOk(s.jobs[id], s.history[id]);
    BoundedNats(s.history[id].retried, s.jobs[id].maxAttempts - 1);
  }

  // ----- Enqueue -----

  lemma FinishedIsFree(s: Sys, id: JobId)
    requires Inv(s) && id in s.jobs
    ensures s.jobs[id].status == Succeeded || s.jobs[id].status == Dead ==> s.jobs[id].leaseOwner.None?
  {
    assert RowOk(s.jobs[id], s.history[id]);
  }

  lemma StepKeepsIdentity(c: Config, s: Sys, step: Step, id: JobId)
    requires Inv(s) && id in s.jobs
    ensures id in Next(c, s, step).jobs
    ensures SameJob(s.jobs[id], Next(c, s, step).jobs[id])
    ensures s.jobs[id].status == Succeeded || s.jobs[id].status == Dead ==> Next(c, s, step).jobs[id] == s.jobs[id]
  {
    FinishedIsFree(s, id);
    hide Inv, PowerOfTwo, UniqueKeys, KeyTaken;
    if Enabled(s, step) {
      match step
      case Claim(_, other) => assert id != other ==> Apply(c, s, step).jobs[id] == s.jobs[id];
      case Fail(loop, _) => assert id != s.held[loop].job ==> Apply(c, s, step).jobs[id] == s.jobs[id];
      case _ =>
    }
  }

  /** A job keeps its key, its work and its attempt limit, and SUCCEEDED and DEAD rows never change again. */
  lemma {:induction false} IdentityIsStable(c: Config, s: Sys, steps: seq<Step>, id: JobId)
    requires Inv(s) && id in s.jobs
    ensures id in Run(c, s, steps).jobs
    ensures var j, k := s.jobs[id], Run(c, s, steps).jobs[id];
            && SameJob(j, k)
            && (j.status == Succeeded || j.status == Dead ==> k == j)
  {
    if steps != [] {
      IdentityIsStable(c, s, steps[..|steps| - 1], id);
      RunKeepsInv(c, s, steps[..|steps| - 1]);
      StepKeepsIdentity(c, Run(c, s, steps[..|steps| - 1]), steps[|steps| - 1], id);
    }
  }

  /** The id that Enqueue answers with, and whether it reports a new job. */
  ghost predicate Answers(s: Sys, request: Step, id: JobId, created: bool)
    requires request.Enqueue?
  {
    && ValidRequest(request.org, request.key, request.priority) && request.id !in s.jobs
    && if KeyTaken(s.jobs, request.org, request.key)
       then HasKey(s.jobs, id, request.org, request.key) && !created
       else id == request.id && created
  }

  /**
   Two requests with one key, any steps apart: both get the first job's id and only the first may report a new job.
   */
  lemma EnqueueIsIdempotent(c: Config, before: seq<Step>, first: Step, between: seq<Step>, second: Step,
                            id1: JobId, created1: bool, id2: JobId, created2: bool)
    requires first.Enqueue? && second.Enqueue? && first.org == second.org && first.key == second.key
    requires Answers(Run(c, EMPTY, before), first, id1, created1)
    requires Answers(Run(c, Next(c, Run(c, EMPTY, before), first), between), second, id2, created2)
    ensures id1 == id2 && !created2
    ensures id1 in Run(c, EMPTY, before).jobs <==> !created1
  {
    var s := Run(c, EMPTY, before);
    RunKeepsInv(c, EMPTY, before);
    var t := Next(c, s, first);
    StepKeepsInv(c, s, first);
    assert HasKey(t.jobs, id1, first.org, first.key);
    IdentityIsStable(c, t, between, id1);
    RunKeepsInv(c, t, between);
    assert HasKey(Run(c, t, between).jobs, id1, first.org, first.key);
  }

  // ----- Lease exclusivity and progress -----

  /** The step is not one of a loop with this worker id. */
  predicate Foreign(c: Config, step: Step, worker: string) {
    match step
    case Claim(loop, _) => true
    case Heartbeat(loop, _) => c.name(loop) != worker
    case Complete(loop) => c.name(loop) != worker
    case Fail(loop, _) => c.name(loop) != worker
    case _ => true
  }

  /** The job is leased to a worker and the lease has not run out. */
  predicate Leased(s: Sys, id: JobId, worker: string) {
    && id in s.jobs && s.jobs[id].status == Running && s.jobs[id].leaseOwner == Some(worker)
    && s.jobs[id].leaseUntil.Some? && s.now <= s.jobs[id].leaseUntil.value
  }

  lemma {:induction false} ClockRunsForward(c: Config, s: Sys, steps: seq<Step>)
    ensures Run(c, s, steps).now >= s.now
  {
    if steps != [] { ClockRunsForward(c, s, steps[..|steps| - 1]); }
  }

  lemma ForeignStepLeavesRow(c: Config, s: Sys, step: Step, id: JobId, worker: string)
    requires Leased(s, id, worker) && Foreign(c, step, worker)
    ensures id in Next(c, s, step).jobs && Next(c, s, step).jobs[id] == s.jobs[id]
  {
  }

  /**
   A lease is exclusive: until it runs out, whatever others claim, renew, complete, fail or enqueue, the row
   stays as its worker left it.
   */
  lemma {:induction false} LeaseIsExclusive(c: Config, s: Sys, steps: seq<Step>, id: JobId, worker: string)
    requires Leased(s, id, worker) && Run(c, s, steps).now <= s.jobs[id].leaseUntil.value
    requires forall k :: 0 <= k < |steps| ==> Foreign(c, steps[k], worker)
    ensures id in Run(c, s, steps).jobs && Run(c, s, steps).jobs[id] == s.jobs[id]
  {
    if steps != [] {
      var prior := steps[..|steps| - 1];
      var t := Run(c, s, prior);
      ClockRunsForward(c, t, [steps[|steps| - 1]]);
      assert Run(c, t, [steps[|steps| - 1]]) == Next(c, t, steps[|steps| - 1]) by {
        assert [steps[|steps| - 1]][..0] == [];
      }
      LeaseIsExclusive(c, s, prior, id, worker);
      ForeignStepLeavesRow(c, t, steps[|steps| - 1], id, worker);
    }
  }

  function LongestWait(c: Config, loops: nat): int {
    if loops == 0 then LONGEST_BACKOFF
    else
      var rest := LongestWait(c, loops - 1);
      var lease := StoredLease(c, loops - 1) * SECOND;
      if lease > rest then lease else rest
  }

  lemma {:induction false} LongestWaitCovers(c: Config, loops: nat, loop: LoopId)
    ensures LongestWait(c, loops) >= LONGEST_BACKOFF
    ensures loop < loops ==> LongestWait(c, loops) >= StoredLease(c, loop) * SECOND
  {
    if loops > 0 {
      LongestWaitCovers(c, loops - 1, if loop < loops - 1 then loop else 0);
    }
  }

  predicate StepOf(step: Step, loops: nat) {
    match step
    case Claim(loop, _) => loop < loops
    case Heartbeat(loop, _) => loop < loops
    case _ => true
  }

  /** Nothing is scheduled further ahead than the longest back-off or lease in use. */
  ghost predicate Timely(c: Config, s: Sys, loops: nat) {
    forall id :: id in s.jobs ==>
                   && s.jobs[id].availableAt <= s.now + LongestWait(c, loops)
                   && (s.jobs[id].leaseUntil.Some? ==> s.jobs[id].leaseUntil.value <= s.now + LongestWait(c, loops))
  }

  lemma FailKeepsTimely(c: Config, s: Sys, loop: LoopId, error: string, loops: nat)
    requires Inv(s) && Timely(c, s, loops) && Enabled(s, Fail(loop, error))
    ensures Timely(c, Apply(c, s, Fail(loop, error)), loops)
  {
    LongestWaitCovers(c, loops, 0);
    assert HeldOk(s, loop);
    BackoffBounds(s.held[loop].attempt);
  }

  lemma StepKeepsTimely(c: Config, s: Sys, step: Step, loops: nat)
    requires Inv(s) && Timely(c, s, loops) && StepOf(step, loops)
    ensures Timely(c, Next(c, s, step), loops)
  {
    hide Inv, Timely, Apply;
    if Enabled(s, step) {
      match step
      case Claim(loop, _) => LeaseKeepsTimely(c, s, step, loops);
      case Heartbeat(loop, _) => LeaseKeepsTimely(c, s, step, loops);
      case Fail(loop, error) => FailKeepsTimely(c, s, loop, error, loops);
      case _ => OtherStepKeepsTimely(c, s, step, loops);
    }
  }

  lemma LeaseKeepsTimely(c: Config, s: Sys, step: Step, loops: nat)
    requires Timely(c, s, loops) && StepOf(step, loops) && Enabled(s, step) && (step.Claim? || step.Heartbeat?)
    ensures Timely(c, Apply(c, s, step), loops)
  {
    LongestWaitCovers(c, loops, step.loop);
  }

  lemma OtherStepKeepsTimely(c: Config, s: Sys, step: Step, loops: nat)
    requires Timely(c, s, loops) && Enabled(s, step) && !step.Claim? && !step.Heartbeat? && !step.Fail?
    ensures Timely(c, Apply(c, s, step), loops)
  {
    LongestWaitCovers(c, loops, 0);
  }

  lemma {:induction false} RunKeepsTimely(c: Config, steps: seq<Step>, loops: nat)
    requires forall k :: 0 <= k < |steps| ==> StepOf(steps[k], loops)
    ensures Timely(c, Run(c, EMPTY, steps), loops)
  {
    if steps != [] {
      RunKeepsTimely(c, steps[..|steps| - 1], loops);
      RunKeepsInv(c, EMPTY, steps[..|steps| - 1]);
      StepKeepsTimely(c, Run(c, EMPTY, steps[..|steps| - 1]), steps[|steps| - 1], loops);
    }
  }

  /** No job is stuck: left alone, every job that is not finished is claimable once the longest wait has passed. */
  lemma NoStuckJob(c: Config, steps: seq<Step>, loops: nat, id: JobId, later: int)
    requires forall k :: 0 <= k < |steps| ==> StepOf(steps[k], loops)
    requires id in Run(c, EMPTY, steps).jobs
    requires later > Run(c, EMPTY, steps).now + LongestWait(c, loops)
    ensures var j := Run(c, EMPTY, steps).jobs[id];
            j.status == Succeeded || j.status == Dead || Claimable(j, later)
  {
    RunKeepsTimely(c, steps, loops);
    RunKeepsInv(c, EMPTY, steps);
    var s := Run(c, EMPTY, steps);
    assert RowOk(s.jobs[id], s.history[id]);
  }

  /**
   In every run a failure that is applied makes the job wait two seconds, doubled with every attempt up to the eighth,
   for the attempt that the loop was handed, and keeps the start of the error.
   */
  lemma AppliedFailureWaits(c: Config, steps: seq<Step>, loop: LoopId, error: string)
    requires loop in Run(c, EMPTY, steps).held && Run(c, EMPTY, steps).held[loop].job in Run(c, EMPTY, steps).jobs
    requires var s := Run(c, EMPTY, steps); s.jobs[s.held[loop].job].leaseOwner == Some(c.name(loop))
    ensures var s := Run(c, EMPTY, steps); var h := s.held[loop];
            var row := Next(c, s, Fail(loop, error)).jobs[h.job];
            && row.availableAt == s.now + BackoffSeconds(h.attempt) * 1_000_000_000
            && row.lastError == Some(if |error| <= 500 then error else error[..500])
            && (row.status == Dead <==> h.attempt >= h.max) && (row.status == Queued <==> h.attempt < h.max)
  {
    hide Run;
  }

  // ----- Fencing: what distinct worker ids add -----

  ghost predicate DistinctNames(c: Config) {
    forall a, b :: a != b ==> c.name(a) != c.name(b)
  }

  ghost predicate Fenced(c: Config, s: Sys) {
    && (forall loop :: loop in s.held && s.held[loop].job in s.jobs
                       && s.jobs[s.held[loop].job].leaseOwner == Some(c.name(loop)) ==>
                         s.held[loop].attempt == s.jobs[s.held[loop].job].attempts)
    && (forall id :: id in s.jobs && s.jobs[id].status == Queued ==> s.jobs[id].attempts < s.jobs[id].maxAttempts)
  }

  lemma ClaimKeepsFence(c: Config, s: Sys, loop: LoopId, id: JobId)
    requires DistinctNames(c) && Fenced(c, s) && Enabled(s, Claim(loop, id))
    ensures Fenced(c, Apply(c, s, Claim(loop, id)))
  {
    var t := Apply(c, s, Claim(loop, id));
    forall l | l in t.held && t.held[l].job in t.jobs && t.jobs[t.held[l].job].leaseOwner == Some(c.name(l))
      ensures t.held[l].attempt == t.jobs[t.held[l].job].attempts
    {
      assert l == loop || t.held[l] == s.held[l];
    }
  }

  lemma FailKeepsFence(c: Config, s: Sys, loop: LoopId, error: string)
    requires Inv(s) && Fenced(c, s) && Enabled(s, Fail(loop, error))
    ensures Fenced(c, Apply(c, s, Fail(loop, error)))
  {
    assert HeldOk(s, loop);
  }

  lemma StepKeepsFence(c: Config, s: Sys, step: Step)
    requires DistinctNames(c) && Inv(s) && Fenced(c, s)
    ensures Fenced(c, Next(c, s, step))
  {
    hide Inv, Fenced, Apply;
    if Enabled(s, step) {
      match step
      case Claim(loop, id) => ClaimKeepsFence(c, s, loop, id);
      case Fail(loop, error) => FailKeepsFence(c, s, loop, error);
      case _ => OtherStepKeepsFence(c, s, step);
    }
  }

  lemma OtherStepKeepsFence(c: Config, s: Sys, step: Step)
    requires Fenced(c, s) && Enabled(s, step) && !step.Claim? && !step.Fail?
    ensures Fenced(c, Apply(c, s, step))
  {
  }

  lemma {:induction false} RunKeepsFence(c: Config, steps: seq<Step>)
    requires DistinctNames(c)
    ensures Fenced(c, Run(c, EMPTY, steps))
  {
    if steps != [] {
      RunKeepsFence(c, steps[..|steps| - 1]);
      RunKeepsInv(c, EMPTY, steps[..|steps| - 1]);
      StepKeepsFence(c, Run(c, EMPTY, steps[..|steps| - 1]), steps[|steps| - 1]);
    }
  }

  /** With distinct worker ids, a loop whose lease was taken over cannot change the row again. */
  lemma StaleWorkerIsFenced(c: Config, steps: seq<Step>, loop: LoopId, error: string)
    requires DistinctNames(c)
    requires var s := Run(c, EMPTY, steps);
             loop in s.held && s.held[loop].job in s.jobs && s.held[loop].attempt < s.jobs[s.held[loop].job].attempts
    ensures var s := Run(c, EMPTY, steps); var id := s.held[loop].job;
            && Next(c, s, Heartbeat(loop, id)).jobs == s.jobs
            && Next(c, s, Complete(loop)).jobs == s.jobs
            && Next(c, s, Fail(loop, error)).jobs == s.jobs
  {
    RunKeepsFence(c, steps);
  }

  /**
   With distinct worker ids, a queued job always has an attempt left, and an applied failure is about the current
   attempt.
   */
  lemma FailuresAreCurrent(c: Config, steps: seq<Step>, loop: LoopId, error: string)
    requires DistinctNames(c)
    requires loop in Run(c, EMPTY, steps).held
    ensures var s := Run(c, EMPTY, steps);
            && (forall id :: id in s.jobs && s.jobs[id].status == Queued ==>
                  s.jobs[id].attempts < s.jobs[id].maxAttempts)
            && s.held[loop].job in s.jobs
            && (Next(c, s, Fail(loop, error)).jobs != s.jobs ==>
                  s.held[loop].attempt == s.jobs[s.held[loop].job].attempts)
  {
    RunKeepsFence(c, steps);
    RunKeepsInv(c, EMPTY, steps);
    assert HeldOk(Run(c, EMPTY, steps), loop);
  }
}
