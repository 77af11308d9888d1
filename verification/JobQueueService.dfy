/**
 The distributed queue as its processes run it.  `trace` is the run that the shared table has seen, whoever took its
 steps, so every theorem about runs speaks about the object.
 */
module JobQueueService {
  import opened Common
  import opened JobQueue
  import R = JobQueueRuns

  /** The table that all processes share; the worker id and the lease of every loop are fixed by its configuration. */
  class JobTable {
    var jobs: map<JobId, Job>
    ghost var trace: seq<R.Step>
    ghost const config: R.Config

    ghost function State(): R.Sys
      reads this
    {
      R.Run(config, R.EMPTY, trace)
    }

    ghost predicate Valid()
      reads this
    {
      jobs == State().jobs
    }

    constructor (ghost config: R.Config)
      ensures Valid() && jobs == map[] && State() == R.EMPTY && this.config == config
    {
      jobs := map[];
      trace := [];
      this.config := config;
    }

    /** INSERT .. ON CONFLICT on the idempotency key: the id of the row that carries the key afterwards. */
    method Upsert(id: JobId, org: string, work: Work, key: string, priority: int, now: int) returns (returned: JobId)
      requires Valid() && id !in jobs && State().now <= now && ValidRequest(org, key, priority)
      modifies this
      ensures Valid() && State().now == now && State().held == old(State()).held && old(trace) <= trace
      ensures HasKey(jobs, returned, org, key)
      ensures returned == id <==> !exists known :: HasKey(old(jobs), known, org, key)
      ensures jobs == if returned == id then old(jobs)[id := NewJob(org, work, key, priority, now)] else old(jobs)
    {
      Take(config, trace, now, R.Enqueue(id, org, work, key, priority));
      trace := trace + [R.Tick(now - State().now), R.Enqueue(id, org, work, key, priority)];
      if known :| known in jobs && HasKey(jobs, known, org, key) {
        returned := known;
      } else {
        jobs := jobs[id := NewJob(org, work, key, priority, now)];
        returned := id;
      }
    }
  }

  /** A statement at a later time is a tick and a step. */
  lemma Take(c: R.Config, trace: seq<R.Step>, now: int, step: R.Step)
    requires R.Run(c, R.EMPTY, trace).now <= now
    ensures var s := R.Run(c, R.EMPTY, trace); var more := trace + [R.Tick(now - s.now), step];
            && R.Inv(s) && R.Run(c, R.EMPTY, more) == R.Next(c, s.(now := now), step)
            && trace <= more
  {
    var s := R.Run(c, R.EMPTY, trace);
    R.RunKeepsInv(c, R.EMPTY, trace);
    hide R.Inv;
    var ticked := trace + [R.Tick(now - s.now)];
    R.RunSnoc(c, trace, R.Tick(now - s.now));
    R.RunSnoc(c, ticked, step);
    assert trace + [R.Tick(now - s.now), step] == ticked + [step];
  }

  lemma ClaimTaken(c: R.Config, trace: seq<R.Step>, now: int, loop: R.LoopId, id: JobId)
    requires var s := R.Run(c, R.EMPTY, trace);
             s.now <= now && loop !in s.held && id in s.jobs && Claimable(s.jobs[id], now)
    ensures var s := R.Run(c, R.EMPTY, trace); var more := trace + [R.Tick(now - s.now), R.Claim(loop, id)];
            var t := R.Run(c, R.EMPTY, more);
            var row := Claimed(s.jobs[id], c.name(loop), now, WholeSeconds(Lease(c.lease(loop))));
            t.now == now && t.jobs == s.jobs[id := row]
                && t.held == s.held[loop := R.Held(id, row.attempts, row.maxAttempts)]
  {
    Take(c, trace, now, R.Claim(loop, id));
    hide R.Run, R.Inv;
  }

  lemma HeartbeatTaken(c: R.Config, trace: seq<R.Step>, now: int, loop: R.LoopId, job: JobId)
    requires var s := R.Run(c, R.EMPTY, trace); s.now <= now && job in s.jobs
    ensures var s := R.Run(c, R.EMPTY, trace);
            var t := R.Run(c, R.EMPTY, trace + [R.Tick(now - s.now), R.Heartbeat(loop, job)]);
            && t.held == s.held
            && t.jobs == s.jobs[job := Extended(s.jobs[job], c.name(loop), now, WholeSeconds(Lease(c.lease(loop))))]
  {
    Take(c, trace, now, R.Heartbeat(loop, job));
    hide R.Run, R.Inv, Extended;
  }

  lemma FinishTaken(c: R.Config, trace: seq<R.Step>, now: int, loop: R.LoopId, failure: Option<string>)
    requires var s := R.Run(c, R.EMPTY, trace); s.now <= now && loop in s.held
    ensures var s := R.Run(c, R.EMPTY, trace); var h := s.held[loop];
            var step := if failure.Some? then R.Fail(loop, failure.value) else R.Complete(loop);
            var t := R.Run(c, R.EMPTY, trace + [R.Tick(now - s.now), step]);
            && h.job in s.jobs && h.attempt >= 1
            && t.held == s.held - {loop}
            && t.jobs == s.jobs[h.job :=
                 if failure.Some? then Retried(s.jobs[h.job], c.name(loop), now, h.attempt, h.max, failure.value)
                 else Completed(s.jobs[h.job], c.name(loop), now)]
  {
    HeldJobExists(c, trace, loop);
    Take(c, trace, now, if failure.Some? then R.Fail(loop, failure.value) else R.Complete(loop));
    hide R.Run, R.Inv, Retried, Completed;
  }

  /** With distinct worker ids the row that a loop owns is at the attempt that the loop holds. */
  lemma OwnedIsCurrent(c: R.Config, trace: seq<R.Step>, loop: R.LoopId)
    requires R.DistinctNames(c) && loop in R.Run(c, R.EMPTY, trace).held
    ensures var s := R.Run(c, R.EMPTY, trace);
            && s.held[loop].job in s.jobs
            && (s.jobs[s.held[loop].job].leaseOwner == Some(c.name(loop)) ==>
                  s.held[loop].attempt == s.jobs[s.held[loop].job].attempts)
  {
    HeldJobExists(c, trace, loop);
    R.RunKeepsFence(c, trace);
    hide R.Run;
  }

  lemma CompletedIsReleased(was: Job, worker: string, now: int, job: ClaimedJob)
    ensures was.leaseOwner != Some(worker) ==> Completed(was, worker, now) == was
    ensures was.leaseOwner == Some(worker) ==> Released(was, Completed(was, worker, now), job, None, now)
  {
  }

  lemma RetriedIsReleased(was: Job, worker: string, now: int, job: ClaimedJob, error: string)
    requires job.attempts >= 1
    ensures var row := Retried(was, worker, now, job.attempts, job.maxAttempts, error);
            && (was.leaseOwner != Some(worker) ==> row == was)
            && (was.leaseOwner == Some(worker) ==> Released(was, row, job, Some(error), now))
  {
    BackoffBounds(job.attempts);
  }

  lemma Wait(c: R.Config, trace: seq<R.Step>, now: int)
    requires R.Run(c, R.EMPTY, trace).now <= now
    ensures var s := R.Run(c, R.EMPTY, trace);
            R.Run(c, R.EMPTY, trace + [R.Tick(now - s.now)]) == s.(now := now)
  {
    R.RunSnoc(c, trace, R.Tick(now - R.Run(c, R.EMPTY, trace).now));
  }

  lemma HeldJobExists(c: R.Config, trace: seq<R.Step>, loop: R.LoopId)
    requires loop in R.Run(c, R.EMPTY, trace).held
    ensures var s := R.Run(c, R.EMPTY, trace);
            && s.held[loop].job in s.jobs && s.held[loop].attempt >= 1
            && s.held[loop].max == s.jobs[s.held[loop].job].maxAttempts
  {
    R.RunKeepsInv(c, R.EMPTY, trace);
    assert R.HeldOk(R.Run(c, R.EMPTY, trace), loop);
  }

  /** Every row but one is as before. */
  ghost predicate OnlyRow(before: map<JobId, Job>, after: map<JobId, Job>, id: JobId) {
    after.Keys == before.Keys && forall other :: other in before && other != id ==> after[other] == before[other]
  }

  /** One process: every loop it starts carries the same worker id. */
  class DistributedQueue {
    const table: JobTable
    const workerId: string
    const lease: int

    /** Whatever lease is asked for, the one in use has room for two heartbeats within its whole seconds. */
    constructor (table: JobTable, workerId: string, requestedLease: int)
      ensures this.table == table && this.workerId == workerId
      ensures lease == if requestedLease < 10_000_000_000 then 120_000_000_000 else requestedLease
      ensures 2 * (lease / 3) < WholeSeconds(lease) * SECOND
    {
      this.table := table;
      this.workerId := workerId;
      lease := Lease(requestedLease);
      HeartbeatFitsLease(requestedLease);
    }

    /** The loop is one of this process. */
    ghost predicate Mine(loop: R.LoopId) {
      table.config.name(loop) == workerId && Lease(table.config.lease(loop)) == lease
    }

    method Enqueue(id: JobId, org: string, work: Work, key: string, priority: int, now: int)
      returns (r: Result<(JobId, bool), string>)
      requires table.Valid() && id !in table.jobs && table.State().now <= now
      modifies table
      ensures table.Valid() && old(table.trace) <= table.trace
      ensures r.Err? <==> org == "" || key == "" || priority < 0 || priority > 1000
      ensures r.Err? ==> table.jobs == old(table.jobs)
      ensures r.Ok? ==> Carries(table.jobs, r.value.0, org, key)
      ensures r.Ok? ==> (r.value.1 <==> !exists known :: Carries(old(table.jobs), known, org, key))
      ensures r.Ok? && !r.value.1 ==> table.jobs == old(table.jobs)
      ensures r.Ok? && r.value.1 ==>
                && r.value.0 == id
                && table.jobs == old(table.jobs)[id :=
                     Job(org, work, key, priority, now, Queued, 0, 5, now, None, None, None, None, None)]
    {
      if !ValidRequest(org, key, priority) {
        return Err("invalid distributed job");
      }
      var returned := table.Upsert(id, org, work, key, priority, now);
      assert forall jobs, known :: Carries(jobs, known, org, key) <==> HasKey(jobs, known, org, key);
      r := Ok((returned, returned == id));
    }

    /** `claim`: the best visible row moves to this worker; no row is left behind unless all are locked. */
    method Claim(loop: R.LoopId, now: int, locked: set<JobId>) returns (r: Option<ClaimedJob>)
      requires table.Valid() && Mine(loop) && loop !in table.State().held && table.State().now <= now
      modifies table
      ensures table.Valid() && old(table.trace) <= table.trace && table.State().now == now
      ensures r.None? <==> forall id :: id in old(table.jobs) && id !in locked ==> !Ready(old(table.jobs)[id], now)
      ensures r.None? ==> table.jobs == old(table.jobs) && loop !in table.State().held
      ensures r.Some? ==>
                var id := r.value.id;
                && id in old(table.jobs) && id !in locked && Ready(old(table.jobs)[id], now)
                && (forall other ::
                      other in old(table.jobs) && other !in locked && Ready(old(table.jobs)[other], now) ==>
                        NotBefore(old(table.jobs)[other], old(table.jobs)[id]))
                && table.jobs == old(table.jobs)[id := Taken(old(table.jobs)[id], workerId, now, lease)]
                && r.value == ClaimedJob(id, table.jobs[id].work, table.jobs[id].attempts, table.jobs[id].maxAttempts)
                && loop in table.State().held
                && table.State().held[loop] == R.Held(id, r.value.attempts, r.value.maxAttempts)
    {
      hide R.Run;
      ReadyIsClaimable(table.jobs, now);
      var open := set id | id in table.jobs && id !in locked && Claimable(table.jobs[id], now);
      if open == {} {
        assert forall id :: id in table.jobs && id !in locked && Claimable(table.jobs[id], now) ==> id in open;
        Wait(table.config, table.trace, now);
        table.trace := table.trace + [R.Tick(now - table.State().now)];
        return None;
      }
      BestExists(table.jobs, open);
      var id :| id in open && forall other :: other in open ==> !Precedes(table.jobs[other], table.jobs[id]);
      var j := Claimed(table.jobs[id], workerId, now, WholeSeconds(lease));
      ClaimedIsTaken(table.jobs[id], workerId, now, lease);
      ClaimTaken(table.config, table.trace, now, loop, id);
      table.trace := table.trace + [R.Tick(now - table.State().now), R.Claim(loop, id)];
      table.jobs := table.jobs[id := j];
      r := Some(ClaimedJob(id, j.work, j.attempts, j.maxAttempts));
    }

    /** The heartbeat moves nothing but the lease, forward from now, and only of a running row that this worker owns. */
    method Heartbeat(loop: R.LoopId, job: JobId, now: int)
      requires table.Valid() && Mine(loop) && job in table.jobs && table.State().now <= now
      modifies table
      ensures table.Valid() && old(table.trace) <= table.trace && table.State().held == old(table.State()).held
      ensures OnlyRow(old(table.jobs), table.jobs, job)
      ensures var was, row := old(table.jobs)[job], table.jobs[job];
              if was.status == Running && was.leaseOwner == Some(workerId)
              then row == was.(leaseUntil := Some(now + lease - lease % 1_000_000_000))
              else row == was
    {
      hide R.Run;
      HeartbeatTaken(table.config, table.trace, now, loop, job);
      table.trace := table.trace + [R.Tick(now - table.State().now), R.Heartbeat(loop, job)];
      WholeLease(lease);
      table.jobs := table.jobs[job := Extended(table.jobs[job], workerId, now, WholeSeconds(lease))];
    }

    /**
     The tail of `execute`: the handler returned `failure`, or nothing went wrong.  A row of another worker is left
     alone; with distinct worker ids a row that changes is still at the attempt that was handed out.
     */
    method Finish(loop: R.LoopId, job: ClaimedJob, failure: Option<string>, now: int)
      requires table.Valid() && Mine(loop) && table.State().now <= now
      requires loop in table.State().held && table.State().held[loop] == R.Held(job.id, job.attempts, job.maxAttempts)
      modifies table
      ensures table.Valid() && old(table.trace) <= table.trace
      ensures table.State().held == old(table.State()).held - {loop}
      ensures job.id in old(table.jobs) && OnlyRow(old(table.jobs), table.jobs, job.id)
      ensures var was, row := old(table.jobs)[job.id], table.jobs[job.id];
              && (was.leaseOwner != Some(workerId) ==> row == was)
              && (was.leaseOwner == Some(workerId) ==> Released(was, row, job, failure, now))
              && (R.DistinctNames(table.config) && row != was ==> job.attempts == was.attempts)
    {
      hide R.Run, R.DistinctNames, Released, Retried, Completed;
      if R.DistinctNames(table.config) {
        OwnedIsCurrent(table.config, table.trace, loop);
      }
      FinishTaken(table.config, table.trace, now, loop, failure);
      match failure {
        case None =>
          CompletedIsReleased(table.jobs[job.id], workerId, now, job);
          table.trace := table.trace + [R.Tick(now - table.State().now), R.Complete(loop)];
          table.jobs := table.jobs[job.id := Completed(table.jobs[job.id], workerId, now)];
        case Some(e) =>
          RetriedIsReleased(table.jobs[job.id], workerId, now, job, e);
          table.trace := table.trace + [R.Tick(now - table.State().now), R.Fail(loop, e)];
          var row := Retried(table.jobs[job.id], workerId, now, job.attempts, job.maxAttempts, e);
          table.jobs := table.jobs[job.id := row];
      }
    }
  }

  /** A row that the candidate query sees: waiting and due, or running past its lease. */
  predicate Ready(j: Job, now: int) {
    || (j.status == Queued && j.availableAt <= now)
    || (j.status == Running && j.leaseUntil.Some? && j.leaseUntil.value < now)
  }

  /** Priority decides, and among equals age. */
  predicate NotBefore(other: Job, taken: Job) {
    other.priority <= taken.priority && (other.priority == taken.priority ==> other.createdAt >= taken.createdAt)
  }

  /** The row with the lease of a worker: one more attempt, leased for the whole seconds, started if it was not. */
  function Taken(j: Job, worker: string, now: int, lease: int): Job {
    j.(status := Running, leaseOwner := Some(worker), leaseUntil := Some(now + lease - lease % 1_000_000_000),
       attempts := j.attempts + 1, startedAt := if j.startedAt.None? then Some(now) else j.startedAt)
  }

  predicate Carries(jobs: map<JobId, Job>, id: JobId, org: string, key: string) {
    id in jobs && jobs[id].org == org && jobs[id].key == key
  }

  lemma WholeLease(lease: int)
    requires lease >= 0
    ensures WholeSeconds(lease) * SECOND == lease - lease % 1_000_000_000
  {
  }

  lemma ClaimedIsTaken(j: Job, worker: string, now: int, lease: int)
    requires lease >= 0
    ensures Claimed(j, worker, now, WholeSeconds(lease)) == Taken(j, worker, now, lease)
  {
    WholeLease(lease);
  }

  lemma ReadyIsClaimable(jobs: map<JobId, Job>, now: int)
    ensures forall id :: id in jobs ==> (Ready(jobs[id], now) <==> Claimable(jobs[id], now))
    ensures forall a, b :: a in jobs && b in jobs ==> (NotBefore(jobs[a], jobs[b]) <==> !Precedes(jobs[a], jobs[b]))
  {
  }

  /**
   The lease is gone and the attempt number stays; the job succeeded, waits twice as long with every attempt up to the
   eighth, or is dead with no attempt left.
   */
  ghost predicate Released(was: Job, row: Job, job: ClaimedJob, failure: Option<string>, now: int) {
    && row.leaseOwner.None? && row.leaseUntil.None? && row.attempts == was.attempts && R.SameJob(was, row)
    && match failure
       case None => row.status == Succeeded && row.completedAt == Some(now) && row.lastError.None?
       case Some(error) =>
         && row.lastError == Some(if |error| <= 500 then error else error[..500])
         && row.availableAt == now + BackoffSeconds(job.attempts) * 1_000_000_000
         && (row.status == Dead || row.status == Queued)
         && (row.status == Dead <==> job.attempts >= job.maxAttempts) && (row.completedAt.Some? <==> row.status == Dead)
  }
}
