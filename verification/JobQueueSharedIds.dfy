/** What depends on worker ids being distinct: `Start` gives all loops of a process the same one. */
module JobQueueSharedIds {
  import opened Common
  import opened JobQueue
  import opened JobQueueRuns

  /** Loop `a` claims the job; then loop `b` takes it over and abandons it, again and again. */
  function Ladder(c: Config, a: LoopId, b: LoopId, n: nat): seq<Step> {
    if n == 0 then [Enqueue(0, "org", LifecycleExecute(0), "lifecycle-execute:0", 200), Claim(a, 0)]
    else Ladder(c, a, b, n - 1) + [Tick(Longer(c, a, b)), Claim(b, 0), Abandon(b)]
  }

  /** Longer than both leases. */
  function Longer(c: Config, a: LoopId, b: LoopId): (elapsed: nat)
    ensures StoredLease(c, a) * SECOND < elapsed && StoredLease(c, b) * SECOND < elapsed
  {
    (StoredLease(c, a) + StoredLease(c, b)) * SECOND
  }

  /** After `n` take-overs the row is at attempt `n + 1` and loop `a` still holds the first. */
  ghost predicate OnRung(c: Config, s: Sys, a: LoopId, b: LoopId, n: nat) {
    && 0 in s.jobs && s.jobs[0].attempts == n + 1 && s.jobs[0].maxAttempts == DEFAULT_MAX_ATTEMPTS
    && s.jobs[0].status == Running && s.jobs[0].leaseUntil.Some?
    && s.jobs[0].leaseOwner == Some(c.name(if n == 0 then a else b))
    && s.jobs[0].leaseUntil.value < s.now + Longer(c, a, b)
    && a in s.held && s.held[a] == Held(0, 1, DEFAULT_MAX_ATTEMPTS) && b !in s.held
  }

  lemma FirstRung(c: Config, a: LoopId, b: LoopId)
    requires a != b
    ensures OnRung(c, Run(c, EMPTY, Ladder(c, a, b, 0)), a, b, 0)
  {
    hide StoredLease;
    var enqueue := Enqueue(0, "org", LifecycleExecute(0), "lifecycle-execute:0", 200);
    RunSnoc(c, [], enqueue);
    RunSnoc(c, [enqueue], Claim(a, 0));
    assert Run(c, EMPTY, []) == EMPTY;
    assert [] + [enqueue] == [enqueue];
    assert [enqueue] + [Claim(a, 0)] == Ladder(c, a, b, 0);
    var s := Run(c, EMPTY, [enqueue]);
    assert 0 in s.jobs && s.jobs[0].attempts == 0 && Claimable(s.jobs[0], s.now) && s.held == map[];
  }

  lemma NextRung(c: Config, s: Sys, a: LoopId, b: LoopId, n: nat)
    requires a != b && OnRung(c, s, a, b, n)
    ensures var t := Next(c, Next(c, Next(c, s, Tick(Longer(c, a, b))), Claim(b, 0)), Abandon(b));
            OnRung(c, t, a, b, n + 1)
  {
    hide StoredLease, Longer;
    var waited := Next(c, s, Tick(Longer(c, a, b)));
    assert Claimable(waited.jobs[0], waited.now);
  }

  lemma {:induction false} LadderClimbs(c: Config, a: LoopId, b: LoopId, n: nat)
    requires a != b
    ensures OnRung(c, Run(c, EMPTY, Ladder(c, a, b, n)), a, b, n)
  {
    hide OnRung, Next, Run;
    if n == 0 {
      FirstRung(c, a, b);
    } else {
      LadderClimbs(c, a, b, n - 1);
      var below := Ladder(c, a, b, n - 1);
      var tick := Tick(Longer(c, a, b));
      NextRung(c, Run(c, EMPTY, below), a, b, n - 1);
      RunSnoc(c, below, tick);
      RunSnoc(c, below + [tick], Claim(b, 0));
      RunSnoc(c, below + [tick] + [Claim(b, 0)], Abandon(b));
      assert below + [tick] + [Claim(b, 0)] + [Abandon(b)] == Ladder(c, a, b, n);
    }
  }

  /**
   Two loops that share a worker id: for every `n` there is a run in which a failure of the first attempt requeues a
   job that has been claimed `n + 1` times, beyond its limit as well.
   */
  lemma SharedIdsBreakTheFence(c: Config, a: LoopId, b: LoopId, n: nat)
    requires a != b && c.name(a) == c.name(b)
    ensures var s := Run(c, EMPTY, Ladder(c, a, b, n)); var t := Run(c, EMPTY, Ladder(c, a, b, n) + [Fail(a, "error")]);
            && a in s.held && s.held[a].attempt == 1 && s.held[a].job == 0
            && 0 in s.jobs && s.jobs[0].attempts == n + 1 && t.jobs != s.jobs
            && 0 in t.jobs && t.jobs[0].status == Queued && t.jobs[0].attempts == n + 1
            && t.jobs[0].maxAttempts == DEFAULT_MAX_ATTEMPTS
  {
    LadderClimbs(c, a, b, n);
    RunSnoc(c, Ladder(c, a, b, n), Fail(a, "error"));
    hide Run, Ladder, Longer;
    assert Next(c, Run(c, EMPTY, Ladder(c, a, b, n)), Fail(a, "error")).jobs[0].status == Queued;
  }

  // ----- Exactly when the fence holds -----

  /** If the loop is stale, none of its statements changes a row. */
  ghost predicate FencedAt(c: Config, steps: seq<Step>, loop: LoopId, error: string) {
    var s := Run(c, EMPTY, steps);
    loop in s.held && s.held[loop].job in s.jobs && s.held[loop].attempt < s.jobs[s.held[loop].job].attempts ==>
      && Next(c, s, Heartbeat(loop, s.held[loop].job)).jobs == s.jobs
      && Next(c, s, Complete(loop)).jobs == s.jobs
      && Next(c, s, Fail(loop, error)).jobs == s.jobs
  }

  /** Every queued job has an attempt left. */
  ghost predicate QueuedHasAttempt(c: Config, steps: seq<Step>) {
    var s := Run(c, EMPTY, steps);
    forall id :: id in s.jobs && s.jobs[id].status == Queued ==> s.jobs[id].attempts < s.jobs[id].maxAttempts
  }

  lemma DistinctNamesFence(c: Config, steps: seq<Step>, loop: LoopId, error: string)
    requires DistinctNames(c)
    ensures FencedAt(c, steps, loop, error) && QueuedHasAttempt(c, steps)
  {
    RunKeepsFence(c, steps);
    var s := Run(c, EMPTY, steps);
    if loop in s.held && s.held[loop].job in s.jobs && s.held[loop].attempt < s.jobs[s.held[loop].job].attempts {
      StaleWorkerIsFenced(c, steps, loop, error);
    }
  }

  lemma SharedNamesBreakBoth(c: Config, a: LoopId, b: LoopId)
    requires a != b && c.name(a) == c.name(b)
    ensures !FencedAt(c, Ladder(c, a, b, 1), a, "error")
    ensures !QueuedHasAttempt(c, Ladder(c, a, b, 4) + [Fail(a, "error")])
  {
    SharedIdsBreakTheFence(c, a, b, 1);
    SharedIdsBreakTheFence(c, a, b, 4);
    RunSnoc(c, Ladder(c, a, b, 1), Fail(a, "error"));
    hide Run, Ladder, Next;
  }

  /**
   Stale workers are fenced off in every run if and only if no two loops share a worker id, and the same is
   equivalent to every queued job having an attempt left in every run.
   */
  lemma FenceIsExact(c: Config)
    ensures DistinctNames(c) <==> forall steps, loop, error :: FencedAt(c, steps, loop, error)
    ensures DistinctNames(c) <==> forall steps :: QueuedHasAttempt(c, steps)
  {
    hide FencedAt, QueuedHasAttempt;
    if DistinctNames(c) {
      forall steps, loop, error
        ensures FencedAt(c, steps, loop, error) && QueuedHasAttempt(c, steps)
      {
        DistinctNamesFence(c, steps, loop, error);
      }
      forall steps
        ensures QueuedHasAttempt(c, steps)
      {
        DistinctNamesFence(c, steps, 0, "");
      }
    } else {
      var a, b :| a != b && c.name(a) == c.name(b);
      SharedNamesBreakBoth(c, a, b);
    }
  }
}
