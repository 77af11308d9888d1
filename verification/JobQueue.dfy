/** The rows of `distributed_jobs` and what each statement of the worker loops does to one of them. */
module JobQueue {
  import opened Common

  type JobId = nat

  const MINIMUM_LEASE: int := 10 * SECOND
  const DEFAULT_LEASE: int := 120 * SECOND
  const DEFAULT_MAX_ATTEMPTS: nat := 5
  const LONGEST_BACKOFF: int := 256 * SECOND

  datatype Status = Queued | Running | Succeeded | Dead

  /** The kind of a job together with its decoded payload. */
  datatype Work = ConnectorSync(connector: nat) | LifecycleExecute(caseId: nat)

  datatype Job = Job(
    org: string, work: Work, key: string, priority: int, createdAt: int,
    status: Status, attempts: nat, maxAttempts: nat, availableAt: int,
    leaseOwner: Option<string>, leaseUntil: Option<int>,
    startedAt: Option<int>, completedAt: Option<int>, lastError: Option<string>)

  /** What `claim` hands to the handler: the attempt number is a copy taken at the claim. */
  datatype ClaimedJob = ClaimedJob(id: JobId, work: Work, attempts: nat, maxAttempts: nat)

  function WholeSeconds(d: int): int
    requires d >= 0
  {
    d / SECOND
  }

  function Lease(requested: int): (lease: int)
    ensures lease >= MINIMUM_LEASE
  {
    if requested < MINIMUM_LEASE then DEFAULT_LEASE else requested
  }

  predicate ValidRequest(org: string, key: string, priority: int) {
    org != "" && key != "" && 0 <= priority <= 1000
  }

  function NewJob(org: string, work: Work, key: string, priority: int, now: int): Job {
    Job(org, work, key, priority, now, Queued, 0, DEFAULT_MAX_ATTEMPTS, now, None, None, None, None, None)
  }

  predicate Claimable(j: Job, now: int) {
    || (j.status == Queued && j.availableAt <= now)
    || (j.status == Running && j.leaseUntil.Some? && j.leaseUntil.value < now)
  }

  /** ORDER BY priority DESC, created_at. */
  predicate Precedes(a: Job, b: Job) {
    a.priority > b.priority || (a.priority == b.priority && a.createdAt < b.createdAt)
  }

  /** A row that the candidate query may return while the rows in `locked` are held elsewhere. */
  predicate IsCandidate(jobs: map<JobId, Job>, now: int, locked: set<JobId>, id: JobId) {
    && id in jobs && id !in locked && Claimable(jobs[id], now)
    && forall other :: other in jobs && other !in locked && Claimable(jobs[other], now) ==>
                         !Precedes(jobs[other], jobs[id])
  }

  function Claimed(j: Job, worker: string, now: int, leaseSeconds: int): Job {
    j.(status := Running, leaseOwner := Some(worker), leaseUntil := Some(now + leaseSeconds * SECOND),
       attempts := j.attempts + 1, startedAt := if j.startedAt.Some? then j.startedAt else Some(now))
  }

  function Extended(j: Job, worker: string, now: int, leaseSeconds: int): Job {
    if j.status == Running && j.leaseOwner == Some(worker)
    then j.(leaseUntil := Some(now + leaseSeconds * SECOND))
    else j
  }

  function Completed(j: Job, worker: string, now: int): Job {
    if j.leaseOwner == Some(worker)
    then j.(status := Succeeded, completedAt := Some(now), leaseOwner := None, leaseUntil := None, lastError := None)
    else j
  }

  function PowerOfTwo(n: nat): int {
    if n == 0 then 1 else 2 * PowerOfTwo(n - 1)
  }

  function BackoffSeconds(attempt: nat): int {
    PowerOfTwo(if attempt < 8 then attempt else 8)
  }

  /** The retry or dead-letter update, driven by the attempt number the worker was handed. */
  function Retried(j: Job, worker: string, now: int, attempt: nat, max: nat, error: string): Job {
    if j.leaseOwner == Some(worker)
    then j.(status := if attempt >= max then Dead else Queued,
            availableAt := now + BackoffSeconds(attempt) * SECOND,
            leaseOwner := None, leaseUntil := None,
            lastError := Some(if |error| <= 500 then error else error[..500]),
            completedAt := if attempt >= max then Some(now) else None)
    else j
  }

  /** Rows that already carry an idempotency key. */
  predicate HasKey(jobs: map<JobId, Job>, id: JobId, org: string, key: string) {
    id in jobs && jobs[id].org == org && jobs[id].key == key
  }

  /** The UNIQUE (organization_id, idempotency_key) constraint. */
  ghost predicate UniqueKeys(jobs: map<JobId, Job>) {
    forall a, b :: a in jobs && b in jobs && jobs[a].org == jobs[b].org && jobs[a].key == jobs[b].key ==> a == b
  }

  /** The order of the candidate query always has a first row. */
  lemma {:induction false} BestExists(jobs: map<JobId, Job>, open: set<JobId>)
    requires open != {} && open <= jobs.Keys
    ensures exists id :: id in open && forall other :: other in open ==> !Precedes(jobs[other], jobs[id])
  {
    var x :| x in open;
    if open == {x} {
      assert forall other :: other in open ==> !Precedes(jobs[other], jobs[x]);
    } else {
      BestExists(jobs, open - {x});
      var y :| y in open - {x} && forall other :: other in open - {x} ==> !Precedes(jobs[other], jobs[y]);
      var best := if Precedes(jobs[x], jobs[y]) then x else y;
      forall other | other in open
        ensures !Precedes(jobs[other], jobs[best])
      {
        assert other == x || other in open - {x};
      }
    }
  }

  /** A failed attempt waits 2, 4, ... and from the eighth on 256 seconds. */
  lemma BackoffBounds(attempt: nat)
    requires attempt >= 1
    ensures 2 <= BackoffSeconds(attempt) <= 256
    ensures attempt >= 8 ==> BackoffSeconds(attempt) == 256
    ensures attempt < 8 ==> BackoffSeconds(attempt + 1) == 2 * BackoffSeconds(attempt)
  {
    assert PowerOfTwo(3) == 8;
    assert PowerOfTwo(6) == 64;
  }

  /** Two heartbeat periods fit strictly inside the whole-second lease that is stored. */
  lemma HeartbeatFitsLease(requested: int)
    ensures var lease := Lease(requested); 2 * (lease / 3) < WholeSeconds(lease) * SECOND
  {
    var lease := Lease(requested);
    assert WholeSeconds(lease) * SECOND > lease - SECOND;
  }
}
