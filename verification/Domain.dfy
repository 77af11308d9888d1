/** The verification verdict and the lifecycle of an offboarding case. */
module Domain {

  datatype VerificationStatus = Verified | PartiallyVerified | VerificationFailed | Inconclusive

  datatype VerificationInput = VerificationInput(
    managed: int, disabled: int, active: int, unresolved: int, manual: int, systemsFailed: int,
    requiredSystemsResponded: bool)

  function EvaluateVerification(v: VerificationInput): VerificationStatus {
    if v.systemsFailed > 0 || !v.requiredSystemsResponded then Inconclusive
    else if v.active > 0 then VerificationFailed
    else if v.unresolved > 0 || v.manual > 0 || v.disabled < v.managed then PartiallyVerified
    else Verified
  }

  datatype CaseStatus =
    | Draft | Planned | AwaitingApproval | Approved | Running | Verifying
    | CaseCompleted | CaseFailed | CasePartial | Cancelled

  predicate CanTransitionCase(from: CaseStatus, to: CaseStatus) {
    match from
    case Draft => to == Planned || to == Cancelled
    case Planned => to == AwaitingApproval || to == Cancelled
    case AwaitingApproval => to == Approved || to == Cancelled
    case Approved => to == Running || to == Cancelled
    case Running => to == Verifying || to == CaseFailed || to == CasePartial
    case Verifying => to == CaseCompleted || to == CaseFailed || to == CasePartial
    case _ => false
  }

  predicate Finished(s: CaseStatus) {
    s == CaseCompleted || s == CaseFailed || s == CasePartial
  }

  predicate Terminal(s: CaseStatus) {
    Finished(s) || s == Cancelled
  }

  /** A walk along the allowed edges. */
  predicate Walk(path: seq<CaseStatus>) {
    forall i :: 0 <= i < |path| - 1 ==> CanTransitionCase(path[i], path[i + 1])
  }

  /** `to` follows `from` by one or more allowed edges. */
  ghost predicate Reaches(from: CaseStatus, to: CaseStatus) {
    exists path :: |path| >= 2 && path[0] == from && path[|path| - 1] == to && Walk(path)
  }

  /** The strict rank of the transition table. */
  function Rank(s: CaseStatus): nat {
    match s
    case Draft => 0
    case Planned => 1
    case AwaitingApproval => 2
    case Approved => 3
    case Running => 4
    case Verifying => 5
    case _ => 6
  }

  /** The whole table: each edge climbs by one, but four statuses can be cancelled and a run can stop early. */
  lemma EdgesAre(from: CaseStatus, to: CaseStatus)
    ensures CanTransitionCase(from, to) <==>
            || (to == Cancelled && from in {Draft, Planned, AwaitingApproval, Approved})
            || (to != Cancelled && Rank(to) == Rank(from) + 1)
            || (from == Running && to in {CaseFailed, CasePartial})
  {
  }

  /** How many statuses can have been stored before this one: no statement stores PLANNED. */
  function Stored(s: CaseStatus): nat {
    if Rank(s) <= 1 then 0 else Rank(s) - 1
  }

  lemma ReachesByOne(from: CaseStatus, to: CaseStatus)
    requires CanTransitionCase(from, to)
    ensures Reaches(from, to)
  {
    var path := [from, to];
    assert Walk(path) && path[0] == from && path[|path| - 1] == to;
  }

  lemma ReachesByTwo(from: CaseStatus, via: CaseStatus, to: CaseStatus)
    requires CanTransitionCase(from, via) && CanTransitionCase(via, to)
    ensures Reaches(from, to)
  {
    var path := [from, via, to];
    assert Walk(path) && path[0] == from && path[|path| - 1] == to;
  }

  /** A walk climbs with every edge, and none leaves a terminal status. */
  lemma {:induction false} WalkClimbs(path: seq<CaseStatus>)
    requires |path| >= 2 && Walk(path)
    ensures Rank(path[0]) < Rank(path[|path| - 1])
    ensures !Terminal(path[0])
  {
    if |path| > 2 {
      assert CanTransitionCase(path[0], path[1]);
      assert forall i :: 0 <= i < |path[1..]| - 1 ==> CanTransitionCase(path[1..][i], path[1..][i + 1]);
      WalkClimbs(path[1..]);
    }
  }

  /** Reachability is a strict order without terminal starting points. */
  lemma ReachabilityIsStrict(from: CaseStatus, to: CaseStatus)
    requires Reaches(from, to)
    ensures Rank(from) < Rank(to)
    ensures !Terminal(from) && from != to
  {
    var path :| |path| >= 2 && path[0] == from && path[|path| - 1] == to && Walk(path);
    WalkClimbs(path);
  }

  /** The next status on the way to any other. */
  function Towards(from: CaseStatus, to: CaseStatus): CaseStatus {
    if to == Cancelled || Rank(from) == 5 then to
    else if from == Draft then Planned
    else if from == Planned then AwaitingApproval
    else if from == AwaitingApproval then Approved
    else if from == Approved then Running
    else Verifying
  }

  /** Exactly which statuses follow which: every higher one, but cancellation only before the case runs. */
  lemma {:induction false} ReachesExactly(from: CaseStatus, to: CaseStatus)
    ensures Reaches(from, to) <==> Rank(from) < Rank(to) && (to == Cancelled ==> Rank(from) <= 3)
    decreases 6 - Rank(from)
  {
    if Reaches(from, to) {
      ReachabilityIsStrict(from, to);
      if to == Cancelled {
        CancelledEarly(from);
      }
    }
    if Rank(from) < Rank(to) && (to == Cancelled ==> Rank(from) <= 3) {
      var next := Towards(from, to);
      assert CanTransitionCase(from, next);
      if next == to {
        ReachesByOne(from, to);
      } else {
        ReachesExactly(next, to);
        ReachesAfter(from, next, to);
      }
    }
  }

  lemma ReachesAfter(from: CaseStatus, via: CaseStatus, to: CaseStatus)
    requires CanTransitionCase(from, via) && Reaches(via, to)
    ensures Reaches(from, to)
  {
    var rest :| |rest| >= 2 && rest[0] == via && rest[|rest| - 1] == to && Walk(rest);
    var path := [from] + rest;
    assert Walk(path) && path[0] == from && path[|path| - 1] == to;
  }

  lemma CancelledEarly(from: CaseStatus)
    requires Reaches(from, Cancelled)
    ensures Rank(from) <= 3
  {
    var path :| |path| >= 2 && path[0] == from && path[|path| - 1] == Cancelled && Walk(path);
    var n := |path| - 2;
    assert CanTransitionCase(path[n], path[n + 1]);
    if n > 0 {
      assert Walk(path[..n + 1]);
      WalkClimbs(path[..n + 1]);
    }
  }
}
