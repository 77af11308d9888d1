/** What the invariant gives for every run from empty tables. */
module CaseTheorems {
  import opened Common
  import opened Domain
  import opened Connectors
  import opened CaseTables
  import opened CaseRuns
  import opened CaseInvariant
  import opened CaseSteps
  import opened Outcomes

  lemma Reachable(steps: seq<Step>)
    ensures Inv(Run(EMPTY, steps))
  {
    RunKeepsInv(EMPTY, steps);
  }

  /** A run and one step more. */
  lemma RunSnoc(prior: seq<Step>, step: Step)
    ensures Run(EMPTY, prior + [step]) == Next(Run(EMPTY, prior), step)
  {
    hide Next;
    assert (prior + [step])[..|prior|] == prior;
  }

  // ----- At most once -----

  /**
   In every interleaving one execution at most passes the guard of a case, and each action reaches its provider at
   most once.
   */
  lemma AtMostOnce(steps: seq<Step>, c: CaseId, k: ActionKey)
    ensures var s := Run(EMPTY, steps);
            && s.passed[c] <= 1
            && s.calls[k] <= 1
            && (s.calls[k] > 0 ==> s.passed[k.caseId] == 1)
            && (c in s.db.cases ==> (s.passed[c] == 1 <==> Started(s.db.cases[c].status)))
  {
    hide ExecOk, TablesOk, ActionOk, Run, Next;
    Reachable(steps);
    var s := Run(EMPTY, steps);
    if c in s.passed {
      assert CaseOk(s, c);
    }
    if c in s.db.cases {
      assert CaseOk(s, c);
    }
    if k in s.calls {
      assert CaseOk(s, k.caseId);
    }
  }

  /** How a case and its actions go together in every reachable state. */
  lemma CaseAndActionsAreCoupled(steps: seq<Step>, c: CaseId)
    requires c in Run(EMPTY, steps).db.cases
    ensures var s := Run(EMPTY, steps); var status := s.db.cases[c].status; var keys := KeysOf(s.db, c);
            && (status == Draft ==> keys == {})
            && (status == AwaitingApproval ==>
                  keys != {} && forall k :: k in keys ==> s.db.actions[k].status == ActionPlanned)
            && (status == Approved ==>
                  keys != {} && forall k :: k in keys ==>
                      s.db.actions[k].status == ActionApproved && s.db.actions[k].approvedBy.Some?)
            && (Started(status) ==> forall k :: k in keys ==> s.db.actions[k].approvedBy.Some?)
            && (!Started(status) ==> forall k: ActionKey :: k.caseId == c ==> s.calls[k] == 0)
            && (s.db.cases[c].verification.Some? <==> Finished(status))
  {
    hide ExecOk, TablesOk, ActionOk, Run, Next;
    Reachable(steps);
    var s := Run(EMPTY, steps);
    assert CaseOk(s, c);
    if s.db.cases[c].status == AwaitingApproval || s.db.cases[c].status == Approved {
      var k :| k in s.db.actions && k.caseId == c;
      assert k in KeysOf(s.db, c);
    }
    forall k: ActionKey | k.caseId == c && s.calls[k] > 0
      ensures Started(s.db.cases[c].status)
    {
      assert k in s.calls && k in s.db.actions;
    }
  }

  /** The executor never enters its unsupported-type or LDAP-membership branch. */
  lemma ExecutorHasABranch(steps: seq<Step>, e: ExecId)
    requires e in Run(EMPTY, steps).execs && Run(EMPTY, steps).execs[e].pc.Acting?
    ensures var x := Run(EMPTY, steps).execs[e];
            && x.pc.i < |x.items|
            && (Remote(x.items[x.pc.i].key.typ) ==>
                  var branch := Branch(x.items[x.pc.i].typ, x.items[x.pc.i].key.typ);
                  branch != LdapMembershipError && branch != UnsupportedError)
  {
    hide Run, Next;
    Reachable(steps);
    var s := Run(EMPTY, steps);
    assert ExecOk(s, e);
    ItemAtCursor(s, e);
    assert CaseOk(s, s.execs[e].caseId);
    assert ActionOk(s, s.execs[e].items[s.execs[e].pc.i].key);
  }

  /** A finished execution leaves exactly one evidence record per action of the case: its final outcome. */
  lemma OneEvidencePerAction(steps: seq<Step>, e: ExecId, k: ActionKey)
    requires e in Run(EMPTY, steps).execs && Run(EMPTY, steps).execs[e].pc.Returned?
    requires k in KeysOf(Run(EMPTY, steps).db, Run(EMPTY, steps).execs[e].caseId)
    ensures var db := Run(EMPTY, steps).db;
            && Outcome(db.actions[k].status)
            && k in db.evidence && db.evidence[k] == [db.actions[k].status]
  {
    hide Run, Next;
    Reachable(steps);
    var s := Run(EMPTY, steps);
    assert ExecOk(s, e);
    var x := s.execs[e];
    var j :| 0 <= j < |x.items| && x.items[j].key == k;
    assert ItemOk(s, x, j);
  }

  // ----- Case status -----

  predicate Moves(before: CaseStatus, after: CaseStatus) {
    || (before == Draft && after == AwaitingApproval)
    || (before == AwaitingApproval && after == Approved)
    || (before == Approved && after == Running)
    || (before == Running && after == Verifying)
    || (before == Verifying && Finished(after))
    || ((before == Draft || before == AwaitingApproval || before == Approved) && after == Cancelled)
  }

  lemma MovesAreAllowed(before: CaseStatus, after: CaseStatus)
    requires Moves(before, after)
    ensures Reaches(before, after) && Stored(before) < Stored(after)
  {
    if before == Draft && after == AwaitingApproval {
      ReachesByTwo(Draft, Planned, AwaitingApproval);
    } else {
      ReachesByOne(before, after);
    }
  }

  lemma OtherExecsStay(s: State, e: ExecId, answer: Answer, d: ExecId)
    requires e in s.execs && d != e
    ensures d in AdvanceExec(s, e, answer).execs <==> d in s.execs
    ensures d in s.execs ==> AdvanceExec(s, e, answer).execs[d] == s.execs[d]
  {
    hide EvaluateVerification, CountAccounts, ManualOf, PendingFor, ConnectorsOf;
  }

  lemma AdvanceIsNext(s: State, step: Step)
    requires step.Advance?
    ensures Next(s, step) == if step.e in s.execs then AdvanceExec(s, step.e, step.answer) else s
  {
  }

  lemma AdvanceMoves(s: State, e: ExecId, answer: Answer, c: CaseId)
    requires Inv(s) && e in s.execs && c in s.db.cases
    ensures RowFollows(s, AdvanceExec(s, e, answer), c)
  {
    hide CaseOk, IdsOk, TablesOk, ItemOk, Covers, FinishExec, Act, Mark, Store, Record, Prove;
    assert ExecOk(s, e);
    if AfterLoop(s.execs[e].pc) {
      FinishIsRowStep(s, e);
    }
  }

  /** The case row stays, or moves along the stored statuses for the same person. */
  ghost predicate RowFollows(s: State, t: State, c: CaseId)
    requires c in s.db.cases
  {
    && c in t.db.cases && t.db.cases[c].person == s.db.cases[c].person
    && (t.db.cases[c].status == s.db.cases[c].status || Moves(s.db.cases[c].status, t.db.cases[c].status))
  }

  lemma PlanFollows(s: State, d: CaseId, c: CaseId)
    requires c in s.db.cases
    ensures RowFollows(s, Adopt(s, PlanCase(s.db, d)), c)
  {
    hide PlannedActions;
  }

  lemma ApproveFollows(s: State, d: CaseId, user: UserId, c: CaseId)
    requires c in s.db.cases
    ensures RowFollows(s, Adopt(s, ApproveCase(s.db, d, user)), c)
  {
  }

  lemma CancelFollows(s: State, d: CaseId, c: CaseId)
    requires c in s.db.cases && s.db.cases[c].status != Planned
    ensures RowFollows(s, AfterCancel(s, d), c)
  {
    var t := AfterCancel(s, d);
    assert t.db.cases == s.db.cases
           || (d in s.db.cases && Cancellable(s.db.cases[d].status)
               && t.db.cases == s.db.cases[d := s.db.cases[d].(status := Cancelled)]);
    hide AfterCancel;
  }

  lemma PreparationMoves(s: State, step: Step, c: CaseId)
    requires step.CreateCase? || step.Plan? || step.Approve? || step.Cancel? || step.Skip?
    requires c in s.db.cases && s.db.cases[c].status != Planned
    ensures RowFollows(s, Prepare(s, step), c)
  {
    hide PlanCase, ApproveCase, CancelCase, Moves;
    match step
    case CreateCase(_, _) =>
    case Plan(d) => PlanFollows(s, d, c);
    case Approve(d, user) => ApproveFollows(s, d, user, c);
    case Cancel(d) => CancelFollows(s, d, c);
    case Skip(_) =>
  }

  lemma BeginFollows(s: State, e: ExecId, d: CaseId, c: CaseId)
    requires c in s.db.cases
    ensures RowFollows(s, AfterBegin(s, e, d), c)
  {
    var t := AfterBegin(s, e, d);
    assert t.db.cases == s.db.cases
        || (d in s.db.cases && t.db.cases == s.db.cases[d := s.db.cases[d].(status := Running)]);
    hide AfterBegin;
  }

  lemma NeverPlanned(s: State, c: CaseId)
    requires Inv(s) && c in s.db.cases
    ensures s.db.cases[c].status != Planned
  {
    assert CaseOk(s, c);
  }

  lemma StepMoves(s: State, step: Step, c: CaseId)
    requires Inv(s) && c in s.db.cases
    ensures RowFollows(s, Next(s, step), c)
  {
    NeverPlanned(s, c);
    hide Inv, Prepare, Surround, AfterLoad, AdvanceExec, AfterBegin, Moves;
    if step.Begin? {
      BeginFollows(s, step.e, step.c, c);
    } else if step.Advance? {
      if step.e in s.execs { AdvanceMoves(s, step.e, step.answer, c); }
    } else if step.CreateCase? || step.Plan? || step.Approve? || step.Cancel? || step.Skip? {
      PreparationMoves(s, step, c);
    }
  }

  /**
   Every status a statement stores follows the stored one by allowed transitions, also where the statement has no
   guard.
   */
  lemma StatusesFollowTransitions(steps: seq<Step>, step: Step, c: CaseId)
    requires c in Run(EMPTY, steps).db.cases
    ensures var s, t := Run(EMPTY, steps), Next(Run(EMPTY, steps), step);
            && c in t.db.cases
            && (t.db.cases[c].status == s.db.cases[c].status || Reaches(s.db.cases[c].status, t.db.cases[c].status))
            && (Terminal(s.db.cases[c].status) ==> t.db.cases[c].status == s.db.cases[c].status)
  {
    hide Inv, Next;
    Reachable(steps);
    var s := Run(EMPTY, steps);
    StepMoves(s, step, c);
    if Next(s, step).db.cases[c].status != s.db.cases[c].status {
      MovesAreAllowed(s.db.cases[c].status, Next(s, step).db.cases[c].status);
    }
  }

  /** How often the status of an existing case changes along a run. */
  ghost function Changes(s: State, steps: seq<Step>, c: CaseId): nat {
    if steps == [] then 0
    else
      var prior := steps[..|steps| - 1];
      var before, after := Run(s, prior), Run(s, steps);
      var known := c in before.db.cases && c in after.db.cases;
      Changes(s, prior, c) + if known && before.db.cases[c].status != after.db.cases[c].status then 1 else 0
  }

  lemma {:induction false} ChangesAreBounded(steps: seq<Step>, c: CaseId)
    ensures Changes(EMPTY, steps, c) <= (if c in Run(EMPTY, steps).db.cases
            then Stored(Run(EMPTY, steps).db.cases[c].status) else 0)
    ensures Changes(EMPTY, steps, c) <= 5
  {
    hide Inv, Next;
    if steps != [] {
      var prior := steps[..|steps| - 1];
      ChangesAreBounded(prior, c);
      Reachable(prior);
      if c in Run(EMPTY, prior).db.cases {
        StepMoves(Run(EMPTY, prior), steps[|steps| - 1], c);
        var before, after := Run(EMPTY, prior).db.cases[c].status, Run(EMPTY, steps).db.cases[c].status;
        if before != after {
          MovesAreAllowed(before, after);
        }
      }
    }
  }

  // ----- Snapshots -----

  ghost predicate TallyOk(pc: Pc) {
    match pc
    case CountingCandidates(t) => t.disabled + t.active <= t.managed
    case CountingManual(t) => t.disabled + t.active <= t.managed
    case Snapshotting(t) => t.disabled + t.active <= t.managed
    case Closing(t) => t.disabled + t.active <= t.managed
    case _ => true
  }

  ghost predicate SnapshotOk(n: Snapshot) {
    && n.succeeded >= 0 && n.failed >= 0 && n.succeeded + n.failed == n.connected
    && n.tally.disabled + n.tally.active <= n.tally.managed
    && Says(n.status, n.failed > 0, n.tally.active > 0,
            n.tally.disabled < n.tally.managed || n.tally.unresolved > 0 || n.tally.manual > 0)
  }

  ghost predicate SnapshotInv(s: State) {
    && (forall i :: 0 <= i < |s.db.snapshots| ==> SnapshotOk(s.db.snapshots[i]))
    && (forall e :: e in s.execs ==> TallyOk(s.execs[e].pc))
  }

  lemma FailedSystemsAreConnected(s: State, e: ExecId)
    requires e in s.execs && ExecOk(s, e)
    ensures |s.execs[e].failed| <= |ConnectorsOf(s.db, s.execs[e].caseId)|
  {
    var x := s.execs[e];
    forall id | id in x.failed
      ensures id in ConnectorsOf(s.db, x.caseId)
    {
      var j :| 0 <= j < |x.items| && x.items[j].connector == id;
      assert ItemOk(s, x, j);
      assert x.items[j].key in KeysOf(s.db, x.caseId);
    }
    SubsetSize(x.failed, ConnectorsOf(s.db, x.caseId));
  }

  lemma FinishKeepsSnapshots(s: State, e: ExecId)
    requires e in s.execs && ExecOk(s, e) && SnapshotInv(s)
    ensures SnapshotInv(FinishExec(s, e))
  {
    hide ItemOk, Covers, EvaluateVerification, CountAccounts, ManualOf, PendingFor, ConnectorsOf;
    FailedSystemsAreConnected(s, e);
    EqualCountsMeanAllDisabled(s.db, s.db.cases[s.execs[e].caseId].person);
    assert TallyOk(s.execs[e].pc);
    if s.execs[e].pc.Snapshotting? {
      VerdictSays(s.execs[e].pc.tally, |s.execs[e].failed|);
    }
    hide Verdict;
  }

  lemma AdvanceKeepsSnapshots(s: State, e: ExecId, answer: Answer)
    requires e in s.execs && ExecOk(s, e) && SnapshotInv(s)
    ensures SnapshotInv(AdvanceExec(s, e, answer))
  {
    FinishKeepsSnapshots(s, e);
    hide ExecOk, SnapshotOk, FinishExec, Act, MarkRunning, StoreDisabled, RecordOutcome, AddEvidence;
  }

  lemma StepKeepsSnapshots(s: State, step: Step)
    requires Inv(s) && SnapshotInv(s)
    ensures SnapshotInv(Next(s, step))
  {
    hide CaseOk, ExecOk, IdsOk, TablesOk, SnapshotOk, Prepare, Surround, AdvanceExec, LoadItems, LoadEnabled, StartCase;
    if step.Advance? && step.e in s.execs {
      assert ExecOk(s, step.e);
      AdvanceKeepsSnapshots(s, step.e, step.answer);
    }
  }

  /** Every stored snapshot adds up, and carries the verdict of its own numbers. */
  lemma {:induction false} SnapshotsAddUp(steps: seq<Step>)
    ensures SnapshotInv(Run(EMPTY, steps))
  {
    hide Inv, Next, SnapshotOk, TallyOk;
    if steps != [] {
      SnapshotsAddUp(steps[..|steps| - 1]);
      Reachable(steps[..|steps| - 1]);
      StepKeepsSnapshots(Run(EMPTY, steps[..|steps| - 1]), steps[|steps| - 1]);
    }
  }
}
