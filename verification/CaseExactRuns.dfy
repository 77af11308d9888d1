/** Exactness of the verdict over whole runs. */
module CaseExactRuns {
  import opened Common
  import opened Domain
  import opened Connectors
  import opened CaseTables
  import opened CaseRuns
  import opened CaseInvariant
  import opened CaseSteps
  import opened CaseTheorems
  import opened CaseVerification
  import opened CaseExactness
  import opened Outcomes

  /** What the execution of the case itself has to keep. */
  ghost predicate OwnExact(s: State, e: ExecId)
    requires e in s.execs
  {
    && (forall k :: k in s.db.actions && k.caseId == s.execs[e].caseId ==> KeyExact(s, k))
    && AtItemExact(s, s.execs[e]) && FailedHasCause(s, s.execs[e])
  }

  lemma CoverageStays(s: State, t: State, c: CaseId)
    requires c in s.db.cases && c in t.db.cases && Covered(s, c) && t.db.cases[c].person == s.db.cases[c].person
    requires t.db.links == s.db.links && t.db.accounts.Keys == s.db.accounts.Keys
    requires t.db.actions.Keys == s.db.actions.Keys
    ensures Covered(t, c) && Linked(t.db, s.db.cases[c].person) == Linked(s.db, s.db.cases[c].person)
  {
    var p := s.db.cases[c].person;
    assert Linked(t.db, p) == Linked(s.db, p);
    forall a | a in Linked(t.db, p)
      ensures exists k :: k in t.db.actions && k.caseId == c && k.account == a
    {
      var k :| k in s.db.actions && k.caseId == c && k.account == a;
      assert k in t.db.actions;
    }
  }

  // ----- Steps inside the loop -----

  /** Keys other than the one at hand keep their relation to the stored state. */
  lemma OtherKeysStay(s: State, t: State, c: CaseId, key: ActionKey)
    requires c in s.db.cases && Covered(s, c) && key in s.db.actions && key.caseId == c && SameExcept(s, t, key)
    requires forall a :: a in s.db.accounts && a != key.account ==>
             a in t.db.accounts && t.db.accounts[a] == s.db.accounts[a]
    requires t.db.accounts.Keys == s.db.accounts.Keys
    requires forall k :: k in s.db.actions && k.caseId == c ==> KeyExact(s, k)
    ensures forall k :: k in t.db.actions && k.caseId == c && k != key ==> KeyExact(t, k)
  {
    forall k | k in t.db.actions && k.caseId == c && k != key
      ensures KeyExact(t, k)
    {
      assert SameAction(s, t, k);
      assert k.account != key.account;
      assert KeyExact(s, k);
    }
  }

  lemma CausesStay(s: State, t: State, e: ExecId, i: nat)
    requires IterationStep(s, t, e, i) && FailedHasCause(s, s.execs[e]) && ExecOk(s, e)
    requires t.execs[e].failed == s.execs[e].failed
    requires FailedAt(s, s.execs[e], i) ==> FailedAt(t, t.execs[e], i)
    ensures FailedHasCause(t, t.execs[e])
  {
    hide ItemOk, Grows;
    var x, y := s.execs[e], t.execs[e];
    forall id | id in y.failed
      ensures exists j :: 0 <= j < |y.items| && y.items[j].connector == id && FailedAt(t, y, j)
    {
      var j :| 0 <= j < |x.items| && x.items[j].connector == id && FailedAt(s, x, j);
      if j != i {
        assert x.items[j].key != x.items[i].key;
        assert SameAction(s, t, x.items[j].key);
      }
      assert FailedAt(t, y, j);
    }
  }

  lemma MarkExact(s: State, e: ExecId, i: nat)
    requires e in s.execs && s.execs[e].pc == At(i) && i < |s.execs[e].items| && ExecOk(s, e)
    requires ItemOk(s, s.execs[e], i)
    requires s.execs[e].caseId in s.db.cases && Covered(s, s.execs[e].caseId) && OwnExact(s, e)
    requires IterationStep(s, Mark(s, e, i), e, i)
    ensures OwnExact(Mark(s, e, i), e)
  {
    hide Covers, Grows, CountAccounts;
    var t, k := Mark(s, e, i), s.execs[e].items[i].key;
    OtherKeysStay(s, t, s.execs[e].caseId, k);
    CausesStay(s, t, e, i);
    assert KeyExact(s, k);
  }

  lemma ActKeepsCauses(s: State, e: ExecId, i: nat, answer: Answer)
    requires e in s.execs && s.execs[e].pc == Acting(i) && i < |s.execs[e].items| && FailedHasCause(s, s.execs[e])
    ensures FailedHasCause(Act(s, e, i, answer), Act(s, e, i, answer).execs[e])
  {
    var t := Act(s, e, i, answer);
    var x, y := s.execs[e], t.execs[e];
    assert y.items == x.items;
    assert y.failed == x.failed
           || (y.failed == x.failed + {x.items[i].connector} && y.pc == Recording(i, ActionFailed));
    hide Act;
    forall id | id in y.failed
      ensures exists j :: 0 <= j < |y.items| && y.items[j].connector == id && FailedAt(t, y, j)
    {
      if id in x.failed {
        var j :| 0 <= j < |x.items| && x.items[j].connector == id && FailedAt(s, x, j);
        assert FailedAt(t, y, j);
      } else {
        assert y.items[i].connector == id && FailedAt(t, y, i);
      }
    }
  }

  lemma ActExact(s: State, e: ExecId, i: nat, answer: Answer)
    requires e in s.execs && s.execs[e].pc == Acting(i) && i < |s.execs[e].items| && ExecOk(s, e)
    requires ItemOk(s, s.execs[e], i)
    requires s.execs[e].caseId in s.db.cases && Covered(s, s.execs[e].caseId) && OwnExact(s, e)
    ensures OwnExact(Act(s, e, i, answer), e)
  {
    ActKeepsCauses(s, e, i, answer);
    var t := Act(s, e, i, answer);
    KeysSameDb(s, t, s.execs[e].caseId);
    hide Covers, Covered, ItemOk, FailedHasCause, KeyExact, CountAccounts;
  }

  lemma StoreExact(s: State, e: ExecId, i: nat)
    requires e in s.execs && s.execs[e].pc == Storing(i) && i < |s.execs[e].items| && ExecOk(s, e)
    requires ItemOk(s, s.execs[e], i)
    requires s.execs[e].caseId in s.db.cases && Covered(s, s.execs[e].caseId) && OwnExact(s, e)
    requires IterationStep(s, Store(s, e, i), e, i)
    ensures OwnExact(Store(s, e, i), e)
  {
    hide Covers, Grows, CountAccounts;
    var t, k := Store(s, e, i), s.execs[e].items[i].key;
    OtherKeysStay(s, t, s.execs[e].caseId, k);
    CausesStay(s, t, e, i);
  }

  lemma RecordExact(s: State, e: ExecId, i: nat, outcome: ActionStatus)
    requires e in s.execs && s.execs[e].pc == Recording(i, outcome) && i < |s.execs[e].items| && ExecOk(s, e)
    requires ItemOk(s, s.execs[e], i)
    requires s.execs[e].caseId in s.db.cases && Covered(s, s.execs[e].caseId) && OwnExact(s, e)
    requires IterationStep(s, Record(s, e, i, outcome), e, i)
    ensures OwnExact(Record(s, e, i, outcome), e)
  {
    hide Covers, Grows, CountAccounts;
    var t, k := Record(s, e, i, outcome), s.execs[e].items[i].key;
    OtherKeysStay(s, t, s.execs[e].caseId, k);
    CausesStay(s, t, e, i);
    assert KeyExact(t, k);
  }

  lemma ProveExact(s: State, e: ExecId, i: nat, outcome: ActionStatus)
    requires e in s.execs && s.execs[e].pc == Proving(i, outcome) && i < |s.execs[e].items| && ExecOk(s, e)
    requires ItemOk(s, s.execs[e], i)
    requires s.execs[e].caseId in s.db.cases && Covered(s, s.execs[e].caseId) && OwnExact(s, e)
    requires IterationStep(s, Prove(s, e, i, outcome), e, i)
    ensures OwnExact(Prove(s, e, i, outcome), e)
  {
    hide Covers, Grows, CountAccounts;
    var t, k := Prove(s, e, i, outcome), s.execs[e].items[i].key;
    OtherKeysStay(s, t, s.execs[e].caseId, k);
    CausesStay(s, t, e, i);
    assert KeyExact(s, k);
  }

  // ----- The verdict -----

  /**
   After the loop every linked account is DISABLED exactly when every action succeeded, and then there is no manual
   action and no failed system.
   */
  lemma WorkDecides(s: State, e: ExecId)
    requires e in s.execs && AfterLoop(s.execs[e].pc) && ExecOk(s, e)
    requires Covered(s, s.execs[e].caseId) && OwnExact(s, e)
    ensures var c := s.execs[e].caseId; var p := s.db.cases[c].person;
            && (AllSucceeded(s, c) <==> !SomeNotDisabled(s.db, p))
            && (AllSucceeded(s, c) ==> !SomeManual(s.db, c) && s.execs[e].failed == {})
  {
    hide Covers;
    var c := s.execs[e].caseId;
    EveryActionHasOutcome(s, e);
    AllSucceededMeansAllDisabled(s, c);
    FailedSystemHasFailedAction(s, e);
    if AllSucceeded(s, c) {
      assert forall k :: k in s.db.actions && k.caseId == c ==> KeyExact(s, k);
    }
    assert forall a :: a in Linked(s.db, s.db.cases[c].person) <==> Owned(s.db, a, s.db.cases[c].person);
  }

  /** So a verdict on the tables as they stand after the loop is exact. */
  lemma JudgedIsExact(s: State, e: ExecId, v: VerificationStatus)
    requires e in s.execs && AfterLoop(s.execs[e].pc) && Inv(s) && Exact(s, s.execs[e].caseId)
    requires var c := s.execs[e].caseId; Judges(v, s.db, c, s.db.cases[c].person, s.execs[e].failed)
    ensures var c := s.execs[e].caseId;
            v == Verified <==> AllSucceeded(s, c) && !SomePending(s.db, s.db.cases[c].person)
  {
    assert ExecOk(s, e);
    WorkDecides(s, e);
    ActiveIsNotDisabled(s.db, s.db.cases[s.execs[e].caseId].person);
    hide Inv, Exact, ExecOk, AllSucceeded, SomeActive, SomeNotDisabled, SomePending, SomeManual;
  }

  lemma EveryActionHasOutcome(s: State, e: ExecId)
    requires e in s.execs && AfterLoop(s.execs[e].pc) && ExecOk(s, e)
    ensures forall k :: k in s.db.actions && k.caseId == s.execs[e].caseId ==> Outcome(s.db.actions[k].status)
  {
    var x := s.execs[e];
    forall k | k in s.db.actions && k.caseId == x.caseId
      ensures Outcome(s.db.actions[k].status)
    {
      var j :| 0 <= j < |x.items| && x.items[j].key == k;
      assert ItemOk(s, x, j);
    }
  }

  lemma AllSucceededMeansAllDisabled(s: State, c: CaseId)
    requires c in s.db.cases && Covered(s, c)
    requires forall k :: k in s.db.actions && k.caseId == c ==> KeyExact(s, k) && Outcome(s.db.actions[k].status)
    ensures AllSucceeded(s, c) <==> forall a :: a in Linked(s.db, s.db.cases[c].person) ==>
            s.db.accounts[a].status == Disabled
  {
    var p := s.db.cases[c].person;
    if AllSucceeded(s, c) {
      forall a | a in Linked(s.db, p)
        ensures s.db.accounts[a].status == Disabled
      {
        var k :| k in s.db.actions && k.caseId == c && k.account == a;
        assert KeyExact(s, k);
      }
    }
    if forall a :: a in Linked(s.db, p) ==> s.db.accounts[a].status == Disabled {
      forall k | k in s.db.actions && k.caseId == c
        ensures s.db.actions[k].status == ActionSucceeded
      {
        assert KeyExact(s, k) && k.account in Linked(s.db, p);
      }
    }
  }

  lemma FailedSystemHasFailedAction(s: State, e: ExecId)
    requires e in s.execs && AfterLoop(s.execs[e].pc) && ExecOk(s, e) && FailedHasCause(s, s.execs[e])
    ensures s.execs[e].failed != {} ==>
              exists k :: k in s.db.actions && k.caseId == s.execs[e].caseId && s.db.actions[k].status == ActionFailed
  {
    var x := s.execs[e];
    if x.failed != {} {
      var id :| id in x.failed;
      var j :| 0 <= j < |x.items| && x.items[j].connector == id && FailedAt(s, x, j);
      assert ItemOk(s, x, j);
    }
  }

  lemma FinishKeepsWork(s: State, e: ExecId)
    requires e in s.execs && AfterLoop(s.execs[e].pc)
    ensures var x, y := s.execs[e], FinishExec(s, e).execs[e];
            y.items == x.items && y.failed == x.failed && AfterLoop(y.pc)
  {
    hide CountAccounts, EvaluateVerification, PendingFor, ManualOf, ConnectorsOf;
  }

  lemma FinishExact(s: State, e: ExecId)
    requires e in s.execs && AfterLoop(s.execs[e].pc) && ExecOk(s, e)
    requires Covered(s, s.execs[e].caseId) && OwnExact(s, e)
    ensures OwnExact(FinishExec(s, e), e)
  {
    hide Covers, ItemOk, Covered, FinishExec;
    var t, x := FinishExec(s, e), s.execs[e];
    FinishKeepsWork(s, e);
    forall k | k in t.db.actions && k.caseId == x.caseId
      ensures KeyExact(t, k)
    {
      assert KeyExact(s, k);
    }
    forall id | id in t.execs[e].failed
      ensures exists j :: 0 <= j < |x.items| && x.items[j].connector == id && FailedAt(t, t.execs[e], j)
    {
      var j :| 0 <= j < |x.items| && x.items[j].connector == id && FailedAt(s, x, j);
      assert FailedAt(t, t.execs[e], j);
    }
  }

  // ----- Whole runs -----

  lemma LoopExact(s: State, e: ExecId, answer: Answer)
    requires Inv(s) && e in s.execs && s.execs[e].pc != Loading && Cursor(s.execs[e]) < |s.execs[e].items|
    requires s.execs[e].caseId in s.db.cases && Covered(s, s.execs[e].caseId) && OwnExact(s, e)
    ensures OwnExact(AdvanceExec(s, e, answer), e)
  {
    hide CaseOk, IdsOk, TablesOk, Covered, OwnExact, ItemOk, IterationStep, Covers;
    hide Mark, Act, Store, Record, Prove, FinishExec;
    assert ExecOk(s, e);
    ItemAtCursor(s, e);
    LoopStep(s, e, answer);
    var i := Cursor(s.execs[e]);
    match s.execs[e].pc
    case At(_) => MarkExact(s, e, i);
    case Acting(_) => ActExact(s, e, i, answer);
    case Storing(_) => StoreExact(s, e, i);
    case Recording(_, outcome) => RecordExact(s, e, i, outcome);
    case Proving(_, outcome) => ProveExact(s, e, i, outcome);
  }

  lemma LoopEndsExact(s: State, e: ExecId)
    requires e in s.execs && OwnExact(s, e) && s.execs[e].pc == At(|s.execs[e].items|)
    ensures OwnExact(Goto(s, e, Concluding), e)
  {
    var t, x := Goto(s, e, Concluding), s.execs[e];
    forall k | k in t.db.actions && k.caseId == x.caseId
      ensures KeyExact(t, k)
    {
      assert KeyExact(s, k);
    }
    forall id | id in x.failed
      ensures exists j :: 0 <= j < |x.items| && x.items[j].connector == id && FailedAt(t, t.execs[e], j)
    {
      var j :| 0 <= j < |x.items| && x.items[j].connector == id && FailedAt(s, x, j);
      assert FailedAt(t, t.execs[e], j);
    }
  }

  lemma AdvanceExact(s: State, e: ExecId, answer: Answer)
    requires Inv(s) && e in s.execs && s.execs[e].caseId in s.db.cases
    requires Covered(s, s.execs[e].caseId) && OwnExact(s, e)
    ensures e in AdvanceExec(s, e, answer).execs && OwnExact(AdvanceExec(s, e, answer), e)
  {
    hide CaseOk, IdsOk, TablesOk, Covered, OwnExact, ItemOk, Covers, FinishExec, Mark, Act, Store, Record, Prove;
    assert ExecOk(s, e);
    if AfterLoop(s.execs[e].pc) {
      FinishExact(s, e);
    } else if s.execs[e].pc == At(|s.execs[e].items|) {
      LoopEndsExact(s, e);
    } else if s.execs[e].pc == Loading {
      LoadingDoesNotAdvance(s, e, answer);
    } else {
      LoopExact(s, e, answer);
    }
  }

  lemma OwnAdvanceKeepsExact(s: State, e: ExecId, answer: Answer)
    requires Inv(s) && e in s.execs && Exact(s, s.execs[e].caseId)
    ensures Exact(AdvanceExec(s, e, answer), s.execs[e].caseId)
  {
    hide CaseOk, TablesOk, Covered, KeyExact, AtItemExact, FailedHasCause, AdvanceExec;
    var c := s.execs[e].caseId;
    var t := AdvanceExec(s, e, answer);
    AdvanceMoves(s, e, answer, c);
    CoverageStays(s, t, c);
    AdvanceExact(s, e, answer);
    forall d | d in t.execs && t.execs[d].caseId == c
      ensures d == e
    {
      if d != e { OtherExecsStay(s, e, answer, d); }
    }
  }

  lemma OwnLoadKeepsExact(s: State, e: ExecId, order: seq<ActionKey>)
    requires e in s.execs && ExecOk(s, e) && Exact(s, s.execs[e].caseId)
    ensures Exact(AfterLoad(s, e, order), s.execs[e].caseId)
  {
    hide CountAccounts, Covered, ItemOk, Covers, KeyExact, LoadItems;
    var c, t := s.execs[e].caseId, AfterLoad(s, e, order);
    CoverageStays(s, t, c);
    KeysSameDb(s, t, c);
    forall d | d in t.execs && t.execs[d].caseId == c
      ensures AtItemExact(t, t.execs[d]) && FailedHasCause(t, t.execs[d])
    {
      if d == e && LoadEnabled(s, e, order) {
        assert t.execs[e].failed == {} && t.execs[e].pc == At(0);
      } else {
        ExecSameDb(s, t, c, d);
      }
    }
  }

  lemma KeysSameDb(s: State, t: State, c: CaseId)
    requires t.db == s.db && forall k :: k in s.db.actions && k.caseId == c ==> KeyExact(s, k)
    ensures forall k :: k in t.db.actions && k.caseId == c ==> KeyExact(t, k)
  {
    forall k | k in t.db.actions && k.caseId == c
      ensures KeyExact(t, k)
    {
      assert KeyExact(s, k);
    }
  }

  lemma ExecSameDb(s: State, t: State, c: CaseId, d: ExecId)
    requires t.db == s.db && d in s.execs && d in t.execs && t.execs[d] == s.execs[d] && c in s.db.cases
    requires AtItemExact(s, s.execs[d]) && FailedHasCause(s, s.execs[d])
    ensures AtItemExact(t, t.execs[d]) && FailedHasCause(t, t.execs[d])
  {
    hide CountAccounts;
    var x := s.execs[d];
    forall id | id in x.failed
      ensures exists j :: 0 <= j < |x.items| && x.items[j].connector == id && FailedAt(t, x, j)
    {
      var j :| 0 <= j < |x.items| && x.items[j].connector == id && FailedAt(s, x, j);
      assert FailedAt(t, x, j);
    }
  }

  lemma StepKeepsExact(s: State, step: Step, c: CaseId)
    requires Inv(s) && Exact(s, c)
    requires OwnStep(s, step, c) || SameView(s, Next(s, step), s.db.cases[c].person)
    ensures Exact(Next(s, step), c)
  {
    hide CaseOk, IdsOk, TablesOk, Exact, SameView, Bystander;
    hide StartedIsLeftAlone, AdvanceExec, AfterLoad, Prepare, Surround;
    ExactIsPlanned(s, c);
    if OwnStep(s, step, c) {
      if step.Advance? {
        OwnAdvanceKeepsExact(s, step.e, step.answer);
      } else {
        assert ExecOk(s, step.e);
        OwnLoadKeepsExact(s, step.e, step.order);
      }
    } else {
      StepIsBystander(s, step, c);
      BystanderKeepsExact(s, Next(s, step), c);
    }
  }

  lemma ExactIsPlanned(s: State, c: CaseId)
    requires Exact(s, c)
    ensures c in s.db.cases && s.db.cases[c].status != Draft
  {
  }

  /** Only the execution of the case writes the person's accounts or links. */
  ghost predicate Quiet(s: State, steps: seq<Step>, c: CaseId, p: PersonId) {
    steps == [] ||
    var prior := steps[..|steps| - 1];
    && Quiet(s, prior, c, p)
    && (OwnStep(Run(s, prior), steps[|steps| - 1], c) || SameView(Run(s, prior), Run(s, steps), p))
  }

  lemma {:induction false} QuietRunKeepsExact(s: State, steps: seq<Step>, c: CaseId, p: PersonId)
    requires Inv(s) && Exact(s, c) && p == s.db.cases[c].person && Quiet(s, steps, c, p)
    ensures Exact(Run(s, steps), c) && Run(s, steps).db.cases[c].person == p
  {
    hide Inv, Next, Exact, SameView, OwnStep;
    ExactIsPlanned(s, c);
    if steps != [] {
      var prior := steps[..|steps| - 1];
      QuietRunKeepsExact(s, prior, c, p);
      RunKeepsInv(s, prior);
      ExactIsPlanned(Run(s, prior), c);
      StepKeepsExact(Run(s, prior), steps[|steps| - 1], c);
      StepMoves(Run(s, prior), steps[|steps| - 1], c);
    }
    ExactIsPlanned(Run(s, steps), c);
  }
}
