/**
 Exactness of the work: while only the execution of the case writes the person's accounts and links, the outcomes
 of the actions and the stored states stay in step.
 */
module CaseExactness {
  import opened Common
  import opened Domain
  import opened Connectors
  import opened CaseTables
  import opened CaseRuns
  import opened CaseInvariant
  import opened CaseSteps
  import opened CaseTheorems

  predicate StoredDisabled(s: State, k: ActionKey) {
    k.account in s.db.accounts && s.db.accounts[k.account].status == Disabled
  }

  /** The actions of the case are one for each linked account. */
  ghost predicate Covered(s: State, c: CaseId)
    requires c in s.db.cases
  {
    var linked := Linked(s.db, s.db.cases[c].person);
    && (forall k :: k in s.db.actions && k.caseId == c ==> k.account in linked)
    && (forall a :: a in linked ==> exists k :: k in s.db.actions && k.caseId == c && k.account == a)
    && (forall k, l :: k in KeysOf(s.db, c) && l in KeysOf(s.db, c) && k.account == l.account ==> k == l)
  }

  /** An action that waits still fits the stored state; a finished one tells it. */
  ghost predicate KeyExact(s: State, k: ActionKey)
    requires k in s.db.actions
  {
    match s.db.actions[k].status
    case ActionPlanned => StoredDisabled(s, k) <==> k.typ == VerifyDisabled
    case ActionApproved => StoredDisabled(s, k) <==> k.typ == VerifyDisabled
    case ActionSucceeded => StoredDisabled(s, k) && k.typ != ManualReview
    case ActionFailed => !StoredDisabled(s, k)
    case ActionInconclusive => !StoredDisabled(s, k)
    case _ => true
  }

  ghost predicate AllSucceeded(s: State, c: CaseId) {
    forall k :: k in s.db.actions && k.caseId == c ==> s.db.actions[k].status == ActionSucceeded
  }

  /** A system counted as failed has a failed action. */
  ghost predicate FailedHasCause(s: State, x: Exec) {
    forall id :: id in x.failed ==>
                   exists j :: 0 <= j < |x.items| && x.items[j].connector == id && FailedAt(s, x, j)
  }

  ghost predicate FailedAt(s: State, x: Exec, j: nat)
    requires j < |x.items|
  {
    || (x.items[j].key in s.db.actions && s.db.actions[x.items[j].key].status == ActionFailed)
    || x.pc == Recording(j, ActionFailed)
  }

  ghost predicate AtItemExact(s: State, x: Exec) {
    match x.pc
    case Acting(i) => i < |x.items| ==> (StoredDisabled(s, x.items[i].key) <==> x.items[i].key.typ == VerifyDisabled)
    case Storing(i) => i < |x.items| ==> (StoredDisabled(s, x.items[i].key) <==> x.items[i].key.typ == VerifyDisabled)
    case Recording(i, outcome) =>
      i < |x.items| ==>
        if outcome == ActionSucceeded then StoredDisabled(s, x.items[i].key) && x.items[i].key.typ != ManualReview
        else !StoredDisabled(s, x.items[i].key)
    case _ => true
  }

  ghost predicate Exact(s: State, c: CaseId) {
    && c in s.db.cases && s.db.cases[c].status != Draft && Covered(s, c)
    && (forall k :: k in s.db.actions && k.caseId == c ==> KeyExact(s, k))
    && (forall e :: e in s.execs && s.execs[e].caseId == c ==>
          AtItemExact(s, s.execs[e]) && FailedHasCause(s, s.execs[e]))
  }

  // ----- Planning establishes it -----

  lemma PlanIsExact(s: State, c: CaseId)
    requires Inv(s) && PlanCase(s.db, c).Ok?
    ensures Exact(Next(s, Plan(c)), c)
  {
    hide CaseOk, ExecOk, PlannedActions;
    NotStartedHasNoExec(s, c);
    var t := Next(s, Plan(c));
    var p := s.db.cases[c].person;
    assert CaseOk(s, c);
    NewKeysOnly(s, c);
    assert t.db.cases[c] == s.db.cases[c].(status := AwaitingApproval) && t.execs == s.execs;
    assert Linked(t.db, p) == Linked(s.db, p) == Plannable(s.db, p);
    hide Inv, Next, PlanCase, PlannedAction, AtItemExact, FailedHasCause;
    forall a | a in Linked(t.db, p)
      ensures exists k :: k in t.db.actions && k.caseId == c && k.account == a
    {
      var k := PlannedKey(s.db, c, a);
      assert k in t.db.actions;
    }
  }

  lemma NewKeysOnly(s: State, c: CaseId)
    requires IdsOk(s) && TablesOk(s) && PlanCase(s.db, c).Ok? && CaseOk(s, c)
    ensures var t := Next(s, Plan(c)); var p := s.db.cases[c].person;
            && (forall k :: k in PlannedKeys(s.db, c, p) ==> k in t.db.actions)
            && (forall k :: k in t.db.actions && k.caseId == c ==>
                  && k in PlannedKeys(s.db, c, p) && t.db.actions[k].status == ActionPlanned
                  && (k.typ == VerifyDisabled <==> StoredDisabled(t, k)))
  {
    hide ActionOk, PlannedAction;
    var t := Next(s, Plan(c));
    var keys := PlannedKeys(s.db, c, s.db.cases[c].person);
    PlanAddsPlanned(s, c);
    assert t.db.accounts == s.db.accounts && t.db.actions == PlanCase(s.db, c).value.actions;
    hide Next, PlanCase;
    forall k | k in keys
      ensures k in t.db.actions && t.db.actions[k].status == ActionPlanned
      ensures k.typ == VerifyDisabled <==> StoredDisabled(t, k)
    {
      PlannedActionsOk(s, c, k);
      PlannedKeyFits(s.db, c, s.db.cases[c].person, k);
    }
    hide CaseOk, IdsOk, TablesOk, PlannedKeys;
  }

  lemma PlannedKeyFits(db: Db, c: CaseId, p: PersonId, k: ActionKey)
    requires k in PlannedKeys(db, c, p)
    ensures k.account in db.accounts && (k.typ == VerifyDisabled <==> db.accounts[k.account].status == Disabled)
  {
  }

  /** A DRAFT case has no actions, so those it has after planning were planned. */
  lemma PlanAddsPlanned(s: State, c: CaseId)
    requires PlanCase(s.db, c).Ok? && CaseOk(s, c)
    ensures forall k :: k in PlanCase(s.db, c).value.actions && k.caseId == c ==>
                          k in PlannedKeys(s.db, c, s.db.cases[c].person)
  {
    hide PlannedAction, Plannable;
  }

  // ----- Steps of others -----

  /** The person's accounts and links look the same. */
  ghost predicate SameView(s: State, t: State, p: PersonId) {
    && Linked(t.db, p) == Linked(s.db, p)
    && (forall a :: a in Linked(s.db, p) ==> t.db.accounts[a].status == s.db.accounts[a].status)
  }

  /** Actions of the case are untouched, approved or skipped; its executions are untouched or only begin. */
  ghost predicate Bystander(s: State, t: State, c: CaseId) {
    && c in s.db.cases && c in t.db.cases
    && t.db.cases[c].person == s.db.cases[c].person && t.db.cases[c].status != Draft
    && (forall k: ActionKey :: k.caseId == c ==> (k in s.db.actions <==> k in t.db.actions))
    && (forall k :: k in s.db.actions && k.caseId == c ==>
          || t.db.actions[k].status == s.db.actions[k].status
          || (s.db.actions[k].status == ActionPlanned && t.db.actions[k].status == ActionApproved)
          || (s.db.cases[c].status == Cancelled && t.db.actions[k].status == ActionSkipped))
    && (forall e :: e in t.execs && t.execs[e].caseId == c ==>
          (e in s.execs && t.execs[e] == s.execs[e]) || t.execs[e] == Exec(c, [], {}, Loading))
  }

  lemma ExecStaysExact(s: State, t: State, c: CaseId, e: ExecId)
    requires Exact(s, c) && Bystander(s, t, c) && SameView(s, t, s.db.cases[c].person)
    requires e in s.execs && e in t.execs && t.execs[e] == s.execs[e] && s.execs[e].caseId == c
    requires ExecOk(s, e) && Started(s.db.cases[c].status)
    requires forall k :: k in s.db.actions && k.caseId == c ==> t.db.actions[k].status == s.db.actions[k].status
    ensures AtItemExact(t, t.execs[e]) && FailedHasCause(t, t.execs[e])
  {
    hide KeyExact;
    var x := s.execs[e];
    forall j | 0 <= j < |x.items|
      ensures StoredDisabled(t, x.items[j].key) <==> StoredDisabled(s, x.items[j].key)
      ensures FailedAt(s, x, j) ==> FailedAt(t, x, j)
    {
      assert ItemOk(s, x, j);
    }
  }

  lemma KeysStayExact(s: State, t: State, c: CaseId)
    requires Exact(s, c) && Bystander(s, t, c) && SameView(s, t, s.db.cases[c].person)
    ensures Covered(t, c)
    ensures forall k :: k in t.db.actions && k.caseId == c ==> KeyExact(t, k)
  {
    hide AtItemExact, FailedHasCause;
    forall a | a in Linked(t.db, t.db.cases[c].person)
      ensures exists k :: k in t.db.actions && k.caseId == c && k.account == a
    {
      var k :| k in s.db.actions && k.caseId == c && k.account == a;
      assert k in t.db.actions;
    }
    forall k | k in t.db.actions && k.caseId == c
      ensures KeyExact(t, k)
    {
      assert KeyExact(s, k);
      assert k.account in Linked(s.db, s.db.cases[c].person);
    }
  }

  /** With a started case nobody else touches its actions. */
  ghost predicate StartedIsLeftAlone(s: State, t: State, c: CaseId)
    requires c in s.db.cases
  {
    Started(s.db.cases[c].status) ==>
      forall k :: k in s.db.actions && k.caseId == c ==>
                    k in t.db.actions && t.db.actions[k].status == s.db.actions[k].status
  }

  lemma BystanderKeepsExact(s: State, t: State, c: CaseId)
    requires Inv(s) && Exact(s, c) && Bystander(s, t, c) && SameView(s, t, s.db.cases[c].person)
    requires StartedIsLeftAlone(s, t, c)
    ensures Exact(t, c)
  {
    hide CaseOk, IdsOk, TablesOk, KeyExact, Covered, AtItemExact, FailedHasCause, SameView;
    KeysStayExact(s, t, c);
    forall e | e in t.execs && t.execs[e].caseId == c
      ensures AtItemExact(t, t.execs[e]) && FailedHasCause(t, t.execs[e])
    {
      if e in s.execs && t.execs[e] == s.execs[e] {
        assert ExecOk(s, e);
        ExecStaysExact(s, t, c, e);
      } else {
        FreshExecIsExact(t, e);
      }
    }
  }

  lemma FreshExecIsExact(t: State, e: ExecId)
    requires e in t.execs && t.execs[e] == Exec(t.execs[e].caseId, [], {}, Loading)
    ensures AtItemExact(t, t.execs[e]) && FailedHasCause(t, t.execs[e])
  {
  }

  lemma PlanIsBystander(s: State, d: CaseId, c: CaseId)
    requires IdsOk(s) && c in s.db.cases && s.db.cases[c].status != Draft
    ensures var t := Adopt(s, PlanCase(s.db, d)); Bystander(s, t, c) && StartedIsLeftAlone(s, t, c)
  {
    PlanKeepsOthers(s.db, d);
    hide PlanCase, IdsOk;
  }

  lemma PlanKeepsOthers(db: Db, d: CaseId)
    ensures var r := PlanCase(db, d);
            r.Ok? ==>
              && d in db.cases && db.cases[d].status == Draft
              && r.value.cases == db.cases[d := db.cases[d].(status := AwaitingApproval)]
              && (forall k: ActionKey :: k.caseId != d ==>
                    (k in r.value.actions <==> k in db.actions)
                    && (k in db.actions ==> r.value.actions[k] == db.actions[k]))
  {
    hide PlannedAction;
    if PlanCase(db, d).Ok? {
      forall k: ActionKey | k.caseId != d
        ensures k !in PlannedKeys(db, d, db.cases[d].person)
      {
      }
    }
  }

  lemma ApproveIsBystander(s: State, d: CaseId, user: UserId, c: CaseId)
    requires c in s.db.cases && s.db.cases[c].status != Draft
    ensures var t := Adopt(s, ApproveCase(s.db, d, user)); Bystander(s, t, c) && StartedIsLeftAlone(s, t, c)
  {
    ApprovalGuard(s.db, d, user);
    hide ApproveCase;
    var r := ApproveCase(s.db, d, user);
    if r.Ok? && d == c {
      assert !Started(s.db.cases[c].status);
    }
  }

  lemma ApprovalGuard(db: Db, d: CaseId, user: UserId)
    ensures var r := ApproveCase(db, d, user);
            && (r.Ok? <==> d in db.cases && db.cases[d].status == AwaitingApproval)
            && (r.Ok? ==>
                  r.value == db.(actions := r.value.actions, cases := db.cases[d := db.cases[d].(status := Approved)]))
  {
  }

  lemma SkipIsBystander(s: State, d: CaseId, c: CaseId)
    requires IdsOk(s) && c in s.db.cases && s.db.cases[c].status != Draft
    ensures Bystander(s, AfterSkip(s, d), c) && StartedIsLeftAlone(s, AfterSkip(s, d), c)
  {
    CancellingIsCancelled(s, d);
    SkipFrame(s, d);
    hide SkipActions, IdsOk, Bystander, StartedIsLeftAlone, AfterSkip;
    if d in s.cancelling && d == c {
      SkippedIsBystander(s, AfterSkip(s, d), c);
    } else {
      UntouchedActionsMakeBystander(s, AfterSkip(s, d), c);
    }
  }

  lemma SkipFrame(s: State, d: CaseId)
    ensures AfterSkip(s, d).db.actions == if d in s.cancelling then SkipActions(s.db, d).actions else s.db.actions
  {
    hide SkipActions;
  }

  lemma SkippedIsBystander(s: State, t: State, c: CaseId)
    requires c in s.db.cases && s.db.cases[c].status == Cancelled && t.db.cases == s.db.cases && t.execs == s.execs
    requires t.db.actions.Keys == s.db.actions.Keys
    requires forall k :: k in s.db.actions ==>
             t.db.actions[k].status == s.db.actions[k].status || t.db.actions[k].status == ActionSkipped
    ensures Bystander(s, t, c) && StartedIsLeftAlone(s, t, c)
  {
  }

  lemma CancellingIsCancelled(s: State, d: CaseId)
    requires IdsOk(s)
    ensures d in s.cancelling ==> d in s.db.cases && s.db.cases[d].status == Cancelled
  {
  }

  lemma PreparationIsBystander(s: State, step: Step, c: CaseId)
    requires step.CreateCase? || step.Plan? || step.Approve? || step.Cancel? || step.Skip?
    requires IdsOk(s) && c in s.db.cases && s.db.cases[c].status != Draft
    ensures Bystander(s, Prepare(s, step), c) && StartedIsLeftAlone(s, Prepare(s, step), c)
  {
    hide PlanCase, ApproveCase, SkipActions, IdsOk, Bystander, StartedIsLeftAlone;
    hide Writes, AfterCreate, AfterCancel, AfterSkip, Adopt;
    match step
    case Plan(d) => PlanIsBystander(s, d, c);
    case Approve(d, user) => ApproveIsBystander(s, d, user, c);
    case Skip(d) => SkipIsBystander(s, d, c);
    case CreateCase(d, person) => CreateIsBystander(s, d, person, c);
    case Cancel(d) => CancelIsBystander(s, d, c);
  }

  lemma CreateLeavesCase(s: State, d: CaseId, person: PersonId, c: CaseId)
    requires c in s.db.cases
    ensures c in AfterCreate(s, d, person).db.cases && AfterCreate(s, d, person).db.cases[c] == s.db.cases[c]
  {
  }

  lemma CreateIsBystander(s: State, d: CaseId, person: PersonId, c: CaseId)
    requires c in s.db.cases && s.db.cases[c].status != Draft
    ensures Bystander(s, AfterCreate(s, d, person), c) && StartedIsLeftAlone(s, AfterCreate(s, d, person), c)
  {
    CreateLeavesCase(s, d, person, c);
    hide AfterCreate, Bystander, StartedIsLeftAlone;
    var t := AfterCreate(s, d, person);
    assert t.db.actions == s.db.actions && t.execs == s.execs;
    hide Writes;
    UntouchedActionsMakeBystander(s, t, c);
  }

  lemma CancelIsBystander(s: State, d: CaseId, c: CaseId)
    requires c in s.db.cases && s.db.cases[c].status != Draft
    ensures Bystander(s, AfterCancel(s, d), c) && StartedIsLeftAlone(s, AfterCancel(s, d), c)
  {
    var t := AfterCancel(s, d);
    if CancelCase(s.db, d).Ok? {
      assert t.db.cases[c] == if d == c then s.db.cases[c].(status := Cancelled) else s.db.cases[c];
    }
    assert t.db.actions == s.db.actions && t.execs == s.execs;
    UntouchedActionsMakeBystander(s, t, c);
  }

  lemma UntouchedActionsMakeBystander(s: State, t: State, c: CaseId)
    requires c in s.db.cases && c in t.db.cases && t.db.cases[c].person == s.db.cases[c].person
    requires t.db.cases[c].status != Draft
    requires forall k :: k in s.db.actions && k.caseId == c ==> k in t.db.actions && t.db.actions[k] == s.db.actions[k]
    requires forall k :: k in t.db.actions && k.caseId == c ==> k in s.db.actions
    requires forall e :: e in t.execs && t.execs[e].caseId == c ==> e in s.execs && t.execs[e] == s.execs[e]
    ensures Bystander(s, t, c) && StartedIsLeftAlone(s, t, c)
  {
  }

  lemma AdvanceLeavesOthers(s: State, e: ExecId, answer: Answer, c: CaseId)
    requires Inv(s) && e in s.execs && s.execs[e].caseId != c
    ensures var t := AdvanceExec(s, e, answer);
            && (forall k :: k in s.db.actions && k.caseId == c ==>
                  k in t.db.actions && t.db.actions[k] == s.db.actions[k])
            && (forall k :: k in t.db.actions && k.caseId == c ==> k in s.db.actions)
            && (forall d :: d in t.execs && t.execs[d].caseId == c ==> d in s.execs && t.execs[d] == s.execs[d])
  {
    hide CaseOk, TablesOk, IdsOk, FinishExec, ItemOk, Covers, Mark, Act, Record, Prove, Store, Grows;
    assert ExecOk(s, e);
    if AfterLoop(s.execs[e].pc) {
      FinishIsRowStep(s, e);
    } else if s.execs[e].pc == Loading {
      LoadingDoesNotAdvance(s, e, answer);
    } else if Cursor(s.execs[e]) < |s.execs[e].items| {
      LoopLeavesOthers(s, e, answer, c);
    }
  }

  lemma LoopLeavesOthers(s: State, e: ExecId, answer: Answer, c: CaseId)
    requires Inv(s) && e in s.execs && s.execs[e].caseId != c
    requires ExecOk(s, e) && s.execs[e].pc != Loading && Cursor(s.execs[e]) < |s.execs[e].items|
    ensures var t := AdvanceExec(s, e, answer);
            && (forall k :: k in s.db.actions && k.caseId == c ==>
                  k in t.db.actions && t.db.actions[k] == s.db.actions[k])
            && (forall k :: k in t.db.actions && k.caseId == c ==> k in s.db.actions)
            && (forall d :: d in t.execs && t.execs[d].caseId == c ==> d in s.execs && t.execs[d] == s.execs[d])
  {
    ItemAtCursor(s, e);
    LoopStep(s, e, answer);
    ItemBelongsToCase(s, e, Cursor(s.execs[e]));
    hide Inv, ExecOk, AdvanceExec, ItemOk, Grows;
    var t := AdvanceExec(s, e, answer);
    forall k: ActionKey | k.caseId == c
      ensures k in s.db.actions <==> k in t.db.actions
      ensures k in s.db.actions ==> t.db.actions[k] == s.db.actions[k]
    {
      assert SameAction(s, t, k);
    }
  }

  lemma AdvanceOfOtherIsBystander(s: State, e: ExecId, answer: Answer, c: CaseId)
    requires Inv(s) && e in s.execs && s.execs[e].caseId != c && c in s.db.cases && s.db.cases[c].status != Draft
    ensures var t := AdvanceExec(s, e, answer); Bystander(s, t, c) && StartedIsLeftAlone(s, t, c)
  {
    hide Inv, AdvanceExec, Bystander, StartedIsLeftAlone;
    AdvanceMoves(s, e, answer, c);
    AdvanceLeavesOthers(s, e, answer, c);
    UntouchedActionsMakeBystander(s, AdvanceExec(s, e, answer), c);
  }

  lemma LoadingDoesNotAdvance(s: State, e: ExecId, answer: Answer)
    requires e in s.execs && s.execs[e].pc == Loading
    ensures AdvanceExec(s, e, answer) == s
  {
  }

  lemma ItemBelongsToCase(s: State, e: ExecId, j: nat)
    requires e in s.execs && j < |s.execs[e].items| && ItemOk(s, s.execs[e], j)
    ensures s.execs[e].items[j].key.caseId == s.execs[e].caseId
  {
  }

  /** The step belongs to the execution of the case. */
  predicate OwnStep(s: State, step: Step, c: CaseId) {
    || (step.Advance? && step.e in s.execs && s.execs[step.e].caseId == c)
    || (step.Load? && step.e in s.execs && s.execs[step.e].caseId == c)
  }

  lemma StepIsBystander(s: State, step: Step, c: CaseId)
    requires Inv(s) && c in s.db.cases && s.db.cases[c].status != Draft && !OwnStep(s, step, c)
    ensures Bystander(s, Next(s, step), c) && StartedIsLeftAlone(s, Next(s, step), c)
  {
    hide CaseOk, TablesOk, ExecOk, IdsOk, Prepare, Surround, AdvanceExec;
    hide AfterLoad, AfterBegin, Bystander, StartedIsLeftAlone, RowFollows;
    StepMoves(s, step, c);
    if step.CreateCase? || step.Plan? || step.Approve? || step.Cancel? || step.Skip? {
      PreparationIsBystander(s, step, c);
    } else if step.Advance? && step.e in s.execs {
      AdvanceOfOtherIsBystander(s, step.e, step.answer, c);
    } else if step.Begin? || step.Load? || step.Crash? {
      ExecutionsAreBystanders(s, step, c);
    } else {
      UntouchedActionsMakeBystander(s, Next(s, step), c);
    }
  }

  lemma ExecutionsAreBystanders(s: State, step: Step, c: CaseId)
    requires step.Begin? || step.Load? || step.Crash?
    requires c in s.db.cases && s.db.cases[c].status != Draft && !OwnStep(s, step, c) && RowFollows(s, Next(s, step), c)
    ensures Bystander(s, Next(s, step), c) && StartedIsLeftAlone(s, Next(s, step), c)
  {
    hide LoadItems, Enumerates, StartCase;
  }
}
