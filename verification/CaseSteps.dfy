/** Every step of every run keeps the invariant. */
module CaseSteps {
  import opened Common
  import opened Domain
  import opened Connectors
  import opened CaseTables
  import opened CaseRuns
  import opened CaseInvariant

  lemma NotStartedHasNoExec(s: State, c: CaseId)
    requires Inv(s) && c in s.db.cases && !Started(s.db.cases[c].status)
    ensures forall e :: e in s.execs ==> s.execs[e].caseId != c
  {
    forall e | e in s.execs
      ensures s.execs[e].caseId != c
    {
      assert ExecOk(s, e);
    }
  }

  // ----- Creating and planning -----

  lemma CreateFacts(s: State, c: CaseId, person: PersonId)
    requires IdsOk(s) && TablesOk(s) && c !in s.db.cases && person in s.db.people
    ensures var t := AfterCreate(s, c, person); IdsOk(t) && TablesOk(t) && OnlyCase(s, t, c)
  {
    assert forall k: ActionKey :: SameAction(s, AfterCreate(s, c, person), k);
  }

  lemma CreateCaseOk(s: State, c: CaseId, person: PersonId)
    requires IdsOk(s) && c !in s.db.cases && person in s.db.people
    ensures CaseOk(AfterCreate(s, c, person), c)
  {
  }

  lemma CreateKeepsInv(s: State, c: CaseId, person: PersonId)
    requires Inv(s)
    ensures Inv(AfterCreate(s, c, person))
  {
    if person in s.db.people && c !in s.db.cases {
      CreateFacts(s, c, person);
      CreateCaseOk(s, c, person);
      forall e | e in s.execs
        ensures s.execs[e].caseId != c
      {
        assert ExecOk(s, e);
      }
      OneCaseStep(s, AfterCreate(s, c, person), c);
    }
  }

  lemma PlannedActionsOk(s: State, c: CaseId, k: ActionKey)
    requires IdsOk(s) && TablesOk(s) && PlanCase(s.db, c).Ok? && CaseOk(s, c)
    requires k in PlannedKeys(s.db, c, s.db.cases[c].person)
    ensures k.caseId == c && k !in s.db.actions
    ensures k in PlanCase(s.db, c).value.actions
    ensures PlanCase(s.db, c).value.actions[k] == Action(s.db.accounts[k.account].connector, ActionPlanned, None, 0)
    ensures ActionOk(Adopt(s, PlanCase(s.db, c)), k)
    ensures Untouched(s, k)
  {
    var account := s.db.accounts[k.account];
    PlannedWriteHasABranch(account.status == Disabled, s.db.connectors[account.connector]);
  }

  lemma PlanIsNotEmpty(s: State, c: CaseId)
    requires IdsOk(s) && TablesOk(s) && PlanCase(s.db, c).Ok? && CaseOk(s, c)
    ensures exists k :: k in PlanCase(s.db, c).value.actions && k.caseId == c
  {
    var p := s.db.cases[c].person;
    var a :| a in Linked(s.db, p);
    assert a in Plannable(s.db, p);
    PlannedActionsOk(s, c, PlannedKey(s.db, c, a));
  }

  lemma PlanIds(s: State, c: CaseId)
    requires IdsOk(s) && PlanCase(s.db, c).Ok?
    ensures IdsOk(Adopt(s, PlanCase(s.db, c)))
  {
    hide PlannedAction;
  }

  lemma PlanOnlyCase(s: State, c: CaseId)
    requires TablesOk(s) && PlanCase(s.db, c).Ok?
    ensures var t := Adopt(s, PlanCase(s.db, c)); TablesOk(t) && OnlyCase(s, t, c)
  {
    hide PlannedAction, ConnectorOk;
    forall k: ActionKey | k.caseId != c
      ensures SameAction(s, Adopt(s, PlanCase(s.db, c)), k)
    {
      assert k !in PlannedKeys(s.db, c, s.db.cases[c].person);
    }
  }

  lemma PlanCaseOk(s: State, c: CaseId)
    requires IdsOk(s) && TablesOk(s) && PlanCase(s.db, c).Ok? && CaseOk(s, c)
    ensures CaseOk(Adopt(s, PlanCase(s.db, c)), c)
  {
    hide PlannedActions;
    var t := Adopt(s, PlanCase(s.db, c));
    PlannedRows(s, c);
    PlanIsNotEmpty(s, c);
    assert t.db.cases[c] == s.db.cases[c].(status := AwaitingApproval) && t.passed == s.passed;
    assert t.db.evidence == s.db.evidence && t.calls == s.calls;
    hide ActionOk, PlanCase, TablesOk, IdsOk;
  }

  lemma PlannedRows(s: State, c: CaseId)
    requires IdsOk(s) && TablesOk(s) && PlanCase(s.db, c).Ok? && CaseOk(s, c)
    ensures var t := Adopt(s, PlanCase(s.db, c));
            forall k :: k in t.db.actions && k.caseId == c ==>
                ActionOk(t, k) && Untouched(t, k) && t.db.actions[k].status == ActionPlanned
  {
    hide ActionOk, PlannedAction, TablesOk;
    var t := Adopt(s, PlanCase(s.db, c));
    forall k | k in t.db.actions && k.caseId == c
      ensures ActionOk(t, k) && Untouched(t, k) && t.db.actions[k].status == ActionPlanned
    {
      assert k in PlannedKeys(s.db, c, s.db.cases[c].person);
      PlannedActionsOk(s, c, k);
    }
  }

  lemma PlanKeepsInv(s: State, c: CaseId)
    requires Inv(s)
    ensures Inv(Adopt(s, PlanCase(s.db, c)))
  {
    hide CaseOk, ExecOk, IdsOk, TablesOk, OnlyCase, NoCase;
    if PlanCase(s.db, c).Ok? {
      NotStartedHasNoExec(s, c);
      PlanIds(s, c);
      PlanOnlyCase(s, c);
      PlanCaseOk(s, c);
      OneCaseStep(s, Adopt(s, PlanCase(s.db, c)), c);
    }
  }

  // ----- Approving, cancelling, starting -----

  lemma ApproveFacts(s: State, c: CaseId, user: UserId)
    requires IdsOk(s) && TablesOk(s) && ApproveCase(s.db, c, user).Ok?
    ensures var t := Adopt(s, ApproveCase(s.db, c, user)); IdsOk(t) && TablesOk(t) && OnlyCase(s, t, c)
  {
  }

  lemma ApproveCaseOk(s: State, c: CaseId, user: UserId)
    requires ApproveCase(s.db, c, user).Ok? && CaseOk(s, c)
    ensures CaseOk(Adopt(s, ApproveCase(s.db, c, user)), c)
  {
    var t := Adopt(s, ApproveCase(s.db, c, user));
    assert t.db.cases[c] == s.db.cases[c].(status := Approved) && t.passed == s.passed;
    assert t.db.evidence == s.db.evidence && t.calls == s.calls;
    forall k | k in t.db.actions && k.caseId == c
      ensures ActionOk(t, k) && Untouched(t, k)
      ensures t.db.actions[k].status == ActionApproved && t.db.actions[k].approvedBy == Some(user)
    {
      assert ActionOk(s, k);
    }
    hide ActionOk, Untouched, ApproveCase;
    var k :| k in s.db.actions && k.caseId == c;
    assert k in t.db.actions;
  }

  lemma ApproveKeepsInv(s: State, c: CaseId, user: UserId)
    requires Inv(s)
    ensures Inv(Adopt(s, ApproveCase(s.db, c, user)))
  {
    hide CaseOk, ExecOk, IdsOk, TablesOk, OnlyCase, NoCase;
    if ApproveCase(s.db, c, user).Ok? {
      NotStartedHasNoExec(s, c);
      ApproveFacts(s, c, user);
      ApproveCaseOk(s, c, user);
      OneCaseStep(s, Adopt(s, ApproveCase(s.db, c, user)), c);
    }
  }

  lemma CancelFacts(s: State, c: CaseId)
    requires IdsOk(s) && TablesOk(s) && CancelCase(s.db, c).Ok?
    ensures var t := AfterCancel(s, c); IdsOk(t) && TablesOk(t) && OnlyCase(s, t, c)
  {
  }

  lemma CancelCaseOk(s: State, c: CaseId)
    requires CancelCase(s.db, c).Ok? && CaseOk(s, c)
    ensures CaseOk(AfterCancel(s, c), c)
  {
    forall k | k in s.db.actions && k.caseId == c
      ensures ActionOk(AfterCancel(s, c), k)
    {
      assert ActionOk(s, k);
    }
  }

  lemma CancelKeepsInv(s: State, c: CaseId)
    requires Inv(s)
    ensures Inv(AfterCancel(s, c))
  {
    if CancelCase(s.db, c).Ok? {
      NotStartedHasNoExec(s, c);
      CancelFacts(s, c);
      CancelCaseOk(s, c);
      OneCaseStep(s, AfterCancel(s, c), c);
    }
  }

  lemma SkipFacts(s: State, c: CaseId)
    requires IdsOk(s) && TablesOk(s) && c in s.cancelling
    ensures var t := AfterSkip(s, c); IdsOk(t) && TablesOk(t) && OnlyCase(s, t, c)
  {
  }

  lemma SkipCaseOk(s: State, c: CaseId)
    requires c in s.cancelling && c in s.db.cases && s.db.cases[c].status == Cancelled && CaseOk(s, c)
    ensures CaseOk(AfterSkip(s, c), c)
  {
    hide SkipActions;
    var t := AfterSkip(s, c);
    assert t.passed == s.passed && t.db.connectors == s.db.connectors && t.db.actions == SkipActions(s.db, c).actions;
    hide AfterSkip;
    forall k | k in t.db.actions && k.caseId == c
      ensures ActionOk(t, k) && Untouched(t, k)
    {
      assert ActionOk(s, k) && Untouched(s, k);
    }
    hide ActionOk, Untouched;
  }

  lemma SkipKeepsInv(s: State, c: CaseId)
    requires Inv(s)
    ensures Inv(AfterSkip(s, c))
  {
    if c in s.cancelling {
      NotStartedHasNoExec(s, c);
      SkipFacts(s, c);
      SkipCaseOk(s, c);
      OneCaseStep(s, AfterSkip(s, c), c);
    }
  }

  lemma BeginIds(s: State, e: ExecId, c: CaseId)
    requires IdsOk(s) && e !in s.execs && StartCase(s.db, c).Ok?
    requires forall d :: d in s.execs ==> s.execs[d].caseId != c
    ensures IdsOk(AfterBegin(s, e, c))
  {
  }

  lemma BeginOnlyCase(s: State, e: ExecId, c: CaseId)
    requires TablesOk(s) && e !in s.execs && StartCase(s.db, c).Ok?
    ensures TablesOk(AfterBegin(s, e, c)) && OnlyCase(s, AfterBegin(s, e, c), c)
  {
    hide ConnectorOk;
  }

  lemma BeginCaseOk(s: State, e: ExecId, c: CaseId)
    requires e !in s.execs && StartCase(s.db, c).Ok? && CaseOk(s, c)
    ensures CaseOk(AfterBegin(s, e, c), c) && ExecOk(AfterBegin(s, e, c), e)
  {
    forall k | k in s.db.actions && k.caseId == c
      ensures ActionOk(AfterBegin(s, e, c), k)
    {
      assert ActionOk(s, k);
    }
  }

  lemma BeginKeepsInv(s: State, e: ExecId, c: CaseId)
    requires Inv(s)
    ensures Inv(AfterBegin(s, e, c))
  {
    hide CaseOk, ExecOk, IdsOk, TablesOk, OnlyCase, NoCase;
    if e !in s.execs && StartCase(s.db, c).Ok? {
      NotStartedHasNoExec(s, c);
      BeginIds(s, e, c);
      BeginOnlyCase(s, e, c);
      BeginCaseOk(s, e, c);
      OneCaseStep(s, AfterBegin(s, e, c), c);
    }
  }

  // ----- Loading -----

  lemma LoadExecOk(s: State, e: ExecId, order: seq<ActionKey>)
    requires LoadEnabled(s, e, order) && ExecOk(s, e) && CaseOk(s, s.execs[e].caseId)
    ensures ExecOk(AfterLoad(s, e, order), e)
  {
    var t := AfterLoad(s, e, order);
    var c, y := s.execs[e].caseId, t.execs[e];
    forall j | 0 <= j < |y.items|
      ensures ItemOk(t, y, j)
    {
      assert order[j] in order && order[j] in KeysOf(s.db, c);
      assert ActionOk(s, order[j]);
    }
    forall k | k in t.db.actions && k.caseId == c
      ensures exists i :: 0 <= i < |y.items| && y.items[i].key == k
    {
      assert k in KeysOf(s.db, c);
      var i :| 0 <= i < |order| && order[i] == k;
      assert y.items[i].key == k;
    }
  }

  lemma LoadKeepsInv(s: State, e: ExecId, order: seq<ActionKey>)
    requires Inv(s)
    ensures Inv(AfterLoad(s, e, order))
  {
    if LoadEnabled(s, e, order) {
      var c := s.execs[e].caseId;
      assert ExecOk(s, e);
      LoadExecOk(s, e, order);
      MoveKeepsInv(s, AfterLoad(s, e, order), e);
    }
  }

  lemma MoveIsLocal(s: State, t: State, e: ExecId)
    requires IdsOk(s) && TablesOk(s) && e in s.execs && e in t.execs && s.execs[e].caseId in s.db.cases
    requires t == s.(execs := s.execs[e := t.execs[e]]) && t.execs[e].caseId == s.execs[e].caseId
    ensures IdsOk(t) && TablesOk(t) && OnlyCase(s, t, s.execs[e].caseId) && SameCase(s, t, s.execs[e].caseId)
  {
    assert forall k: ActionKey :: SameAction(s, t, k);
  }

  /** Only the program counter or the items of one execution changed. */
  lemma MoveKeepsInv(s: State, t: State, e: ExecId)
    requires Inv(s) && e in s.execs && e in t.execs
    requires t == s.(execs := s.execs[e := t.execs[e]]) && t.execs[e].caseId == s.execs[e].caseId
    requires ExecOk(t, e)
    ensures Inv(t)
  {
    var c := s.execs[e].caseId;
    assert ExecOk(s, e);
    MoveIsLocal(s, t, e);
    CaseFrame(s, t, c);
    OneCaseStep(s, t, c);
  }

  // ----- The loop over the actions -----

  /** All action keys but one look the same. */
  ghost predicate SameExcept(s: State, t: State, key: ActionKey) {
    && s.db.actions.Keys == t.db.actions.Keys
    && (forall k: ActionKey :: k != key ==> SameAction(s, t, k))
    && key in s.db.actions && s.db.actions[key].connector == t.db.actions[key].connector
    && s.db.actions[key].approvedBy == t.db.actions[key].approvedBy
    && t.calls[key] <= 1 && (key in t.db.evidence ==> key in t.db.actions)
  }

  /** The step works on item `i` of execution `e` and nothing else. */
  ghost predicate IterationStep(s: State, t: State, e: ExecId, i: nat) {
    && e in s.execs && e in t.execs && i < |s.execs[e].items| && Cursor(s.execs[e]) == i && s.execs[e].pc != Loading
    && t.execs[e].caseId == s.execs[e].caseId && t.execs[e].items == s.execs[e].items
    && NextPc(t.execs[e].pc, i)
    && t.db.cases == s.db.cases && t.passed == s.passed && t.cancelling == s.cancelling
    && t.execs.Keys == s.execs.Keys && (forall d :: d in s.execs && d != e ==> t.execs[d] == s.execs[d])
    && SameExcept(s, t, s.execs[e].items[i].key)
    && Grows(s, t) && t.db.connectors == s.db.connectors && t.db.accounts.Keys == s.db.accounts.Keys
    && (forall id :: id in t.execs[e].failed ==> id in s.execs[e].failed || id == s.execs[e].items[i].connector)
  }

  predicate NextPc(pc: Pc, i: nat) {
    || pc == At(i + 1)
    || ((pc.Acting? || pc.Storing? || pc.Recording? || pc.Proving?) && pc.i == i)
  }

  lemma IterationKeepsItem(s: State, t: State, e: ExecId, i: nat, j: nat)
    requires IterationStep(s, t, e, i) && j < |s.execs[e].items| && j != i && ItemOk(s, s.execs[e], j)
    requires s.execs[e].items[j].key != s.execs[e].items[i].key
    ensures ItemOk(t, t.execs[e], j)
  {
    assert SameAction(s, t, s.execs[e].items[j].key);
  }

  lemma IterationKeepsExec(s: State, t: State, e: ExecId, i: nat)
    requires IterationStep(s, t, e, i) && ExecOk(s, e) && ItemOk(t, t.execs[e], i)
    ensures ExecOk(t, e)
  {
    var x, y := s.execs[e], t.execs[e];
    forall j | 0 <= j < |x.items|
      ensures ItemOk(t, y, j)
    {
      if j != i {
        assert ItemOk(s, x, j);
        assert x.items[j].key != x.items[i].key;
        IterationKeepsItem(s, t, e, i, j);
      }
    }
    assert Covers(y.items, t.db, y.caseId);
    forall id | id in y.failed
      ensures exists j :: 0 <= j < |y.items| && y.items[j].connector == id
    {
      assert y.items[i].connector == x.items[i].connector;
    }
  }

  lemma IterationKeepsCase(s: State, t: State, e: ExecId, i: nat)
    requires IterationStep(s, t, e, i)
    requires s.execs[e].caseId in s.db.cases && CaseOk(s, s.execs[e].caseId)
    requires s.db.cases[s.execs[e].caseId].status == Running
    ensures CaseOk(t, s.execs[e].caseId)
  {
    var c := s.execs[e].caseId;
    forall k | k in t.db.actions && k.caseId == c
      ensures ActionOk(t, k) && t.calls[k] <= 1 && t.db.actions[k].approvedBy.Some?
    {
      assert ActionOk(s, k);
      assert k != s.execs[e].items[i].key ==> SameAction(s, t, k);
    }
  }

  lemma IterationIsLocal(s: State, t: State, e: ExecId, i: nat)
    requires IterationStep(s, t, e, i) && IdsOk(s) && TablesOk(s)
    requires s.execs[e].caseId in s.db.cases && s.execs[e].items[i].key.caseId == s.execs[e].caseId
    ensures IdsOk(t) && TablesOk(t) && OnlyCase(s, t, s.execs[e].caseId)
  {
    assert forall k: ActionKey :: k.caseId != s.execs[e].caseId ==> SameAction(s, t, k);
    forall k | k in t.db.evidence || k in t.calls
      ensures k in t.db.actions
    {
      assert k != s.execs[e].items[i].key ==> SameAction(s, t, k);
    }
  }

  lemma IterationKeepsInv(s: State, t: State, e: ExecId, i: nat)
    requires Inv(s) && IterationStep(s, t, e, i) && ItemOk(t, t.execs[e], i)
    ensures Inv(t)
  {
    var c := s.execs[e].caseId;
    assert ExecOk(s, e);
    assert ItemOk(s, s.execs[e], i);
    IterationKeepsExec(s, t, e, i);
    IterationKeepsCase(s, t, e, i);
    IterationIsLocal(s, t, e, i);
    OneCaseStep(s, t, c);
  }

  lemma LoopEndsKeepsInv(s: State, e: ExecId)
    requires Inv(s) && e in s.execs && s.execs[e].pc == At(|s.execs[e].items|)
    ensures Inv(Goto(s, e, Concluding))
  {
    var x := s.execs[e];
    var t := Goto(s, e, Concluding);
    assert ExecOk(s, e);
    forall j | 0 <= j < |x.items|
      ensures ItemOk(t, t.execs[e], j)
    {
      assert ItemOk(s, x, j);
    }
    assert Covers(x.items, t.db, x.caseId);
    MoveKeepsInv(s, t, e);
  }

  lemma MarkStep(s: State, e: ExecId, i: nat)
    requires e in s.execs && s.execs[e].pc == At(i) && i < |s.execs[e].items| && ItemOk(s, s.execs[e], i)
    requires s.calls[s.execs[e].items[i].key] <= 1
    ensures IterationStep(s, Mark(s, e, i), e, i) && ItemOk(Mark(s, e, i), Mark(s, e, i).execs[e], i)
  {
  }

  lemma RemoteActStep(s: State, e: ExecId, i: nat, answer: Answer)
    requires e in s.execs && s.execs[e].pc == Acting(i) && i < |s.execs[e].items| && ItemOk(s, s.execs[e], i)
    requires Remote(s.execs[e].items[i].key.typ)
    ensures var t := Act(s, e, i, answer); IterationStep(s, t, e, i) && ItemOk(t, t.execs[e], i)
  {
    var k := s.execs[e].items[i].key;
    var t := Act(s, e, i, answer);
    assert t.calls == s.calls + multiset{k};
    assert forall other: ActionKey :: other != k ==> SameAction(s, t, other);
  }

  lemma ActStep(s: State, e: ExecId, i: nat, answer: Answer)
    requires e in s.execs && s.execs[e].pc == Acting(i) && i < |s.execs[e].items| && ItemOk(s, s.execs[e], i)
    ensures var t := Act(s, e, i, answer); IterationStep(s, t, e, i) && ItemOk(t, t.execs[e], i)
  {
    if Remote(s.execs[e].items[i].key.typ) {
      RemoteActStep(s, e, i, answer);
    } else {
      assert forall other: ActionKey :: SameAction(s, Act(s, e, i, answer), other);
    }
  }

  lemma StoreStep(s: State, e: ExecId, i: nat)
    requires e in s.execs && s.execs[e].pc == Storing(i) && i < |s.execs[e].items| && ItemOk(s, s.execs[e], i)
    requires s.calls[s.execs[e].items[i].key] <= 1
    ensures IterationStep(s, Store(s, e, i), e, i) && ItemOk(Store(s, e, i), Store(s, e, i).execs[e], i)
  {
  }

  lemma RecordStep(s: State, e: ExecId, i: nat, outcome: ActionStatus)
    requires e in s.execs && s.execs[e].pc == Recording(i, outcome) && i < |s.execs[e].items|
    requires ItemOk(s, s.execs[e], i)
    requires s.calls[s.execs[e].items[i].key] <= 1
    ensures var t := Record(s, e, i, outcome); IterationStep(s, t, e, i) && ItemOk(t, t.execs[e], i)
  {
  }

  lemma ProveStep(s: State, e: ExecId, i: nat, outcome: ActionStatus)
    requires e in s.execs && s.execs[e].pc == Proving(i, outcome) && i < |s.execs[e].items| && ItemOk(s, s.execs[e], i)
    requires s.calls[s.execs[e].items[i].key] <= 1
    ensures var t := Prove(s, e, i, outcome); IterationStep(s, t, e, i) && ItemOk(t, t.execs[e], i)
  {
  }

  /** The item at the cursor is well formed and its provider was called at most once. */
  lemma ItemAtCursor(s: State, e: ExecId)
    requires Inv(s) && e in s.execs && Cursor(s.execs[e]) < |s.execs[e].items|
    ensures ItemOk(s, s.execs[e], Cursor(s.execs[e]))
    ensures s.calls[s.execs[e].items[Cursor(s.execs[e])].key] <= 1
    ensures s.execs[e].items[Cursor(s.execs[e])].status == ActionApproved
  {
    assert ExecOk(s, e);
    assert ItemOk(s, s.execs[e], Cursor(s.execs[e]));
    assert CaseOk(s, s.execs[e].caseId);
  }

  lemma LoopStep(s: State, e: ExecId, answer: Answer)
    requires e in s.execs && s.execs[e].pc != Loading && Cursor(s.execs[e]) < |s.execs[e].items|
    requires ItemOk(s, s.execs[e], Cursor(s.execs[e])) && s.calls[s.execs[e].items[Cursor(s.execs[e])].key] <= 1
    ensures var t := AdvanceExec(s, e, answer);
            IterationStep(s, t, e, Cursor(s.execs[e])) && ItemOk(t, t.execs[e], Cursor(s.execs[e]))
  {
    var i := Cursor(s.execs[e]);
    match s.execs[e].pc
    case At(_) => MarkStep(s, e, i);
    case Acting(_) => ActStep(s, e, i, answer);
    case Storing(_) => StoreStep(s, e, i);
    case Recording(_, outcome) => RecordStep(s, e, i, outcome);
    case Proving(_, outcome) => ProveStep(s, e, i, outcome);
  }

  lemma LoopKeepsInv(s: State, e: ExecId, answer: Answer)
    requires Inv(s) && e in s.execs && s.execs[e].pc != Loading && Cursor(s.execs[e]) < |s.execs[e].items|
    ensures Inv(AdvanceExec(s, e, answer))
  {
    hide CaseOk, ExecOk, IdsOk, TablesOk, OnlyCase, NoCase;
    ItemAtCursor(s, e);
    LoopStep(s, e, answer);
    IterationKeepsInv(s, AdvanceExec(s, e, answer), e, Cursor(s.execs[e]));
  }

  // ----- The statements after the loop -----

  predicate AfterLoop(pc: Pc) {
    pc.Concluding? || pc.CountingAccounts? || pc.CountingCandidates? || pc.CountingManual? || pc.Snapshotting?
        || pc.Closing? || pc.Returned?
  }

  lemma FinishKeepsItem(s: State, e: ExecId, j: nat)
    requires e in s.execs && AfterLoop(s.execs[e].pc) && j < |s.execs[e].items| && ItemOk(s, s.execs[e], j)
    ensures ItemOk(FinishExec(s, e), FinishExec(s, e).execs[e], j)
  {
    hide CountAccounts, PendingFor, ManualOf, ConnectorsOf, EvaluateVerification, Verdict;
  }

  lemma FinishKeepsExec(s: State, e: ExecId)
    requires e in s.execs && AfterLoop(s.execs[e].pc) && ExecOk(s, e)
    ensures ExecOk(FinishExec(s, e), e)
  {
    var x, t := s.execs[e], FinishExec(s, e);
    forall j | 0 <= j < |x.items|
      ensures ItemOk(t, t.execs[e], j)
    {
      FinishKeepsItem(s, e, j);
    }
    assert Covers(x.items, t.db, x.caseId);
  }

  /** After the loop only the case row, the snapshots and the execution itself change. */
  ghost predicate RowStep(s: State, t: State, e: ExecId) {
    && e in s.execs && e in t.execs && s.execs[e].caseId in s.db.cases
    && t.execs == s.execs[e := t.execs[e]] && t.execs[e].caseId == s.execs[e].caseId
    && t.db == s.db.(cases := t.db.cases, snapshots := t.db.snapshots)
    && s.execs[e].caseId in t.db.cases && t.db.cases == s.db.cases[s.execs[e].caseId := t.db.cases[s.execs[e].caseId]]
    && t.calls == s.calls && t.passed == s.passed && t.cancelling == s.cancelling
    && Started(s.db.cases[s.execs[e].caseId].status) && Started(t.db.cases[s.execs[e].caseId].status)
  }

  lemma ConcludingIsRowStep(s: State, e: ExecId)
    requires e in s.execs && s.execs[e].pc.Concluding? && s.execs[e].caseId in s.db.cases
    requires s.db.cases[s.execs[e].caseId].status == Running
    ensures RowStep(s, FinishExec(s, e), e)
    ensures RowMoves(s.db.cases[s.execs[e].caseId], FinishExec(s, e).db.cases[s.execs[e].caseId])
  {
    assert FinishExec(s, e) == WithDb(Goto(s, e, CountingAccounts), SetCase(s.db, s.execs[e].caseId, Verifying));
  }

  lemma ClosingIsRowStep(s: State, e: ExecId)
    requires e in s.execs && s.execs[e].pc.Closing? && s.execs[e].caseId in s.db.cases
    requires s.db.cases[s.execs[e].caseId].status == Verifying
    ensures RowStep(s, FinishExec(s, e), e)
    ensures RowMoves(s.db.cases[s.execs[e].caseId], FinishExec(s, e).db.cases[s.execs[e].caseId])
  {
    hide EvaluateVerification;
    var verdict := Verdict(s.execs[e].pc.tally, |s.execs[e].failed|);
    assert FinishExec(s, e) == WithDb(Goto(s, e, Returned(verdict)), Conclude(s.db, s.execs[e].caseId, verdict));
  }

  lemma FinishIsRowStep(s: State, e: ExecId)
    requires e in s.execs && AfterLoop(s.execs[e].pc) && s.execs[e].caseId in s.db.cases
    requires StatusAt(s.execs[e].pc, s.db.cases[s.execs[e].caseId].status)
    ensures RowStep(s, FinishExec(s, e), e)
    ensures RowMoves(s.db.cases[s.execs[e].caseId], FinishExec(s, e).db.cases[s.execs[e].caseId])
  {
    hide CountAccounts, PendingFor, ManualOf, ConnectorsOf, EvaluateVerification, Verdict;
    var c := s.execs[e].caseId;
    if s.execs[e].pc.Concluding? {
      ConcludingIsRowStep(s, e);
    } else if s.execs[e].pc.Closing? {
      ClosingIsRowStep(s, e);
    } else {
      assert s.db.cases == s.db.cases[c := s.db.cases[c]];
      assert s.execs == s.execs[e := s.execs[e]];
      assert FinishExec(s, e).db.cases == s.db.cases;
    }
  }

  predicate RowMoves(before: Case, after: Case) {
    || after == before
    || (after == before.(status := Verifying) && before.status == Running)
    || (before.status == Verifying && after.person == before.person && Finished(after.status)
        && after.verification.Some? && after.status == FinalStatus(after.verification.value))
  }

  lemma RowStepKeepsCase(s: State, t: State, e: ExecId)
    requires RowStep(s, t, e) && CaseOk(s, s.execs[e].caseId)
    requires RowMoves(s.db.cases[s.execs[e].caseId], t.db.cases[s.execs[e].caseId])
    ensures CaseOk(t, s.execs[e].caseId)
  {
    forall k | k in s.db.actions && k.caseId == s.execs[e].caseId
      ensures ActionOk(t, k)
    {
      assert ActionOk(s, k);
    }
  }

  lemma RowStepIsLocal(s: State, t: State, e: ExecId)
    requires RowStep(s, t, e) && IdsOk(s) && TablesOk(s)
    ensures IdsOk(t) && TablesOk(t) && OnlyCase(s, t, s.execs[e].caseId)
  {
    hide ConnectorOk;
    assert forall k: ActionKey :: SameAction(s, t, k);
  }

  lemma FinishKeepsInv(s: State, e: ExecId)
    requires Inv(s) && e in s.execs && AfterLoop(s.execs[e].pc)
    ensures Inv(FinishExec(s, e))
  {
    var c := s.execs[e].caseId;
    assert ExecOk(s, e);
    assert CaseOk(s, c);
    FinishKeepsExec(s, e);
    FinishIsRowStep(s, e);
    RowStepKeepsCase(s, FinishExec(s, e), e);
    RowStepIsLocal(s, FinishExec(s, e), e);
    OneCaseStep(s, FinishExec(s, e), c);
  }

  lemma AdvanceKeepsInv(s: State, e: ExecId, answer: Answer)
    requires Inv(s) && e in s.execs
    ensures Inv(AdvanceExec(s, e, answer))
  {
    hide CaseOk, IdsOk, TablesOk;
    assert ExecOk(s, e);
    if AfterLoop(s.execs[e].pc) {
      FinishKeepsInv(s, e);
    } else if s.execs[e].pc == At(|s.execs[e].items|) {
      LoopEndsKeepsInv(s, e);
    } else if s.execs[e].pc != Loading {
      LoopKeepsInv(s, e, answer);
    }
  }

  // ----- Everything else -----

  lemma CreateConnectorFacts(s: State, id: ConnectorId, row: Connector)
    requires TablesOk(s)
    ensures TablesOk(AfterConnector(s, id, row)) && NoCase(s, AfterConnector(s, id, row))
  {
  }

  lemma WriteConnectorFacts(s: State, edit: EditId)
    requires TablesOk(s)
    ensures TablesOk(AfterWriteConnector(s, edit)) && NoCase(s, AfterWriteConnector(s, edit))
  {
  }

  lemma SyncFacts(s: State, id: SyncId, rows: map<AccountId, Account>, links: map<AccountId, PersonId>,
                  candidates: set<(PersonId, AccountId)>)
    requires TablesOk(s)
    ensures var t := AfterCommit(s, id, rows, links, candidates); TablesOk(t) && NoCase(s, t)
  {
  }

  lemma EnvironmentKeepsInv(s: State, step: Step)
    requires Inv(s) && (step.CommitSync? || step.CreateConnector? || step.WriteConnector?)
    ensures Inv(Next(s, step))
  {
    hide CaseOk, ExecOk, IdsOk, TablesOk, OnlyCase, NoCase;
    match step {
      case CreateConnector(id, row) => CreateConnectorFacts(s, id, row);
      case WriteConnector(edit) => WriteConnectorFacts(s, edit);
      case CommitSync(id, rows, links, candidates) => SyncFacts(s, id, rows, links, candidates);
    }
    NoCaseStep(s, Next(s, step));
  }

  lemma BystanderKeepsInv(s: State, step: Step)
    requires Inv(s) && (step.Crash? || step.ReadListing? || step.ReadConnector? || step.Review? || step.Import?)
    ensures Inv(Next(s, step))
  {
    hide CaseOk, ExecOk, IdsOk;
    var t := Next(s, step);
    assert t.db.connectors == s.db.connectors && t.db.accounts == s.db.accounts;
    NoCaseStep(s, t);
  }

  lemma PreparationKeepsInv(s: State, step: Step)
    requires Inv(s) && (step.CreateCase? || step.Plan? || step.Approve? || step.Cancel? || step.Skip?)
    ensures Inv(Next(s, step))
  {
    hide CaseOk, ExecOk, IdsOk, TablesOk, OnlyCase, NoCase;
    match step
    case CreateCase(c, person) => CreateKeepsInv(s, c, person);
    case Plan(c) => PlanKeepsInv(s, c);
    case Approve(c, user) => ApproveKeepsInv(s, c, user);
    case Cancel(c) => CancelKeepsInv(s, c);
    case Skip(c) => SkipKeepsInv(s, c);
  }

  lemma ExecutionKeepsInv(s: State, step: Step)
    requires Inv(s) && (step.Begin? || step.Load? || step.Advance?)
    ensures Inv(Next(s, step))
  {
    hide CaseOk, ExecOk, IdsOk, TablesOk, OnlyCase, NoCase;
    match step
    case Begin(e, c) => BeginKeepsInv(s, e, c);
    case Load(e, order) => LoadKeepsInv(s, e, order);
    case Advance(e, answer) => if e in s.execs { AdvanceKeepsInv(s, e, answer); }
  }

  lemma StepKeepsInv(s: State, step: Step)
    requires Inv(s)
    ensures Inv(Next(s, step))
  {
    hide CaseOk, ExecOk, IdsOk, TablesOk, OnlyCase, NoCase;
    if step.CreateCase? || step.Plan? || step.Approve? || step.Cancel? || step.Skip? {
      PreparationKeepsInv(s, step);
    } else if step.Begin? || step.Load? || step.Advance? {
      ExecutionKeepsInv(s, step);
    } else if step.CommitSync? || step.CreateConnector? || step.WriteConnector? {
      EnvironmentKeepsInv(s, step);
    } else {
      BystanderKeepsInv(s, step);
    }
  }

  lemma {:induction false} RunKeepsInv(s: State, steps: seq<Step>)
    requires Inv(s)
    ensures Inv(Run(s, steps))
  {
    hide CaseOk, ExecOk, IdsOk, TablesOk, OnlyCase, NoCase;
    if steps != [] {
      RunKeepsInv(s, steps[..|steps| - 1]);
      StepKeepsInv(Run(s, steps[..|steps| - 1]), steps[|steps| - 1]);
    }
  }
}
