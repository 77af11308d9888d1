/** The invariant that couples cases, actions, executions and histories in every reachable state. */
module CaseInvariant {
  import opened Common
  import opened Domain
  import opened Connectors
  import opened CaseTables
  import opened CaseRuns

  predicate Started(status: CaseStatus) {
    status == Running || status == Verifying || Finished(status)
  }

  predicate Outcome(status: ActionStatus) {
    status == ActionSucceeded || status == ActionFailed || status == ActionInconclusive
  }

  ghost predicate ActionOk(s: State, k: ActionKey)
    requires k in s.db.actions
  {
    var id := s.db.actions[k].connector;
    && k.account in s.db.accounts && s.db.accounts[k.account].connector == id
    && id in s.db.connectors
    && (Remote(k.typ) ==> Branch(s.db.connectors[id].typ, k.typ) != LdapMembershipError
                          && Branch(s.db.connectors[id].typ, k.typ) != UnsupportedError)
  }

  predicate Untouched(s: State, k: ActionKey) {
    k !in s.db.evidence && s.calls[k] == 0
  }

  /** The coupling of one case with its actions. */
  ghost predicate CaseOk(s: State, c: CaseId)
    requires c in s.db.cases
  {
    var row := s.db.cases[c];
    && (forall k :: k in s.db.actions && k.caseId == c ==> ActionOk(s, k) && s.calls[k] <= 1)
    && row.status != Planned
    && s.passed[c] == (if Started(row.status) then 1 else 0)
    && (!Started(row.status) ==> forall k :: k in s.db.actions && k.caseId == c ==> Untouched(s, k))
    && (row.status == Draft ==> forall k :: k in s.db.actions ==> k.caseId != c)
    && (row.status == AwaitingApproval || row.status == Approved ==> exists k :: k in s.db.actions && k.caseId == c)
    && (row.status == AwaitingApproval ==>
          forall k :: k in s.db.actions && k.caseId == c ==> s.db.actions[k].status == ActionPlanned)
    && (row.status == Approved ==>
          forall k :: k in s.db.actions && k.caseId == c ==> s.db.actions[k].status == ActionApproved)
    && (row.status == Approved || Started(row.status) ==>
          forall k :: k in s.db.actions && k.caseId == c ==> s.db.actions[k].approvedBy.Some?)
    && (row.verification.Some? <==> Finished(row.status))
    && (row.verification.Some? ==> row.status == FinalStatus(row.verification.value))
  }

  function Cursor(x: Exec): nat {
    match x.pc
    case Loading => 0
    case At(i) => i
    case Acting(i) => i
    case Storing(i) => i
    case Recording(i, _) => i
    case Proving(i, _) => i
    case _ => |x.items|
  }

  /** The case status at which a statement finds the case. */
  ghost predicate StatusAt(pc: Pc, status: CaseStatus) {
    match pc
    case CountingAccounts => status == Verifying
    case CountingCandidates(_) => status == Verifying
    case CountingManual(_) => status == Verifying
    case Snapshotting(_) => status == Verifying
    case Closing(_) => status == Verifying
    case Returned(_) => Finished(status)
    case _ => status == Running
  }

  /** The action the execution is working on. */
  ghost predicate HereOk(s: State, pc: Pc, item: Item)
    requires item.key in s.db.actions && item.key.account in s.db.accounts
  {
    var k := item.key;
    var status := s.db.actions[k].status;
    match pc
    case At(_) => status == ActionApproved && Untouched(s, k)
    case Acting(_) => status == ActionRunning && Untouched(s, k)
    case Storing(_) => status == ActionRunning && k !in s.db.evidence && Remote(k.typ)
    case Recording(_, outcome) => status == ActionRunning && k !in s.db.evidence && Outcome(outcome)
    case Proving(_, outcome) => status == outcome && k !in s.db.evidence && Outcome(outcome)
    case _ => true
  }

  ghost predicate DoneOk(s: State, k: ActionKey)
    requires k in s.db.actions
  {
    && Outcome(s.db.actions[k].status)
    && k in s.db.evidence && s.db.evidence[k] == [s.db.actions[k].status]
  }

  ghost predicate ItemOk(s: State, x: Exec, j: nat)
    requires j < |x.items|
  {
    var item := x.items[j];
    var k := item.key;
    && k in s.db.actions && k.caseId == x.caseId && k.account in s.db.accounts
    && item.status == ActionApproved && item.connector == s.db.actions[k].connector
    && item.connector in s.db.connectors && item.typ == s.db.connectors[item.connector].typ
    && (j < Cursor(x) ==> DoneOk(s, k))
    && (j == Cursor(x) ==> HereOk(s, x.pc, item))
    && (j > Cursor(x) ==> s.db.actions[k].status == ActionApproved && Untouched(s, k))
  }

  ghost predicate Covers(items: seq<Item>, db: Db, c: CaseId) {
    && (forall i, j :: 0 <= i < j < |items| ==> items[i].key != items[j].key)
    && (forall k :: k in db.actions && k.caseId == c ==> exists i :: 0 <= i < |items| && items[i].key == k)
  }

  ghost predicate ExecOk(s: State, e: ExecId)
    requires e in s.execs
  {
    var x := s.execs[e];
    && x.caseId in s.db.cases && StatusAt(x.pc, s.db.cases[x.caseId].status)
    && (x.pc == Loading ==>
          && x.items == [] && x.failed == {}
          && forall k :: k in s.db.actions && k.caseId == x.caseId ==>
                s.db.actions[k].status == ActionApproved && Untouched(s, k))
    && (x.pc != Loading ==> Covers(x.items, s.db, x.caseId))
    && (forall j :: 0 <= j < |x.items| ==> ItemOk(s, x, j))
    && Cursor(x) <= |x.items|
    && (x.pc.Acting? || x.pc.Storing? || x.pc.Recording? || x.pc.Proving? ==> x.pc.i < |x.items|)
    && (forall id :: id in x.failed ==> exists j :: 0 <= j < |x.items| && x.items[j].connector == id)
  }

  ghost predicate IdsOk(s: State) {
    && (forall k :: k in s.db.actions ==> k.caseId in s.db.cases)
    && (forall k :: k in s.db.evidence ==> k in s.db.actions)
    && (forall k :: k in s.calls ==> k in s.db.actions)
    && (forall c :: c in s.passed ==> c in s.db.cases)
    && (forall c :: c in s.cancelling ==> c in s.db.cases && s.db.cases[c].status == Cancelled)
    && (forall a, b :: a in s.execs && b in s.execs && a != b ==> s.execs[a].caseId != s.execs[b].caseId)
  }

  ghost predicate TablesOk(s: State) {
    (forall a :: a in s.db.accounts ==> s.db.accounts[a].connector in s.db.connectors)
  }

  ghost predicate Inv(s: State) {
    && IdsOk(s) && TablesOk(s)
    && (forall c :: c in s.db.cases ==> CaseOk(s, c))
    && (forall e :: e in s.execs ==> ExecOk(s, e))
  }

  // ----- Frames -----

  ghost predicate SameAction(s: State, t: State, k: ActionKey) {
    && (k in s.db.actions <==> k in t.db.actions)
    && (k in s.db.actions ==> s.db.actions[k] == t.db.actions[k])
    && (k in s.db.evidence <==> k in t.db.evidence)
    && (k in s.db.evidence ==> s.db.evidence[k] == t.db.evidence[k])
    && s.calls[k] == t.calls[k]
  }

  /** Nothing about one case differs between two states. */
  ghost predicate SameCase(s: State, t: State, c: CaseId) {
    && c in s.db.cases && c in t.db.cases && s.db.cases[c] == t.db.cases[c] && s.passed[c] == t.passed[c]
    && (forall k: ActionKey {:trigger k in t.db.actions} {:trigger k in s.db.actions}
                            {:trigger k in t.db.evidence} {:trigger t.calls[k]} ::
          k.caseId == c ==> SameAction(s, t, k))
  }

  /** Identities are stable: rows stay, connector types and account identities do not change. */
  ghost predicate Grows(s: State, t: State) {
    && (forall id :: id in s.db.connectors ==>
          id in t.db.connectors && t.db.connectors[id].typ == s.db.connectors[id].typ)
    && (forall a :: a in s.db.accounts ==>
          && a in t.db.accounts && t.db.accounts[a].connector == s.db.accounts[a].connector
          && t.db.accounts[a].externalId == s.db.accounts[a].externalId)
  }

  lemma CaseFrame(s: State, t: State, c: CaseId)
    requires SameCase(s, t, c) && Grows(s, t) && CaseOk(s, c)
    ensures CaseOk(t, c)
  {
    forall k | k in t.db.actions && k.caseId == c
      ensures k in s.db.actions && t.db.actions[k] == s.db.actions[k]
      ensures ActionOk(t, k) && t.calls[k] <= 1 && (Untouched(s, k) ==> Untouched(t, k))
    {
      assert ActionOk(s, k);
    }
    hide ActionOk, Untouched, Grows;
    if t.db.cases[c].status == AwaitingApproval || t.db.cases[c].status == Approved {
      var k :| k in s.db.actions && k.caseId == c;
      assert k in t.db.actions;
    }
  }

  lemma ExecFrame(s: State, t: State, e: ExecId)
    requires e in s.execs && e in t.execs && s.execs[e] == t.execs[e]
    requires SameCase(s, t, s.execs[e].caseId) && Grows(s, t) && ExecOk(s, e)
    ensures ExecOk(t, e)
  {
    var x := s.execs[e];
    forall j | 0 <= j < |x.items|
      ensures ItemOk(t, x, j)
    {
      assert ItemOk(s, x, j);
    }
    if x.pc != Loading {
      assert Covers(x.items, t.db, x.caseId);
    }
  }

  /** Rows of other cases stay as they are, and identities are stable. */
  ghost predicate OnlyCase(s: State, t: State, c: CaseId) {
    && t.db.cases.Keys == s.db.cases.Keys + {c}
    && (forall d :: d in s.db.cases && d != c ==> t.db.cases[d] == s.db.cases[d])
    && (forall d :: d != c ==> s.passed[d] == t.passed[d])
    && (forall k: ActionKey :: k.caseId != c ==> SameAction(s, t, k))
    && Grows(s, t)
    && (forall e :: e in t.execs && t.execs[e].caseId != c ==> e in s.execs && t.execs[e] == s.execs[e])
  }

  lemma OnlyCaseFrames(s: State, t: State, c: CaseId)
    requires OnlyCase(s, t, c)
    ensures forall d :: d in s.db.cases && d != c ==> SameCase(s, t, d)
  {
    forall d | d in s.db.cases && d != c
      ensures SameCase(s, t, d)
    {
      assert forall k: ActionKey :: k.caseId == d ==> SameAction(s, t, k);
    }
  }

  /** A step that touches one case only: what is left to show is about that case. */
  lemma OneCaseStep(s: State, t: State, c: CaseId)
    requires Inv(s) && IdsOk(t) && TablesOk(t) && OnlyCase(s, t, c) && CaseOk(t, c)
    requires forall e :: e in t.execs && t.execs[e].caseId == c ==> ExecOk(t, e)
    ensures Inv(t)
  {
    OnlyCaseFrames(s, t, c);
    forall d | d in t.db.cases
      ensures CaseOk(t, d)
    {
      if d != c { CaseFrame(s, t, d); }
    }
    forall e | e in t.execs
      ensures ExecOk(t, e)
    {
      if t.execs[e].caseId != c {
        assert ExecOk(s, e);
        ExecFrame(s, t, e);
      }
    }
  }

  /** A step that touches no case. */
  ghost predicate NoCase(s: State, t: State) {
    && t.db.cases == s.db.cases && t.db.actions == s.db.actions && t.db.evidence == s.db.evidence
    && t.calls == s.calls && t.passed == s.passed && t.cancelling == s.cancelling
    && (forall e :: e in t.execs ==> e in s.execs && t.execs[e] == s.execs[e])
    && Grows(s, t)
  }

  lemma NoCaseFrames(s: State, t: State)
    requires NoCase(s, t)
    ensures forall d :: d in s.db.cases ==> SameCase(s, t, d)
    ensures IdsOk(s) ==> IdsOk(t)
  {
    forall d | d in s.db.cases
      ensures SameCase(s, t, d)
    {
      assert forall k: ActionKey :: k.caseId == d ==> SameAction(s, t, k);
    }
  }

  lemma NoCaseStep(s: State, t: State)
    requires Inv(s) && TablesOk(t) && NoCase(s, t)
    ensures Inv(t)
  {
    NoCaseFrames(s, t);
    forall d | d in t.db.cases
      ensures CaseOk(t, d)
    {
      CaseFrame(s, t, d);
    }
    forall e | e in t.execs
      ensures ExecOk(t, e)
    {
      assert ExecOk(s, e);
      ExecFrame(s, t, e);
    }
  }
}
