/**
 The assurance service as its methods run it against the tables of one organisation.  `trace` is the run that
 the database has seen, so every theorem about runs speaks about the object, whatever came before.
 */
module CaseService {
  import opened Common
  import opened Domain
  import opened Connectors
  import opened CaseTables
  import opened CaseRuns
  import opened CaseInvariant
  import opened CaseSteps
  import opened CaseTheorems
  import opened CaseExactness
  import opened CaseExactRuns
  import opened Outcomes

  /** A row of the plan shown to the approver. */
  datatype Preview = Preview(account: AccountId, connector: ConnectorId, action: ActionType)

  // ----- One statement more -----

  ghost function After(trace: seq<Step>): State {
    Run(EMPTY, trace)
  }

  lemma Extended(trace: seq<Step>, step: Step)
    ensures After(trace + [step]) == Next(After(trace), step)
    ensures Inv(After(trace)) && Inv(After(trace + [step]))
  {
    hide Next, Inv;
    RunSnoc(trace, step);
    Reachable(trace);
    Reachable(trace + [step]);
  }

  /** The execution `e` of case `c` has come to `pc`. */
  ghost predicate Stands(s: State, e: ExecId, x: Exec) {
    e in s.execs && s.execs[e] == x
  }

  /** What one statement of an execution keeps, whichever it is. */
  lemma Advanced(trace: seq<Step>, e: ExecId, answer: Answer)
    requires e in After(trace).execs
    ensures var s, t := After(trace), After(trace + [Advance(e, answer)]);
            && t == AdvanceExec(s, e, answer) && Inv(s) && Inv(t)
            && (Exact(s, s.execs[e].caseId) ==> Exact(t, s.execs[e].caseId))
  {
    hide Inv, Exact, AdvanceExec;
    Extended(trace, Advance(e, answer));
    var s := After(trace);
    if Exact(s, s.execs[e].caseId) {
      StepKeepsExact(s, Advance(e, answer), s.execs[e].caseId);
    }
  }

  lemma DraftHasNoActions(s: State, c: CaseId)
    requires Inv(s) && c in s.db.cases && s.db.cases[c].status == Draft
    ensures KeysOf(s.db, c) == {}
  {
    assert CaseOk(s, c);
  }

  /** An account of the person on a stored connector. */
  predicate Known(db: Db, a: AccountId, p: PersonId) {
    Owned(db, a, p) && db.accounts[a].connector in db.connectors
  }

  lemma KnownStays(db: Db, after: Db, a: AccountId, p: PersonId)
    requires Known(db, a, p) && after.links == db.links && after.accounts == db.accounts
    requires after.connectors == db.connectors
    ensures Known(after, a, p)
  {
  }

  lemma PlannableIsKnown(db: Db, p: PersonId)
    ensures forall a :: a in Plannable(db, p) <==> Known(db, a, p)
    ensures Plannable(db, p) == {} <==> !exists a :: Known(db, a, p)
  {
    if Plannable(db, p) != {} {
      var a :| a in Plannable(db, p);
      assert Known(db, a, p);
    }
  }

  lemma PlanFinds(db: Db, p: PersonId, rows: seq<Preview>)
    requires Accounts(rows) == Plannable(db, p)
    ensures rows == [] <==> Plannable(db, p) == {}
  {
    hide Plannable;
    if rows != [] {
      assert rows[0].account in Accounts(rows);
    }
  }

  /** The same actions are stored, and those of other cases are as they were. */
  ghost predicate OnlyActionsOf(db: Db, after: Db, c: CaseId) {
    && after.actions.Keys == db.actions.Keys
    && forall k :: k in db.actions && k.caseId != c ==> after.actions[k] == db.actions[k]
  }

  /** What an approval leaves behind. */
  lemma ApprovalApproves(trace: seq<Step>, c: CaseId, user: UserId)
    requires CaseTables.ApproveCase(After(trace).db, c, user).Ok?
    ensures var db, after := After(trace).db, CaseTables.ApproveCase(After(trace).db, c, user).value;
            && c in after.cases && after.cases[c].status == Approved && KeysOf(after, c) == KeysOf(db, c) != {}
            && forall k :: k in KeysOf(after, c) ==>
                  after.actions[k] == db.actions[k].(status := ActionApproved, approvedBy := Some(user))
    ensures var db, after := After(trace).db, CaseTables.ApproveCase(After(trace).db, c, user).value;
            && after == db.(actions := after.actions, cases := db.cases[c := db.cases[c].(status := Approved)])
            && OnlyActionsOf(db, after, c)
  {
    hide Run;
    Reachable(trace);
    assert CaseOk(After(trace), c);
    var k :| k in After(trace).db.actions && k.caseId == c;
    assert k in KeysOf(After(trace).db, c);
  }

  lemma CancellationSkips(trace: seq<Step>, c: CaseId)
    requires CaseTables.CancelCase(After(trace).db, c).Ok?
    ensures var db := After(trace).db; var after := SkipActions(CaseTables.CancelCase(db, c).value, c);
            && KeysOf(after, c) == KeysOf(db, c)
            && forall k :: k in KeysOf(after, c) ==> after.actions[k] == db.actions[k].(status := ActionSkipped)
    ensures var db := After(trace).db; var after := SkipActions(CaseTables.CancelCase(db, c).value, c);
            OnlyActionsOf(db, after, c)
  {
    hide Run;
    Reachable(trace);
    assert CaseOk(After(trace), c);
  }

  class Service {
    var db: Db
    ghost var trace: seq<Step>

    ghost predicate Valid()
      reads this
    {
      db == After(trace).db
    }

    /** A service may be attached to any database that some run has produced. */
    constructor (db: Db, ghost trace: seq<Step>)
      requires db == After(trace).db
      ensures Valid() && this.db == db && this.trace == trace
    {
      this.db := db;
      this.trace := trace;
    }

    method CreateCase(id: CaseId, person: PersonId) returns (r: Result<CaseId, Refusal>)
      requires Valid() && id !in db.cases
      modifies this
      ensures Valid() && trace == old(trace) + [CaseRuns.CreateCase(id, person)]
      ensures r == if person in old(db).people then Ok(id) else Err(NoRows)
      ensures db == if r.Ok? then old(db).(cases := old(db).cases[id := Case(person, Draft, None)]) else old(db)
    {
      Extended(trace, CaseRuns.CreateCase(id, person));
      trace := trace + [CaseRuns.CreateCase(id, person)];
      if person !in db.people {
        return Err(NoRows);
      }
      db := InsertCase(db, id, person);
      r := Ok(id);
    }

    /** PlanCase: one PLANNED action for each account linked to the person, all in one transaction. */
    method PlanCase(c: CaseId) returns (r: Result<seq<Preview>, Refusal>)
      requires Valid()
      modifies this
      ensures Valid() && trace == old(trace) + [Plan(c)]
      ensures r.Err? ==> db == old(db)
      ensures r.Ok? <==>
              && c in old(db).cases && old(db).cases[c].status == Draft
              && exists a :: Known(old(db), a, old(db).cases[c].person)
      ensures r == Err(NoRows) <==> c !in old(db).cases
      ensures r == Err(ForbiddenState) <==> c in old(db).cases && old(db).cases[c].status != Draft
      ensures r.Ok? ==>
                db == old(db).(actions := db.actions,
                               cases := old(db).cases[c := old(db).cases[c].(status := AwaitingApproval)])
      ensures r.Ok? ==> Exact(After(trace), c) && db.cases[c].status == AwaitingApproval
      ensures r.Ok? ==> Shows(old(db), c, r.value, db)
    {
      hide Inv, Exact, Run, Shows, Plannable, PlannedActions, ChosenFor;
      Extended(trace, Plan(c));
      ghost var before := After(trace);
      trace := trace + [Plan(c)];
      if c !in db.cases {
        return Err(NoRows);
      }
      if db.cases[c].status != Draft {
        return Err(ForbiddenState);
      }
      var p := db.cases[c].person;
      var planned := Choose(db, c, p);
      PlanFinds(db, p, planned);
      PlannableIsKnown(db, p);
      if |planned| == 0 {
        return Err(NoKnownIdentities);
      }
      var actions := InsertPlanned(db, c, p, planned);
      PlanIsExact(before, c);
      DraftHasNoActions(before, c);
      var after := db.(actions := actions, cases := db.cases[c := db.cases[c].(status := AwaitingApproval)]);
      PreviewShows(db, c, p, planned, after);
      db := after;
      r := Ok(planned);
    }

    method ApproveCase(c: CaseId, user: UserId) returns (r: Result<(), Refusal>)
      requires Valid()
      modifies this
      ensures Valid() && trace == old(trace) + [Approve(c, user)]
      ensures r.Ok? <==> c in old(db).cases && old(db).cases[c].status == AwaitingApproval
      ensures r.Err? ==> db == old(db)
      ensures r.Ok? ==>
                && db == old(db).(actions := db.actions,
                                  cases := old(db).cases[c := old(db).cases[c].(status := Approved)])
                && OnlyActionsOf(old(db), db, c)
      ensures r.Ok? ==> db.cases[c].status == Approved && KeysOf(db, c) == KeysOf(old(db), c) != {}
      ensures r.Ok? ==> forall k :: k in KeysOf(db, c) ==>
              db.actions[k] == old(db).actions[k].(status := ActionApproved, approvedBy := Some(user))
      ensures old(Exact(After(trace), c)) ==> Exact(After(trace), c)
    {
      hide Inv, Exact, Run, CaseTables.ApproveCase, KeysOf;
      Extended(trace, Approve(c, user));
      ApprovalGuard(db, c, user);
      if Exact(After(trace), c) {
        StepKeepsExact(After(trace), Approve(c, user), c);
      }
      if CaseTables.ApproveCase(db, c, user).Ok? {
        ApprovalApproves(trace, c, user);
      }
      var approved := CaseTables.ApproveCase(db, c, user);
      trace := trace + [Approve(c, user)];
      if approved.Err? {
        return Err(ForbiddenState);
      }
      db := approved.value;
      r := Ok(());
    }

    /** cancelCase: two statements, the second without a check of its effect. */
    method CancelCase(c: CaseId) returns (r: Result<(), Refusal>)
      requires Valid()
      modifies this
      ensures Valid() && trace == old(trace) + (if r.Ok? then [Cancel(c), Skip(c)] else [Cancel(c)])
      ensures r.Ok? <==> c in old(db).cases && old(db).cases[c].status in {Draft, Planned, AwaitingApproval, Approved}
      ensures r.Err? ==> db == old(db)
      ensures r.Ok? ==>
                && db == old(db).(actions := db.actions,
                                  cases := old(db).cases[c := old(db).cases[c].(status := Cancelled)])
                && OnlyActionsOf(old(db), db, c)
      ensures r.Ok? ==> c in db.cases && db.cases[c].status == Cancelled && KeysOf(db, c) == KeysOf(old(db), c)
      ensures r.Ok? ==> forall k :: k in KeysOf(db, c) ==>
              db.actions[k] == old(db).actions[k].(status := ActionSkipped)
    {
      hide Inv, Run, KeysOf;
      Extended(trace, Cancel(c));
      var cancelled := CaseTables.CancelCase(db, c);
      if cancelled.Ok? {
        CancellationSkips(trace, c);
      }
      trace := trace + [Cancel(c)];
      if cancelled.Err? {
        return Err(ForbiddenState);
      }
      db := cancelled.value;
      Extended(trace, Skip(c));
      trace := trace + [Skip(c)];
      db := SkipActions(db, c);
      r := Ok(());
      assert trace == old(trace) + [Cancel(c), Skip(c)];
    }

    /** acceptOrRejectCandidate: one transaction; accepting also links the account. */
    method ReviewCandidate(pair: (PersonId, AccountId), accept: bool) returns (r: Result<(), Refusal>)
      requires Valid()
      modifies this
      ensures Valid() && trace == old(trace) + [Review(pair, accept)]
      ensures r.Ok? <==>
              pair in old(db).candidates && old(db).candidates[pair] == Pending && !(accept && pair.1 in old(db).links)
      ensures r.Err? ==> db == old(db)
      ensures r.Ok? ==> db == old(db).(candidates := old(db).candidates[pair := if accept then Accepted else Rejected],
                                       links := if accept then old(db).links[pair.1 := pair.0] else old(db).links)
    {
      hide Run, Inv;
      Extended(trace, Review(pair, accept));
      trace := trace + [Review(pair, accept)];
      if pair !in db.candidates {
        return Err(NoRows);
      }
      if db.candidates[pair] != Pending {
        return Err(ForbiddenState);
      }
      var links := db.links;
      if accept {
        if pair.1 in links {
          return Err(ForbiddenState);
        }
        links := links[pair.1 := pair.0];
      }
      db := db.(candidates := db.candidates[pair := if accept then Accepted else Rejected], links := links);
      r := Ok(());
    }

    /**
     ExecuteAndVerify with nobody else writing.  `answers` gives the provider's answer to the i-th action.
     The guard is the only refusal; each action of the case gets one outcome and one evidence record, each
     write action is sent to its provider once, and the verdict is exact.
     */
    method ExecuteAndVerify(c: CaseId, answers: nat -> Answer, ghost e: ExecId)
      returns (r: Result<VerificationStatus, Refusal>)
      requires Valid() && e !in After(trace).execs
      modifies this
      ensures Valid() && old(trace) <= trace
      ensures r.Ok? <==> c in old(db).cases && old(db).cases[c].status == Approved
      ensures r.Err? ==> r.error == ForbiddenState && db == old(db)
      ensures r.Ok? ==>
                && e in After(trace).execs
                && var x := After(trace).execs[e];
                   && Executed(old(db), After(trace), c, x.failed, r.value)
                   && Loaded(old(db), c, x.items) && Results(old(db), db, x.items, answers, |x.items|)
                   && x.failed == Erring(x.items, answers, |x.items|)
      ensures r.Ok? && old(Exact(After(trace), c)) ==>
                (r.value == Verified <==>
                 AllSucceeded(After(trace), c) && !SomePending(db, db.cases[c].person))
    {
      hide Inv, Exact, Run, KeysOf, Executed, Loaded, Results, Erring, Steady, Outcomed, StoredFrom;
      var started := StartCase(db, c);
      if started.Err? {
        return Err(ForbiddenState);
      }
      Begins(trace, e, c);
      db := started.value;
      trace := trace + [Begin(e, c)];
      ghost var begun := After(trace);
      ghost var before := db;
      var items := LoadActions(c, e);
      SteadyTrans(old(After(trace)), begun, After(trace), c);
      var failed: set<ConnectorId> := {};
      ResultsStart(db, c, items, answers);
      for i := 0 to |items|
        invariant Valid() && old(trace) <= trace
        invariant Stands(After(trace), e, Exec(c, items, failed, At(i)))
        invariant Steady(old(After(trace)), After(trace), c) && c in db.cases
        invariant CallsMade(After(trace), items, i)
        invariant Loaded(before, c, items) && Results(before, db, items, answers, i)
        invariant failed == Erring(items, answers, i)
      {
        ghost var was := db;
        ghost var state := After(trace);
        ErringMore(items, answers, i);
        var outcome;
        failed, outcome := Perform(c, items, i, failed, answers(i), e);
        SteadyTrans(old(After(trace)), state, After(trace), c);
        ResultsMore(before, was, db, items, answers, i, outcome);
      }
      ghost var performed := After(trace);
      var verdict := Verify(c, items, failed, e);
      r := Ok(verdict);
      ResultsStay(old(db), before, performed.db, db, c, items, answers);
      ExecutionIsDone(old(After(trace)), performed, trace, e, Exec(c, items, failed, Returned(verdict)), verdict);
    }

    /**
     The four requests of an offboarding, one after the other: for any person with a known identity they all go
     through, and the verdict is VERIFIED exactly when every action succeeded and no candidate is pending.
     */
    method Offboard(c: CaseId, person: PersonId, user: UserId, answers: nat -> Answer, ghost e: ExecId)
      returns (verdict: VerificationStatus)
      requires Valid() && c !in db.cases && e !in After(trace).execs
      requires person in db.people && exists a :: Known(db, a, person)
      modifies this
      ensures Valid() && c in db.cases && db.cases[c].person == person
      ensures Closes(db.cases[c].status, verdict) && db.cases[c].verification == Some(verdict)
      ensures KeysOf(db, c) != {} && forall k :: k in KeysOf(db, c) ==> DoneOnce(After(trace), k)
      ensures verdict == Verified <==> AllSucceeded(After(trace), c) && !SomePending(db, person)
    {
      hide Inv, Exact, Run, DoneOnce, AllSucceeded, SomePending, Shows, Judges, SnapshotOf, Closes;
      hide Loaded, Results, Erring, Known, KeysOf;
      ghost var known := db;
      var created := CreateCase(c, person);
      ghost var account :| Known(known, account, person);
      KnownStays(known, db, account, person);
      ExecsStay(old(trace), CaseRuns.CreateCase(c, person));
      ghost var drafted := trace;
      assert Known(db, account, db.cases[c].person);
      var planned := PlanCase(c);
      assert planned.Ok?;
      ExecsStay(drafted, Plan(c));
      ghost var awaiting := trace;
      var approved := ApproveCase(c, user);
      assert approved.Ok?;
      ExecsStay(awaiting, Approve(c, user));
      PersonStays(drafted, Plan(c), c);
      PersonStays(awaiting, Approve(c, user), c);
      var r := ExecuteAndVerify(c, answers, e);
      verdict := r.value;
    }

    /** The action query. */
    method LoadActions(c: CaseId, ghost e: ExecId) returns (items: seq<Item>)
      requires Valid() && Stands(After(trace), e, Exec(c, [], {}, Loading)) && c in db.cases
      modifies this
      ensures Valid() && old(trace) <= trace && db == old(db)
      ensures Stands(After(trace), e, Exec(c, items, {}, At(0))) && Steady(old(After(trace)), After(trace), c)
      ensures Loaded(db, c, items)
    {
      hide Inv, Exact, Run;
      var order := Enumerate(KeysOf(db, c));
      Loads(trace, e, order);
      items := LoadItems(db, order);
      LoadedItems(db, c, order);
      trace := trace + [Load(e, order)];
    }

    /** The action itself: the provider is asked, or the stored state is looked at. */
    method Attempt(c: CaseId, items: seq<Item>, i: nat, failed: set<ConnectorId>, answer: Answer, ghost e: ExecId)
      returns (outcome: ActionStatus, failures: set<ConnectorId>)
      requires Valid() && i < |items| && Stands(After(trace), e, Exec(c, items, failed, Acting(i))) && c in db.cases
      modifies this
      ensures Valid() && old(trace) <= trace && c in db.cases
      ensures Stands(After(trace), e, Exec(c, items, failures, Recording(i, outcome)))
      ensures Steady(old(After(trace)), After(trace), c)
      ensures var was, k := old(After(trace)), items[i].key;
              After(trace).calls == if IsWrite(k.typ) then was.calls + multiset{k} else was.calls
      ensures var k := items[i].key;
              && Outcomed(old(db).accounts, k, answer, outcome)
              && failures == (if Errs(k.typ, answer) then failed + {items[i].connector} else failed)
              && db == old(db).(accounts := db.accounts) && db.accounts == StoredFrom(old(db).accounts, k, answer)
    {
      hide Inv, Exact, Run, KeysOf, Act;
      var item := items[i];
      outcome, failures := ActionInconclusive, failed;
      Acts(trace, e, i, answer);
      trace := trace + [Advance(e, answer)];
      if Remote(item.key.typ) {
        if answer == Answered(true) {
          outcome := ActionSucceeded;
          Stores(trace, e, i, answer);
          db := StoreDisabled(db, item.key.account);
          trace := trace + [Advance(e, answer)];
        } else {
          outcome := ActionFailed;
          if answer == ProviderError {
            failures := failures + {item.connector};
          }
        }
      } else if item.key.typ == VerifyDisabled {
        if item.key.account in db.accounts && db.accounts[item.key.account].status == Disabled {
          outcome := ActionSucceeded;
        }
      }
    }

    /** One iteration of the action loop: the action of the item gets its outcome and one more attempt. */
    method Perform(c: CaseId, items: seq<Item>, i: nat, failed: set<ConnectorId>, answer: Answer, ghost e: ExecId)
      returns (failures: set<ConnectorId>, outcome: ActionStatus)
      requires Valid() && i < |items| && Stands(After(trace), e, Exec(c, items, failed, At(i))) && c in db.cases
      requires CallsMade(After(trace), items, i)
      modifies this
      ensures Valid() && old(trace) <= trace && c in db.cases
      ensures Stands(After(trace), e, Exec(c, items, failures, At(i + 1))) && Steady(old(After(trace)), After(trace), c)
      ensures CallsMade(After(trace), items, i + 1)
      ensures var k := items[i].key;
              && k in old(db).actions && Outcomed(old(db).accounts, k, answer, outcome)
              && failures == (if Errs(k.typ, answer) then failed + {items[i].connector} else failed)
              && db.actions == old(db).actions[k :=
                   old(db).actions[k].(status := outcome, attempts := old(db).actions[k].attempts + 1)]
              && db.accounts == StoredFrom(old(db).accounts, k, answer)
    {
      hide Inv, Exact, Run, KeysOf, Act, StoreDisabled, Outcomed, StoredFrom, Steady;
      var item := items[i];
      failures, outcome := failed, item.status;
      ghost var first := trace;
      Fresh(trace, e, i);
      if item.status != ActionSucceeded {
        Marks(trace, e, i, answer);
        db := MarkRunning(db, item.key);
        trace := trace + [Advance(e, answer)];
        ghost var marked := After(trace);
        SteadyKeepsCase(After(first), marked, c);
        outcome, failures := Attempt(c, items, i, failed, answer, e);
        SteadyTrans(After(first), marked, After(trace), c);
        ghost var tried := After(trace);
        Records(trace, e, i, outcome, answer);
        db := RecordOutcome(db, item.key, outcome);
        trace := trace + [Advance(e, answer)];
        SteadyTrans(After(first), tried, After(trace), c);
        ghost var recorded := After(trace);
        Proves(trace, e, i, outcome, answer);
        db := AddEvidence(db, item.key, outcome);
        trace := trace + [Advance(e, answer)];
        SteadyTrans(After(first), recorded, After(trace), c);
        SteadyKeepsCase(After(first), After(trace), c);
        OneCallMore(After(first), After(trace), items, i);
      }
    }

    /** From the VERIFYING update to the verdict. */
    method Verify(c: CaseId, items: seq<Item>, failed: set<ConnectorId>, ghost e: ExecId)
      returns (verdict: VerificationStatus)
      requires Valid() && Stands(After(trace), e, Exec(c, items, failed, At(|items|))) && c in db.cases
      modifies this
      ensures Valid() && old(trace) <= trace
      ensures Stands(After(trace), e, Exec(c, items, failed, Returned(verdict)))
      ensures Concluded(old(After(trace)), After(trace), c, verdict)
      ensures var p := db.cases[c].person;
              && Judges(verdict, db, c, p, failed) && Closes(db.cases[c].status, verdict)
              && db.snapshots == old(db).snapshots + [SnapshotOf(db, c, p, failed, verdict)]
    {
      hide Inv, Exact, Run, KeysOf, CountAccounts, PendingFor, ManualOf, ConnectorsOf, Verdict;
      hide Judges, SnapshotOf, Closes, FinalStatus;
      ghost var tick := Advance(e, ProviderError);
      Ends(trace, e);
      trace := trace + [tick];
      Finishes(trace, e, SetCase(db, c, Verifying), CountingAccounts);
      db := SetCase(db, c, Verifying);
      trace := trace + [tick];
      var p := db.cases[c].person;
      ghost var start := After(trace);
      var tally := CountAccounts(db, p);
      Finishes(trace, e, db, CountingCandidates(tally));
      trace := trace + [tick];
      tally := tally.(unresolved := |PendingFor(db, p)|);
      Finishes(trace, e, db, CountingManual(tally));
      trace := trace + [tick];
      tally := tally.(manual := |ManualOf(db, c)|);
      Finishes(trace, e, db, Snapshotting(tally));
      trace := trace + [tick];
      verdict := Verdict(tally, |failed|);
      Finishes(trace, e, AddSnapshot(db, c, |failed|, tally, verdict), Closing(tally));
      db := AddSnapshot(db, c, |failed|, tally, verdict);
      trace := trace + [tick];
      Finishes(trace, e, CaseTables.Conclude(db, c, verdict), Returned(verdict));
      db := CaseTables.Conclude(db, c, verdict);
      trace := trace + [tick];
      TallyIsCounted(start.db, c, p, failed, verdict);
      JudgementStays(start.db, db, c, p, failed, verdict);
      FinalCloses(verdict);
    }
  }

  method Enumerate(keys: set<ActionKey>) returns (order: seq<ActionKey>)
    ensures Enumerates(order, keys)
  {
    order := [];
    var open := keys;
    while open != {}
      invariant open <= keys && Enumerates(order, keys - open)
      decreases |open|
    {
      var k :| k in open;
      open := open - {k};
      order := order + [k];
    }
  }

  /** The actions that change something at a provider. */
  predicate IsWrite(typ: ActionType) {
    typ == DisableAccount || typ == RemoveMembership
  }

  predicate Errs(typ: ActionType, answer: Answer) {
    IsWrite(typ) && answer == ProviderError
  }

  predicate WasDisabled(accounts: map<AccountId, Account>, k: ActionKey) {
    k.account in accounts && accounts[k.account].status == Disabled
  }

  /** The outcome of an action: what the provider's re-read saw, or what is stored; manual reviews stay open. */
  predicate Outcomed(accounts: map<AccountId, Account>, k: ActionKey, answer: Answer, outcome: ActionStatus) {
    && (IsWrite(k.typ) ==> outcome == if answer == Answered(true) then ActionSucceeded else ActionFailed)
    && (k.typ == VerifyDisabled ==> outcome == if WasDisabled(accounts, k) then ActionSucceeded else ActionInconclusive)
    && (k.typ == ManualReview ==> outcome == ActionInconclusive)
  }

  /** The accounts after an action: its own is DISABLED if the re-read saw that, all others are as before. */
  function StoredFrom(accounts: map<AccountId, Account>, k: ActionKey, answer: Answer): map<AccountId, Account> {
    if IsWrite(k.typ) && answer == Answered(true) && k.account in accounts
    then accounts[k.account := accounts[k.account].(status := Disabled)] else accounts
  }

  /** `items` are the actions of the case, each once, with their connectors. */
  ghost predicate Loaded(db: Db, c: CaseId, items: seq<Item>) {
    && (forall i, j :: 0 <= i < j < |items| ==> items[i].key != items[j].key)
    && (forall k :: k in db.actions && k.caseId == c ==> exists i :: 0 <= i < |items| && items[i].key == k)
    && (forall i :: 0 <= i < |items| ==>
          && items[i].key in db.actions && items[i].key.caseId == c
          && items[i].connector == db.actions[items[i].key].connector)
  }

  /** After `n` actions: each has one more attempt and the outcome that its answer calls for; the others wait. */
  ghost predicate Results(before: Db, db: Db, items: seq<Item>, answers: nat -> Answer, n: nat)
    requires n <= |items|
  {
    forall j :: 0 <= j < |items| ==>
      var k := items[j].key;
      && k in before.actions && k in db.actions
      && (j >= n ==> db.actions[k] == before.actions[k])
      && (j < n ==>
            && db.actions[k] ==
               before.actions[k].(status := db.actions[k].status, attempts := before.actions[k].attempts + 1)
            && (IsWrite(k.typ) ==>
                  db.actions[k].status == if answers(j) == Answered(true) then ActionSucceeded else ActionFailed)
            && (k.typ == VerifyDisabled ==> db.actions[k].status in {ActionSucceeded, ActionInconclusive})
            && (k.typ == ManualReview ==> db.actions[k].status == ActionInconclusive))
  }

  /** The systems whose call or re-read failed. */
  ghost function Erring(items: seq<Item>, answers: nat -> Answer, n: nat): set<ConnectorId>
    requires n <= |items|
  {
    set j | 0 <= j < n && Errs(items[j].key.typ, answers(j)) :: items[j].connector
  }

  lemma LoadedItems(db: Db, c: CaseId, order: seq<ActionKey>)
    requires Enumerates(order, KeysOf(db, c))
    requires forall k :: k in order ==> k in db.actions && db.actions[k].connector in db.connectors
    ensures Loaded(db, c, LoadItems(db, order))
  {
    var items := LoadItems(db, order);
    forall k | k in db.actions && k.caseId == c
      ensures exists i :: 0 <= i < |items| && items[i].key == k
    {
      assert k in KeysOf(db, c);
      var i :| 0 <= i < |order| && order[i] == k;
      assert items[i].key == k;
    }
    forall i | 0 <= i < |items|
      ensures items[i].key in KeysOf(db, c) && items[i].connector == db.actions[items[i].key].connector
    {
      assert order[i] in order;
    }
  }

  lemma ResultsStart(db: Db, c: CaseId, items: seq<Item>, answers: nat -> Answer)
    requires Loaded(db, c, items)
    ensures Results(db, db, items, answers, 0) && Erring(items, answers, 0) == {}
    ensures forall a, b :: 0 <= a < b < |items| ==> items[a].key != items[b].key
  {
  }

  /** The first and the final statements do not touch actions. */
  lemma ResultsStay(first: Db, before: Db, performed: Db, db: Db, c: CaseId, items: seq<Item>, answers: nat -> Answer)
    requires first.actions == before.actions && performed.actions == db.actions
    requires Loaded(before, c, items) && Results(before, performed, items, answers, |items|)
    ensures Loaded(first, c, items) && Results(first, db, items, answers, |items|)
  {
  }

  lemma ErringMore(items: seq<Item>, answers: nat -> Answer, i: nat)
    requires i < |items|
    ensures Erring(items, answers, i + 1) ==
            if Errs(items[i].key.typ, answers(i)) then Erring(items, answers, i) + {items[i].connector}
            else Erring(items, answers, i)
  {
  }

  lemma ResultsMore(before: Db, was: Db, db: Db, items: seq<Item>, answers: nat -> Answer, i: nat,
                    outcome: ActionStatus)
    requires i < |items| && Results(before, was, items, answers, i)
    requires forall a, b :: 0 <= a < b < |items| ==> items[a].key != items[b].key
    requires var k := items[i].key;
             && k in was.actions && Outcomed(was.accounts, k, answers(i), outcome)
             && db.actions ==
                was.actions[k := was.actions[k].(status := outcome, attempts := was.actions[k].attempts + 1)]
    ensures Results(before, db, items, answers, i + 1)
  {
    forall j | 0 <= j < |items| && j != i
      ensures items[j].key != items[i].key
    {
      if j < i { assert items[j].key != items[i].key; }
    }
  }

  /** What every statement of the execution before the final part keeps. */
  ghost predicate Steady(s: State, t: State, c: CaseId) {
    && KeysOf(t.db, c) == KeysOf(s.db, c) && t.db.links == s.db.links && t.db.candidates == s.db.candidates
    && t.db.snapshots == s.db.snapshots && t.db.cases.Keys == s.db.cases.Keys
    && (c in s.db.cases ==> t.db.cases[c].person == s.db.cases[c].person)
    && (Exact(s, c) ==> Exact(t, c))
  }

  lemma SteadyTrans(a: State, b: State, d: State, c: CaseId)
    requires Steady(a, b, c) && Steady(b, d, c)
    ensures Steady(a, d, c)
  {
  }

  lemma SteadyKeepsCase(a: State, b: State, c: CaseId)
    requires Steady(a, b, c) && c in a.db.cases
    ensures c in b.db.cases && b.db.cases[c].person == a.db.cases[c].person
  {
  }

  ghost predicate CallsMade(s: State, items: seq<Item>, n: nat)
    requires n <= |items|
  {
    forall j :: 0 <= j < n ==> s.calls[items[j].key] == if IsWrite(items[j].key.typ) then 1 else 0
  }

  ghost predicate Concluded(s: State, t: State, c: CaseId, verdict: VerificationStatus) {
    && c in t.db.cases && t.db.cases[c].verification == Some(verdict)
    && c in s.db.cases && t.db.cases[c].person == s.db.cases[c].person
    && t.db.actions == s.db.actions && t.db.evidence == s.db.evidence && t.calls == s.calls
    && t.db.links == s.db.links && t.db.candidates == s.db.candidates
    && (Exact(s, c) ==> Exact(t, c))
  }

  lemma Begins(trace: seq<Step>, e: ExecId, c: CaseId)
    requires e !in After(trace).execs && StartCase(After(trace).db, c).Ok?
    ensures var s, t := After(trace), After(trace + [Begin(e, c)]);
            && t.db == StartCase(s.db, c).value && Stands(t, e, Exec(c, [], {}, Loading)) && Steady(s, t, c)
  {
    hide Inv, Exact, Run;
    Extended(trace, Begin(e, c));
    if Exact(After(trace), c) {
      StepKeepsExact(After(trace), Begin(e, c), c);
    }
  }

  lemma Loads(trace: seq<Step>, e: ExecId, order: seq<ActionKey>)
    requires e in After(trace).execs && After(trace).execs[e].pc == Loading
    requires Enumerates(order, KeysOf(After(trace).db, After(trace).execs[e].caseId))
    ensures var s, t := After(trace), After(trace + [Load(e, order)]);
            && (forall k :: k in order ==> k in s.db.actions && s.db.actions[k].connector in s.db.connectors)
            && t.db == s.db && Stands(t, e, s.execs[e].(items := LoadItems(s.db, order), pc := At(0)))
            && Steady(s, t, s.execs[e].caseId)
  {
    hide Exact, Run, Inv, LoadItems;
    Extended(trace, Load(e, order));
    var s := After(trace);
    ActionsHaveConnectors(s, e);
    if Exact(s, s.execs[e].caseId) {
      StepKeepsExact(s, Load(e, order), s.execs[e].caseId);
    }
  }

  lemma ActionsHaveConnectors(s: State, e: ExecId)
    requires Inv(s) && e in s.execs
    ensures forall k :: k in KeysOf(s.db, s.execs[e].caseId) ==> s.db.actions[k].connector in s.db.connectors
  {
    assert ExecOk(s, e);
    assert CaseOk(s, s.execs[e].caseId);
    hide ExecOk;
  }

  /** The action at hand was approved when loaded and has not been sent to its provider. */
  lemma Fresh(trace: seq<Step>, e: ExecId, i: nat)
    requires e in After(trace).execs && After(trace).execs[e].pc == At(i) && i < |After(trace).execs[e].items|
    ensures var s := After(trace); var items := s.execs[e].items;
            && items[i].status == ActionApproved && s.calls[items[i].key] == 0
            && items[i].key in s.db.actions && s.db.actions[items[i].key].status == ActionApproved
            && (forall j :: 0 <= j < |items| && j != i ==> items[j].key != items[i].key)
  {
    hide Run;
    Reachable(trace);
    assert ExecOk(After(trace), e);
    assert ItemOk(After(trace), After(trace).execs[e], i);
  }

  lemma OneCallMore(s: State, t: State, items: seq<Item>, i: nat)
    requires i < |items| && CallsMade(s, items, i) && s.calls[items[i].key] == 0
    requires forall j :: 0 <= j < |items| && j != i ==> items[j].key != items[i].key
    requires t.calls == if IsWrite(items[i].key.typ) then s.calls + multiset{items[i].key} else s.calls
    ensures CallsMade(t, items, i + 1)
  {
  }

  lemma Statement(trace: seq<Step>, e: ExecId, answer: Answer)
    requires e in After(trace).execs && InLoop(After(trace).execs[e].pc)
    ensures var s, t := After(trace), After(trace + [Advance(e, answer)]);
            t == AdvanceExec(s, e, answer) && e in t.execs && Steady(s, t, s.execs[e].caseId)
  {
    hide Inv, Exact, Run, AdvanceExec;
    Advanced(trace, e, answer);
    var s := After(trace);
    assert KeepsRows(s, AdvanceExec(s, e, answer), e);
  }

  predicate InLoop(pc: Pc) {
    pc.At? || pc.Acting? || pc.Storing? || pc.Recording? || pc.Proving?
  }

  lemma Marks(trace: seq<Step>, e: ExecId, i: nat, answer: Answer)
    requires e in After(trace).execs && After(trace).execs[e].pc == At(i) && i < |After(trace).execs[e].items|
    requires After(trace).execs[e].items[i].status != ActionSucceeded
    ensures var s, t := After(trace), After(trace + [Advance(e, answer)]); var x := s.execs[e];
            && t.db == MarkRunning(s.db, x.items[i].key) && t.calls == s.calls
            && Stands(t, e, x.(pc := Acting(i))) && Steady(s, t, x.caseId)
  {
    hide Exact, Run, Steady, MarkRunning, Act, FinishExec;
    Statement(trace, e, answer);
  }

  lemma Acts(trace: seq<Step>, e: ExecId, i: nat, answer: Answer)
    requires e in After(trace).execs && After(trace).execs[e].pc == Acting(i) && i < |After(trace).execs[e].items|
    ensures var s, t := After(trace), After(trace + [Advance(e, answer)]); var x := s.execs[e]; var k := x.items[i].key;
            && t.db == s.db && Stands(t, e, Acted(s.db, x, i, answer)) && Steady(s, t, x.caseId)
            && t.calls == if Remote(k.typ) then s.calls + multiset{k} else s.calls
  {
    hide Exact, Run, Steady, FinishExec, Mark, Store, Record, Prove;
    Statement(trace, e, answer);
  }

  lemma Stores(trace: seq<Step>, e: ExecId, i: nat, answer: Answer)
    requires e in After(trace).execs && After(trace).execs[e].pc == Storing(i) && i < |After(trace).execs[e].items|
    ensures var s, t := After(trace), After(trace + [Advance(e, answer)]); var x := s.execs[e];
            && t.db == StoreDisabled(s.db, x.items[i].key.account) && t.calls == s.calls
            && Stands(t, e, x.(pc := Recording(i, ActionSucceeded))) && Steady(s, t, x.caseId)
  {
    hide Exact, Run, Steady, StoreDisabled, Act, FinishExec;
    Statement(trace, e, answer);
  }

  lemma Records(trace: seq<Step>, e: ExecId, i: nat, outcome: ActionStatus, answer: Answer)
    requires e in After(trace).execs && After(trace).execs[e].pc == Recording(i, outcome)
    requires i < |After(trace).execs[e].items|
    ensures var s, t := After(trace), After(trace + [Advance(e, answer)]); var x := s.execs[e];
            && t.db == RecordOutcome(s.db, x.items[i].key, outcome) && t.calls == s.calls
            && Stands(t, e, x.(pc := Proving(i, outcome))) && Steady(s, t, x.caseId)
  {
    hide Exact, Run, Steady, RecordOutcome, Act, FinishExec;
    Statement(trace, e, answer);
  }

  lemma Proves(trace: seq<Step>, e: ExecId, i: nat, outcome: ActionStatus, answer: Answer)
    requires e in After(trace).execs && After(trace).execs[e].pc == Proving(i, outcome)
    requires i < |After(trace).execs[e].items|
    ensures var s, t := After(trace), After(trace + [Advance(e, answer)]); var x := s.execs[e];
            && t.db == AddEvidence(s.db, x.items[i].key, outcome) && t.calls == s.calls
            && Stands(t, e, x.(pc := At(i + 1))) && Steady(s, t, x.caseId)
  {
    hide Exact, Run, Steady, AddEvidence, Act, FinishExec;
    Statement(trace, e, answer);
  }

  lemma Ends(trace: seq<Step>, e: ExecId)
    requires e in After(trace).execs && After(trace).execs[e].pc == At(|After(trace).execs[e].items|)
    ensures var s, t := After(trace), After(trace + [Advance(e, ProviderError)]); var x := s.execs[e];
            t.db == s.db && t.calls == s.calls && Stands(t, e, x.(pc := Concluding))
                && (Exact(s, x.caseId) ==> Exact(t, x.caseId))
  {
    hide Exact, Run, Inv, Act, FinishExec;
    Advanced(trace, e, ProviderError);
  }

  /** What the final statements leave alone. */
  ghost predicate Rests(s: State, t: State, c: CaseId) {
    && t.db.actions == s.db.actions && t.db.evidence == s.db.evidence && t.calls == s.calls
    && t.db.links == s.db.links && t.db.candidates == s.db.candidates && (Exact(s, c) ==> Exact(t, c))
  }

  /** The final statements: what the tables and the execution are after each. */
  ghost predicate Final(s: State, x: Exec, db: Db, pc: Pc) {
    var c := x.caseId;
    && c in s.db.cases
    && match x.pc
       case Concluding => db == SetCase(s.db, c, Verifying) && pc == CountingAccounts
       case CountingAccounts => db == s.db && pc == CountingCandidates(CountAccounts(s.db, s.db.cases[c].person))
       case CountingCandidates(t) =>
         && db == s.db
         && pc == CountingManual(t.(unresolved := |PendingFor(s.db, s.db.cases[c].person)|))
       case CountingManual(t) => db == s.db && pc == Snapshotting(t.(manual := |ManualOf(s.db, c)|))
       case Snapshotting(t) => db == AddSnapshot(s.db, c, |x.failed|, t, Verdict(t, |x.failed|)) && pc == Closing(t)
       case Closing(t) => db == Conclude(s.db, c, Verdict(t, |x.failed|)) && pc == Returned(Verdict(t, |x.failed|))
       case _ => false
  }

  lemma Finishes(trace: seq<Step>, e: ExecId, db: Db, pc: Pc)
    requires e in After(trace).execs && Final(After(trace), After(trace).execs[e], db, pc)
    ensures var s, t := After(trace), After(trace + [Advance(e, ProviderError)]);
            t.db == db && Stands(t, e, s.execs[e].(pc := pc)) && Rests(s, t, s.execs[e].caseId)
  {
    hide Exact, Run, Inv, Act, CountAccounts, PendingFor, ManualOf, AddSnapshot, Conclude, Verdict, SetCase;
    Advanced(trace, e, ProviderError);
    assert AfterLoop(After(trace).execs[e].pc);
    var s := After(trace);
    assert AdvanceExec(s, e, ProviderError) == FinishExec(s, e);
  }

  /** Every action of a returned execution has its outcome, its one evidence record and its calls. */
  lemma ActionsAreDone(trace: seq<Step>, e: ExecId, k: ActionKey)
    requires e in After(trace).execs && After(trace).execs[e].pc.Returned?
    requires CallsMade(After(trace), After(trace).execs[e].items, |After(trace).execs[e].items|)
    requires k in KeysOf(After(trace).db, After(trace).execs[e].caseId)
    ensures DoneOnce(After(trace), k)
  {
    hide Run;
    Reachable(trace);
    var s := After(trace);
    var x := s.execs[e];
    assert ExecOk(s, e);
    var j :| 0 <= j < |x.items| && x.items[j].key == k;
    assert ItemOk(s, x, j);
  }

  lemma ExecutionIsDone(s: State, m: State, trace: seq<Step>, e: ExecId, x: Exec, verdict: VerificationStatus)
    requires Steady(s, m, x.caseId) && Concluded(m, After(trace), x.caseId, verdict)
    requires x.pc == Returned(verdict) && Stands(After(trace), e, x) && CallsMade(m, x.items, |x.items|)
    requires var db := After(trace).db; var p := db.cases[x.caseId].person;
             && Judges(verdict, db, x.caseId, p, x.failed) && Closes(db.cases[x.caseId].status, verdict)
             && db.snapshots == m.db.snapshots + [SnapshotOf(db, x.caseId, p, x.failed, verdict)]
    ensures Executed(s.db, After(trace), x.caseId, x.failed, verdict)
    ensures Exact(s, x.caseId) ==>
              (verdict == Verified <==>
               && AllSucceeded(After(trace), x.caseId)
               && !SomePending(After(trace).db, After(trace).db.cases[x.caseId].person))
  {
    hide Run, SomePending, AllSucceeded, Exact, DoneOnce, Inv, Judges, SnapshotOf, Closes;
    forall k | k in KeysOf(After(trace).db, x.caseId)
      ensures DoneOnce(After(trace), k)
    {
      ActionsAreDone(trace, e, k);
    }
    Reachable(trace);
    if Exact(s, x.caseId) {
      JudgedIsExact(After(trace), e, verdict);
    }
  }

  ghost predicate DoneOnce(s: State, k: ActionKey) {
    && k in s.db.actions && Outcome(s.db.actions[k].status)
    && k in s.db.evidence && s.db.evidence[k] == [s.db.actions[k].status]
    && s.calls[k] == (if IsWrite(k.typ) then 1 else 0)
  }

  function Accounts(rows: seq<Preview>): set<AccountId> {
    set row | row in rows :: row.account
  }

  function KeyOf(c: CaseId, row: Preview): ActionKey {
    ActionKey(c, row.account, row.action)
  }

  ghost predicate RowOk(db: Db, c: CaseId, p: PersonId, row: Preview) {
    && row.account in Plannable(db, p) && row.connector == db.accounts[row.account].connector
    && KeyOf(c, row) == PlannedKey(db, c, row.account)
  }

  ghost predicate OncePerAccount(rows: seq<Preview>) {
    forall i, j :: 0 <= i < j < |rows| ==> rows[i].account != rows[j].account
  }

  lemma OneRowMore(db: Db, c: CaseId, p: PersonId, rows: seq<Preview>, row: Preview)
    requires ChosenFor(db, c, p, rows) && RowOk(db, c, p, row) && row.account !in Accounts(rows)
    ensures Accounts(rows + [row]) == Accounts(rows) + {row.account} && ChosenFor(db, c, p, rows + [row])
  {
    hide Plannable, PlannedAction;
    assert forall i :: 0 <= i < |rows| ==> rows[i].account in Accounts(rows);
  }

  ghost predicate ChosenFor(db: Db, c: CaseId, p: PersonId, rows: seq<Preview>) {
    OncePerAccount(rows) && forall row :: row in rows ==> RowOk(db, c, p, row)
  }

  /** The planner's first loop: an action for each row of the join. */
  method Choose(db: Db, c: CaseId, p: PersonId) returns (rows: seq<Preview>)
    ensures Accounts(rows) == Plannable(db, p) && ChosenFor(db, c, p, rows)
  {
    hide ChosenFor, PlannedAction, Accounts;
    rows := [];
    NothingChosen(db, c, p);
    var open := Plannable(db, p);
    while open != {}
      invariant open + Accounts(rows) == Plannable(db, p) && open !! Accounts(rows) && ChosenFor(db, c, p, rows)
      decreases |open|
    {
      var a :| a in open;
      assert a in Plannable(db, p);
      var connector := db.connectors[db.accounts[a].connector];
      var row := Preview(a, db.accounts[a].connector, PlannedAction(db.accounts[a].status == Disabled, connector));
      OneRowMore(db, c, p, rows, row);
      rows := rows + [row];
      open := open - {a};
    }
  }

  lemma NothingChosen(db: Db, c: CaseId, p: PersonId)
    ensures Accounts([]) == {} && ChosenFor(db, c, p, [])
  {
  }

  /** The rows so far are those of the table, left alone, and some of the planned ones. */
  ghost predicate Inserting(db: Db, c: CaseId, p: PersonId, actions: map<ActionKey, Action>) {
    && (forall k :: k in db.actions ==> k in actions && actions[k] == db.actions[k])
    && (forall k :: k in actions && k !in db.actions ==>
          k in PlannedActions(db, c, p) && actions[k] == PlannedActions(db, c, p)[k])
  }

  lemma ChosenIsPlanned(db: Db, c: CaseId, p: PersonId, row: Preview)
    requires RowOk(db, c, p, row)
    ensures KeyOf(c, row) in PlannedActions(db, c, p)
    ensures PlannedActions(db, c, p)[KeyOf(c, row)] == Action(row.connector, ActionPlanned, None, 0)
  {
    hide PlannedAction;
  }

  lemma PlannedIsChosen(db: Db, c: CaseId, p: PersonId, rows: seq<Preview>, k: ActionKey)
    requires Accounts(rows) == Plannable(db, p) && ChosenFor(db, c, p, rows) && k in PlannedActions(db, c, p)
    ensures exists j :: 0 <= j < |rows| && KeyOf(c, rows[j]) == k
  {
    hide PlannedAction, Plannable;
    assert k.account in Accounts(rows);
    var j :| 0 <= j < |rows| && rows[j].account == k.account;
    assert RowOk(db, c, p, rows[j]);
    assert KeyOf(c, rows[j]) == k;
  }

  /** The planner's second loop: INSERT .. ON CONFLICT DO NOTHING for each chosen action. */
  method InsertPlanned(db: Db, c: CaseId, p: PersonId, rows: seq<Preview>) returns (actions: map<ActionKey, Action>)
    requires Accounts(rows) == Plannable(db, p) && ChosenFor(db, c, p, rows)
    ensures actions == PlannedActions(db, c, p) + db.actions
  {
    hide PlannedActions, RowOk, Accounts;
    actions := db.actions;
    for i := 0 to |rows|
      invariant Inserting(db, c, p, actions)
      invariant forall j :: 0 <= j < i ==> KeyOf(c, rows[j]) in actions
    {
      ChosenIsPlanned(db, c, p, rows[i]);
      var k := KeyOf(c, rows[i]);
      if k !in actions {
        actions := actions[k := Action(rows[i].connector, ActionPlanned, None, 0)];
      }
    }
    forall k | k in PlannedActions(db, c, p)
      ensures k in actions
    {
      PlannedIsChosen(db, c, p, rows, k);
    }
  }

  lemma ExecsStay(trace: seq<Step>, step: Step)
    requires !step.Begin? && !step.Load? && !step.Advance? && !step.Crash?
    ensures After(trace + [step]).execs == After(trace).execs
  {
    hide Inv, Run, Next;
    Extended(trace, step);
  }

  lemma PersonStays(trace: seq<Step>, step: Step, c: CaseId)
    requires c in After(trace).db.cases
    ensures c in After(trace + [step]).db.cases
    ensures After(trace + [step]).db.cases[c].person == After(trace).db.cases[c].person
  {
    hide Inv, Run, Next;
    Extended(trace, step);
    StepMoves(After(trace), step, c);
  }

  /** What a finished execution leaves behind. */
  ghost predicate Executed(
    before: Db, s: State, c: CaseId, failed: set<ConnectorId>, verdict: VerificationStatus)
  {
    && c in s.db.cases && s.db.cases[c].verification == Some(verdict) && Closes(s.db.cases[c].status, verdict)
    && Judges(verdict, s.db, c, s.db.cases[c].person, failed)
    && c in before.cases && s.db.cases[c].person == before.cases[c].person
    && KeysOf(s.db, c) == KeysOf(before, c)
    && (forall k :: k in KeysOf(s.db, c) ==> DoneOnce(s, k))
    && s.db.links == before.links && s.db.candidates == before.candidates
    && s.db.snapshots == before.snapshots + [SnapshotOf(s.db, c, s.db.cases[c].person, failed, verdict)]
  }

  /** The action that the account's state and its connector call for. */
  ghost predicate Fits(db: Db, row: Preview) {
    && row.account in db.accounts && row.connector == db.accounts[row.account].connector
    && row.connector in db.connectors
    && var connector := db.connectors[row.connector];
       row.action ==
       if db.accounts[row.account].status == Disabled then VerifyDisabled
       else if connector.typ in {Scim, Entra, Okta, Google, Ldap} && connector.writeEnabled
               && DisableAccountCapability in connector.capabilities then DisableAccount
       else if connector.typ == GitHub && connector.writeEnabled
               && RemoveMembershipCapability in connector.capabilities then RemoveMembership
       else ManualReview
  }

  lemma ChosenFits(db: Db, c: CaseId, p: PersonId, row: Preview)
    requires RowOk(db, c, p, row)
    ensures Fits(db, row)
  {
    var account := db.accounts[row.account];
    PlannedWriteHasABranch(account.status == Disabled, db.connectors[account.connector]);
    hide PlannedAction;
  }

  /** The preview names each plannable account once, with the action now stored for it. */
  ghost predicate Shows(before: Db, c: CaseId, rows: seq<Preview>, after: Db) {
    && c in before.cases && OncePerAccount(rows)
    && (forall a :: Known(before, a, before.cases[c].person) <==> exists row :: row in rows && row.account == a)
    && (forall row :: row in rows ==> Fits(before, row))
    && (forall k :: k in before.actions ==> k in after.actions && after.actions[k] == before.actions[k])
    && (forall row :: row in rows ==>
          && KeyOf(c, row) in after.actions
          && after.actions[KeyOf(c, row)] == Action(row.connector, ActionPlanned, None, 0))
    && (forall k :: k in after.actions && k !in before.actions ==> exists row :: row in rows && KeyOf(c, row) == k)
  }

  lemma PreviewRow(db: Db, c: CaseId, p: PersonId, rows: seq<Preview>, after: Db, row: Preview)
    requires KeysOf(db, c) == {} && row in rows && ChosenFor(db, c, p, rows)
    requires after.actions == PlannedActions(db, c, p) + db.actions
    ensures Fits(db, row) && KeyOf(c, row) in after.actions
    ensures after.actions[KeyOf(c, row)] == Action(row.connector, ActionPlanned, None, 0)
  {
    assert RowOk(db, c, p, row);
    ChosenFits(db, c, p, row);
    ChosenIsPlanned(db, c, p, row);
    assert KeyOf(c, row) !in KeysOf(db, c);
    hide Fits, RowOk, PlannedActions;
  }

  lemma PreviewAccounts(db: Db, p: PersonId, rows: seq<Preview>, a: AccountId)
    requires Accounts(rows) == Plannable(db, p)
    ensures Known(db, a, p) <==> exists row :: row in rows && row.account == a
  {
    PlannableIsKnown(db, p);
    hide Plannable, Known;
    assert a in Accounts(rows) <==> exists row :: row in rows && row.account == a;
  }

  lemma PreviewShows(db: Db, c: CaseId, p: PersonId, rows: seq<Preview>, after: Db)
    requires c in db.cases && p == db.cases[c].person && KeysOf(db, c) == {}
    requires Accounts(rows) == Plannable(db, p) && ChosenFor(db, c, p, rows)
    requires after.actions == PlannedActions(db, c, p) + db.actions
    ensures Shows(db, c, rows, after)
  {
    hide PlannedActions, Fits, RowOk, Known, Plannable, Accounts, KeysOf;
    forall row | row in rows
      ensures KeyOf(c, row) in after.actions && Fits(db, row)
      ensures after.actions[KeyOf(c, row)] == Action(row.connector, ActionPlanned, None, 0)
    {
      PreviewRow(db, c, p, rows, after, row);
    }
    forall a
      ensures Known(db, a, p) <==> exists row :: row in rows && row.account == a
    {
      PreviewAccounts(db, p, rows, a);
    }
    forall k | k in after.actions && k !in db.actions
      ensures exists row :: row in rows && KeyOf(c, row) == k
    {
      PlannedIsChosen(db, c, p, rows, k);
    }
  }
}
