/**
 Where a stored DISABLED comes from: each write of it is taken from a provider read of its own, by the listing that
 a synchronisation commits or by the re-read of the execution that stores it.
 */
module CaseProvenance {
  import opened Common
  import opened Domain
  import opened Connectors
  import opened CaseTables
  import opened CaseRuns
  import opened CaseInvariant
  import opened CaseSteps
  import opened CaseTheorems

  // ----- Reads -----

  /** Execution `e` stands before the provider call for item `i`, which is action `k`. */
  ghost predicate Asks(s: State, e: ExecId, i: nat, k: ActionKey) {
    && e in s.execs && s.execs[e].pc == Acting(i) && i < |s.execs[e].items| && s.execs[e].items[i].key == k
    && Remote(k.typ)
  }

  /** Step `m` is the call and re-read of execution `e` for action `k`, and it saw the account inactive. */
  ghost predicate SawInactive(steps: seq<Step>, m: nat, e: ExecId, i: nat, k: ActionKey) {
    m < |steps| && steps[m] == Advance(e, Answered(true)) && Asks(Run(EMPTY, steps[..m]), e, i, k)
  }

  ghost predicate WasSeenInactive(steps: seq<Step>, e: ExecId, i: nat, k: ActionKey) {
    exists m: nat :: SawInactive(steps, m, e, i, k)
  }

  /** Step `m` is the last read under this id, and it returned this listing. */
  ghost predicate ReadAt(steps: seq<Step>, m: nat, id: SyncId, sync: Sync) {
    && m < |steps| && steps[m] == ReadListing(id, sync)
    && forall j :: m < j < |steps| ==> !(steps[j].ReadListing? && steps[j].id == id)
  }

  ghost predicate WasRead(steps: seq<Step>, id: SyncId, sync: Sync) {
    exists m: nat :: ReadAt(steps, m, id, sync)
  }

  // ----- Writes -----

  /** The next step commits a listing, read before, whose last entry for the account is inactive. */
  ghost predicate CommitsInactive(steps: seq<Step>, step: Step, a: AccountId) {
    var s := Run(EMPTY, steps);
    && step.CommitSync? && step.id in s.syncs && a in step.rows
    && step.rows[a].connector == s.syncs[step.id].connector
    && ListedStatus(s.syncs[step.id].listing, step.rows[a].externalId) == Disabled
    && WasRead(steps, step.id, s.syncs[step.id])
  }

  /** The next step stores the outcome of the execution's own re-read of the account. */
  ghost predicate StoresInactive(steps: seq<Step>, step: Step, a: AccountId) {
    var s := Run(EMPTY, steps);
    && step.Advance? && step.e in s.execs && s.execs[step.e].pc.Storing?
    && var x, i := s.execs[step.e], s.execs[step.e].pc.i;
       i < |x.items| && x.items[i].key.account == a && WasSeenInactive(steps, step.e, i, x.items[i].key)
  }

  ghost predicate WritesFromRead(steps: seq<Step>, step: Step, a: AccountId) {
    CommitsInactive(steps, step, a) || StoresInactive(steps, step, a)
  }

  predicate IsDisabled(s: State, a: AccountId) {
    a in s.db.accounts && s.db.accounts[a].status == Disabled
  }

  // ----- Listings -----

  lemma ReadsSetSyncs(s: State, step: Step)
    ensures Next(s, step).syncs ==
            if step.ReadListing? then s.syncs[step.id := step.sync] else s.syncs
  {
    hide Prepare, Execute, AfterCommit, AfterConnector, AfterReadConnector, AfterWriteConnector;
  }

  lemma {:induction false} SyncsWereRead(steps: seq<Step>, id: SyncId)
    requires id in Run(EMPTY, steps).syncs
    ensures WasRead(steps, id, Run(EMPTY, steps).syncs[id])
  {
    hide Next;
    if steps != [] {
      var prior, last := steps[..|steps| - 1], steps[|steps| - 1];
      ReadsSetSyncs(Run(EMPTY, prior), last);
      if last.ReadListing? && last.id == id {
        assert ReadAt(steps, |prior|, id, last.sync);
      } else {
        SyncsWereRead(prior, id);
        var m: nat :| ReadAt(prior, m, id, Run(EMPTY, prior).syncs[id]);
        assert ReadAt(steps, m, id, Run(EMPTY, prior).syncs[id]);
      }
    }
  }

  // ----- Executions -----

  /** The execution is about to store or record a success for a write action. */
  ghost predicate OwesRead(x: Exec, i: nat) {
    && i < |x.items| && Remote(x.items[i].key.typ)
    && (x.pc == Storing(i) || x.pc == Recording(i, ActionSucceeded))
  }

  /** A statement leads there only from a re-read that saw the account inactive. */
  lemma AdvanceOwes(s: State, e: ExecId, answer: Answer, i: nat)
    requires e in s.execs && OwesRead(AdvanceExec(s, e, answer).execs[e], i)
    ensures AdvanceExec(s, e, answer).execs[e].items == s.execs[e].items
    ensures OwesRead(s.execs[e], i) || (answer == Answered(true) && Asks(s, e, i, s.execs[e].items[i].key))
  {
    hide FinishExec, MarkRunning, StoreDisabled, RecordOutcome, AddEvidence, Act;
    FinishOwesNothing(s, e);
    if s.execs[e].pc.Acting? && s.execs[e].pc.i < |s.execs[e].items| {
      ActOwes(s, e, s.execs[e].pc.i, answer);
    }
  }

  lemma ActOwes(s: State, e: ExecId, i: nat, answer: Answer)
    requires e in s.execs && s.execs[e].pc == Acting(i) && i < |s.execs[e].items|
    ensures var y := Act(s, e, i, answer).execs[e];
            && y.items == s.execs[e].items
            && forall j: nat :: OwesRead(y, j) ==> j == i && answer == Answered(true) && Asks(s, e, i, y.items[i].key)
  {
  }

  lemma FinishOwesNothing(s: State, e: ExecId)
    requires e in s.execs
    ensures var y := FinishExec(s, e).execs[e]; y == s.execs[e] || AfterLoop(y.pc)
  {
    hide CountAccounts, PendingFor, ManualOf, ConnectorsOf, EvaluateVerification;
  }

  lemma OthersOweNothing(s: State, step: Step, e: ExecId, i: nat)
    requires !step.Advance? && e in Next(s, step).execs && OwesRead(Next(s, step).execs[e], i)
    ensures e in s.execs && Next(s, step).execs[e] == s.execs[e]
  {
    hide Prepare, Surround, StartCase, LoadItems, Enumerates;
  }

  lemma SeenLater(prior: seq<Step>, step: Step, e: ExecId, i: nat, k: ActionKey)
    requires WasSeenInactive(prior, e, i, k)
    ensures WasSeenInactive(prior + [step], e, i, k)
  {
    hide Run;
    var m: nat :| SawInactive(prior, m, e, i, k);
    assert (prior + [step])[..m] == prior[..m];
    assert SawInactive(prior + [step], m, e, i, k);
  }

  lemma SeenNow(prior: seq<Step>, e: ExecId, i: nat, k: ActionKey)
    requires Asks(Run(EMPTY, prior), e, i, k)
    ensures WasSeenInactive(prior + [Advance(e, Answered(true))], e, i, k)
  {
    hide Run;
    var steps := prior + [Advance(e, Answered(true))];
    assert steps[..|prior|] == prior;
    assert SawInactive(steps, |prior|, e, i, k);
  }

  /** One more step: what an execution owes a read for, it had read before or reads now. */
  lemma OwedStep(prior: seq<Step>, step: Step, e: ExecId, i: nat)
    requires forall d, j: nat :: d in Run(EMPTY, prior).execs && OwesRead(Run(EMPTY, prior).execs[d], j) ==>
                                   WasSeenInactive(prior, d, j, Run(EMPTY, prior).execs[d].items[j].key)
    requires e in Next(Run(EMPTY, prior), step).execs && OwesRead(Next(Run(EMPTY, prior), step).execs[e], i)
    ensures WasSeenInactive(prior + [step], e, i, Next(Run(EMPTY, prior), step).execs[e].items[i].key)
  {
    hide Run, Next, AdvanceExec, WasSeenInactive;
    var s := Run(EMPTY, prior);
    if !step.Advance? {
      OthersOweNothing(s, step, e, i);
      SeenLater(prior, step, e, i, s.execs[e].items[i].key);
    } else {
      AdvanceIsNext(s, step);
      if step.e !in s.execs {
        SeenLater(prior, step, e, i, s.execs[e].items[i].key);
      } else if step.e != e {
        OtherExecsStay(s, step.e, step.answer, e);
        SeenLater(prior, step, e, i, s.execs[e].items[i].key);
      } else {
        AdvanceOwes(s, e, step.answer, i);
        if OwesRead(s.execs[e], i) {
          SeenLater(prior, step, e, i, s.execs[e].items[i].key);
        } else {
          SeenNow(prior, e, i, s.execs[e].items[i].key);
        }
      }
    }
  }

  lemma {:induction false} OwedIsRead(steps: seq<Step>, e: ExecId, i: nat)
    requires e in Run(EMPTY, steps).execs && OwesRead(Run(EMPTY, steps).execs[e], i)
    ensures WasSeenInactive(steps, e, i, Run(EMPTY, steps).execs[e].items[i].key)
    decreases |steps|
  {
    hide Next, WasSeenInactive;
    if steps != [] {
      var prior, last := steps[..|steps| - 1], steps[|steps| - 1];
      forall d, j: nat | d in Run(EMPTY, prior).execs && OwesRead(Run(EMPTY, prior).execs[d], j)
        ensures j < |Run(EMPTY, prior).execs[d].items|
        ensures WasSeenInactive(prior, d, j, Run(EMPTY, prior).execs[d].items[j].key)
      {
        OwedIsRead(prior, d, j);
      }
      OwedStep(prior, last, e, i);
      assert prior + [last] == steps;
    }
  }

  // ----- A DISABLED account -----

  lemma CommitDisables(steps: seq<Step>, step: Step, a: AccountId)
    requires step.CommitSync? && !IsDisabled(Run(EMPTY, steps), a) && IsDisabled(Next(Run(EMPTY, steps), step), a)
    ensures CommitsInactive(steps, step, a)
  {
    hide Run, ListedStatus;
    SyncsWereRead(steps, step.id);
  }

  lemma AdvanceDisables(s: State, e: ExecId, answer: Answer, a: AccountId)
    requires e in s.execs && !IsDisabled(s, a) && IsDisabled(AdvanceExec(s, e, answer), a)
    ensures var x := s.execs[e]; x.pc.Storing? && x.pc.i < |x.items| && x.items[x.pc.i].key.account == a
  {
    hide FinishExec, Mark, Act, Record, Prove;
  }

  /** For every run and every next step that makes an account DISABLED: the step writes what its own read saw. */
  lemma DisabledIsWrittenFromARead(steps: seq<Step>, step: Step, a: AccountId)
    requires !IsDisabled(Run(EMPTY, steps), a) && IsDisabled(Next(Run(EMPTY, steps), step), a)
    ensures WritesFromRead(steps, step, a)
  {
    hide Run, Next, AdvanceExec, WasSeenInactive, CommitsInactive, Inv;
    var s := Run(EMPTY, steps);
    if step.CommitSync? {
      CommitDisables(steps, step, a);
    } else if step.Advance? {
      AdvanceIsNext(s, step);
      var e := step.e;
      AdvanceDisables(s, e, step.answer, a);
      StoringIsRemote(steps, e);
      OwedIsRead(steps, e, s.execs[e].pc.i);
    }
  }

  lemma StoringIsRemote(steps: seq<Step>, e: ExecId)
    requires e in Run(EMPTY, steps).execs && Run(EMPTY, steps).execs[e].pc.Storing?
    ensures OwesRead(Run(EMPTY, steps).execs[e], Run(EMPTY, steps).execs[e].pc.i)
  {
    hide Run;
    Reachable(steps);
    var s := Run(EMPTY, steps);
    assert ExecOk(s, e);
    assert ItemOk(s, s.execs[e], s.execs[e].pc.i);
  }

  /** Step `n` wrote DISABLED from its own read, and the account has been DISABLED ever since. */
  ghost predicate DisabledSince(steps: seq<Step>, n: nat, a: AccountId) {
    && n < |steps| && WritesFromRead(steps[..n], steps[n], a)
    && forall j :: n < j <= |steps| ==> IsDisabled(Run(EMPTY, steps[..j]), a)
  }

  lemma SinceLater(prior: seq<Step>, steps: seq<Step>, n: nat, a: AccountId)
    requires steps != [] && prior == steps[..|steps| - 1] && DisabledSince(prior, n, a)
    requires IsDisabled(Run(EMPTY, steps), a)
    ensures DisabledSince(steps, n, a)
  {
    hide Run, WritesFromRead, IsDisabled;
    assert steps[..n] == prior[..n] && steps[n] == prior[n];
    forall j | n < j <= |steps|
      ensures IsDisabled(Run(EMPTY, steps[..j]), a)
    {
      assert j < |steps| ==> steps[..j] == prior[..j];
      assert steps[..|steps|] == steps;
    }
  }

  /** In every run a DISABLED account has such a write behind it. */
  lemma {:induction false} DisabledWasObserved(steps: seq<Step>, a: AccountId)
    requires IsDisabled(Run(EMPTY, steps), a)
    ensures exists n: nat :: DisabledSince(steps, n, a)
    decreases |steps|
  {
    hide Next, WritesFromRead;
    assert steps != [];
    var prior, last := steps[..|steps| - 1], steps[|steps| - 1];
    if IsDisabled(Run(EMPTY, prior), a) {
      DisabledWasObserved(prior, a);
      var n: nat :| DisabledSince(prior, n, a);
      SinceLater(prior, steps, n, a);
    } else {
      DisabledIsWrittenFromARead(prior, last, a);
      assert steps[..|steps|] == steps;
      assert DisabledSince(steps, |prior|, a);
    }
  }

  // ----- A succeeded action -----

  predicate Succeeded(s: State, k: ActionKey) {
    k in s.db.actions && s.db.actions[k].status == ActionSucceeded
  }

  lemma AdvanceSucceeds(s: State, e: ExecId, answer: Answer, k: ActionKey)
    requires e in s.execs && !Succeeded(s, k) && Succeeded(AdvanceExec(s, e, answer), k)
    ensures var x := s.execs[e];
            && x.pc.Recording? && x.pc.outcome == ActionSucceeded
            && x.pc.i < |x.items| && x.items[x.pc.i].key == k
  {
    hide FinishExec, Act;
  }

  lemma OthersSucceedNothing(s: State, step: Step, k: ActionKey)
    requires !step.Advance? && Succeeded(Next(s, step), k)
    ensures Succeeded(s, k)
  {
    hide Execute, Surround, AfterCreate, AfterCancel;
    if step.Plan? { PlanSucceedsNothing(s, step.c, k); }
  }

  lemma PlanSucceedsNothing(s: State, c: CaseId, k: ActionKey)
    requires Succeeded(Adopt(s, PlanCase(s.db, c)), k)
    ensures Succeeded(s, k)
  {
    hide PlannedAction, Plannable;
  }

  /** In every run a write action is SUCCEEDED only after a re-read of its own that saw the account inactive. */
  lemma {:induction false} SuccessWasObserved(steps: seq<Step>, k: ActionKey)
    requires Succeeded(Run(EMPTY, steps), k) && Remote(k.typ)
    ensures exists e, i: nat :: WasSeenInactive(steps, e, i, k)
    decreases |steps|
  {
    hide Next, WasSeenInactive, Succeeded, AdvanceExec;
    assert steps != [] by { NothingSucceeded(k); }
    var prior, last := steps[..|steps| - 1], steps[|steps| - 1];
    var s := Run(EMPTY, prior);
    assert prior + [last] == steps;
    if last.Advance? { AdvanceIsNext(s, last); }
    if !last.Advance? { OthersSucceedNothing(s, last, k); }
    if Succeeded(s, k) {
      SuccessWasObserved(prior, k);
      var e, i: nat :| WasSeenInactive(prior, e, i, k);
      SeenLater(prior, last, e, i, k);
    } else {
      var e := last.e;
      AdvanceSucceeds(s, e, last.answer, k);
      OwedIsRead(prior, e, s.execs[e].pc.i);
      SeenLater(prior, last, e, s.execs[e].pc.i, k);
    }
  }

  lemma NothingSucceeded(k: ActionKey)
    ensures !Succeeded(EMPTY, k)
  {
  }
}
