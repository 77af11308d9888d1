/** Which systems count as failed: exactly those whose call or re-read failed in the execution of the case. */
module CaseFailures {
  import opened Common
  import opened Domain
  import opened Connectors
  import opened CaseTables
  import opened CaseRuns
  import opened CaseInvariant
  import opened CaseSteps
  import opened CaseTheorems

  /** Execution `e` of case `c` stands before a provider call to system `id`. */
  ghost predicate Calls(s: State, e: ExecId, c: CaseId, id: ConnectorId) {
    && e in s.execs && s.execs[e].caseId == c && s.execs[e].pc.Acting? && s.execs[e].pc.i < |s.execs[e].items|
    && var item := s.execs[e].items[s.execs[e].pc.i];
       item.connector == id && (item.key.typ == DisableAccount || item.key.typ == RemoveMembership)
  }

  /** Step `m` is such a call, and the provider answered with an error. */
  ghost predicate Erred(steps: seq<Step>, m: nat, e: ExecId, c: CaseId, id: ConnectorId) {
    m < |steps| && steps[m] == Advance(e, ProviderError) && Calls(Run(EMPTY, steps[..m]), e, c, id)
  }

  // ----- Only those -----

  lemma AdvanceFails(s: State, e: ExecId, answer: Answer, id: ConnectorId)
    requires e in s.execs
    ensures var x, y := s.execs[e], AdvanceExec(s, e, answer).execs[e];
            && y.caseId == x.caseId
            && (id in y.failed <==> id in x.failed || (answer == ProviderError && Calls(s, e, x.caseId, id)))
  {
    hide FinishExec, MarkRunning, StoreDisabled, RecordOutcome, AddEvidence;
    FinishFailsNothing(s, e);
  }

  lemma FinishFailsNothing(s: State, e: ExecId)
    requires e in s.execs
    ensures FinishExec(s, e).execs[e].failed == s.execs[e].failed
    ensures FinishExec(s, e).execs[e].caseId == s.execs[e].caseId
  {
    hide CountAccounts, PendingFor, ManualOf, AddSnapshot, Conclude, SetCase, Verdict;
  }

  lemma OthersFailNothing(s: State, step: Step, e: ExecId)
    requires !step.Advance? && e in Next(s, step).execs
    ensures var y := Next(s, step).execs[e];
            || (e in s.execs && y.caseId == s.execs[e].caseId && y.failed == s.execs[e].failed)
            || (step.Begin? && y == Exec(step.c, [], {}, Loading)
                && step.c in s.db.cases && s.db.cases[step.c].status == Approved)
  {
    hide Prepare, Surround, LoadItems, Enumerates;
  }

  lemma ErredLater(prior: seq<Step>, step: Step, m: nat, e: ExecId, c: CaseId, id: ConnectorId)
    requires Erred(prior, m, e, c, id)
    ensures Erred(prior + [step], m, e, c, id)
  {
    hide Run;
    assert (prior + [step])[..m] == prior[..m];
  }

  ghost predicate FailedErred(steps: seq<Step>, e: ExecId, c: CaseId, id: ConnectorId) {
    exists m: nat :: Erred(steps, m, e, c, id)
  }

  lemma {:induction false} FailedHasErred(steps: seq<Step>, e: ExecId, id: ConnectorId)
    requires e in Run(EMPTY, steps).execs && id in Run(EMPTY, steps).execs[e].failed
    ensures FailedErred(steps, e, Run(EMPTY, steps).execs[e].caseId, id)
    decreases |steps|
  {
    hide Next, AdvanceExec, Calls;
    if steps != [] {
      var prior, last := steps[..|steps| - 1], steps[|steps| - 1];
      var s := Run(EMPTY, prior);
      assert prior + [last] == steps;
      if !last.Advance? {
        OthersFailNothing(s, last, e);
      } else {
        AdvanceIsNext(s, last);
        if last.e in s.execs {
          if last.e == e { AdvanceFails(s, e, last.answer, id); } else { OtherExecsStay(s, last.e, last.answer, e); }
        }
      }
      var c := Run(EMPTY, steps).execs[e].caseId;
      if e in s.execs && id in s.execs[e].failed && s.execs[e].caseId == c {
        FailedHasErred(prior, e, id);
        var m: nat :| Erred(prior, m, e, c, id);
        ErredLater(prior, last, m, e, c, id);
      } else {
        assert Erred(steps, |prior|, e, c, id);
      }
    }
  }

  // ----- All of those -----

  /** The case has started, and any execution of it is `e` and counts the system as failed. */
  ghost predicate Noted(s: State, e: ExecId, c: CaseId, id: ConnectorId) {
    && c in s.db.cases && Started(s.db.cases[c].status)
    && forall d :: d in s.execs && s.execs[d].caseId == c ==> d == e && id in s.execs[d].failed
  }

  lemma CallIsNoted(s: State, e: ExecId, c: CaseId, id: ConnectorId)
    requires Inv(s) && Calls(s, e, c, id)
    ensures Noted(AdvanceExec(s, e, ProviderError), e, c, id)
  {
    var t := AdvanceExec(s, e, ProviderError);
    assert ExecOk(s, e);
    AdvanceFails(s, e, ProviderError, id);
    AdvanceMoves(s, e, ProviderError, c);
    hide CaseOk, ExecOk, TablesOk, AdvanceExec, Calls;
    forall d | d in t.execs && t.execs[d].caseId == c
      ensures d == e
    {
      if d != e { OtherExecsStay(s, e, ProviderError, d); }
    }
  }

  lemma NotedStays(s: State, step: Step, e: ExecId, c: CaseId, id: ConnectorId)
    requires Inv(s) && Noted(s, e, c, id)
    ensures Noted(Next(s, step), e, c, id)
  {
    hide Inv, Next, AdvanceExec;
    StepMoves(s, step, c);
    var t := Next(s, step);
    forall d | d in t.execs && t.execs[d].caseId == c
      ensures d == e && id in t.execs[d].failed
    {
      if !step.Advance? {
        OthersFailNothing(s, step, d);
      } else {
        AdvanceIsNext(s, step);
        if step.e in s.execs {
          if step.e == d { AdvanceFails(s, d, step.answer, id); } else { OtherExecsStay(s, step.e, step.answer, d); }
        }
      }
    }
  }

  lemma {:induction false} ErredIsNoted(steps: seq<Step>, m: nat, e: ExecId, c: CaseId, id: ConnectorId)
    requires Erred(steps, m, e, c, id)
    ensures Noted(Run(EMPTY, steps), e, c, id)
    decreases |steps|
  {
    hide Next, Inv, Noted, AdvanceExec, Calls;
    var prior, last := steps[..|steps| - 1], steps[|steps| - 1];
    Reachable(prior);
    if m < |prior| {
      assert prior[..m] == steps[..m];
      ErredIsNoted(prior, m, e, c, id);
      NotedStays(Run(EMPTY, prior), last, e, c, id);
    } else {
      AdvanceIsNext(Run(EMPTY, prior), last);
      CallsAtAll(Run(EMPTY, prior), e, c, id);
      CallIsNoted(Run(EMPTY, prior), e, c, id);
    }
  }

  lemma CallsAtAll(s: State, e: ExecId, c: CaseId, id: ConnectorId)
    requires Calls(s, e, c, id)
    ensures e in s.execs && s.execs[e].caseId == c
  {
  }

  /**
   In every run a system counts as failed in an execution if and only if a provider call of it for that case erred.
   */
  lemma FailedIsErred(steps: seq<Step>, e: ExecId, id: ConnectorId)
    requires e in Run(EMPTY, steps).execs
    ensures id in Run(EMPTY, steps).execs[e].failed <==>
            exists m: nat :: Erred(steps, m, e, Run(EMPTY, steps).execs[e].caseId, id)
  {
    hide Run, Calls;
    var c := Run(EMPTY, steps).execs[e].caseId;
    if id in Run(EMPTY, steps).execs[e].failed {
      FailedHasErred(steps, e, id);
    }
    if m: nat :| Erred(steps, m, e, c, id) {
      ErredIsNoted(steps, m, e, c, id);
    }
  }
}
