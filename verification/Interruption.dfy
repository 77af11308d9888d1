/** Exactly which started cases can still finish: those whose execution is alive. */
module Interruption {
  import opened CaseTables
  import opened CaseRuns
  import opened CaseInvariant
  import opened CaseSteps
  import opened CaseTheorems
  import D = Domain
  import Delivery

  // ----- An approved case can be interrupted -----

  lemma CasesAfter(u: Delivery.Setup, steps: seq<Delivery.Step>, l: Step)
    ensures Delivery.Run(u, steps + [Delivery.Lifecycle(l)]).cases == Next(Delivery.Run(u, steps).cases, l)
  {
    hide Next;
    assert (steps + [Delivery.Lifecycle(l)])[..|steps|] == steps;
  }

  lemma BeginAndCrash(s: State, e: ExecId, c: CaseId)
    requires Inv(s) && e !in s.execs && c in s.db.cases && s.db.cases[c].status == D.Approved
    ensures Delivery.Interrupted(Next(Next(s, Begin(e, c)), Crash(e)), c)
  {
    NotStartedHasNoExec(s, c);
    BeginStarts(s, e, c);
    CrashDrops(Next(s, Begin(e, c)), e);
    hide Inv, Next;
  }

  lemma BeginStarts(s: State, e: ExecId, c: CaseId)
    requires e !in s.execs && c in s.db.cases && s.db.cases[c].status == D.Approved
    ensures var t := Next(s, Begin(e, c));
            && c in t.db.cases && t.db.cases[c].status == D.Running
            && t.execs == s.execs[e := Exec(c, [], {}, Loading)]
  {
  }

  lemma CrashDrops(s: State, e: ExecId)
    ensures Next(s, Crash(e)) == s.(execs := s.execs - {e})
  {
  }

  /** In every run an execution that begins may crash, and leaves its case interrupted. */
  lemma ApprovedCanBeInterrupted(u: Delivery.Setup, steps: seq<Delivery.Step>, e: ExecId, c: CaseId)
    requires var s := Delivery.Run(u, steps).cases;
             e !in s.execs && c in s.db.cases && s.db.cases[c].status == D.Approved
    ensures var more := [Delivery.Lifecycle(Begin(e, c)), Delivery.Lifecycle(Crash(e))];
            Delivery.Interrupted(Delivery.Run(u, steps + more).cases, c)
  {
    hide Delivery.Run, Next, Delivery.Interrupted, Inv;
    Delivery.RunIsSound(u, steps);
    var begun := steps + [Delivery.Lifecycle(Begin(e, c))];
    CasesAfter(u, steps, Begin(e, c));
    CasesAfter(u, begun, Crash(e));
    assert begun + [Delivery.Lifecycle(Crash(e))] ==
        steps + [Delivery.Lifecycle(Begin(e, c)), Delivery.Lifecycle(Crash(e))];
    BeginAndCrash(Delivery.Run(u, steps).cases, e, c);
  }

  // ----- A live execution can finish -----

  /** How many statements are left at most. */
  function Left(x: Exec): nat {
    var n := |x.items|;
    match x.pc
    case Loading => 0
    case At(i) => if i <= n then 5 * (n - i) + 7 else 0
    case Acting(i) => if i < n then 5 * (n - i) + 6 else 0
    case Storing(i) => if i < n then 5 * (n - i) + 5 else 0
    case Recording(i, _) => if i < n then 5 * (n - i) + 4 else 0
    case Proving(i, _) => if i < n then 5 * (n - i) + 3 else 0
    case Concluding => 6
    case CountingAccounts => 5
    case CountingCandidates(_) => 4
    case CountingManual(_) => 3
    case Snapshotting(_) => 2
    case Closing(_) => 1
    case Returned(_) => 0
  }

  /** Where a final statement leads. */
  predicate Follows(pc: Pc, next: Pc) {
    match pc
    case Concluding => next.CountingAccounts?
    case CountingAccounts => next.CountingCandidates?
    case CountingCandidates(_) => next.CountingManual?
    case CountingManual(_) => next.Snapshotting?
    case Snapshotting(_) => next.Closing?
    case Closing(_) => next.Returned?
    case _ => false
  }

  lemma FinishFollows(s: State, e: ExecId)
    requires e in s.execs && AfterLoop(s.execs[e].pc) && !s.execs[e].pc.Returned? && s.execs[e].caseId in s.db.cases
    ensures Follows(s.execs[e].pc, FinishExec(s, e).execs[e].pc)
  {
    hide CountAccounts, PendingFor, ManualOf, AddSnapshot, Conclude, SetCase, Verdict;
  }

  lemma FinishProgresses(s: State, e: ExecId)
    requires e in s.execs && AfterLoop(s.execs[e].pc) && !s.execs[e].pc.Returned? && s.execs[e].caseId in s.db.cases
    ensures var y := FinishExec(s, e).execs[e]; y.pc != Loading && Left(y) < Left(s.execs[e])
  {
    FinishFollows(s, e);
    hide FinishExec;
  }

  lemma LoopProgresses(s: State, e: ExecId, answer: Answer)
    requires e in s.execs && !AfterLoop(s.execs[e].pc) && s.execs[e].pc != Loading && Left(s.execs[e]) > 0
    ensures var y := AdvanceExec(s, e, answer).execs[e]; y.pc != Loading && Left(y) < Left(s.execs[e])
  {
    hide FinishExec, MarkRunning, StoreDisabled, RecordOutcome, AddEvidence;
  }

  lemma AdvanceProgresses(s: State, e: ExecId, answer: Answer)
    requires Inv(s) && e in s.execs && s.execs[e].pc != Loading && !s.execs[e].pc.Returned?
    ensures var y := AdvanceExec(s, e, answer).execs[e];
            y.pc != Loading && y.caseId == s.execs[e].caseId && Left(y) < Left(s.execs[e])
  {
    assert ExecOk(s, e);
    if AfterLoop(s.execs[e].pc) {
      FinishProgresses(s, e);
    } else {
      hide FinishExec, Mark, Act, Store, Record, Prove, ItemOk, Covers;
      LoopProgresses(s, e, answer);
    }
  }

  /** From any statement after the load, the execution can be run to its end. */
  lemma {:induction false} LoadedCanFinish(u: Delivery.Setup, steps: seq<Delivery.Step>, e: ExecId)
    returns (more: seq<Delivery.Step>)
    requires var s := Delivery.Run(u, steps).cases; e in s.execs && s.execs[e].pc != Loading
    ensures var s := Delivery.Run(u, steps).cases;
            Delivery.CaseFinished(Delivery.Run(u, steps + more).cases, s.execs[e].caseId)
    decreases Left(Delivery.Run(u, steps).cases.execs[e])
  {
    hide Delivery.Run, Next, Inv, AdvanceExec, Left;
    Delivery.RunIsSound(u, steps);
    var s := Delivery.Run(u, steps).cases;
    if s.execs[e].pc.Returned? {
      more := [];
      assert steps + more == steps;
      Delivery.ReturnedMeansFinished(s, e);
    } else {
      var step := Advance(e, ProviderError);
      var longer := steps + [Delivery.Lifecycle(step)];
      CasesAfter(u, steps, step);
      AdvanceIsNext(s, step);
      AdvanceProgresses(s, e, ProviderError);
      var rest := LoadedCanFinish(u, longer, e);
      more := [Delivery.Lifecycle(step)] + rest;
      assert longer + rest == steps + more;
    }
  }

  /** Any set of actions can be listed. */
  lemma {:induction false} SomeOrder(keys: set<ActionKey>) returns (order: seq<ActionKey>)
    ensures Enumerates(order, keys)
  {
    if keys == {} {
      order := [];
    } else {
      var k :| k in keys;
      var rest := SomeOrder(keys - {k});
      order := [k] + rest;
    }
  }

  lemma LoadSucceeds(s: State, e: ExecId) returns (order: seq<ActionKey>)
    requires Inv(s) && e in s.execs && s.execs[e].pc == Loading
    ensures var t := Next(s, Load(e, order));
            e in t.execs && t.execs[e].pc == At(0) && t.execs[e].caseId == s.execs[e].caseId
  {
    order := SomeOrder(KeysOf(s.db, s.execs[e].caseId));
    LoadedActions(s, e, order);
    hide Inv, Enumerates, LoadItems;
  }

  lemma LoadedActions(s: State, e: ExecId, order: seq<ActionKey>)
    requires Inv(s) && e in s.execs && Enumerates(order, KeysOf(s.db, s.execs[e].caseId))
    ensures forall k :: k in order ==> k in s.db.actions && s.db.actions[k].connector in s.db.connectors
  {
    assert ExecOk(s, e);
    assert CaseOk(s, s.execs[e].caseId);
    hide ExecOk;
  }

  lemma LiveCanFinish(u: Delivery.Setup, steps: seq<Delivery.Step>, e: ExecId) returns (more: seq<Delivery.Step>)
    requires e in Delivery.Run(u, steps).cases.execs
    ensures var s := Delivery.Run(u, steps).cases;
            Delivery.CaseFinished(Delivery.Run(u, steps + more).cases, s.execs[e].caseId)
  {
    hide Delivery.Run, Next, Inv;
    Delivery.RunIsSound(u, steps);
    var s := Delivery.Run(u, steps).cases;
    if s.execs[e].pc == Loading {
      var order := LoadSucceeds(s, e);
      CasesAfter(u, steps, Load(e, order));
      var loaded := steps + [Delivery.Lifecycle(Load(e, order))];
      var rest := LoadedCanFinish(u, loaded, e);
      more := [Delivery.Lifecycle(Load(e, order))] + rest;
      assert loaded + rest == steps + more;
    } else {
      more := LoadedCanFinish(u, steps, e);
    }
  }

  ghost predicate CanFinish(u: Delivery.Setup, steps: seq<Delivery.Step>, c: CaseId) {
    exists more :: Delivery.CaseFinished(Delivery.Run(u, steps + more).cases, c)
  }

  /** A case that has started and not finished can finish if and only if an execution still works on it. */
  lemma StartedCanFinishExactly(u: Delivery.Setup, steps: seq<Delivery.Step>, c: CaseId)
    requires var s := Delivery.Run(u, steps).cases;
             c in s.db.cases && (s.db.cases[c].status == D.Running || s.db.cases[c].status == D.Verifying)
    ensures CanFinish(u, steps, c) <==> !Delivery.Interrupted(Delivery.Run(u, steps).cases, c)
  {
    hide Delivery.Run;
    var s := Delivery.Run(u, steps).cases;
    if Delivery.Interrupted(s, c) {
      forall more
        ensures !Delivery.CaseFinished(Delivery.Run(u, steps + more).cases, c)
      {
        Delivery.InterruptedForever(u, steps, more, c);
      }
    } else {
      var e :| e in s.execs && s.execs[e].caseId == c;
      var more := LiveCanFinish(u, steps, e);
    }
  }
}
