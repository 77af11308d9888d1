/** The verdict is exact: what the count steps found is what the actions of the case say. */
module CaseVerdicts {
  import opened Common
  import opened Domain
  import opened Connectors
  import opened CaseTables
  import opened CaseRuns
  import opened CaseInvariant
  import opened CaseSteps
  import opened CaseTheorems
  import opened CaseVerification
  import opened CaseExactness
  import opened CaseExactRuns
  import opened Outcomes

  // ----- After the loop -----

  /**
   Since state `b`, in which execution `e` of case `c` stood after its loop, the actions of the case, its person and the
   failed systems are as they were, and no execution of the case is before stage `r`.
   */
  ghost predicate Fixed(b: State, s: State, e: ExecId, c: CaseId, r: nat) {
    && e in b.execs && c in b.db.cases
    && c in s.db.cases && Started(s.db.cases[c].status) && s.db.cases[c].person == b.db.cases[c].person
    && KeysOf(s.db, c) == KeysOf(b.db, c)
    && (forall k :: k in KeysOf(b.db, c) ==> s.db.actions[k].status == b.db.actions[k].status)
    && (forall d :: d in s.execs && s.execs[d].caseId == c ==>
          d == e && Stage(s.execs[d].pc) >= r && s.execs[d].failed == b.execs[e].failed)
  }

  lemma StartedStays(s: State, t: State, c: CaseId)
    requires c in s.db.cases && Started(s.db.cases[c].status) && RowFollows(s, t, c)
    ensures c in t.db.cases && Started(t.db.cases[c].status) && t.db.cases[c].person == s.db.cases[c].person
  {
  }

  /** Nobody else begins, loads or moves an execution of a case that has started. */
  lemma StartedExecsStay(s: State, step: Step, c: CaseId, d: ExecId)
    requires Inv(s) && c in s.db.cases && Started(s.db.cases[c].status) && !OwnStep(s, step, c)
    requires d in Next(s, step).execs && Next(s, step).execs[d].caseId == c
    ensures d in s.execs && Next(s, step).execs[d] == s.execs[d]
  {
    if step.Advance? {
      AdvanceIsNext(s, step);
      if step.e in s.execs {
        AdvanceLeavesOthers(s, step.e, step.answer, c);
      }
    } else {
      OthersLeaveExecs(s, step, c, d);
    }
  }

  lemma OthersLeaveExecs(s: State, step: Step, c: CaseId, d: ExecId)
    requires c in s.db.cases && Started(s.db.cases[c].status) && !OwnStep(s, step, c) && !step.Advance?
    requires d in Next(s, step).execs && Next(s, step).execs[d].caseId == c
    ensures d in s.execs && Next(s, step).execs[d] == s.execs[d]
  {
    hide Prepare, Surround, LoadItems, Enumerates;
  }

  lemma OthersKeepFixed(b: State, s: State, step: Step, e: ExecId, c: CaseId, r: nat)
    requires Inv(s) && Fixed(b, s, e, c, r) && !OwnStep(s, step, c)
    ensures Fixed(b, Next(s, step), e, c, r)
  {
    hide Inv, Next, OwnStep, RowFollows;
    var t := Next(s, step);
    StepMoves(s, step, c);
    StartedStays(s, t, c);
    StartedIsPlanned(s, c);
    StepIsBystander(s, step, c);
    forall d | d in t.execs && t.execs[d].caseId == c
      ensures d in s.execs && t.execs[d] == s.execs[d]
    {
      StartedExecsStay(s, step, c, d);
    }
    assert KeysOf(t.db, c) == KeysOf(s.db, c);
  }

  lemma StartedIsPlanned(s: State, c: CaseId)
    requires c in s.db.cases && Started(s.db.cases[c].status)
    ensures s.db.cases[c].status != Draft
  {
  }

  /** A final statement of the execution moves its stage on. */
  lemma OwnMovesOn(s: State, e: ExecId, answer: Answer)
    requires Inv(s) && e in s.execs && Stage(s.execs[e].pc) > 0
    ensures var t := AdvanceExec(s, e, answer); var y := t.execs[e];
            && t.db.actions == s.db.actions && y.failed == s.execs[e].failed && y.caseId == s.execs[e].caseId
            && Stage(y.pc) >= Stage(s.execs[e].pc)
            && (Stage(s.execs[e].pc) <= MANUAL ==> Stage(y.pc) > Stage(s.execs[e].pc))
  {
    hide Inv, AdvanceExec, FinishExec, CountAccounts, PendingFor, ManualOf, Verdict;
    ExecCaseExists(s, e);
    FinalStatements(s, e, answer);
    FinishLeads(s, e);
  }

  lemma OwnKeepsFixed(b: State, s: State, e: ExecId, answer: Answer, c: CaseId, r: nat)
    requires Inv(s) && Fixed(b, s, e, c, r) && r > 0 && e in s.execs && s.execs[e].caseId == c
    ensures Fixed(b, AdvanceExec(s, e, answer), e, c, r)
    ensures Stage(s.execs[e].pc) == r <= MANUAL ==> Fixed(b, AdvanceExec(s, e, answer), e, c, r + 1)
  {
    var t := AdvanceExec(s, e, answer);
    OwnMovesOn(s, e, answer);
    AdvanceMoves(s, e, answer, c);
    StartedStays(s, t, c);
    hide Inv, AdvanceExec, RowFollows;
    forall d | d in t.execs && t.execs[d].caseId == c
      ensures d == e
    {
      if d != e { OtherExecsStay(s, e, answer, d); }
    }
    assert KeysOf(t.db, c) == KeysOf(s.db, c);
  }

  lemma LoadIsDone(s: State, e: ExecId, order: seq<ActionKey>)
    requires e in s.execs && s.execs[e].pc != Loading
    ensures Next(s, Load(e, order)) == s
  {
    hide Enumerates, LoadItems;
  }

  lemma StepKeepsFixed(b: State, s: State, step: Step, e: ExecId, c: CaseId, r: nat)
    requires Inv(s) && Fixed(b, s, e, c, r) && r > 0
    ensures Fixed(b, Next(s, step), e, c, r)
  {
    hide Inv, Next, AdvanceExec;
    if !OwnStep(s, step, c) {
      hide Fixed;
      OthersKeepFixed(b, s, step, e, c, r);
    } else if step.Load? {
      LoadIsDone(s, step.e, step.order);
    } else {
      AdvanceIsNext(s, step);
      OwnKeepsFixed(b, s, e, step.answer, c, r);
    }
  }

  lemma FixedAtFirst(b: State, e: ExecId, c: CaseId, r: nat)
    requires Inv(b) && AtStage(b, e, c, r) && r > 0
    ensures Fixed(b, b, e, c, r)
  {
    assert ExecOk(b, e);
    hide CaseOk, ItemOk, Covers;
  }

  lemma BeforeNext(steps: seq<Step>, k: nat)
    requires k < |steps|
    ensures Before(steps, k + 1) == Next(Before(steps, k), steps[k])
  {
    hide Next;
    assert steps[..k + 1] == steps[..k] + [steps[k]];
    RunSnoc(steps[..k], steps[k]);
  }

  /** After a count step of the case nothing of it moves but the stage. */
  lemma {:induction false} FixedLater(steps: seq<Step>, k: nat, l: nat, e: ExecId, c: CaseId, r: nat)
    requires CountStep(steps, k, e, c, r) && 0 < r <= MANUAL && k < l <= |steps|
    ensures Fixed(Before(steps, k), Before(steps, l), e, c, r + 1)
    decreases l
  {
    hide Run, Next, Inv, Fixed, AdvanceExec;
    var b := Before(steps, k);
    BeforeNext(steps, l - 1);
    Reachable(steps[..l - 1]);
    if l == k + 1 {
      FixedAtFirst(b, e, c, r);
      AdvanceIsNext(b, steps[k]);
      OwnKeepsFixed(b, b, e, steps[k].answer, c, r);
    } else {
      FixedLater(steps, k, l - 1, e, c, r);
      StepKeepsFixed(b, Before(steps, l - 1), steps[l - 1], e, c, r + 1);
    }
  }

  /** Each count of a case is taken once in a run. */
  lemma CountsAreUnique(steps: seq<Step>, k: nat, l: nat, e: ExecId, d: ExecId, c: CaseId, r: nat)
    requires CountStep(steps, k, e, c, r) && CountStep(steps, l, d, c, r) && 0 < r <= MANUAL
    ensures k == l && e == d
  {
    hide Run;
    if k < l { FixedLater(steps, k, l, e, c, r); }
    if l < k { FixedLater(steps, l, k, d, c, r); }
  }

  // ----- Exactness -----

  lemma FixedFacts(b: State, s: State, e: ExecId, c: CaseId, r: nat)
    requires Fixed(b, s, e, c, r)
    ensures (AllSucceeded(s, c) <==> AllSucceeded(b, c)) && (SomeManual(s.db, c) <==> SomeManual(b.db, c))
    ensures c in s.db.cases && s.db.cases[c].person == b.db.cases[c].person
    ensures e in s.execs && s.execs[e].caseId == c ==> s.execs[e].failed == b.execs[e].failed
  {
    assert forall k :: k in KeysOf(s.db, c) <==> k in s.db.actions && k.caseId == c;
    assert forall k :: k in KeysOf(b.db, c) <==> k in b.db.actions && k.caseId == c;
  }

  /** Where the work was exact at the account count, VERIFIED says that all actions succeeded and none was pending. */
  lemma VerifiedMeansSucceeded(steps: seq<Step>, i: nat, j: nat, m: nat, e: ExecId, c: CaseId, p: PersonId,
                               v: VerificationStatus)
    requires ThreeCounts(steps, i, j, m, e, c) && Exact(Before(steps, i), c) && p == Before(steps, i).db.cases[c].person
    requires CountsJudge(steps, i, j, m, e, c, p, v)
    ensures v == Verified <==> AllSucceeded(Run(EMPTY, steps), c) && !SomePending(Before(steps, j).db, p)
  {
    hide Run, Exact, AllSucceeded, SomeActive, SomeNotDisabled, SomePending, SomeManual;
    var b := Before(steps, i);
    WorkAtCount(steps, i, e, c);
    FixedLater(steps, i, m, e, c, ACCOUNTS);
    FixedLater(steps, i, |steps|, e, c, ACCOUNTS);
    assert steps[..|steps|] == steps;
    FixedFacts(b, Before(steps, m), e, c, CANDIDATES);
    FixedFacts(b, Run(EMPTY, steps), e, c, CANDIDATES);
    ActiveIsNotDisabled(b.db, p);
    hide Fixed, Before;
  }

  lemma WorkAtCount(steps: seq<Step>, i: nat, e: ExecId, c: CaseId)
    requires CountStep(steps, i, e, c, ACCOUNTS) && Exact(Before(steps, i), c)
    ensures var b := Before(steps, i); var p := b.db.cases[c].person;
            && (AllSucceeded(b, c) <==> !SomeNotDisabled(b.db, p))
            && (AllSucceeded(b, c) ==> !SomeManual(b.db, c) && b.execs[e].failed == {})
  {
    hide Run;
    Reachable(steps[..i]);
    assert ExecOk(Before(steps, i), e);
    WorkDecides(Before(steps, i), e);
    hide Inv, ExecOk;
  }

  lemma {:induction false} RunAppend(s: State, first: seq<Step>, second: seq<Step>)
    ensures Run(s, first + second) == Run(Run(s, first), second)
    decreases |second|
  {
    hide Next;
    if second == [] {
      assert first + second == first;
    } else {
      var n := |second| - 1;
      assert (first + second)[..|first + second| - 1] == first + second[..n];
      RunAppend(s, first, second[..n]);
    }
  }

  /** The run has planned the case after `before`, and goes on with `after`. */
  ghost function Planned(before: seq<Step>, c: CaseId): seq<Step> {
    before + [Plan(c)]
  }

  /**
   The plan went through, and for `i` steps after it only the execution of the case wrote the person's accounts and
   links.
   */
  ghost predicate PlannedQuietly(before: seq<Step>, c: CaseId, after: seq<Step>, i: nat, p: PersonId) {
    var s := Run(EMPTY, Planned(before, c));
    && PlanCase(Run(EMPTY, before).db, c).Ok?
    && c in s.db.cases && s.db.cases[c].person == p
    && i <= |after| && Quiet(s, after[..i], c, p)
  }

  /** At the end of the run an execution of the case has returned a verdict. */
  ghost predicate Returns(steps: seq<Step>, e: ExecId, c: CaseId, v: VerificationStatus) {
    var s := Run(EMPTY, steps);
    e in s.execs && s.execs[e].caseId == c && s.execs[e].pc == Returned(v)
  }

  lemma ExactAtCount(before: seq<Step>, c: CaseId, after: seq<Step>, i: nat, p: PersonId)
    requires PlannedQuietly(before, c, after, i, p)
    ensures var b := Before(Planned(before, c) + after, |before| + 1 + i);
            Exact(b, c) && b.db.cases[c].person == p
  {
    hide Inv, Run, Next, Quiet, Exact, PlanCase;
    var planned := Planned(before, c);
    Reachable(before);
    RunSnoc(before, Plan(c));
    PlanIsExact(Run(EMPTY, before), c);
    Reachable(planned);
    QuietRunKeepsExact(Run(EMPTY, planned), after[..i], c, p);
    RunAppend(EMPTY, planned, after[..i]);
    assert (planned + after)[..|before| + 1 + i] == planned + after[..i];
  }

  /** A returned verdict is that of the count steps, which are the only ones of the case. */
  lemma ReturnedIsCounted(steps: seq<Step>, e: ExecId, c: CaseId, p: PersonId, v: VerificationStatus, i: nat, j: nat)
    requires Returns(steps, e, c, v) && c in Run(EMPTY, steps).db.cases && Run(EMPTY, steps).db.cases[c].person == p
    requires CountStep(steps, i, e, c, ACCOUNTS) && CountStep(steps, j, e, c, CANDIDATES)
    ensures exists m: nat ::
              ThreeCounts(steps, i, j, m, e, c) && CountsJudge(steps, i, j, m, e, c, p, v)
  {
    RunTells(steps);
    assert Decided(steps, e, c, p, v);
    hide Run, Told, CountsJudge, TallyAt, Verdict, CountStep, Before;
    var i0: nat, j0: nat, m: nat :|
      && ThreeCounts(steps, i0, j0, m, e, c)
      && v == Verdict(TallyAt(steps, i0, j0, m, c, p), |Before(steps, m).execs[e].failed|);
    CountsAreUnique(steps, i0, i, e, e, c, ACCOUNTS);
    CountsAreUnique(steps, j0, j, e, e, c, CANDIDATES);
    VerdictOfCounts(steps, i, j, m, e, c, p);
  }

  lemma PersonAtEnd(steps: seq<Step>, k: nat, e: ExecId, c: CaseId)
    requires CountStep(steps, k, e, c, ACCOUNTS)
    ensures c in Run(EMPTY, steps).db.cases
    ensures Run(EMPTY, steps).db.cases[c].person == Before(steps, k).db.cases[c].person
  {
    FixedLater(steps, k, |steps|, e, c, ACCOUNTS);
    assert steps[..|steps|] == steps;
    hide Run;
  }

  /** If the work was exact at the account count, the verdict is. */
  lemma ExactFromCount(steps: seq<Step>, e: ExecId, c: CaseId, p: PersonId, v: VerificationStatus, i: nat, j: nat)
    requires Returns(steps, e, c, v)
    requires CountStep(steps, i, e, c, ACCOUNTS) && CountStep(steps, j, e, c, CANDIDATES)
    requires Exact(Before(steps, i), c) && Before(steps, i).db.cases[c].person == p
    ensures v == Verified <==> AllSucceeded(Run(EMPTY, steps), c) && !SomePending(Before(steps, j).db, p)
  {
    hide Run, Exact, AllSucceeded, SomePending, CountsJudge, Returns, Before, AtStage;
    PersonAtEnd(steps, i, e, c);
    ReturnedIsCounted(steps, e, c, p, v, i, j);
    var m: nat :|
      ThreeCounts(steps, i, j, m, e, c) && CountsJudge(steps, i, j, m, e, c, p, v);
    VerifiedMeansSucceeded(steps, i, j, m, e, c, p, v);
  }

  /**
   Verification is exact.  Take any run up to a successful plan and any run after it in which an execution of the case
   returned.  If up to its account count only that execution wrote the person's accounts and links, the verdict is
   VERIFIED if and only if every action of the case succeeded and no candidate of the person was pending at the
   candidate count, whatever others write between the counts and after them.
   */
  lemma VerificationIsExact(before: seq<Step>, c: CaseId, after: seq<Step>, e: ExecId, p: PersonId,
                            v: VerificationStatus, i: nat, j: nat)
    requires PlannedQuietly(before, c, after, i, p) && Returns(Planned(before, c) + after, e, c, v)
    requires CountStep(Planned(before, c) + after, |before| + 1 + i, e, c, ACCOUNTS)
    requires CountStep(Planned(before, c) + after, |before| + 1 + j, e, c, CANDIDATES)
    ensures var steps := Planned(before, c) + after;
            v == Verified <==>
            AllSucceeded(Run(EMPTY, steps), c) && !SomePending(Before(steps, |before| + 1 + j).db, p)
  {
    hide Run, Exact, AllSucceeded, SomePending, PlannedQuietly, Returns, Before, AtStage;
    ExactAtCount(before, c, after, i, p);
    ExactFromCount(Planned(before, c) + after, e, c, p, v, |before| + 1 + i, |before| + 1 + j);
  }

  /** And every execution of the case that returned took both counts after the plan. */
  lemma CountsFollowThePlan(before: seq<Step>, c: CaseId, after: seq<Step>, e: ExecId, v: VerificationStatus)
    requires PlanCase(Run(EMPTY, before).db, c).Ok? && Returns(Planned(before, c) + after, e, c, v)
    ensures var steps := Planned(before, c) + after;
            exists i: nat, j: nat ::
              |before| < i < j && CountStep(steps, i, e, c, ACCOUNTS) && CountStep(steps, j, e, c, CANDIDATES)
  {
    ReturnedCounted(Planned(before, c) + after, e);
    hide Run, CountStep, PlanCase;
    var i: nat, j: nat, m: nat :| ThreeCounts(Planned(before, c) + after, i, j, m, e, c);
    AfterThePlan(before, c, after, e, i);
  }

  lemma ReturnedCounted(steps: seq<Step>, e: ExecId)
    requires e in Run(EMPTY, steps).execs && Run(EMPTY, steps).execs[e].pc.Returned?
    ensures exists i: nat, j: nat, m: nat :: ThreeCounts(steps, i, j, m, e, Run(EMPTY, steps).execs[e].caseId)
  {
    hide Run, TallyAt, Verdict, ThreeCounts;
    RunTells(steps);
  }

  lemma AfterThePlan(before: seq<Step>, c: CaseId, after: seq<Step>, e: ExecId, i: nat)
    requires PlanCase(Run(EMPTY, before).db, c).Ok? && CountStep(Planned(before, c) + after, i, e, c, ACCOUNTS)
    ensures i > |before|
  {
    hide Run;
    var steps := Planned(before, c) + after;
    assert steps[..|before|] == before && steps[|before|] == Plan(c);
    if i < |before| {
      FixedLater(steps, i, |before|, e, c, ACCOUNTS);
    }
  }
}
