/**
 What a verdict says, over all concurrent runs: it is the verdict of three counts, each taken at a step of the
 case's own execution.
 */
module CaseVerification {
  import opened Common
  import opened Domain
  import opened Connectors
  import opened CaseTables
  import opened CaseRuns
  import opened CaseInvariant
  import opened CaseSteps
  import opened CaseTheorems
  import opened CaseProvenance
  import opened Outcomes

  // ----- The counts of an execution -----

  const ACCOUNTS: nat := 1
  const CANDIDATES: nat := 2
  const MANUAL: nat := 3

  /** Which of the final statements comes next; zero before the counts. */
  function Stage(pc: Pc): nat {
    match pc
    case CountingAccounts => ACCOUNTS
    case CountingCandidates(_) => CANDIDATES
    case CountingManual(_) => MANUAL
    case Snapshotting(_) => 4
    case Closing(_) => 5
    case Returned(_) => 6
    case _ => 0
  }

  ghost predicate AtStage(s: State, e: ExecId, c: CaseId, stage: nat) {
    e in s.execs && s.execs[e].caseId == c && c in s.db.cases && Stage(s.execs[e].pc) == stage
  }

  /** The state that step `k` of a run finds. */
  ghost function Before(steps: seq<Step>, k: nat): State
    requires k <= |steps|
  {
    Run(EMPTY, steps[..k])
  }

  /** Step `k` is the statement of that stage in execution `e` of case `c`. */
  ghost predicate CountStep(steps: seq<Step>, k: nat, e: ExecId, c: CaseId, stage: nat) {
    k < |steps| && steps[k].Advance? && steps[k].e == e && AtStage(Before(steps, k), e, c, stage)
  }

  /** Steps `i`, `j` and `m` are the three counts of the execution. */
  ghost predicate ThreeCounts(steps: seq<Step>, i: nat, j: nat, m: nat, e: ExecId, c: CaseId) {
    && i < j < m && CountStep(steps, i, e, c, ACCOUNTS) && CountStep(steps, j, e, c, CANDIDATES)
    && CountStep(steps, m, e, c, MANUAL)
  }

  ghost function Pending(steps: seq<Step>, j: nat, p: PersonId): nat
    requires j <= |steps|
  {
    |PendingFor(Before(steps, j).db, p)|
  }

  /** What the three counts add up to. */
  ghost function TallyAt(steps: seq<Step>, i: nat, j: nat, m: nat, c: CaseId, p: PersonId): Tally
    requires i <= |steps| && j <= |steps| && m <= |steps|
  {
    CountAccounts(Before(steps, i).db, p)
      .(unresolved := Pending(steps, j, p), manual := |ManualOf(Before(steps, m).db, c)|)
  }

  // ----- What an execution carries -----

  ghost predicate OneTold(steps: seq<Step>, e: ExecId, c: CaseId, p: PersonId, t: Tally) {
    exists i: nat :: CountStep(steps, i, e, c, ACCOUNTS) && t == CountAccounts(Before(steps, i).db, p)
  }

  ghost predicate TwoTold(steps: seq<Step>, e: ExecId, c: CaseId, p: PersonId, t: Tally) {
    exists i: nat, j: nat ::
      && i < j && CountStep(steps, i, e, c, ACCOUNTS) && CountStep(steps, j, e, c, CANDIDATES)
      && t == CountAccounts(Before(steps, i).db, p).(unresolved := Pending(steps, j, p))
  }

  ghost predicate AllTold(
    steps: seq<Step>, e: ExecId, c: CaseId, p: PersonId, t: Tally, failed: set<ConnectorId>)
  {
    exists i: nat, j: nat, m: nat ::
      && ThreeCounts(steps, i, j, m, e, c) && t == TallyAt(steps, i, j, m, c, p)
      && failed == Before(steps, m).execs[e].failed
  }

  /** The verdict is that of the three counts and of the systems that had failed. */
  ghost predicate Decided(steps: seq<Step>, e: ExecId, c: CaseId, p: PersonId, v: VerificationStatus) {
    exists i: nat, j: nat, m: nat ::
      && ThreeCounts(steps, i, j, m, e, c)
      && v == Verdict(TallyAt(steps, i, j, m, c, p), |Before(steps, m).execs[e].failed|)
  }

  ghost predicate ExecTold(steps: seq<Step>, e: ExecId, x: Exec, p: PersonId) {
    match x.pc
    case CountingCandidates(t) => OneTold(steps, e, x.caseId, p, t)
    case CountingManual(t) => TwoTold(steps, e, x.caseId, p, t)
    case Snapshotting(t) => AllTold(steps, e, x.caseId, p, t, x.failed)
    case Closing(t) => AllTold(steps, e, x.caseId, p, t, x.failed)
    case Returned(v) => Decided(steps, e, x.caseId, p, v)
    case _ => true
  }

  ghost predicate Told(s: State, steps: seq<Step>) {
    && (forall e :: e in s.execs ==>
          s.execs[e].caseId in s.db.cases && ExecTold(steps, e, s.execs[e], s.db.cases[s.execs[e].caseId].person))
    && (forall c :: c in s.db.cases && s.db.cases[c].verification.Some? ==>
          exists e :: Decided(steps, e, c, s.db.cases[c].person, s.db.cases[c].verification.value))
  }

  // ----- One step more -----

  lemma StepLater(prior: seq<Step>, step: Step, k: nat, e: ExecId, c: CaseId, stage: nat)
    requires CountStep(prior, k, e, c, stage)
    ensures CountStep(prior + [step], k, e, c, stage) && Before(prior + [step], k) == Before(prior, k)
  {
    hide Run;
    assert (prior + [step])[..k] == prior[..k];
  }

  lemma StepNow(prior: seq<Step>, step: Step, e: ExecId, c: CaseId, stage: nat)
    requires step.Advance? && step.e == e && AtStage(Run(EMPTY, prior), e, c, stage)
    ensures CountStep(prior + [step], |prior|, e, c, stage) && Before(prior + [step], |prior|) == Run(EMPTY, prior)
  {
    hide Run;
    assert (prior + [step])[..|prior|] == prior;
  }

  lemma OneToldLater(prior: seq<Step>, step: Step, e: ExecId, c: CaseId, p: PersonId, t: Tally)
    requires OneTold(prior, e, c, p, t)
    ensures OneTold(prior + [step], e, c, p, t)
  {
    hide Before, CountAccounts, AtStage;
    var i: nat :| CountStep(prior, i, e, c, ACCOUNTS) && t == CountAccounts(Before(prior, i).db, p);
    StepLater(prior, step, i, e, c, ACCOUNTS);
  }

  lemma TwoToldLater(prior: seq<Step>, step: Step, e: ExecId, c: CaseId, p: PersonId, t: Tally)
    requires TwoTold(prior, e, c, p, t)
    ensures TwoTold(prior + [step], e, c, p, t)
  {
    hide Before, CountAccounts, AtStage;
    var i: nat, j: nat :|
      && i < j && CountStep(prior, i, e, c, ACCOUNTS) && CountStep(prior, j, e, c, CANDIDATES)
      && t == CountAccounts(Before(prior, i).db, p).(unresolved := Pending(prior, j, p));
    StepLater(prior, step, i, e, c, ACCOUNTS);
    StepLater(prior, step, j, e, c, CANDIDATES);
  }

  lemma ThreeLater(prior: seq<Step>, step: Step, i: nat, j: nat, m: nat, e: ExecId, c: CaseId, p: PersonId)
    requires ThreeCounts(prior, i, j, m, e, c)
    ensures ThreeCounts(prior + [step], i, j, m, e, c)
    ensures TallyAt(prior + [step], i, j, m, c, p) == TallyAt(prior, i, j, m, c, p)
    ensures Before(prior + [step], m) == Before(prior, m)
  {
    StepLater(prior, step, i, e, c, ACCOUNTS);
    StepLater(prior, step, j, e, c, CANDIDATES);
    StepLater(prior, step, m, e, c, MANUAL);
    hide CountStep, Before, CountAccounts, ManualOf;
  }

  lemma AllToldLater(prior: seq<Step>, step: Step, e: ExecId, c: CaseId, p: PersonId, t: Tally,
                     failed: set<ConnectorId>)
    requires AllTold(prior, e, c, p, t, failed)
    ensures AllTold(prior + [step], e, c, p, t, failed)
  {
    var i: nat, j: nat, m: nat :|
      && ThreeCounts(prior, i, j, m, e, c) && t == TallyAt(prior, i, j, m, c, p)
      && failed == Before(prior, m).execs[e].failed;
    ThreeLater(prior, step, i, j, m, e, c, p);
    hide Before, TallyAt;
  }

  lemma DecidedLater(prior: seq<Step>, step: Step, e: ExecId, c: CaseId, p: PersonId, v: VerificationStatus)
    requires Decided(prior, e, c, p, v)
    ensures Decided(prior + [step], e, c, p, v)
  {
    var i: nat, j: nat, m: nat :|
      && ThreeCounts(prior, i, j, m, e, c)
      && v == Verdict(TallyAt(prior, i, j, m, c, p), |Before(prior, m).execs[e].failed|);
    ThreeLater(prior, step, i, j, m, e, c, p);
    hide Before, TallyAt, Verdict;
  }

  lemma ExecToldLater(prior: seq<Step>, step: Step, e: ExecId, x: Exec, p: PersonId)
    requires ExecTold(prior, e, x, p)
    ensures ExecTold(prior + [step], e, x, p)
  {
    hide OneTold, TwoTold, AllTold, Decided;
    match x.pc
    case CountingCandidates(t) => OneToldLater(prior, step, e, x.caseId, p, t);
    case CountingManual(t) => TwoToldLater(prior, step, e, x.caseId, p, t);
    case Snapshotting(t) => AllToldLater(prior, step, e, x.caseId, p, t, x.failed);
    case Closing(t) => AllToldLater(prior, step, e, x.caseId, p, t, x.failed);
    case Returned(v) => DecidedLater(prior, step, e, x.caseId, p, v);
    case _ =>
  }

  // ----- A final statement -----

  /** Where a final statement leads. */
  ghost predicate Leads(s: State, x: Exec, y: Exec, p: PersonId) {
    && y.caseId == x.caseId && y.failed == x.failed
    && match x.pc
       case CountingAccounts => y.pc == CountingCandidates(CountAccounts(s.db, p))
       case CountingCandidates(t) => y.pc == CountingManual(t.(unresolved := |PendingFor(s.db, p)|))
       case CountingManual(t) => y.pc == Snapshotting(t.(manual := |ManualOf(s.db, x.caseId)|))
       case Snapshotting(t) => y.pc == Closing(t)
       case Closing(t) => y.pc == Returned(Verdict(t, |x.failed|))
       case Returned(_) => y.pc == x.pc
       case _ => Stage(y.pc) <= ACCOUNTS
  }

  lemma FinishLeads(s: State, e: ExecId)
    requires e in s.execs && s.execs[e].caseId in s.db.cases
    requires AfterLoop(s.execs[e].pc) || s.execs[e].pc == Loading
    ensures Leads(s, s.execs[e], FinishExec(s, e).execs[e], s.db.cases[s.execs[e].caseId].person)
  {
    hide CountAccounts, PendingFor, ManualOf, AddSnapshot, Conclude, SetCase, Verdict;
  }

  lemma LoopLeads(s: State, e: ExecId, answer: Answer)
    requires e in s.execs && !AfterLoop(s.execs[e].pc) && s.execs[e].pc != Loading
    ensures Stage(AdvanceExec(s, e, answer).execs[e].pc) == 0
  {
    hide Act, MarkRunning, StoreDisabled, RecordOutcome, AddEvidence, FinishExec;
  }

  lemma CountAccountsTold(prior: seq<Step>, step: Step, e: ExecId, c: CaseId, p: PersonId)
    requires step.Advance? && step.e == e && AtStage(Run(EMPTY, prior), e, c, ACCOUNTS)
    ensures OneTold(prior + [step], e, c, p, CountAccounts(Run(EMPTY, prior).db, p))
  {
    StepNow(prior, step, e, c, ACCOUNTS);
    hide CountStep, Before, CountAccounts, Run;
  }

  lemma CountCandidatesTold(prior: seq<Step>, step: Step, e: ExecId, c: CaseId, p: PersonId, t: Tally)
    requires step.Advance? && step.e == e && AtStage(Run(EMPTY, prior), e, c, CANDIDATES) && OneTold(prior, e, c, p, t)
    ensures TwoTold(prior + [step], e, c, p, t.(unresolved := |PendingFor(Run(EMPTY, prior).db, p)|))
  {
    var i: nat :| CountStep(prior, i, e, c, ACCOUNTS) && t == CountAccounts(Before(prior, i).db, p);
    StepLater(prior, step, i, e, c, ACCOUNTS);
    StepNow(prior, step, e, c, CANDIDATES);
    assert i < |prior|;
    hide CountStep, Before, CountAccounts, PendingFor, Run;
    assert Pending(prior + [step], |prior|, p) == |PendingFor(Run(EMPTY, prior).db, p)|;
  }

  lemma CountManualTold(prior: seq<Step>, step: Step, e: ExecId, c: CaseId, p: PersonId, t: Tally)
    requires step.Advance? && step.e == e && AtStage(Run(EMPTY, prior), e, c, MANUAL) && TwoTold(prior, e, c, p, t)
    ensures AllTold(prior + [step], e, c, p, t.(manual := |ManualOf(Run(EMPTY, prior).db, c)|),
                    Run(EMPTY, prior).execs[e].failed)
  {
    var i: nat, j: nat :|
      && i < j && CountStep(prior, i, e, c, ACCOUNTS) && CountStep(prior, j, e, c, CANDIDATES)
      && t == CountAccounts(Before(prior, i).db, p).(unresolved := Pending(prior, j, p));
    StepLater(prior, step, i, e, c, ACCOUNTS);
    StepLater(prior, step, j, e, c, CANDIDATES);
    StepNow(prior, step, e, c, MANUAL);
    var steps := prior + [step];
    assert j < |prior|;
    hide CountStep, Before, CountAccounts, PendingFor, ManualOf, Run;
    assert ThreeCounts(steps, i, j, |prior|, e, c);
    assert TallyAt(steps, i, j, |prior|, c, p) == t.(manual := |ManualOf(Run(EMPTY, prior).db, c)|);
  }

  lemma VerdictTold(prior: seq<Step>, e: ExecId, c: CaseId, p: PersonId, t: Tally, failed: set<ConnectorId>)
    requires AllTold(prior, e, c, p, t, failed)
    ensures Decided(prior, e, c, p, Verdict(t, |failed|))
  {
    hide Before, TallyAt, Verdict;
  }

  /** The execution that takes the step. */
  lemma OwnTold(prior: seq<Step>, step: Step, e: ExecId, x: Exec, y: Exec, p: PersonId)
    requires step.Advance? && step.e == e && e in Run(EMPTY, prior).execs && Run(EMPTY, prior).execs[e] == x
    requires x.caseId in Run(EMPTY, prior).db.cases && ExecTold(prior, e, x, p) && Leads(Run(EMPTY, prior), x, y, p)
    ensures ExecTold(prior + [step], e, y, p)
  {
    hide OneTold, TwoTold, AllTold, Decided, CountAccounts, PendingFor, ManualOf, Verdict, Run;
    var s, c := Run(EMPTY, prior), x.caseId;
    match x.pc
    case CountingAccounts => CountAccountsTold(prior, step, e, c, p);
    case CountingCandidates(t) => CountCandidatesTold(prior, step, e, c, p, t);
    case CountingManual(t) => CountManualTold(prior, step, e, c, p, t);
    case Snapshotting(t) => AllToldLater(prior, step, e, c, p, t, x.failed);
    case Closing(t) => {
      VerdictTold(prior, e, c, p, t, x.failed);
      DecidedLater(prior, step, e, c, p, Verdict(t, |x.failed|));
    }
    case Returned(v) => DecidedLater(prior, step, e, c, p, v);
    case _ =>
  }

  /** Which verdicts a final statement stores. */
  lemma VerdictStored(s: State, e: ExecId, c: CaseId)
    requires e in s.execs && c in FinishExec(s, e).db.cases
    ensures c in s.db.cases
    ensures var verification := FinishExec(s, e).db.cases[c].verification;
            || verification == s.db.cases[c].verification
            || (s.execs[e].caseId == c && s.execs[e].pc.Closing?
                && verification == Some(Verdict(s.execs[e].pc.tally, |s.execs[e].failed|)))
  {
    hide CountAccounts, PendingFor, ManualOf, AddSnapshot, Verdict;
  }

  lemma AdvanceStores(s: State, e: ExecId, answer: Answer, c: CaseId)
    requires e in s.execs && c in AdvanceExec(s, e, answer).db.cases
    ensures c in s.db.cases
    ensures var verification := AdvanceExec(s, e, answer).db.cases[c].verification;
            || verification == s.db.cases[c].verification
            || (s.execs[e].caseId == c && s.execs[e].pc.Closing?
                && verification == Some(Verdict(s.execs[e].pc.tally, |s.execs[e].failed|)))
  {
    hide FinishExec, Act, Mark, Store, Record, Prove, Verdict;
    if AfterLoop(s.execs[e].pc) || s.execs[e].pc == Loading {
      VerdictStored(s, e, c);
    }
  }

  // ----- Along a run -----

  lemma ExecCaseExists(s: State, e: ExecId)
    requires Inv(s) && e in s.execs
    ensures s.execs[e].caseId in s.db.cases
  {
    assert ExecOk(s, e);
  }

  lemma AdvanceTellsExec(prior: seq<Step>, step: Step, d: ExecId)
    requires step.Advance? && step.e in Run(EMPTY, prior).execs && Told(Run(EMPTY, prior), prior)
    requires d in AdvanceExec(Run(EMPTY, prior), step.e, step.answer).execs
    ensures var s := Run(EMPTY, prior); var t := AdvanceExec(s, step.e, step.answer);
            && d in s.execs && t.execs[d].caseId == s.execs[d].caseId && s.execs[d].caseId in s.db.cases
            && ExecTold(prior + [step], d, t.execs[d], s.db.cases[s.execs[d].caseId].person)
  {
    hide Run, AdvanceExec, ExecTold, Leads;
    var s := Run(EMPTY, prior);
    var e, t := step.e, AdvanceExec(s, step.e, step.answer);
    if d != e {
      OtherExecsStay(s, e, step.answer, d);
      ExecToldLater(prior, step, d, s.execs[d], s.db.cases[s.execs[d].caseId].person);
    } else {
      var p := s.db.cases[s.execs[e].caseId].person;
      if AfterLoop(s.execs[e].pc) || s.execs[e].pc == Loading {
        FinishLeads(s, e);
        FinalStatements(s, e, step.answer);
        OwnTold(prior, step, e, s.execs[e], t.execs[e], p);
      } else {
        LoopLeads(s, e, step.answer);
        NothingTold(prior + [step], e, t.execs[e], p);
      }
    }
  }

  lemma FinalStatements(s: State, e: ExecId, answer: Answer)
    requires e in s.execs && (AfterLoop(s.execs[e].pc) || s.execs[e].pc == Loading)
    ensures AdvanceExec(s, e, answer) == FinishExec(s, e)
  {
    hide FinishExec;
  }

  lemma NothingTold(steps: seq<Step>, e: ExecId, x: Exec, p: PersonId)
    requires Stage(x.pc) == 0
    ensures ExecTold(steps, e, x, p)
  {
  }

  lemma AdvanceTellsCase(prior: seq<Step>, step: Step, c: CaseId)
    requires step.Advance? && step.e in Run(EMPTY, prior).execs && Told(Run(EMPTY, prior), prior)
    requires var t := AdvanceExec(Run(EMPTY, prior), step.e, step.answer);
             c in t.db.cases && t.db.cases[c].verification.Some?
    ensures var s := Run(EMPTY, prior); var t := AdvanceExec(s, step.e, step.answer);
            && c in s.db.cases
            && exists e :: Decided(prior + [step], e, c, s.db.cases[c].person, t.db.cases[c].verification.value)
  {
    hide Run, AdvanceExec, Decided, Verdict, AllTold;
    var s, e := Run(EMPTY, prior), step.e;
    var t := AdvanceExec(s, e, step.answer);
    AdvanceStores(s, e, step.answer, c);
    var p, v := s.db.cases[c].person, t.db.cases[c].verification.value;
    if t.db.cases[c].verification == s.db.cases[c].verification {
      var d :| Decided(prior, d, c, p, v);
      DecidedLater(prior, step, d, c, p, v);
    } else {
      VerdictTold(prior, e, c, p, s.execs[e].pc.tally, s.execs[e].failed);
      DecidedLater(prior, step, e, c, p, v);
    }
  }

  lemma AdvanceTells(prior: seq<Step>, step: Step)
    requires step.Advance? && step.e in Run(EMPTY, prior).execs && Told(Run(EMPTY, prior), prior)
    ensures Told(AdvanceExec(Run(EMPTY, prior), step.e, step.answer), prior + [step])
  {
    hide Run, AdvanceExec, ExecTold, Decided, RowFollows, Inv;
    Reachable(prior);
    var s := Run(EMPTY, prior);
    var t := AdvanceExec(s, step.e, step.answer);
    forall d | d in t.execs
      ensures t.execs[d].caseId in t.db.cases
      ensures ExecTold(prior + [step], d, t.execs[d], t.db.cases[t.execs[d].caseId].person)
    {
      AdvanceTellsExec(prior, step, d);
      AdvanceMoves(s, step.e, step.answer, s.execs[d].caseId);
      PersonFollows(s, t, s.execs[d].caseId);
    }
    forall c | c in t.db.cases && t.db.cases[c].verification.Some?
      ensures exists e :: Decided(prior + [step], e, c, t.db.cases[c].person, t.db.cases[c].verification.value)
    {
      AdvanceTellsCase(prior, step, c);
      AdvanceMoves(s, step.e, step.answer, c);
      PersonFollows(s, t, c);
    }
  }

  lemma PersonFollows(s: State, t: State, c: CaseId)
    requires c in s.db.cases && RowFollows(s, t, c)
    ensures c in t.db.cases && t.db.cases[c].person == s.db.cases[c].person
  {
  }

  /** Other steps leave executions past the loop, and stored verdicts, as they are. */
  lemma OthersLeaveCounts(s: State, step: Step)
    requires !step.Advance?
    ensures forall e :: e in Next(s, step).execs && Stage(Next(s, step).execs[e].pc) > 0 ==>
                          e in s.execs && Next(s, step).execs[e] == s.execs[e]
  {
    hide Prepare, Surround, StartCase, LoadItems, Enumerates;
  }

  lemma OthersLeaveVerdicts(s: State, step: Step)
    requires !step.Advance?
    ensures forall c :: c in Next(s, step).db.cases && Next(s, step).db.cases[c].verification.Some? ==>
                          c in s.db.cases && Next(s, step).db.cases[c].verification == s.db.cases[c].verification
  {
    if step.CreateCase? || step.Plan? || step.Approve? || step.Cancel? || step.Begin? {
      PreparationLeavesVerdicts(s, step);
    }
  }

  lemma PreparationLeavesVerdicts(s: State, step: Step)
    requires step.CreateCase? || step.Plan? || step.Approve? || step.Cancel? || step.Begin?
    ensures forall c :: c in Next(s, step).db.cases && Next(s, step).db.cases[c].verification.Some? ==>
                          c in s.db.cases && Next(s, step).db.cases[c].verification == s.db.cases[c].verification
  {
    hide PlannedActions;
  }

  lemma OthersTellExec(prior: seq<Step>, step: Step, e: ExecId)
    requires !step.Advance? && Told(Run(EMPTY, prior), prior) && e in Next(Run(EMPTY, prior), step).execs
    ensures var t := Next(Run(EMPTY, prior), step);
            && t.execs[e].caseId in t.db.cases
            && ExecTold(prior + [step], e, t.execs[e], t.db.cases[t.execs[e].caseId].person)
  {
    hide Inv, Run, Next, Decided, ExecTold, RowFollows;
    var s := Run(EMPTY, prior);
    var t := Next(s, step);
    Reachable(prior);
    StepKeepsInv(s, step);
    ExecCaseExists(t, e);
    OthersLeaveCounts(s, step);
    if Stage(t.execs[e].pc) == 0 {
      NothingTold(prior + [step], e, t.execs[e], t.db.cases[t.execs[e].caseId].person);
    } else {
      StepMoves(s, step, s.execs[e].caseId);
      PersonFollows(s, t, s.execs[e].caseId);
      ExecToldLater(prior, step, e, s.execs[e], s.db.cases[s.execs[e].caseId].person);
    }
  }

  lemma OthersTellCase(prior: seq<Step>, step: Step, c: CaseId)
    requires !step.Advance? && Told(Run(EMPTY, prior), prior)
    requires var t := Next(Run(EMPTY, prior), step); c in t.db.cases && t.db.cases[c].verification.Some?
    ensures var row := Next(Run(EMPTY, prior), step).db.cases[c];
            exists e :: Decided(prior + [step], e, c, row.person, row.verification.value)
  {
    hide Inv, Run, Next, Decided, ExecTold, RowFollows;
    var s := Run(EMPTY, prior);
    Reachable(prior);
    OthersLeaveVerdicts(s, step);
    var e :| Decided(prior, e, c, s.db.cases[c].person, s.db.cases[c].verification.value);
    DecidedLater(prior, step, e, c, s.db.cases[c].person, s.db.cases[c].verification.value);
    StepMoves(s, step, c);
    PersonFollows(s, Next(s, step), c);
  }

  lemma OthersTell(prior: seq<Step>, step: Step)
    requires !step.Advance? && Told(Run(EMPTY, prior), prior)
    ensures Told(Next(Run(EMPTY, prior), step), prior + [step])
  {
    hide Run, Next, Decided, ExecTold;
    var t := Next(Run(EMPTY, prior), step);
    forall e | e in t.execs
      ensures t.execs[e].caseId in t.db.cases
      ensures ExecTold(prior + [step], e, t.execs[e], t.db.cases[t.execs[e].caseId].person)
    {
      OthersTellExec(prior, step, e);
    }
    forall c | c in t.db.cases && t.db.cases[c].verification.Some?
      ensures exists e :: Decided(prior + [step], e, c, t.db.cases[c].person, t.db.cases[c].verification.value)
    {
      OthersTellCase(prior, step, c);
    }
  }

  lemma NothingHappens(prior: seq<Step>, step: Step)
    requires Told(Run(EMPTY, prior), prior)
    ensures Told(Run(EMPTY, prior), prior + [step])
  {
    hide Run, Decided, ExecTold;
    var s := Run(EMPTY, prior);
    forall e | e in s.execs
      ensures ExecTold(prior + [step], e, s.execs[e], s.db.cases[s.execs[e].caseId].person)
    {
      ExecToldLater(prior, step, e, s.execs[e], s.db.cases[s.execs[e].caseId].person);
    }
    forall c | c in s.db.cases && s.db.cases[c].verification.Some?
      ensures exists e :: Decided(prior + [step], e, c, s.db.cases[c].person, s.db.cases[c].verification.value)
    {
      var e :| Decided(prior, e, c, s.db.cases[c].person, s.db.cases[c].verification.value);
      DecidedLater(prior, step, e, c, s.db.cases[c].person, s.db.cases[c].verification.value);
    }
  }

  lemma {:induction false} RunTells(steps: seq<Step>)
    ensures Told(Run(EMPTY, steps), steps)
  {
    hide Next, Decided, ExecTold, AdvanceExec;
    if steps != [] {
      var prior, step := steps[..|steps| - 1], steps[|steps| - 1];
      RunTells(prior);
      assert prior + [step] == steps;
      if !step.Advance? {
        OthersTell(prior, step);
      } else {
        AdvanceIsNext(Run(EMPTY, prior), step);
        if step.e in Run(EMPTY, prior).execs {
          AdvanceTells(prior, step);
        } else {
          NothingHappens(prior, step);
        }
      }
    }
  }

  // ----- The theorems -----

  ghost predicate AllDisabled(db: Db, p: PersonId) {
    forall a :: Owned(db, a, p) ==> db.accounts[a].status == Disabled
  }

  /** The verdict that the three counts call for. */
  ghost predicate CountsJudge(steps: seq<Step>, i: nat, j: nat, m: nat, e: ExecId, c: CaseId, p: PersonId,
                              v: VerificationStatus)
    requires ThreeCounts(steps, i, j, m, e, c)
  {
    var first, second, third := Before(steps, i).db, Before(steps, j).db, Before(steps, m).db;
    Says(v, Before(steps, m).execs[e].failed != {}, SomeActive(first, p),
         SomeNotDisabled(first, p) || SomePending(second, p) || SomeManual(third, c))
  }

  lemma VerdictOfCounts(steps: seq<Step>, i: nat, j: nat, m: nat, e: ExecId, c: CaseId, p: PersonId)
    requires ThreeCounts(steps, i, j, m, e, c)
    ensures CountsJudge(steps, i, j, m, e, c, p,
                        Verdict(TallyAt(steps, i, j, m, c, p), |Before(steps, m).execs[e].failed|))
  {
    AccountsSay(Before(steps, i).db, p);
    CandidatesSay(Before(steps, j).db, p);
    ManualSays(Before(steps, m).db, c);
    FailedSays(Before(steps, m).execs[e].failed);
    VerdictSays(TallyAt(steps, i, j, m, c, p), |Before(steps, m).execs[e].failed|);
    hide CountStep, Before, CountAccounts, PendingFor, ManualOf, Verdict;
    hide SomeActive, SomeNotDisabled, SomePending, SomeManual;
  }

  lemma StatusOfVerdict(s: State, c: CaseId)
    requires Inv(s) && c in s.db.cases && s.db.cases[c].verification.Some?
    ensures Closes(s.db.cases[c].status, s.db.cases[c].verification.value)
  {
    assert CaseOk(s, c);
    FinalCloses(s.db.cases[c].verification.value);
    hide CaseOk;
  }

  /**
   All four verdicts, in every interleaving.  A stored verdict has the three count steps of one of the case's
   executions behind it.  It is INCONCLUSIVE exactly when a system had failed; otherwise FAILED exactly when a linked
   account was ACTIVE at the account count; otherwise PARTIALLY_VERIFIED exactly when some linked account was not
   DISABLED there, a candidate was pending at the candidate count, or the case had a manual action; otherwise VERIFIED.
   The case is COMPLETED, FAILED or PARTIAL accordingly.
   */
  lemma StoredVerdictIsExact(steps: seq<Step>, c: CaseId)
    requires c in Run(EMPTY, steps).db.cases && Run(EMPTY, steps).db.cases[c].verification.Some?
    ensures var row := Run(EMPTY, steps).db.cases[c];
            && Closes(row.status, row.verification.value)
            && exists e, i: nat, j: nat, m: nat ::
                 && ThreeCounts(steps, i, j, m, e, c)
                 && CountsJudge(steps, i, j, m, e, c, row.person, row.verification.value)
  {
    hide Run, CountsJudge, Inv, Closes, Decided, ThreeCounts, ExecTold;
    RunTells(steps);
    Reachable(steps);
    StatusOfVerdict(Run(EMPTY, steps), c);
    var row := Run(EMPTY, steps).db.cases[c];
    var e :| Decided(steps, e, c, row.person, row.verification.value);
    DecidedIsJudged(steps, e, c, row.person, row.verification.value);
  }

  lemma DecidedIsJudged(steps: seq<Step>, e: ExecId, c: CaseId, p: PersonId, v: VerificationStatus)
    requires Decided(steps, e, c, p, v)
    ensures exists i: nat, j: nat, m: nat ::
              ThreeCounts(steps, i, j, m, e, c) && CountsJudge(steps, i, j, m, e, c, p, v)
  {
    var i: nat, j: nat, m: nat :|
      && ThreeCounts(steps, i, j, m, e, c)
      && v == Verdict(TallyAt(steps, i, j, m, c, p), |Before(steps, m).execs[e].failed|);
    VerdictOfCounts(steps, i, j, m, e, c, p);
    hide CountsJudge, TallyAt, Verdict, Before, CountStep;
  }

  /** Every linked account is DISABLED by a write from a read of its own, since which it stayed so. */
  ghost predicate AllObservedDisabled(steps: seq<Step>, p: PersonId) {
    forall a :: Owned(Run(EMPTY, steps).db, a, p) ==>
                  IsDisabled(Run(EMPTY, steps), a) && exists n: nat :: DisabledSince(steps, n, a)
  }

  lemma DisabledWereObserved(steps: seq<Step>, p: PersonId)
    requires AllDisabled(Run(EMPTY, steps).db, p)
    ensures AllObservedDisabled(steps, p)
  {
    hide Run;
    forall a | Owned(Run(EMPTY, steps).db, a, p)
      ensures IsDisabled(Run(EMPTY, steps), a) && exists n: nat :: DisabledSince(steps, n, a)
    {
      DisabledWasObserved(steps, a);
    }
  }

  /**
   When a case is VERIFIED its own execution counted the accounts at some step of the run, and at that step every
   account linked to the person, also those linked after planning, was stored DISABLED by a write from its own
   inactive provider read, since which it had stayed DISABLED.
   */
  lemma VerifiedMeansObservedDisabled(steps: seq<Step>, c: CaseId)
    requires c in Run(EMPTY, steps).db.cases && Run(EMPTY, steps).db.cases[c].verification == Some(Verified)
    ensures exists e, i: nat :: CountStep(steps, i, e, c, ACCOUNTS)
                                && AllObservedDisabled(steps[..i], Run(EMPTY, steps).db.cases[c].person)
  {
    hide Run;
    StoredVerdictIsExact(steps, c);
    var p := Run(EMPTY, steps).db.cases[c].person;
    var e, i: nat, j: nat, m: nat :|
      ThreeCounts(steps, i, j, m, e, c) && CountsJudge(steps, i, j, m, e, c, p, Verified);
    assert AllDisabled(Before(steps, i).db, p);
    DisabledWereObserved(steps[..i], p);
    hide AllObservedDisabled, CountStep;
  }
}
