/**
 Every interleaving of planners, approvers, cancellations, executions, synchronisations and reviews
 over one organisation's tables.  A step that does not apply leaves the state unchanged, so a run is
 any sequence of steps; an execution may stop after any statement.
 */
module CaseRuns {
  import opened Common
  import opened Domain
  import opened Connectors
  import opened CaseTables

  type ExecId = nat
  type SyncId = nat
  type EditId = nat

  /** A row of the action query that ExecuteAndVerify loads. */
  datatype Item = Item(key: ActionKey, status: ActionStatus, connector: ConnectorId, typ: ConnectorType)

  /** The statement an execution runs next. */
  datatype Pc =
    | Loading
    | At(i: nat)
    | Acting(i: nat)
    | Storing(i: nat)
    | Recording(i: nat, outcome: ActionStatus)
    | Proving(i: nat, outcome: ActionStatus)
    | Concluding
    | CountingAccounts
    | CountingCandidates(tally: Tally)
    | CountingManual(tally: Tally)
    | Snapshotting(tally: Tally)
    | Closing(tally: Tally)
    | Returned(verdict: VerificationStatus)

  datatype Exec = Exec(caseId: CaseId, items: seq<Item>, failed: set<ConnectorId>, pc: Pc)

  /** A provider's answer to disable and re-read. */
  datatype Answer = Answered(disabled: bool) | ProviderError

  datatype Sync = Sync(connector: ConnectorId, listing: seq<Listed>)

  /** A connector edit between its check against the row it read and its write. */
  datatype Edit = Edit(connector: ConnectorId, read: Connector, change: Change)

  /** Tables and running invocations, with two histories: guard passes and provider calls. */
  datatype State = State(
    db: Db, execs: map<ExecId, Exec>, cancelling: set<CaseId>, syncs: map<SyncId, Sync>, edits: map<EditId, Edit>,
    passed: multiset<CaseId>, calls: multiset<ActionKey>)

  datatype Step =
    | CreateCase(c: CaseId, person: PersonId)
    | Plan(c: CaseId)
    | Approve(c: CaseId, user: UserId)
    | Cancel(c: CaseId)
    | Skip(c: CaseId)
    | Begin(e: ExecId, c: CaseId)
    | Load(e: ExecId, order: seq<ActionKey>)
    | Advance(e: ExecId, answer: Answer)
    | Crash(e: ExecId)
    | ReadListing(id: SyncId, sync: Sync)
    | CommitSync(id: SyncId, rows: map<AccountId, Account>, links: map<AccountId, PersonId>,
                 candidates: set<(PersonId, AccountId)>)
    | Review(pair: (PersonId, AccountId), accept: bool)
    | CreateConnector(connector: ConnectorId, row: Connector)
    | ReadConnector(edit: EditId, connector: ConnectorId, change: Change)
    | WriteConnector(edit: EditId)
    | Import(person: PersonId)

  const EMPTY_DB: Db := Db({}, map[], map[], map[], map[], map[], map[], map[], [])
  const EMPTY: State := State(EMPTY_DB, map[], {}, map[], map[], multiset{}, multiset{})

  predicate Remote(typ: ActionType) {
    typ == DisableAccount || typ == RemoveMembership
  }

  function Goto(s: State, e: ExecId, pc: Pc): State
    requires e in s.execs
  {
    s.(execs := s.execs[e := s.execs[e].(pc := pc)])
  }

  function WithDb(s: State, db: Db): State {
    s.(db := db)
  }

  function Adopt(s: State, r: Result<Db, Refusal>): State {
    if r.Ok? then s.(db := r.value) else s
  }

  ghost predicate Enumerates(order: seq<ActionKey>, keys: set<ActionKey>) {
    && (forall i, j :: 0 <= i < j < |order| ==> order[i] != order[j])
    && (forall k :: k in order <==> k in keys)
  }

  function LoadItems(db: Db, order: seq<ActionKey>): (items: seq<Item>)
    requires forall k :: k in order ==> k in db.actions && db.actions[k].connector in db.connectors
    ensures |items| == |order|
    ensures forall i :: 0 <= i < |order| ==>
                          && order[i] in order
                          && items[i] == Item(order[i], db.actions[order[i]].status, db.actions[order[i]].connector,
                                              db.connectors[db.actions[order[i]].connector].typ)
  {
    seq(|order|, i requires 0 <= i < |order| =>
      assert order[i] in order;
      Item(order[i], db.actions[order[i]].status, db.actions[order[i]].connector,
           db.connectors[db.actions[order[i]].connector].typ))
  }

  /** One execution moves on: no execution, action or account appears or disappears. */
  ghost predicate KeepsRows(s: State, t: State, e: ExecId)
    requires e in s.execs
  {
    && t.execs.Keys == s.execs.Keys && t.execs[e].caseId == s.execs[e].caseId
    && t.db.actions.Keys == s.db.actions.Keys && t.db.accounts.Keys == s.db.accounts.Keys
  }

  /** Where the provider's answer, or the stored state, takes an execution. */
  function Acted(db: Db, x: Exec, i: nat, answer: Answer): (y: Exec)
    requires i < |x.items|
    ensures y.pc.Storing? || y.pc.Recording?
    ensures y.caseId == x.caseId && y.items == x.items
  {
    var k := x.items[i].key;
    if Remote(k.typ) then
      match answer
      case Answered(true) => x.(pc := Storing(i))
      case Answered(false) => x.(pc := Recording(i, ActionFailed))
      case ProviderError => x.(pc := Recording(i, ActionFailed), failed := x.failed + {x.items[i].connector})
    else if k.typ == VerifyDisabled && k.account in db.accounts && db.accounts[k.account].status == Disabled then
      x.(pc := Recording(i, ActionSucceeded))
    else
      x.(pc := Recording(i, ActionInconclusive))
  }

  /** The body of one iteration between marking the action and recording its outcome. */
  function Act(s: State, e: ExecId, i: nat, answer: Answer): (t: State)
    requires e in s.execs && i < |s.execs[e].items|
    ensures t.db == s.db && t.syncs == s.syncs && t.edits == s.edits
    ensures e in t.execs && t.execs == s.execs[e := t.execs[e]] && (t.execs[e].pc.Storing? || t.execs[e].pc.Recording?)
    ensures KeepsRows(s, t, e)
  {
    var k := s.execs[e].items[i].key;
    s.(calls := if Remote(k.typ) then s.calls + multiset{k} else s.calls,
       execs := s.execs[e := Acted(s.db, s.execs[e], i, answer)])
  }

  function Mark(s: State, e: ExecId, i: nat): (t: State)
    requires e in s.execs && i < |s.execs[e].items|
    ensures KeepsRows(s, t, e)
  {
    WithDb(Goto(s, e, Acting(i)), MarkRunning(s.db, s.execs[e].items[i].key))
  }

  function Store(s: State, e: ExecId, i: nat): (t: State)
    requires e in s.execs && i < |s.execs[e].items|
    ensures KeepsRows(s, t, e)
  {
    WithDb(Goto(s, e, Recording(i, ActionSucceeded)), StoreDisabled(s.db, s.execs[e].items[i].key.account))
  }

  function Record(s: State, e: ExecId, i: nat, outcome: ActionStatus): (t: State)
    requires e in s.execs && i < |s.execs[e].items|
    ensures KeepsRows(s, t, e)
  {
    WithDb(Goto(s, e, Proving(i, outcome)), RecordOutcome(s.db, s.execs[e].items[i].key, outcome))
  }

  function Prove(s: State, e: ExecId, i: nat, outcome: ActionStatus): (t: State)
    requires e in s.execs && i < |s.execs[e].items|
    ensures KeepsRows(s, t, e)
  {
    WithDb(Goto(s, e, At(i + 1)), AddEvidence(s.db, s.execs[e].items[i].key, outcome))
  }

  /** Which tables one statement of an execution can write. */
  ghost predicate WritesAt(pc: Pc, s: State, t: State) {
    && (!pc.Storing? ==> t.db.accounts == s.db.accounts)
    && (!pc.Concluding? && !pc.Closing? ==> t.db.cases == s.db.cases)
    && (!pc.Snapshotting? ==> t.db.snapshots == s.db.snapshots)
    && t.db.people == s.db.people && t.db.connectors == s.db.connectors
    && t.db.links == s.db.links && t.db.candidates == s.db.candidates
    && t.syncs == s.syncs && t.edits == s.edits
  }

  function AdvanceExec(s: State, e: ExecId, answer: Answer): (t: State)
    requires e in s.execs
    ensures WritesAt(s.execs[e].pc, s, t) && KeepsRows(s, t, e)
  {
    var x := s.execs[e];
    var n := |x.items|;
    match x.pc
    case At(i) =>
      if i >= n then Goto(s, e, Concluding)
      else if x.items[i].status == ActionSucceeded then Goto(s, e, At(i + 1))
      else Mark(s, e, i)
    case Acting(i) => if i < n then Act(s, e, i, answer) else s
    case Storing(i) => if i < n then Store(s, e, i) else s
    case Recording(i, outcome) => if i < n then Record(s, e, i, outcome) else s
    case Proving(i, outcome) => if i < n then Prove(s, e, i, outcome) else s
    case _ => FinishExec(s, e)
  }

  /** From the VERIFYING update to the final one. */
  function FinishExec(s: State, e: ExecId): (t: State)
    requires e in s.execs
    ensures WritesAt(s.execs[e].pc, s, t) && KeepsRows(s, t, e)
    ensures t.db.actions == s.db.actions && t.db.evidence == s.db.evidence && t.calls == s.calls
  {
    var x := s.execs[e];
    var c := x.caseId;
    if c !in s.db.cases then s
    else
      match x.pc
      case Concluding => WithDb(Goto(s, e, CountingAccounts), SetCase(s.db, c, Verifying))
      case CountingAccounts => Goto(s, e, CountingCandidates(CountAccounts(s.db, s.db.cases[c].person)))
      case CountingCandidates(t) =>
        Goto(s, e, CountingManual(t.(unresolved := |PendingFor(s.db, s.db.cases[c].person)|)))
      case CountingManual(t) => Goto(s, e, Snapshotting(t.(manual := |ManualOf(s.db, c)|)))
      case Snapshotting(t) =>
        WithDb(Goto(s, e, Closing(t)), AddSnapshot(s.db, c, |x.failed|, t, Verdict(t, |x.failed|)))
      case Closing(t) =>
        WithDb(Goto(s, e, Returned(Verdict(t, |x.failed|))), Conclude(s.db, c, Verdict(t, |x.failed|)))
      case _ => s
  }

  /** What a committing sync may add besides the account states: links and candidates that did not exist. */
  ghost predicate SyncEnabled(s: State, id: SyncId, rows: map<AccountId, Account>, links: map<AccountId, PersonId>) {
    && id in s.syncs && s.syncs[id].connector in s.db.connectors
    && AgreesWithListing(s.db.accounts, s.syncs[id].connector, s.syncs[id].listing, rows)
    && links.Keys !! s.db.links.Keys
  }

  function Propose(candidates: map<(PersonId, AccountId), CandidateStatus>, pairs: set<(PersonId, AccountId)>):
    map<(PersonId, AccountId), CandidateStatus>
  {
    (map pair | pair in pairs :: Pending) + candidates
  }

  /** Which tables a step can write. */
  ghost predicate Writes(step: Step, s: State, t: State) {
    && (!step.CreateCase? && !step.Plan? && !step.Approve? && !step.Cancel? && !step.Begin? && !step.Advance? ==>
          t.db.cases == s.db.cases)
    && (!step.Plan? && !step.Approve? && !step.Skip? && !step.Advance? ==> t.db.actions == s.db.actions)
    && (!step.Advance? ==> t.db.snapshots == s.db.snapshots && t.db.evidence == s.db.evidence && t.calls == s.calls)
    && (!step.Advance? && !step.CommitSync? ==> t.db.accounts == s.db.accounts)
    && (!step.CommitSync? && !step.Review? ==> t.db.links == s.db.links && t.db.candidates == s.db.candidates)
    && (!step.Begin? && !step.Load? && !step.Advance? && !step.Crash? ==> t.execs == s.execs)
    && (!step.ReadListing? ==> t.syncs == s.syncs)
    && (!step.CreateConnector? && !step.WriteConnector? ==> t.db.connectors == s.db.connectors)
    && (!step.ReadConnector? && !step.WriteConnector? ==> t.edits == s.edits)
  }

  function AfterCreate(s: State, c: CaseId, person: PersonId): (t: State)
    ensures Writes(Step.CreateCase(c, person), s, t)
  {
    if person in s.db.people && c !in s.db.cases then s.(db := InsertCase(s.db, c, person)) else s
  }

  function AfterCancel(s: State, c: CaseId): (t: State)
    ensures Writes(Cancel(c), s, t)
  {
    var r := CancelCase(s.db, c);
    if r.Ok? then s.(db := r.value, cancelling := s.cancelling + {c}) else s
  }

  function AfterSkip(s: State, c: CaseId): (t: State)
    ensures Writes(Skip(c), s, t)
  {
    if c in s.cancelling then s.(db := SkipActions(s.db, c)) else s
  }

  function AfterBegin(s: State, e: ExecId, c: CaseId): State {
    var r := StartCase(s.db, c);
    if e !in s.execs && r.Ok?
    then s.(db := r.value, execs := s.execs[e := Exec(c, [], {}, Loading)], passed := s.passed + multiset{c})
    else s
  }

  ghost predicate LoadEnabled(s: State, e: ExecId, order: seq<ActionKey>) {
    && e in s.execs && s.execs[e].pc == Loading && Enumerates(order, KeysOf(s.db, s.execs[e].caseId))
    && (forall k :: k in order ==> s.db.actions[k].connector in s.db.connectors)
  }

  ghost function AfterLoad(s: State, e: ExecId, order: seq<ActionKey>): State {
    if LoadEnabled(s, e, order)
    then s.(execs := s.execs[e := s.execs[e].(items := LoadItems(s.db, order), pc := At(0))])
    else s
  }

  function AfterRead(s: State, id: SyncId, sync: Sync): (t: State)
    ensures Writes(ReadListing(id, sync), s, t)
  {
    s.(syncs := s.syncs[id := sync])
  }

  ghost function AfterCommit(s: State, id: SyncId, rows: map<AccountId, Account>, links: map<AccountId, PersonId>,
                             candidates: set<(PersonId, AccountId)>): (t: State)
    ensures Writes(CommitSync(id, rows, links, candidates), s, t)
  {
    if SyncEnabled(s, id, rows, links)
    then s.(db := s.db.(accounts := rows, links := s.db.links + links,
                        candidates := Propose(s.db.candidates, candidates)))
    else s
  }

  function AfterConnector(s: State, id: ConnectorId, row: Connector): (t: State)
    ensures Writes(Step.CreateConnector(id, row), s, t)
  {
    if id !in s.db.connectors && NewConnectorOk(row)
    then s.(db := s.db.(connectors := s.db.connectors[id := row])) else s
  }

  function AfterReadConnector(s: State, edit: EditId, id: ConnectorId, change: Change): (t: State)
    ensures Writes(ReadConnector(edit, id, change), s, t)
  {
    if id in s.db.connectors && ChangeOk(s.db.connectors[id], change)
    then s.(edits := s.edits[edit := Edit(id, s.db.connectors[id], change)]) else s
  }

  /** The UPDATE merges the change into whatever row it finds. */
  function AfterWriteConnector(s: State, edit: EditId): (t: State)
    ensures Writes(WriteConnector(edit), s, t)
  {
    if edit in s.edits && s.edits[edit].connector in s.db.connectors then
      var id := s.edits[edit].connector;
      s.(db := s.db.(connectors := s.db.connectors[id := Merge(s.db.connectors[id], s.edits[edit].change)]),
         edits := s.edits - {edit})
    else s
  }

  ghost function Prepare(s: State, step: Step): (t: State)
    requires step.CreateCase? || step.Plan? || step.Approve? || step.Cancel? || step.Skip?
    ensures Writes(step, s, t)
  {
    match step
    case CreateCase(c, person) => AfterCreate(s, c, person)
    case Plan(c) => Adopt(s, PlanCase(s.db, c))
    case Approve(c, user) => Adopt(s, ApproveCase(s.db, c, user))
    case Cancel(c) => AfterCancel(s, c)
    case Skip(c) => AfterSkip(s, c)
  }

  ghost function Execute(s: State, step: Step): (t: State)
    requires step.Begin? || step.Load? || step.Advance? || step.Crash?
    ensures Writes(step, s, t)
  {
    match step
    case Begin(e, c) => AfterBegin(s, e, c)
    case Load(e, order) => AfterLoad(s, e, order)
    case Advance(e, answer) => if e in s.execs then AdvanceExec(s, e, answer) else s
    case Crash(e) => s.(execs := s.execs - {e})
  }

  ghost function Surround(s: State, step: Step): (t: State)
    requires step.ReadListing? || step.CommitSync? || step.Review? || step.CreateConnector? || step.ReadConnector?
             || step.WriteConnector? || step.Import?
    ensures Writes(step, s, t)
  {
    match step
    case ReadListing(id, sync) => AfterRead(s, id, sync)
    case CommitSync(id, rows, links, candidates) => AfterCommit(s, id, rows, links, candidates)
    case Review(pair, accept) => Adopt(s, ReviewCandidate(s.db, pair, accept))
    case CreateConnector(id, row) => AfterConnector(s, id, row)
    case ReadConnector(edit, id, change) => AfterReadConnector(s, edit, id, change)
    case WriteConnector(edit) => AfterWriteConnector(s, edit)
    case Import(person) => s.(db := s.db.(people := s.db.people + {person}))
  }

  ghost function Next(s: State, step: Step): (t: State)
    ensures Writes(step, s, t)
  {
    if step.CreateCase? || step.Plan? || step.Approve? || step.Cancel? || step.Skip? then Prepare(s, step)
    else if step.Begin? || step.Load? || step.Advance? || step.Crash? then Execute(s, step)
    else Surround(s, step)
  }

  ghost function Run(s: State, steps: seq<Step>): State {
    if steps == [] then s else Next(Run(s, steps[..|steps| - 1]), steps[|steps| - 1])
  }
}
