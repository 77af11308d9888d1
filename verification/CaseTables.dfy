/**
 The tables behind an offboarding case.  Every function below is one SQL statement, or one
 transaction, of the service; `CaseService` runs them in program order and `CaseRuns` interleaves them.
 */
module CaseTables {
  import opened Common
  import opened Domain
  import opened Connectors

  type CaseId = nat
  type PersonId = nat
  type AccountId = nat
  type UserId = nat

  datatype AccountStatus = Active | Disabled | Missing | Unknown

  datatype Account = Account(connector: ConnectorId, externalId: string, status: AccountStatus)

  /** lifecycle_actions is unique on case, account and action type. */
  datatype ActionKey = ActionKey(caseId: CaseId, account: AccountId, typ: ActionType)

  datatype ActionStatus =
    | ActionPlanned | ActionApproved | ActionRunning
    | ActionSucceeded | ActionFailed | ActionInconclusive | ActionSkipped

  datatype Action = Action(connector: ConnectorId, status: ActionStatus, approvedBy: Option<UserId>, attempts: nat)

  datatype Case = Case(person: PersonId, status: CaseStatus, verification: Option<VerificationStatus>)

  datatype CandidateStatus = Pending | Accepted | Rejected

  datatype Tally = Tally(managed: nat, disabled: nat, active: nat, unresolved: nat, manual: nat)

  datatype Snapshot = Snapshot(
    caseId: CaseId, connected: int, succeeded: int, failed: int, tally: Tally, status: VerificationStatus)

  /** `evidence` lists, for each action, the outcomes recorded as evidence. */
  datatype Db = Db(
    people: set<PersonId>,
    connectors: map<ConnectorId, Connector>,
    accounts: map<AccountId, Account>,
    links: map<AccountId, PersonId>,
    candidates: map<(PersonId, AccountId), CandidateStatus>,
    cases: map<CaseId, Case>,
    actions: map<ActionKey, Action>,
    evidence: map<ActionKey, seq<ActionStatus>>,
    snapshots: seq<Snapshot>)

  datatype Refusal = NoRows | ForbiddenState | NoKnownIdentities

  // ----- Reading -----

  /** Accounts of a person: the join of links and accounts that the final count uses. */
  function Linked(db: Db, p: PersonId): set<AccountId> {
    set a | a in db.links && db.links[a] == p && a in db.accounts
  }

  /** The planner's join, which also needs the connector row. */
  function Plannable(db: Db, p: PersonId): set<AccountId> {
    set a | a in Linked(db, p) && db.accounts[a].connector in db.connectors
  }

  function KeysOf(db: Db, c: CaseId): set<ActionKey> {
    set k | k in db.actions && k.caseId == c
  }

  function PendingFor(db: Db, p: PersonId): set<(PersonId, AccountId)> {
    set pair | pair in db.candidates && pair.0 == p && db.candidates[pair] == Pending
  }

  function ManualOf(db: Db, c: CaseId): set<ActionKey> {
    set k | k in KeysOf(db, c) && k.typ == ManualReview
  }

  function ConnectorsOf(db: Db, c: CaseId): set<ConnectorId> {
    set k | k in KeysOf(db, c) :: db.actions[k].connector
  }

  function WithStatus(db: Db, accounts: set<AccountId>, status: AccountStatus): set<AccountId> {
    set a | a in accounts && a in db.accounts && db.accounts[a].status == status
  }

  // ----- Writing -----

  function InsertCase(db: Db, c: CaseId, p: PersonId): Db {
    db.(cases := db.cases[c := Case(p, Draft, None)])
  }

  function PlannedKey(db: Db, c: CaseId, a: AccountId): ActionKey
    requires a in db.accounts && db.accounts[a].connector in db.connectors
  {
    ActionKey(c, a, PlannedAction(db.accounts[a].status == Disabled, db.connectors[db.accounts[a].connector]))
  }

  /** The rows the planner inserts: one per linked account, unless the key exists. */
  ghost function PlannedActions(db: Db, c: CaseId, p: PersonId): map<ActionKey, Action> {
    map k | k in PlannedKeys(db, c, p) :: Action(db.accounts[k.account].connector, ActionPlanned, None, 0)
  }

  ghost function PlannedKeys(db: Db, c: CaseId, p: PersonId): (keys: set<ActionKey>)
    ensures forall k :: k in keys ==> k.account in Plannable(db, p) && k == PlannedKey(db, c, k.account)
    ensures forall a :: a in Plannable(db, p) ==> PlannedKey(db, c, a) in keys
  {
    set a | a in Plannable(db, p) :: PlannedKey(db, c, a)
  }

  ghost function PlanCase(db: Db, c: CaseId): Result<Db, Refusal> {
    if c !in db.cases then Err(NoRows)
    else if db.cases[c].status != Draft then Err(ForbiddenState)
    else if Plannable(db, db.cases[c].person) == {} then Err(NoKnownIdentities)
    else Ok(db.(actions := PlannedActions(db, c, db.cases[c].person) + db.actions,
                cases := db.cases[c := db.cases[c].(status := AwaitingApproval)]))
  }

  function ApproveCase(db: Db, c: CaseId, user: UserId): (r: Result<Db, Refusal>)
    ensures r.Ok? ==>
              && r.value.actions.Keys == db.actions.Keys
              && (forall k :: k in db.actions && k.caseId != c ==> r.value.actions[k] == db.actions[k])
              && (forall k :: k in db.actions ==> r.value.actions[k].status == db.actions[k].status
                                                  || (db.actions[k].status == ActionPlanned
                                                      && r.value.actions[k].status == ActionApproved))
  {
    if c !in db.cases || db.cases[c].status != AwaitingApproval then Err(ForbiddenState)
    else Ok(db.(cases := db.cases[c := db.cases[c].(status := Approved)],
                actions := map k | k in db.actions ::
                  if k.caseId == c && db.actions[k].status == ActionPlanned
                  then db.actions[k].(status := ActionApproved, approvedBy := Some(user)) else db.actions[k]))
  }

  predicate Cancellable(status: CaseStatus) {
    status == Draft || status == Planned || status == AwaitingApproval || status == Approved
  }

  function CancelCase(db: Db, c: CaseId): Result<Db, Refusal> {
    if c !in db.cases || !Cancellable(db.cases[c].status) then Err(ForbiddenState)
    else Ok(db.(cases := db.cases[c := db.cases[c].(status := Cancelled)]))
  }

  function SkipActions(db: Db, c: CaseId): (r: Db)
    ensures r == db.(actions := r.actions)
    ensures r.actions.Keys == db.actions.Keys
    ensures forall k :: k in db.actions ==> r.actions[k].connector == db.actions[k].connector
    ensures forall k :: k in db.actions && k.caseId != c ==> r.actions[k] == db.actions[k]
    ensures forall k :: k in db.actions ==>
            r.actions[k].status == db.actions[k].status || r.actions[k].status == ActionSkipped
  {
    db.(actions := map k | k in db.actions ::
          if k.caseId == c && (db.actions[k].status == ActionPlanned || db.actions[k].status == ActionApproved)
          then db.actions[k].(status := ActionSkipped) else db.actions[k])
  }

  function StartCase(db: Db, c: CaseId): Result<Db, Refusal> {
    if c !in db.cases || db.cases[c].status != Approved then Err(ForbiddenState)
    else Ok(SetCase(db, c, Running))
  }

  function SetCase(db: Db, c: CaseId, status: CaseStatus): Db {
    if c in db.cases then db.(cases := db.cases[c := db.cases[c].(status := status)]) else db
  }

  function MarkRunning(db: Db, k: ActionKey): Db {
    if k in db.actions && (db.actions[k].status == ActionApproved || db.actions[k].status == ActionFailed)
    then db.(actions := db.actions[k := db.actions[k].(status := ActionRunning,
        attempts := db.actions[k].attempts + 1)])
    else db
  }

  function StoreDisabled(db: Db, a: AccountId): Db {
    if a in db.accounts then db.(accounts := db.accounts[a := db.accounts[a].(status := Disabled)]) else db
  }

  function RecordOutcome(db: Db, k: ActionKey, outcome: ActionStatus): Db {
    if k in db.actions then db.(actions := db.actions[k := db.actions[k].(status := outcome)]) else db
  }

  function AddEvidence(db: Db, k: ActionKey, outcome: ActionStatus): Db {
    db.(evidence := db.evidence[k := (if k in db.evidence then db.evidence[k] else []) + [outcome]])
  }

  function CountAccounts(db: Db, p: PersonId): Tally {
    var linked := Linked(db, p);
    Tally(|linked|, |WithStatus(db, linked, Disabled)|, |WithStatus(db, linked, Active)|, 0, 0)
  }

  function Verdict(t: Tally, failedSystems: nat): VerificationStatus {
    EvaluateVerification(
      VerificationInput(t.managed, t.disabled, t.active, t.unresolved, t.manual, failedSystems, failedSystems == 0))
  }

  function AddSnapshot(db: Db, c: CaseId, failedSystems: nat, t: Tally, verdict: VerificationStatus): Db {
    var connected := |ConnectorsOf(db, c)|;
    db.(snapshots := db.snapshots + [Snapshot(c, connected, connected - failedSystems, failedSystems, t, verdict)])
  }

  function FinalStatus(verdict: VerificationStatus): CaseStatus {
    match verdict
    case Verified => CaseCompleted
    case VerificationFailed => CaseFailed
    case _ => CasePartial
  }

  function Conclude(db: Db, c: CaseId, verdict: VerificationStatus): Db {
    if c in db.cases
    then db.(cases := db.cases[c := db.cases[c].(status := FinalStatus(verdict), verification := Some(verdict))])
    else db
  }

  /** acceptOrRejectCandidate: accepting inserts the link and fails when the account is linked already. */
  function ReviewCandidate(db: Db, pair: (PersonId, AccountId), accept: bool): Result<Db, Refusal> {
    if pair !in db.candidates then Err(NoRows)
    else if db.candidates[pair] != Pending then Err(ForbiddenState)
    else if accept && pair.1 in db.links then Err(ForbiddenState)
    else Ok(db.(candidates := db.candidates[pair := if accept then Accepted else Rejected],
                links := if accept then db.links[pair.1 := pair.0] else db.links))
  }

  // ----- Synchronisation, as the tables see it -----

  datatype Listed = Listed(externalId: string, active: bool)

  /** The state the last entry for an id gives it; unlisted ids are MISSING. */
  function ListedStatus(listing: seq<Listed>, externalId: string): AccountStatus {
    if listing == [] then Missing
    else if listing[|listing| - 1].externalId == externalId
    then (if listing[|listing| - 1].active then Active else Disabled)
    else ListedStatus(listing[..|listing| - 1], externalId)
  }

  /** `rows` is `accounts` brought into agreement with a listing of one connector. */
  ghost predicate AgreesWithListing(
    accounts: map<AccountId, Account>, connector: ConnectorId, listing: seq<Listed>, rows: map<AccountId, Account>)
  {
    && accounts.Keys <= rows.Keys
    && (forall a :: a in accounts && accounts[a].connector != connector ==> rows[a] == accounts[a])
    && (forall a :: a in accounts ==> rows[a].connector == accounts[a].connector
                                      && rows[a].externalId == accounts[a].externalId)
    && (forall a :: a in rows && rows[a].connector == connector ==>
                      rows[a].status == ListedStatus(listing, rows[a].externalId))
    && (forall a :: a in rows && a !in accounts ==> rows[a].connector == connector && rows[a].status != Missing)
    && (forall entry :: entry in listing ==>
          exists a :: a in rows && rows[a].connector == connector && rows[a].externalId == entry.externalId)
  }

  /** The last entry that names an id is an entry of the listing. */
  lemma {:induction false} DisabledIsListed(listing: seq<Listed>, externalId: string)
    requires ListedStatus(listing, externalId) == Disabled
    ensures Listed(externalId, false) in listing
  {
    if listing[|listing| - 1].externalId != externalId {
      DisabledIsListed(listing[..|listing| - 1], externalId);
    }
  }

  /** Counting as many disabled as managed accounts means that every linked account is disabled. */
  lemma EqualCountsMeanAllDisabled(db: Db, p: PersonId)
    ensures var t := CountAccounts(db, p);
            && t.disabled + t.active <= t.managed
            && (t.disabled >= t.managed <==> forall a :: a in Linked(db, p) ==> db.accounts[a].status == Disabled)
  {
    var linked := Linked(db, p);
    var off := WithStatus(db, linked, Disabled);
    var on := WithStatus(db, linked, Active);
    SubsetSize(off + on, linked);
    SubsetSize(off, linked);
    assert off !! on;
    if forall a :: a in linked ==> db.accounts[a].status == Disabled {
      assert off == linked;
    }
    assert |off + on| == |off| + |on|;
  }

  lemma {:induction false} SubsetSize<T>(small: set<T>, large: set<T>)
    requires small <= large
    ensures |small| <= |large|
    ensures |small| == |large| ==> small == large
  {
    if small != {} {
      var x :| x in small;
      SubsetSize(small - {x}, large - {x});
    }
  }
}
