/** What a verdict means, said over the tables: which rows decide it, and how it closes the case. */
module Outcomes {
  import opened Common
  import opened Domain
  import opened Connectors
  import opened CaseTables

  /** The account belongs to the person. */
  predicate Owned(db: Db, a: AccountId, p: PersonId) {
    a in db.links && db.links[a] == p && a in db.accounts
  }

  ghost predicate SomeActive(db: Db, p: PersonId) {
    exists a :: Owned(db, a, p) && db.accounts[a].status == Active
  }

  ghost predicate SomeNotDisabled(db: Db, p: PersonId) {
    exists a :: Owned(db, a, p) && db.accounts[a].status != Disabled
  }

  ghost predicate SomePending(db: Db, p: PersonId) {
    exists pair :: pair in db.candidates && pair.0 == p && db.candidates[pair] == Pending
  }

  ghost predicate SomeManual(db: Db, c: CaseId) {
    exists k :: k in db.actions && k.caseId == c && k.typ == ManualReview
  }

  /** The four verdicts: a failed system decides first, then an active account, then anything left open. */
  predicate Says(v: VerificationStatus, failed: bool, active: bool, open: bool) {
    && (v == Inconclusive <==> failed)
    && (v == VerificationFailed <==> !failed && active)
    && (v == PartiallyVerified <==> !failed && !active && open)
    && (v == Verified <==> !failed && !active && !open)
  }

  /** How a verdict closes the case. */
  predicate Closes(status: CaseStatus, v: VerificationStatus) {
    && (status == CaseCompleted <==> v == Verified)
    && (status == CaseFailed <==> v == VerificationFailed)
    && (status == CasePartial <==> v == PartiallyVerified || v == Inconclusive)
  }

  /** The verdict on a case as the tables stand. */
  ghost predicate Judges(v: VerificationStatus, db: Db, c: CaseId, p: PersonId, failed: set<ConnectorId>) {
    Says(v, failed != {}, SomeActive(db, p), SomeNotDisabled(db, p) || SomePending(db, p) || SomeManual(db, c))
  }

  /** The snapshot that goes with it, counted over the rows. */
  ghost function SnapshotOf(db: Db, c: CaseId, p: PersonId, failed: set<ConnectorId>, v: VerificationStatus): Snapshot {
    var systems := set k | k in db.actions && k.caseId == c :: db.actions[k].connector;
    var managed := set a | a in db.links && Owned(db, a, p);
    var disabled := set a | a in db.links && Owned(db, a, p) && db.accounts[a].status == Disabled;
    var active := set a | a in db.links && Owned(db, a, p) && db.accounts[a].status == Active;
    var pending := set pair | pair in db.candidates && pair.0 == p && db.candidates[pair] == Pending;
    var manual := set k | k in db.actions && k.caseId == c && k.typ == ManualReview;
    Snapshot(c, |systems|, |systems| - |failed|, |failed|,
             Tally(|managed|, |disabled|, |active|, |pending|, |manual|), v)
  }

  lemma ActiveIsNotDisabled(db: Db, p: PersonId)
    ensures SomeActive(db, p) ==> SomeNotDisabled(db, p)
  {
  }

  /** Nothing else in the tables matters. */
  lemma JudgementStays(db: Db, after: Db, c: CaseId, p: PersonId, failed: set<ConnectorId>, v: VerificationStatus)
    requires after.accounts == db.accounts && after.links == db.links
    requires after.candidates == db.candidates && after.actions == db.actions
    ensures Judges(v, after, c, p, failed) <==> Judges(v, db, c, p, failed)
    ensures SnapshotOf(after, c, p, failed, v) == SnapshotOf(db, c, p, failed, v)
  {
    assert forall a :: Owned(after, a, p) <==> Owned(db, a, p);
    assert (set a | a in after.links && Owned(after, a, p)) == (set a | a in db.links && Owned(db, a, p));
    assert (set a | a in after.links && Owned(after, a, p) && after.accounts[a].status == Disabled) ==
           (set a | a in db.links && Owned(db, a, p) && db.accounts[a].status == Disabled);
    assert (set a | a in after.links && Owned(after, a, p) && after.accounts[a].status == Active) ==
           (set a | a in db.links && Owned(db, a, p) && db.accounts[a].status == Active);
  }

  // ----- Numbers -----

  lemma VerdictSays(t: Tally, failedSystems: nat)
    ensures Says(Verdict(t, failedSystems), failedSystems > 0, t.active > 0,
                 t.disabled < t.managed || t.unresolved > 0 || t.manual > 0)
  {
  }

  lemma FinalCloses(v: VerificationStatus)
    ensures Closes(FinalStatus(v), v)
  {
  }

  lemma EmptyMeansNone<T>(s: set<T>)
    ensures |s| == 0 <==> s == {}
  {
  }

  lemma AccountsSay(db: Db, p: PersonId)
    ensures var t := CountAccounts(db, p);
            && (t.active > 0 <==> SomeActive(db, p))
            && (t.disabled < t.managed <==> SomeNotDisabled(db, p))
  {
    EqualCountsMeanAllDisabled(db, p);
    var on := WithStatus(db, Linked(db, p), Active);
    EmptyMeansNone(on);
    assert forall a :: a in Linked(db, p) <==> Owned(db, a, p);
    if SomeActive(db, p) {
      var a :| Owned(db, a, p) && db.accounts[a].status == Active;
      assert a in on;
    }
    if on != {} {
      var a :| a in on;
      assert Owned(db, a, p);
    }
  }

  lemma CandidatesSay(db: Db, p: PersonId)
    ensures |PendingFor(db, p)| > 0 <==> SomePending(db, p)
  {
    EmptyMeansNone(PendingFor(db, p));
    if SomePending(db, p) {
      var pair :| pair in db.candidates && pair.0 == p && db.candidates[pair] == Pending;
      assert pair in PendingFor(db, p);
    }
  }

  lemma ManualSays(db: Db, c: CaseId)
    ensures |ManualOf(db, c)| > 0 <==> SomeManual(db, c)
  {
    EmptyMeansNone(ManualOf(db, c));
    if SomeManual(db, c) {
      var k :| k in db.actions && k.caseId == c && k.typ == ManualReview;
      assert k in ManualOf(db, c);
    }
  }

  lemma FailedSays(failed: set<ConnectorId>)
    ensures |failed| > 0 <==> failed != {}
  {
    EmptyMeansNone(failed);
  }

  /** The numbers that the final statements carry are those of the rows. */
  lemma TallyIsCounted(db: Db, c: CaseId, p: PersonId, failed: set<ConnectorId>, v: VerificationStatus)
    ensures var t := CountAccounts(db, p).(unresolved := |PendingFor(db, p)|, manual := |ManualOf(db, c)|);
            && SnapshotOf(db, c, p, failed, v) ==
               Snapshot(c, |ConnectorsOf(db, c)|, |ConnectorsOf(db, c)| - |failed|, |failed|, t, v)
            && Judges(Verdict(t, |failed|), db, c, p, failed)
  {
    AccountsSay(db, p);
    CandidatesSay(db, p);
    ManualSays(db, c);
    FailedSays(failed);
    VerdictSays(CountAccounts(db, p).(unresolved := |PendingFor(db, p)|, manual := |ManualOf(db, c)|), |failed|);
    SetsAreRows(db, c, p);
    hide Verdict, SomeActive, SomeNotDisabled, SomePending, SomeManual, Linked, WithStatus;
  }

  lemma SetsAreRows(db: Db, c: CaseId, p: PersonId)
    ensures (set k | k in db.actions && k.caseId == c :: db.actions[k].connector) == ConnectorsOf(db, c)
    ensures (set a | a in db.links && Owned(db, a, p)) == Linked(db, p)
    ensures (set a | a in db.links && Owned(db, a, p) && db.accounts[a].status == Disabled) ==
            WithStatus(db, Linked(db, p), Disabled)
    ensures (set a | a in db.links && Owned(db, a, p) && db.accounts[a].status == Active) ==
            WithStatus(db, Linked(db, p), Active)
    ensures (set pair | pair in db.candidates && pair.0 == p && db.candidates[pair] == Pending) == PendingFor(db, p)
    ensures (set k | k in db.actions && k.caseId == c && k.typ == ManualReview) == ManualOf(db, c)
  {
    assert forall k :: k in KeysOf(db, c) <==> k in db.actions && k.caseId == c;
  }
}
