/** Synchronisations over time, and what the lifecycle sees of one. */
module ReconciliationRuns {
  import opened Common
  import opened CaseTables
  import opened Reconciliation

  // ----- What the lifecycle sees -----

  /** The account columns the lifecycle reads, for one organisation. */
  ghost function View(rows: Rows, org: OrgId): map<AccountId, Account> {
    map a | a in rows && rows[a].org == org :: Account(rows[a].connector, rows[a].externalId, rows[a].status)
  }

  predicate Shows(accounts: map<AccountId, Account>, a: AccountId, connector: ConnectorId, externalId: string) {
    a in accounts && accounts[a].connector == connector && accounts[a].externalId == externalId
  }

  /** All three synchronisations refine one step: the table agrees with the listing, other tenants see nothing. */
  lemma ReconciledAgrees(before: Rows, rows: Rows, org: OrgId, connector: ConnectorId, entries: seq<Entry>, now: int)
    requires Reconciled(before, rows, org, connector, entries, now)
    ensures AgreesWithListing(View(before, org), connector, Names(entries), View(rows, org))
    ensures forall other :: other != org ==> View(rows, other) == View(before, other)
  {
    hide UniqueRows, ListedStatus, RowContent, Present;
    forall other | other != org
      ensures View(rows, other) == View(before, other)
    {
      OthersSeeNothing(before, rows, org, connector, other);
    }
    forall entry | entry in Names(entries)
      ensures exists a :: Shows(View(rows, org), a, connector, entry.externalId)
    {
      ListedIsViewed(rows, org, connector, entries, entry);
    }
    RowsAgree(before, rows, org, connector, entries, now);
    hide View, RowReconciled;
  }

  lemma OthersSeeNothing(before: Rows, rows: Rows, org: OrgId, connector: ConnectorId, other: OrgId)
    requires Stable(before, rows, org, connector) && other != org
    ensures View(rows, other) == View(before, other)
  {
    hide UniqueRows;
    forall a | a in View(rows, other)
      ensures a in View(before, other) && View(rows, other)[a] == View(before, other)[a]
    {
      assert a in before;
    }
    forall a | a in View(before, other)
      ensures a in View(rows, other)
    {
      assert rows[a] == before[a];
    }
  }

  lemma RowsAgree(before: Rows, rows: Rows, org: OrgId, connector: ConnectorId, entries: seq<Entry>, now: int)
    requires Reconciled(before, rows, org, connector, entries, now)
    ensures var was, seen := View(before, org), View(rows, org);
            && was.Keys <= seen.Keys
            && (forall a :: a in was && was[a].connector != connector ==> seen[a] == was[a])
            && (forall a :: a in was ==>
                  seen[a].connector == was[a].connector && seen[a].externalId == was[a].externalId)
            && (forall a :: a in seen && seen[a].connector == connector ==>
                  seen[a].status == ListedStatus(Names(entries), seen[a].externalId))
            && (forall a :: a in seen && a !in was ==> seen[a].connector == connector && seen[a].status != Missing)
  {
    hide UniqueRows, ListedStatus, RowContent, Present;
    assert forall a :: a in View(before, org) ==> SameIdentity(rows[a], before[a]);
  }

  lemma ListedIsViewed(rows: Rows, org: OrgId, connector: ConnectorId, entries: seq<Entry>, entry: Listed)
    requires Present(rows, org, connector, entries) && entry in Names(entries)
    ensures exists a :: Shows(View(rows, org), a, connector, entry.externalId)
  {
    var i :| 0 <= i < |entries| && Names(entries)[i] == entry;
    assert HasRow(rows, org, connector, entries[i].externalId);
    var a :| a in rows && Mine(rows[a], org, connector) && rows[a].externalId == entries[i].externalId;
    assert Shows(View(rows, org), a, connector, entry.externalId);
  }

  // ----- Since when an account is missing -----

  /** One synchronisation; without entries it failed. */
  datatype SyncRun = SyncRun(org: OrgId, connector: ConnectorId, entries: Option<seq<Entry>>, now: int)

  ghost predicate Stepped(before: Rows, run: SyncRun, after: Rows) {
    match run.entries
    case None => after == before
    case Some(entries) => Reconciled(before, after, run.org, run.connector, entries, run.now)
  }

  /** The tables that a sequence of synchronisations goes through, from the empty one. */
  ghost predicate Chain(tables: seq<Rows>, runs: seq<SyncRun>) {
    && |tables| == |runs| + 1 && tables[0] == map[]
    && forall i :: 0 <= i < |runs| ==> Stepped(tables[i], runs[i], tables[i + 1])
  }

  predicate About(run: SyncRun, row: Row) {
    run.entries.Some? && Mine(row, run.org, run.connector)
  }

  predicate Lists(run: SyncRun, row: Row) {
    About(run, row) && IsListed(run.entries.value, row.externalId)
  }

  predicate Misses(run: SyncRun, row: Row) {
    About(run, row) && !IsListed(run.entries.value, row.externalId)
  }

  /** Run `i` is the last one about the account before `end`, and lists it. */
  ghost predicate LastListed(runs: seq<SyncRun>, row: Row, i: nat, end: nat) {
    i < end <= |runs| && Lists(runs[i], row) && forall j :: i < j < end ==> !About(runs[j], row)
  }

  /** Run `i` is the first that missed the account after it was last listed. */
  ghost predicate FirstMiss(runs: seq<SyncRun>, row: Row, i: nat) {
    && i < |runs| && Misses(runs[i], row)
    && (exists k :: LastListed(runs, row, k, i))
    && (forall j :: i < j < |runs| ==> !Lists(runs[j], row))
  }

  /** missing_since is set exactly on MISSING rows, with the time of the first miss. */
  ghost predicate Dated(runs: seq<SyncRun>, row: Row) {
    && (row.status == Missing <==> row.missingSince.Some?)
    && (row.missingSince.Some? ==> exists i: nat :: FirstMiss(runs, row, i) && row.missingSince == Some(runs[i].now))
    && (row.missingSince.None? ==> exists i :: LastListed(runs, row, i, |runs|))
  }

  lemma FirstMissLater(prior: seq<SyncRun>, run: SyncRun, row: Row, i: nat)
    requires FirstMiss(prior, row, i) && !Lists(run, row)
    ensures FirstMiss(prior + [run], row, i)
  {
    var k :| LastListed(prior, row, k, i);
    assert LastListed(prior + [run], row, k, i);
  }

  /** A run that is not about the row leaves its date right. */
  lemma UntouchedStaysDated(prior: seq<SyncRun>, run: SyncRun, row: Row)
    requires Dated(prior, row) && !About(run, row)
    ensures Dated(prior + [run], row)
  {
    if row.missingSince.Some? {
      var i: nat :| FirstMiss(prior, row, i) && row.missingSince == Some(prior[i].now);
      FirstMissLater(prior, run, row, i);
      assert (prior + [run])[i] == prior[i];
    } else {
      var i :| LastListed(prior, row, i, |prior|);
      assert LastListed(prior + [run], row, i, |prior| + 1);
    }
  }

  lemma ListedIsDated(prior: seq<SyncRun>, run: SyncRun, row: Row)
    requires Lists(run, row) && row.status != Missing && row.missingSince.None?
    ensures Dated(prior + [run], row)
  {
    assert LastListed(prior + [run], row, |prior|, |prior| + 1);
  }

  lemma MissedIsDated(prior: seq<SyncRun>, run: SyncRun, was: Row, row: Row)
    requires Dated(prior, was) && SameIdentity(was, row) && Misses(run, row) && row.status == Missing
    requires row.missingSince == if was.missingSince.Some? then was.missingSince else Some(run.now)
    ensures Dated(prior + [run], row)
  {
    var runs := prior + [run];
    if was.missingSince.Some? {
      var i: nat :| FirstMiss(prior, was, i) && was.missingSince == Some(prior[i].now);
      assert FirstMiss(prior, row, i) by {
        var k :| LastListed(prior, was, k, i);
        assert LastListed(prior, row, k, i);
      }
      FirstMissLater(prior, run, row, i);
      assert runs[i] == prior[i];
    } else {
      var k :| LastListed(prior, was, k, |prior|);
      assert LastListed(runs, row, k, |prior|);
      assert FirstMiss(runs, row, |prior|) && runs[|prior|] == run;
    }
  }

  lemma StepKeepsDates(before: Rows, prior: seq<SyncRun>, run: SyncRun, after: Rows, a: AccountId)
    requires Stepped(before, run, after) && a in after
    requires forall b :: b in before ==> Dated(prior, before[b])
    ensures Dated(prior + [run], after[a])
  {
    hide Dated, UniqueRows;
    var row := after[a];
    if !About(run, row) {
      assert a in before && after[a] == before[a];
      UntouchedStaysDated(prior, run, row);
    } else {
      ListedIffNotMissing(run.entries.value, row.externalId);
      if IsListed(run.entries.value, row.externalId) {
        ListedIsDated(prior, run, row);
      } else {
        assert SameIdentity(after[a], before[a]);
        MissedIsDated(prior, run, before[a], row);
      }
    }
  }

  /** Over every sequence of synchronisations of any connectors, failed ones included. */
  lemma {:induction false} MissingSinceIsFirstMiss(tables: seq<Rows>, runs: seq<SyncRun>, a: AccountId)
    requires Chain(tables, runs) && a in tables[|runs|]
    ensures Dated(runs, tables[|runs|][a])
    decreases |runs|
  {
    hide Dated, Stepped;
    var n := |runs| - 1;
    var prior := runs[..n];
    assert Chain(tables[..|runs|], prior);
    forall b | b in tables[n]
      ensures Dated(prior, tables[n][b])
    {
      MissingSinceIsFirstMiss(tables[..|runs|], prior, b);
    }
    assert Stepped(tables[n], runs[n], tables[n + 1]);
    StepKeepsDates(tables[n], prior, runs[n], tables[|runs|], a);
    assert prior + [runs[n]] == runs;
  }
}
