/** A synchronisation with its correlation, committed as one transaction, is one step of the lifecycle. */
module SyncRefinement {
  import opened CaseTables
  import opened CaseRuns
  import opened Reconciliation
  import opened ReconciliationRuns
  import opened Correlation
  import opened Matching
  import opened MatchingLaws

  /** The columns that the account query of the correlation reads. */
  function Compared(a: AccountId, row: Row): Correlation.Discovered {
    Correlation.Discovered(a, row.profile.displayName, row.profile.email, row.profile.employeeNumber,
        row.providerExternal)
  }

  /** `accounts` are the rows of one connector, in some order. */
  ghost predicate Queried(rows: Rows, org: OrgId, connector: ConnectorId, accounts: seq<Correlation.Discovered>) {
    forall a :: a in accounts <==>
        exists id :: id in rows && Mine(rows[id], org, connector) && a == Compared(id, rows[id])
  }

  /**
   Whatever a synchronisation writes to accounts, links and candidates is exactly what one CommitSync step of the
   lifecycle writes, and only accounts of the connector get links or candidates.
   */
  lemma SyncIsLifecycleStep(s: State, id: SyncId, before: Rows, rows: Rows, org: OrgId, entries: seq<Entry>, now: int,
                            people: seq<Person>, accounts: seq<Correlation.Discovered>, trusted: set<string>,
                                findings: seq<Finding>)
    requires id in s.syncs && s.syncs[id].listing == Names(entries) && s.syncs[id].connector in s.db.connectors
    requires s.db.accounts == View(before, org)
    requires Reconciled(before, rows, org, s.syncs[id].connector, entries, now)
    requires Queried(rows, org, s.syncs[id].connector, accounts)
    ensures var book := AfterAccounts(Book(s.db.links, s.db.candidates, findings), people, accounts, trusted);
            var links := map k | k in book.links && k !in s.db.links :: book.links[k];
            var pairs := book.candidates.Keys - s.db.candidates.Keys;
            && Next(s, CommitSync(id, View(rows, org), links, pairs)) ==
               s.(db := s.db.(accounts := View(rows, org), links := book.links, candidates := book.candidates))
            && (forall k :: k in links ==>
                  k in View(rows, org) && View(rows, org)[k].connector == s.syncs[id].connector)
            && (forall pair :: pair in pairs ==>
                  pair.1 in View(rows, org) && View(rows, org)[pair.1].connector == s.syncs[id].connector)
  {
    hide Reconciled, AgreesWithListing, AfterAccounts, View, Reason, Namesake;
    var start := Book(s.db.links, s.db.candidates, findings);
    var book := AfterAccounts(start, people, accounts, trusted);
    var links := map k | k in book.links && k !in s.db.links :: book.links[k];
    ReconciledAgrees(before, rows, org, s.syncs[id].connector, entries, now);
    CorrelationIsCommit(start, people, accounts, trusted);
    LinksAreSound(start, people, accounts, trusted);
    CandidatesAreNamesakes(start, people, accounts, trusted);
    assert SyncEnabled(s, id, View(rows, org), links);
    forall k | k in links
      ensures k in View(rows, org) && View(rows, org)[k].connector == s.syncs[id].connector
    {
      LinkedAccountIsQueried(rows, org, s.syncs[id].connector, people, accounts, trusted, k, links[k]);
    }
    forall pair | pair in book.candidates.Keys - s.db.candidates.Keys
      ensures pair.1 in View(rows, org) && View(rows, org)[pair.1].connector == s.syncs[id].connector
    {
      CandidateIsQueried(rows, org, s.syncs[id].connector, people, accounts, trusted, pair);
    }
  }

  lemma CandidateIsQueried(rows: Rows, org: OrgId, connector: ConnectorId, people: seq<Person>,
                           accounts: seq<Correlation.Discovered>, trusted: set<string>, pair: (PersonId, AccountId))
    requires Queried(rows, org, connector, accounts) && Namesake(people, accounts, trusted, pair)
    ensures pair.1 in View(rows, org) && View(rows, org)[pair.1].connector == connector
  {
    hide NameReason;
    var j, i :| 0 <= j < |accounts| && 0 <= i < |people| && accounts[j].id == pair.1 && people[i].id == pair.0
                && NameReason(people, i, accounts[j], trusted);
    assert accounts[j] in accounts;
  }

  lemma LinkedAccountIsQueried(rows: Rows, org: OrgId, connector: ConnectorId, people: seq<Person>,
                               accounts: seq<Correlation.Discovered>, trusted: set<string>, k: AccountId,
                               person: PersonId)
    requires Queried(rows, org, connector, accounts) && Deserved(people, accounts, trusted, k, person)
    ensures k in View(rows, org) && View(rows, org)[k].connector == connector
  {
    hide Reason;
    var j, i :| 0 <= j < |accounts| && 0 <= i < |people| && accounts[j].id == k && people[i].id == person
                && Reason(people, i, accounts[j], trusted);
    assert accounts[j] in accounts;
  }
}
