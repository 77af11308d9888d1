/**
 The correlation of discovered accounts with people: for each account the people are tried in order until one
 matches strongly; names only make candidates for review.
 */
module Matching {
  import opened Text
  import opened CaseTables
  import opened Correlation
  import Runs = CaseRuns

  datatype Finding = Finding(account: AccountId, open: bool, ambiguous: bool)

  type Candidates = map<(PersonId, AccountId), CandidateStatus>

  datatype Book = Book(links: map<AccountId, PersonId>, candidates: Candidates, findings: seq<Finding>)

  // ----- One pair -----

  /** How many people carry an address. */
  function Holders(people: seq<Person>, email: string): nat {
    if people == [] then 0
    else Holders(people[..|people| - 1], email) + if Normal(people[|people| - 1].email) == email then 1 else 0
  }

  function SignalOf(people: seq<Person>, p: Person, a: Discovered, trusted: set<string>): Signal {
    var email := Normal(a.email);
    Evaluate(p, a, trusted, email != "" && Holders(people, email) == 1)
  }

  predicate Strong(people: seq<Person>, p: Person, a: Discovered, trusted: set<string>) {
    SameExternalId(p, a) || Automatic(SignalOf(people, p, a, trusted))
  }

  predicate Weak(people: seq<Person>, p: Person, a: Discovered, trusted: set<string>) {
    !Strong(people, p, a, trusted) && SignalOf(people, p, a, trusted) == NameOnly
  }

  // ----- One account -----

  /** The first strong match at or after `i`. */
  function FirstFrom(people: seq<Person>, a: Discovered, trusted: set<string>, i: nat): (n: nat)
    requires i <= |people|
    ensures i <= n <= |people|
    ensures forall j :: i <= j < n ==> !Strong(people, people[j], a, trusted)
    ensures n < |people| ==> Strong(people, people[n], a, trusted)
    decreases |people| - i
  {
    if i == |people| || Strong(people, people[i], a, trusted) then i else FirstFrom(people, a, trusted, i + 1)
  }

  function First(people: seq<Person>, a: Discovered, trusted: set<string>): (n: nat)
    ensures n <= |people|
  {
    FirstFrom(people, a, trusted, 0)
  }

  function WeakBefore(people: seq<Person>, a: Discovered, trusted: set<string>, n: nat): set<(PersonId, AccountId)>
    requires n <= |people|
  {
    set i | 0 <= i < n && Weak(people, people[i], a, trusted) :: (people[i].id, a.id)
  }

  predicate HasOpenOrphan(findings: seq<Finding>, a: AccountId) {
    exists f :: f in findings && f.account == a && f.open
  }

  function AfterAccount(book: Book, people: seq<Person>, a: Discovered, trusted: set<string>): Book {
    var n := First(people, a, trusted);
    var weak := WeakBefore(people, a, trusted, n);
    Book(
      if n < |people| && a.id !in book.links then book.links[a.id := people[n].id] else book.links,
      Runs.Propose(book.candidates, weak),
      if n == |people| && !HasOpenOrphan(book.findings, a.id) then book.findings + [Finding(a.id, true, weak != {})]
      else book.findings)
  }

  function AfterAccounts(book: Book, people: seq<Person>, accounts: seq<Discovered>, trusted: set<string>): Book {
    if accounts == [] then book
    else AfterAccount(AfterAccounts(book, people, accounts[..|accounts| - 1], trusted), people,
        accounts[|accounts| - 1], trusted)
  }

  // ----- The procedure -----

  /** The emailCounts map: for each address that someone carries, how many do. */
  method CountEmails(people: seq<Person>) returns (counts: map<string, nat>)
    ensures forall e :: e != "" ==> (if e in counts then counts[e] else 0) == Holders(people, e)
  {
    counts := map[];
    for i := 0 to |people|
      invariant forall e :: e != "" ==> (if e in counts then counts[e] else 0) == Holders(people[..i], e)
    {
      assert people[..i + 1][..i] == people[..i];
      var email := Normal(people[i].email);
      if email != "" {
        counts := counts[email := (if email in counts then counts[email] else 0) + 1];
      }
    }
    assert people[..|people|] == people;
  }

  /** The inner loop: people in order, up to the first strong match. */
  method MatchAccount(book: Book, people: seq<Person>, a: Discovered, trusted: set<string>, counts: map<string, nat>)
    returns (after: Book, created: nat)
    requires forall e :: e != "" ==> (if e in counts then counts[e] else 0) == Holders(people, e)
    ensures after == AfterAccount(book, people, a, trusted)
    ensures created == |after.findings| - |book.findings|
  {
    hide Evaluate, SameExternalId, SignalOf, WeakBefore, Runs.Propose, First, FirstFrom;
    NothingWeak(book.candidates, people, a, trusted);
    var links, candidates := book.links, book.candidates;
    var linked, candidate := false, false;
    var i := 0;
    while i < |people|
      invariant 0 <= i <= |people| && !linked && links == book.links
      invariant forall j :: 0 <= j < i ==> !Strong(people, people[j], a, trusted)
      invariant candidates == Runs.Propose(book.candidates, WeakBefore(people, a, trusted, i))
      invariant candidate <==> WeakBefore(people, a, trusted, i) != {}
    {
      var p := people[i];
      if SameExternalId(p, a) {
        if a.id !in links { links := links[a.id := p.id]; }
        linked := true;
        break;
      }
      var email := Normal(a.email);
      var signal := Evaluate(p, a, trusted, email != "" && email in counts && counts[email] == 1);
      CountedSignal(people, p, a, trusted, counts);
      if Automatic(signal) {
        if a.id !in links { links := links[a.id := p.id]; }
        linked := true;
        break;
      }
      WeakSnoc(people, a, trusted, i);
      ProposeOne(book.candidates, WeakBefore(people, a, trusted, i), (p.id, a.id));
      if signal == NameOnly {
        if (p.id, a.id) !in candidates { candidates := candidates[(p.id, a.id) := Pending]; }
        candidate := true;
      }
      i := i + 1;
    }
    FirstIs(people, a, trusted, i);
    var findings := book.findings;
    created := 0;
    if !linked && !HasOpenOrphan(findings, a.id) {
      findings := findings + [Finding(a.id, true, candidate)];
      created := 1;
    }
    after := Book(links, candidates, findings);
  }

  lemma CountedSignal(people: seq<Person>, p: Person, a: Discovered, trusted: set<string>, counts: map<string, nat>)
    requires forall e :: e != "" ==> (if e in counts then counts[e] else 0) == Holders(people, e)
    ensures var email := Normal(a.email);
            Evaluate(p, a, trusted, email != "" && email in counts && counts[email] == 1) ==
                SignalOf(people, p, a, trusted)
  {
    hide Evaluate;
  }

  lemma ProposeOne(candidates: Candidates, pairs: set<(PersonId, AccountId)>, pair: (PersonId, AccountId))
    ensures var proposed := Runs.Propose(candidates, pairs);
            Runs.Propose(candidates, pairs + {pair}) == if pair in proposed then proposed else proposed[pair := Pending]
  {
  }

  lemma NothingWeak(candidates: Candidates, people: seq<Person>, a: Discovered, trusted: set<string>)
    ensures WeakBefore(people, a, trusted, 0) == {} && Runs.Propose(candidates, {}) == candidates
  {
  }

  lemma WeakSnoc(people: seq<Person>, a: Discovered, trusted: set<string>, i: nat)
    requires i < |people|
    ensures WeakBefore(people, a, trusted, i + 1) ==
            if Weak(people, people[i], a, trusted) then WeakBefore(people, a, trusted, i) + {(people[i].id, a.id)}
            else WeakBefore(people, a, trusted, i)
  {
    hide Weak;
  }

  lemma FirstIs(people: seq<Person>, a: Discovered, trusted: set<string>, n: nat)
    requires n <= |people| && (n < |people| ==> Strong(people, people[n], a, trusted))
    requires forall j :: 0 <= j < n ==> !Strong(people, people[j], a, trusted)
    ensures First(people, a, trusted) == n
  {
    hide Strong;
  }

  /** correlate: every account of the connector against every person of the organisation. */
  method Correlate(book: Book, people: seq<Person>, accounts: seq<Discovered>, trusted: set<string>)
    returns (after: Book, created: nat)
    ensures after == AfterAccounts(book, people, accounts, trusted)
    ensures created == |after.findings| - |book.findings|
  {
    var counts := CountEmails(people);
    after, created := book, 0;
    for k := 0 to |accounts|
      invariant after == AfterAccounts(book, people, accounts[..k], trusted)
      invariant created == |after.findings| - |book.findings|
    {
      assert accounts[..k + 1][..k] == accounts[..k];
      var found: nat;
      after, found := MatchAccount(after, people, accounts[k], trusted, counts);
      created := created + found;
    }
    assert accounts[..|accounts|] == accounts;
  }
}
