/** What correlation guarantees: sound links, order independence, idempotence, final decisions. */
module MatchingLaws {
  import opened Common
  import opened Text
  import opened CaseTables
  import opened Correlation
  import opened Matching
  import Runs = CaseRuns

  // ----- The e-mail signal -----

  lemma {:induction false} HoldersZero(people: seq<Person>, email: string)
    ensures Holders(people, email) == 0 <==> forall j :: 0 <= j < |people| ==> Normal(people[j].email) != email
  {
    if people != [] {
      HoldersZero(people[..|people| - 1], email);
    }
  }

  lemma {:induction false} HoldersOne(people: seq<Person>, email: string, i: nat)
    requires i < |people| && Normal(people[i].email) == email
    ensures Holders(people, email) == 1 <==> forall j :: 0 <= j < |people| && j != i ==>
            Normal(people[j].email) != email
  {
    hide Normal;
    var n := |people| - 1;
    HoldersZero(people[..n], email);
    if i < n {
      HoldersOne(people[..n], email, i);
      assert people[..n][i] == people[i];
    }
  }

  /** Person `i` and the account carry the address `local@domain`, and no other person does. */
  ghost predicate SoleAddress(people: seq<Person>, i: nat, a: Discovered, local: string, domain: string)
    requires i < |people|
  {
    && local != "" && domain != "" && '@' !in local && '@' !in domain
    && Lower(Trim(people[i].email)) == Lower(Trim(a.email)) == local + "@" + domain
    && forall j :: 0 <= j < |people| && j != i ==> Lower(Trim(people[j].email)) != Lower(Trim(a.email))
  }

  /**
   What links an account to person `i`: the same external id, which the account has; the same employee number, which
   both have; or an address of their own with a trusted domain. Values are compared without blanks around them and
   without regard to case.
   */
  ghost predicate Reason(people: seq<Person>, i: nat, a: Discovered, trusted: set<string>)
    requires i < |people|
  {
    var p := people[i];
    || (a.providerExternal != "" && Lower(Trim(a.providerExternal)) == Lower(Trim(p.externalId)))
    || (p.employeeNumber != "" && a.employeeNumber != ""
        && Lower(Trim(p.employeeNumber)) == Lower(Trim(a.employeeNumber)))
    || (exists local, domain :: SoleAddress(people, i, a, local, domain) && domain in trusted)
  }

  /** What makes person `i` a candidate: no reason and no address of their own, but the same name, which is not "". */
  ghost predicate NameReason(people: seq<Person>, i: nat, a: Discovered, trusted: set<string>)
    requires i < |people|
  {
    && !Reason(people, i, a, trusted) && (forall local, domain :: !SoleAddress(people, i, a, local, domain))
    && people[i].displayName != "" && Lower(Trim(people[i].displayName)) == Lower(Trim(a.displayName))
  }

  /** The unique e-mail signal is an address of their own. */
  lemma SoleEmailMeans(people: seq<Person>, i: nat, a: Discovered)
    requires i < |people|
    ensures var email := Normal(a.email);
            SameEmail(people[i], a) && email != "" && Holders(people, email) == 1 <==>
            exists local, domain :: SoleAddress(people, i, a, local, domain)
    ensures forall local, domain :: SoleAddress(people, i, a, local, domain) ==>
                domain == After(NormalizeEmail(people[i].email), '@')
  {
    hide NormalizeEmail, Holders;
    var p := people[i];
    NormalizedShape(p.email);
    NormalizedShape(a.email);
    if Normal(p.email) == Normal(a.email) {
      HoldersOne(people, Normal(a.email), i);
    }
    if SameEmail(p, a) && Normal(a.email) != "" && Holders(people, Normal(a.email)) == 1 {
      var e := NormalizeEmail(p.email);
      assert SoleAddress(people, i, a, Before(e, '@'), After(e, '@'));
    }
    forall local, domain | SoleAddress(people, i, a, local, domain)
      ensures SameEmail(p, a) && Normal(a.email) != "" && Holders(people, Normal(a.email)) == 1
      ensures domain == After(NormalizeEmail(p.email), '@')
    {
      AddressNormalizes(p.email, local, domain);
      AddressNormalizes(a.email, local, domain);
    }
  }

  /** A strong match is an external id, an employee number or an address that nobody else carries; never a name. */
  lemma StrongMeans(people: seq<Person>, i: nat, a: Discovered, trusted: set<string>)
    requires i < |people|
    ensures Strong(people, people[i], a, trusted) <==> Reason(people, i, a, trusted)
  {
    SoleEmailMeans(people, i, a);
    hide NormalizeEmail, Holders, SoleAddress, SameEmail, Trim, Lower, After;
  }

  /** A name makes a candidate only where no other signal speaks. */
  lemma WeakMeans(people: seq<Person>, i: nat, a: Discovered, trusted: set<string>)
    requires i < |people|
    ensures Weak(people, people[i], a, trusted) <==> NameReason(people, i, a, trusted)
  {
    SoleEmailMeans(people, i, a);
    StrongMeans(people, i, a, trusted);
    hide NormalizeEmail, Holders, SoleAddress, SameEmail, Trim, Lower, After;
  }

  /** The count map lets an address speak for one person at most. */
  lemma EmailMatchesOnePerson(people: seq<Person>, i: nat, j: nat, a: Discovered, trusted: set<string>)
    requires i < |people| && j < |people|
    requires SignalOf(people, people[i], a, trusted) == TrustedEmail
    requires SignalOf(people, people[j], a, trusted) == TrustedEmail
    ensures i == j
  {
    hide SameEmployee, NormalizeEmail, Holders;
    StrongMeans(people, i, a, trusted);
    NormalizedShape(people[i].email);
    NormalizedShape(people[j].email);
    NormalizedShape(a.email);
    HoldersOne(people, Normal(a.email), i);
  }

  // ----- Soundness -----

  /** Nothing that was stored is changed; new candidates are pending. */
  ghost predicate Extends(book: Book, after: Book) {
    && (forall k :: k in book.links ==> k in after.links && after.links[k] == book.links[k])
    && (forall pair :: pair in book.candidates ==>
          pair in after.candidates && after.candidates[pair] == book.candidates[pair])
    && (forall pair :: pair in after.candidates && pair !in book.candidates ==> after.candidates[pair] == Pending)
    && book.findings <= after.findings
  }

  /** Account `k` may be linked to `person`: some account record of that id matches that person strongly. */
  ghost predicate Deserved(people: seq<Person>, accounts: seq<Discovered>, trusted: set<string>, k: AccountId,
                           person: PersonId) {
    exists j, i :: 0 <= j < |accounts| && 0 <= i < |people| && accounts[j].id == k && people[i].id == person
                   && Reason(people, i, accounts[j], trusted)
  }

  lemma AccountExtends(book: Book, people: seq<Person>, a: Discovered, trusted: set<string>)
    ensures Extends(book, AfterAccount(book, people, a, trusted))
  {
    hide First, WeakBefore, HasOpenOrphan;
  }

  /** Every link that a correlation adds has a reason, and every link it finds it keeps. */
  lemma {:induction false} LinksAreSound(book: Book, people: seq<Person>, accounts: seq<Discovered>,
                                         trusted: set<string>)
    ensures Extends(book, AfterAccounts(book, people, accounts, trusted))
    ensures forall k :: k in AfterAccounts(book, people, accounts, trusted).links && k !in book.links ==>
                          Deserved(people, accounts, trusted, k,
                              AfterAccounts(book, people, accounts, trusted).links[k])
  {
    hide Reason, WeakBefore, HasOpenOrphan, Strong;
    if accounts != [] {
      var n := |accounts| - 1;
      var prior, a := accounts[..n], accounts[n];
      var middle := AfterAccounts(book, people, prior, trusted);
      LinksAreSound(book, people, prior, trusted);
      AccountExtends(middle, people, a, trusted);
      var after := AfterAccount(middle, people, a, trusted);
      forall k | k in after.links && k !in book.links
        ensures Deserved(people, accounts, trusted, k, after.links[k])
      {
        if k in middle.links {
          var j, i :| 0 <= j < |prior| && 0 <= i < |people| && prior[j].id == k && people[i].id == middle.links[k]
                      && Reason(people, i, prior[j], trusted);
          assert accounts[j] == prior[j];
        } else {
          var i := First(people, a, trusted);
          StrongMeans(people, i, a, trusted);
          assert accounts[n].id == k && people[i].id == after.links[k];
        }
      }
    }
  }

  /**
   A candidate may be proposed: some account record of that id has the name of that person, and nothing stronger.
   */
  ghost predicate Namesake(people: seq<Person>, accounts: seq<Discovered>, trusted: set<string>,
                           pair: (PersonId, AccountId)) {
    exists j, i :: 0 <= j < |accounts| && 0 <= i < |people| && accounts[j].id == pair.1 && people[i].id == pair.0
                   && NameReason(people, i, accounts[j], trusted)
  }

  /** Every candidate that a correlation adds is a mere name match. */
  lemma {:induction false} CandidatesAreNamesakes(book: Book, people: seq<Person>, accounts: seq<Discovered>,
                                                  trusted: set<string>)
    ensures var after := AfterAccounts(book, people, accounts, trusted);
            forall pair :: pair in after.candidates && pair !in book.candidates ==>
                             Namesake(people, accounts, trusted, pair)
  {
    hide Weak, HasOpenOrphan, First;
    if accounts != [] {
      var n := |accounts| - 1;
      var prior, a := accounts[..n], accounts[n];
      var middle := AfterAccounts(book, people, prior, trusted);
      CandidatesAreNamesakes(book, people, prior, trusted);
      var after := AfterAccount(middle, people, a, trusted);
      hide AfterAccounts, AfterAccount, Namesake;
      forall pair | pair in after.candidates && pair !in book.candidates
        ensures Namesake(people, accounts, trusted, pair)
      {
        if pair in middle.candidates {
          NamesakeLater(people, accounts, trusted, pair);
        } else {
          NamesakeNow(middle, people, accounts, trusted, pair);
        }
      }
    }
  }

  lemma NamesakeLater(people: seq<Person>, accounts: seq<Discovered>, trusted: set<string>, pair: (PersonId, AccountId))
    requires accounts != [] && Namesake(people, accounts[..|accounts| - 1], trusted, pair)
    ensures Namesake(people, accounts, trusted, pair)
  {
    hide NameReason;
    var prior := accounts[..|accounts| - 1];
    var j, i :| 0 <= j < |prior| && 0 <= i < |people| && prior[j].id == pair.1 && people[i].id == pair.0
                && NameReason(people, i, prior[j], trusted);
    assert accounts[j] == prior[j];
  }

  lemma NamesakeNow(book: Book, people: seq<Person>, accounts: seq<Discovered>, trusted: set<string>,
                    pair: (PersonId, AccountId))
    requires accounts != [] && pair !in book.candidates
    requires pair in AfterAccount(book, people, accounts[|accounts| - 1], trusted).candidates
    ensures Namesake(people, accounts, trusted, pair)
  {
    hide Weak, HasOpenOrphan, First, NameReason;
    var n := |accounts| - 1;
    var a := accounts[n];
    var i :| 0 <= i < First(people, a, trusted) && Weak(people, people[i], a, trusted) && pair == (people[i].id, a.id);
    WeakMeans(people, i, a, trusted);
    assert accounts[n].id == pair.1 && people[i].id == pair.0;
  }

  // ----- One account, exactly -----

  ghost predicate Explained(people: seq<Person>, a: Discovered, trusted: set<string>) {
    exists i :: 0 <= i < |people| && Reason(people, i, a, trusted)
  }

  lemma FirstIsReason(people: seq<Person>, a: Discovered, trusted: set<string>)
    ensures var n := First(people, a, trusted);
            && (n < |people| <==> Explained(people, a, trusted))
            && (n < |people| ==> Reason(people, n, a, trusted))
            && forall j :: 0 <= j < n ==> !Reason(people, j, a, trusted)
  {
    hide Strong, Reason;
    forall j | 0 <= j < |people|
      ensures Strong(people, people[j], a, trusted) <==> Reason(people, j, a, trusted)
    {
      StrongMeans(people, j, a, trusted);
    }
  }

  /** An account is linked exactly when it was or has a reason, and then to the first person with one. */
  lemma LinkIsExact(book: Book, people: seq<Person>, a: Discovered, trusted: set<string>)
    ensures var after := AfterAccount(book, people, a, trusted);
            && (a.id in after.links <==> a.id in book.links || Explained(people, a, trusted))
            && (a.id !in book.links && a.id in after.links ==>
                  exists i :: 0 <= i < |people| && Reason(people, i, a, trusted) && after.links[a.id] == people[i].id
                              && forall j :: 0 <= j < i ==> !Reason(people, j, a, trusted))
            && forall k :: k != a.id ==> (k in after.links <==> k in book.links)
  {
    FirstIsReason(people, a, trusted);
    hide First, Reason, Explained, WeakBefore, HasOpenOrphan, Runs.Propose;
  }

  ghost predicate HasNamesake(people: seq<Person>, a: Discovered, trusted: set<string>) {
    exists i :: 0 <= i < |people| && NameReason(people, i, a, trusted)
  }

  /** An orphan finding is opened exactly for an account without a reason and without an open one; a namesake shows. */
  lemma OrphanIsExact(book: Book, people: seq<Person>, a: Discovered, trusted: set<string>)
    ensures var after := AfterAccount(book, people, a, trusted);
            var opens := !Explained(people, a, trusted)
                && forall f :: f in book.findings ==> f.account != a.id || !f.open;
            after.findings == if opens then book.findings + [Finding(a.id, true, HasNamesake(people, a, trusted))]
                              else book.findings
  {
    FirstIsReason(people, a, trusted);
    var n := First(people, a, trusted);
    hide First, Reason, Explained, Weak, NameReason, Runs.Propose;
    if n == |people| {
      forall i | 0 <= i < |people|
        ensures Weak(people, people[i], a, trusted) <==> NameReason(people, i, a, trusted)
      {
        WeakMeans(people, i, a, trusted);
      }
      if HasNamesake(people, a, trusted) {
        var i :| 0 <= i < |people| && NameReason(people, i, a, trusted);
        assert (people[i].id, a.id) in WeakBefore(people, a, trusted, n);
      }
      assert WeakBefore(people, a, trusted, n) != {} <==> HasNamesake(people, a, trusted);
    }
  }

  /** Blank columns link nobody: without an external id, an employee number and an address there is no reason. */
  lemma BlanksNeverLink(book: Book, people: seq<Person>, a: Discovered, trusted: set<string>)
    requires a.providerExternal == "" && a.employeeNumber == "" && Trim(a.email) == ""
    ensures AfterAccount(book, people, a, trusted).links == book.links
  {
    forall i | 0 <= i < |people|
      ensures !Reason(people, i, a, trusted)
    {
    }
    hide Reason, First, WeakBefore;
    FirstIsReason(people, a, trusted);
  }

  /** The tests for "" come before the trimming: two employee numbers of blanks link exactly when neither is "". */
  lemma PaddedBlanksLink(people: seq<Person>, i: nat, a: Discovered, trusted: set<string>)
    requires i < |people| && a.providerExternal == "" && Trim(a.email) == ""
    requires Trim(people[i].employeeNumber) == Trim(a.employeeNumber) == ""
    ensures Strong(people, people[i], a, trusted) <==> people[i].employeeNumber != "" && a.employeeNumber != ""
  {
    StrongMeans(people, i, a, trusted);
  }

  // ----- Order of people -----

  predicate Reordered(people: seq<Person>, other: seq<Person>) {
    multiset(people) == multiset(other)
  }

  lemma {:induction false} HoldersConcat(left: seq<Person>, right: seq<Person>, email: string)
    ensures Holders(left + right, email) == Holders(left, email) + Holders(right, email)
    decreases |right|
  {
    if right == [] {
      assert left + right == left;
    } else {
      var n := |right| - 1;
      assert (left + right)[..|left + right| - 1] == left + right[..n];
      HoldersConcat(left, right[..n], email);
    }
  }

  lemma HoldersInsert(left: seq<Person>, p: Person, right: seq<Person>, email: string)
    ensures Holders(left + [p] + right, email) ==
            Holders(left + right, email) + if Normal(p.email) == email then 1 else 0
  {
    HoldersConcat(left + [p], right, email);
    HoldersConcat(left, [p], email);
    HoldersConcat(left, right, email);
    assert [p][..0] == [];
  }

  lemma {:induction false} HoldersReordered(people: seq<Person>, other: seq<Person>, email: string)
    requires Reordered(people, other)
    ensures Holders(people, email) == Holders(other, email)
    decreases |people|
  {
    if people == [] {
      assert |multiset(other)| == 0;
    } else {
      var n := |people| - 1;
      var last := people[n];
      assert last in multiset(people);
      var j :| 0 <= j < |other| && other[j] == last;
      var rest := other[..j] + other[j + 1..];
      assert other == other[..j] + [last] + other[j + 1..];
      TakeLast(people, other, last, rest, j);
      HoldersReordered(people[..n], rest, email);
      HoldersInsert(other[..j], last, other[j + 1..], email);
    }
  }

  lemma TakeLast(people: seq<Person>, other: seq<Person>, last: Person, rest: seq<Person>, j: nat)
    requires people != [] && last == people[|people| - 1] && j < |other| && other[j] == last
    requires rest == other[..j] + other[j + 1..] && Reordered(people, other)
    ensures Reordered(people[..|people| - 1], rest)
  {
    assert people == people[..|people| - 1] + [last];
    assert multiset(people) == multiset(people[..|people| - 1]) + multiset{last};
    assert other == other[..j] + ([last] + other[j + 1..]);
    assert multiset(other) == multiset(other[..j]) + (multiset{last} + multiset(other[j + 1..]));
    assert multiset(rest) == multiset(other[..j]) + multiset(other[j + 1..]);
    assert multiset(people[..|people| - 1]) == multiset(people) - multiset{last};
    assert multiset(rest) == multiset(other) - multiset{last};
  }

  lemma StrongReordered(people: seq<Person>, other: seq<Person>, p: Person, a: Discovered, trusted: set<string>)
    requires Reordered(people, other)
    ensures Strong(people, p, a, trusted) <==> Strong(other, p, a, trusted)
    ensures Weak(people, p, a, trusted) <==> Weak(other, p, a, trusted)
  {
    hide Evaluate, SameExternalId, Holders;
    HoldersReordered(people, other, Normal(a.email));
  }

  function LinkOf(people: seq<Person>, a: Discovered, trusted: set<string>): Option<PersonId> {
    var n := First(people, a, trusted);
    if n < |people| then Some(people[n].id) else None
  }

  /** Strong matches name one person only. */
  ghost predicate OneMatch(people: seq<Person>, a: Discovered, trusted: set<string>) {
    forall p, q :: p in people && q in people && Strong(people, p, a, trusted) && Strong(people, q, a, trusted) ==>
        p.id == q.id
  }

  lemma SameLinkWhenReordered(people: seq<Person>, other: seq<Person>, a: Discovered, trusted: set<string>)
    requires Reordered(people, other) && OneMatch(people, a, trusted)
    ensures LinkOf(people, a, trusted) == LinkOf(other, a, trusted)
  {
    hide Strong, Weak;
    var n, m := First(people, a, trusted), First(other, a, trusted);
    if n < |people| {
      assert people[n] in multiset(other);
      StrongReordered(people, other, people[n], a, trusted);
      var j :| 0 <= j < |other| && other[j] == people[n];
      assert m < |other| by { assert m <= j; }
    }
    if m < |other| {
      assert other[m] in multiset(people);
      StrongReordered(people, other, other[m], a, trusted);
      var j :| 0 <= j < |people| && people[j] == other[m];
      assert n <= j;
    }
  }

  /** A strong match put first decides the link. */
  lemma FrontDecides(people: seq<Person>, p: Person, a: Discovered, trusted: set<string>) returns (other: seq<Person>)
    requires p in people && Strong(people, p, a, trusted)
    ensures Reordered(people, other) && LinkOf(other, a, trusted) == Some(p.id)
  {
    hide Strong, Weak;
    var j :| 0 <= j < |people| && people[j] == p;
    assert people == people[..j] + [p] + people[j + 1..];
    other := [p] + (people[..j] + people[j + 1..]);
    StrongReordered(people, other, p, a, trusted);
    assert other[0] == p;
  }

  /** The link an account gets is the same for every order of people exactly when its strong matches agree. */
  lemma LinkIgnoresOrder(people: seq<Person>, a: Discovered, trusted: set<string>)
    ensures OneMatch(people, a, trusted) <==>
            forall other :: Reordered(people, other) ==> LinkOf(other, a, trusted) == LinkOf(people, a, trusted)
  {
    hide Strong, LinkOf;
    if OneMatch(people, a, trusted) {
      forall other | Reordered(people, other)
        ensures LinkOf(other, a, trusted) == LinkOf(people, a, trusted)
      {
        SameLinkWhenReordered(people, other, a, trusted);
      }
    }
    if forall other :: Reordered(people, other) ==> LinkOf(other, a, trusted) == LinkOf(people, a, trusted) {
      forall p, q | p in people && q in people && Strong(people, p, a, trusted) && Strong(people, q, a, trusted)
        ensures p.id == q.id
      {
        var one := FrontDecides(people, p, a, trusted);
        var two := FrontDecides(people, q, a, trusted);
        assert Some(p.id) == LinkOf(people, a, trusted) == Some(q.id);
      }
    }
  }

  // ----- Running again -----

  /** The account has its link, or its open finding, whatever the order of people. */
  ghost predicate Answered(book: Book, people: seq<Person>, a: Discovered, trusted: set<string>) {
    if exists p :: p in people && Strong(people, p, a, trusted) then a.id in book.links
    else HasOpenOrphan(book.findings, a.id)
  }

  ghost predicate Proposed(book: Book, people: seq<Person>, a: Discovered, trusted: set<string>) {
    WeakBefore(people, a, trusted, First(people, a, trusted)) <= book.candidates.Keys
  }

  lemma FirstFinds(people: seq<Person>, a: Discovered, trusted: set<string>)
    ensures First(people, a, trusted) < |people| <==> exists p :: p in people && Strong(people, p, a, trusted)
  {
    hide Strong;
    var n := First(people, a, trusted);
    if n < |people| {
      assert people[n] in people;
    }
  }

  lemma AccountIsAnswered(book: Book, people: seq<Person>, a: Discovered, trusted: set<string>)
    ensures Answered(AfterAccount(book, people, a, trusted), people, a, trusted)
    ensures Proposed(AfterAccount(book, people, a, trusted), people, a, trusted)
  {
    hide Strong, First, WeakBefore;
    FirstFinds(people, a, trusted);
    var after := AfterAccount(book, people, a, trusted);
    if after.findings != book.findings {
      assert after.findings[|book.findings|] ==
          Finding(a.id, true, WeakBefore(people, a, trusted, First(people, a, trusted)) != {});
      assert after.findings[|book.findings|] in after.findings;
    }
  }

  lemma AnsweredStays(book: Book, after: Book, people: seq<Person>, a: Discovered, trusted: set<string>)
    requires Extends(book, after)
    ensures Answered(book, people, a, trusted) ==> Answered(after, people, a, trusted)
    ensures Proposed(book, people, a, trusted) ==> Proposed(after, people, a, trusted)
  {
    hide Strong, First, WeakBefore;
  }

  lemma {:induction false} RunAnswers(book: Book, people: seq<Person>, accounts: seq<Discovered>, trusted: set<string>,
                                      a: Discovered)
    requires a in accounts
    ensures Answered(AfterAccounts(book, people, accounts, trusted), people, a, trusted)
    ensures Proposed(AfterAccounts(book, people, accounts, trusted), people, a, trusted)
  {
    hide Strong, AfterAccount, Answered, Proposed, Extends;
    var n := |accounts| - 1;
    var middle := AfterAccounts(book, people, accounts[..n], trusted);
    if a == accounts[n] {
      AccountIsAnswered(middle, people, a, trusted);
    } else {
      assert a in accounts[..n];
      RunAnswers(book, people, accounts[..n], trusted, a);
      AccountExtends(middle, people, accounts[n], trusted);
      AnsweredStays(middle, AfterAccount(middle, people, accounts[n], trusted), people, a, trusted);
    }
  }

  lemma AnsweredReordered(book: Book, people: seq<Person>, other: seq<Person>, a: Discovered, trusted: set<string>)
    requires Reordered(people, other) && Answered(book, people, a, trusted)
    ensures Answered(book, other, a, trusted)
  {
    hide Strong, Weak;
    forall p
      ensures p in people && Strong(people, p, a, trusted) <==> p in other && Strong(other, p, a, trusted)
    {
      assert p in people <==> p in multiset(people);
      assert p in other <==> p in multiset(other);
      StrongReordered(people, other, p, a, trusted);
    }
  }

  /** An answered account gets neither link nor finding; candidates only if a strong match ends the search. */
  lemma AnsweredIsLeftAlone(book: Book, people: seq<Person>, a: Discovered, trusted: set<string>)
    requires Answered(book, people, a, trusted)
    ensures AfterAccount(book, people, a, trusted).links == book.links
    ensures AfterAccount(book, people, a, trusted).findings == book.findings
    ensures Proposed(book, people, a, trusted) ==> AfterAccount(book, people, a, trusted) == book
  {
    hide Strong, First, WeakBefore;
    FirstFinds(people, a, trusted);
    var weak := WeakBefore(people, a, trusted, First(people, a, trusted));
    if weak <= book.candidates.Keys {
      assert Runs.Propose(book.candidates, weak) == book.candidates;
    }
  }

  lemma {:induction false} SecondRun(first: Book, people: seq<Person>, accounts: seq<Discovered>, trusted: set<string>)
    requires forall a :: a in accounts ==> Answered(first, people, a, trusted)
    ensures var second := AfterAccounts(first, people, accounts, trusted);
            second.links == first.links && second.findings == first.findings
    ensures (forall a :: a in accounts ==> Proposed(first, people, a, trusted)) ==>
              AfterAccounts(first, people, accounts, trusted) == first
  {
    hide Strong, AfterAccount, Proposed;
    if accounts != [] {
      var n := |accounts| - 1;
      var middle := AfterAccounts(first, people, accounts[..n], trusted);
      SecondRun(first, people, accounts[..n], trusted);
      assert Answered(middle, people, accounts[n], trusted) by {
        assert Answered(first, people, accounts[n], trusted);
      }
      AnsweredIsLeftAlone(middle, people, accounts[n], trusted);
    }
  }

  /**
   With people and accounts unchanged, a second correlation adds no link and no finding, in any order of people
   and of accounts, and in the same order of people it adds no candidate either.
   */
  lemma CorrelationIsIdempotent(book: Book, people: seq<Person>, other: seq<Person>, accounts: seq<Discovered>,
                                again: seq<Discovered>, trusted: set<string>)
    requires Reordered(people, other) && forall a :: a in again ==> a in accounts
    ensures var first := AfterAccounts(book, people, accounts, trusted);
            var second := AfterAccounts(first, other, again, trusted);
            && second.links == first.links && second.findings == first.findings
            && (other == people ==> second == first)
  {
    hide Strong, Answered, Proposed, AfterAccounts, Reordered;
    var first := AfterAccounts(book, people, accounts, trusted);
    forall a | a in again
      ensures Answered(first, other, a, trusted) && (other == people ==> Proposed(first, other, a, trusted))
    {
      RunAnswers(book, people, accounts, trusted, a);
      AnsweredReordered(first, people, other, a, trusted);
    }
    SecondRun(first, other, again, trusted);
  }

  /** In another order candidates can appear: a name that came after the strong match now comes before it. */
  lemma ReorderingProposes(p: Person, q: Person, a: Discovered, trusted: set<string>)
    requires Strong([p, q], p, a, trusted) && Weak([p, q], q, a, trusted)
    ensures var first := AfterAccount(Book(map[], map[], []), [p, q], a, trusted);
            var second := AfterAccount(first, [q, p], a, trusted);
            first.candidates == map[] && second.candidates == map[(q.id, a.id) := Pending]
  {
    hide Strong, Weak, First, FirstFrom, HasOpenOrphan, WeakBefore;
    var one, two := [p, q], [q, p];
    assert Reordered(one, two);
    StrongReordered(one, two, p, a, trusted);
    StrongReordered(one, two, q, a, trusted);
    WeakIsNotStrong(one, q, a, trusted);
    FirstIs(one, a, trusted, 0);
    FirstIs(two, a, trusted, 1);
    NothingWeak(map[], one, a, trusted);
    NothingWeak(map[], two, a, trusted);
    WeakSnoc(two, a, trusted, 0);
    var first := AfterAccount(Book(map[], map[], []), one, a, trusted);
    assert first.candidates == map[];
    assert WeakBefore(two, a, trusted, 1) == {(q.id, a.id)};
    assert Runs.Propose(map[], {(q.id, a.id)}) == map[(q.id, a.id) := Pending];
  }

  /** Every name match of the account is known as a candidate, decided or not. */
  ghost predicate NamesKnown(book: Book, people: seq<Person>, a: Discovered, trusted: set<string>) {
    forall p :: p in people && Weak(people, p, a, trusted) ==> (p.id, a.id) in book.candidates
  }

  ghost predicate AddsNoCandidate(book: Book, people: seq<Person>, a: Discovered, trusted: set<string>) {
    AfterAccount(book, people, a, trusted).candidates == book.candidates
  }

  lemma KnownNamesAddNothing(book: Book, people: seq<Person>, other: seq<Person>, a: Discovered, trusted: set<string>)
    requires Reordered(people, other) && NamesKnown(book, people, a, trusted)
    ensures AddsNoCandidate(book, other, a, trusted)
  {
    hide Strong, Weak, First, HasOpenOrphan;
    var weak := WeakBefore(other, a, trusted, First(other, a, trusted));
    forall pair | pair in weak
      ensures pair in book.candidates
    {
      var i :| 0 <= i < First(other, a, trusted) && Weak(other, other[i], a, trusted) && pair == (other[i].id, a.id);
      assert other[i] in multiset(people);
      StrongReordered(people, other, other[i], a, trusted);
    }
  }

  /** A name match put first is proposed. */
  lemma FrontIsProposed(book: Book, people: seq<Person>, p: Person, a: Discovered, trusted: set<string>)
    returns (other: seq<Person>)
    requires p in people && Weak(people, p, a, trusted)
    ensures Reordered(people, other) && (AddsNoCandidate(book, other, a, trusted) ==> (p.id, a.id) in book.candidates)
  {
    WeakIsNotStrong(people, p, a, trusted);
    hide Strong, Weak, HasOpenOrphan;
    var j :| 0 <= j < |people| && people[j] == p;
    assert people == people[..j] + [p] + people[j + 1..];
    other := [p] + (people[..j] + people[j + 1..]);
    StrongReordered(people, other, p, a, trusted);
    assert other[0] == p && First(other, a, trusted) >= 1;
    assert (other[0].id, a.id) in WeakBefore(other, a, trusted, First(other, a, trusted));
  }

  /**
   A correlation adds no candidate for an account in any order of people exactly when all its name matches are known.
   */
  lemma CandidatesIgnoreOrder(book: Book, people: seq<Person>, a: Discovered, trusted: set<string>)
    ensures NamesKnown(book, people, a, trusted) <==>
            forall other :: Reordered(people, other) ==> AddsNoCandidate(book, other, a, trusted)
  {
    hide Weak, AddsNoCandidate;
    if NamesKnown(book, people, a, trusted) {
      forall other | Reordered(people, other)
        ensures AddsNoCandidate(book, other, a, trusted)
      {
        KnownNamesAddNothing(book, people, other, a, trusted);
      }
    }
    if forall other :: Reordered(people, other) ==> AddsNoCandidate(book, other, a, trusted) {
      forall p | p in people && Weak(people, p, a, trusted)
        ensures (p.id, a.id) in book.candidates
      {
        var other := FrontIsProposed(book, people, p, a, trusted);
      }
    }
  }

  lemma WeakIsNotStrong(people: seq<Person>, p: Person, a: Discovered, trusted: set<string>)
    requires Weak(people, p, a, trusted)
    ensures !Strong(people, p, a, trusted)
  {
  }

  // ----- Decisions on candidates -----

  lemma StepKeepsDecision(s: Runs.State, step: Runs.Step, pair: (PersonId, AccountId))
    requires pair in s.db.candidates
    ensures pair in Runs.Next(s, step).db.candidates
    ensures s.db.candidates[pair] != Pending ==> Runs.Next(s, step).db.candidates[pair] == s.db.candidates[pair]
  {
    hide Runs.AdvanceExec, Runs.Prepare, Runs.Execute, AgreesWithListing;
  }

  /** Over every run a proposed pair stays known, and a decision on it is final. */
  lemma {:induction false} DecisionsAreFinal(s: Runs.State, steps: seq<Runs.Step>, pair: (PersonId, AccountId))
    requires pair in s.db.candidates
    ensures pair in Runs.Run(s, steps).db.candidates
    ensures s.db.candidates[pair] != Pending ==> Runs.Run(s, steps).db.candidates[pair] == s.db.candidates[pair]
  {
    hide Runs.Next;
    if steps != [] {
      var prior := steps[..|steps| - 1];
      DecisionsAreFinal(s, prior, pair);
      StepKeepsDecision(Runs.Run(s, prior), steps[|steps| - 1], pair);
    }
  }

  /** What a correlation adds is what the lifecycle's synchronisation step allows: new links, new pending candidates. */
  lemma CorrelationIsCommit(book: Book, people: seq<Person>, accounts: seq<Discovered>, trusted: set<string>)
    ensures var after := AfterAccounts(book, people, accounts, trusted);
            var links := map k | k in after.links && k !in book.links :: after.links[k];
            var pairs := after.candidates.Keys - book.candidates.Keys;
            && links.Keys !! book.links.Keys && after.links == book.links + links
            && after.candidates == Runs.Propose(book.candidates, pairs)
  {
    hide AfterAccounts;
    LinksAreSound(book, people, accounts, trusted);
  }
}
