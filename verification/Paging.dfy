/** The SCIM paging loop (section 3.4.2.4 of RFC 7644), for users and groups alike. */
module Paging {
  import opened Common

  const PAGE_LIMIT: nat := 100

  datatype Page<T> = Page(resources: seq<T>, totalResults: int)

  datatype Failure = RequestFailed | SafetyLimit

  /** What the provider answers to its n-th request, for a start index and a count. */
  type Provider<!T> = (nat, nat, nat) -> Result<Page<T>, Failure>

  function PageSize(requested: int): (size: nat)
  {
    if requested < 1 || requested > 200 then 100 else requested
  }

  /** The loop from its `pages`-th round on. */
  function Collect<T>(serve: Provider<T>, size: nat, pages: nat, all: seq<T>): Result<seq<T>, Failure>
    requires pages <= PAGE_LIMIT
    decreases PAGE_LIMIT - pages
  {
    if pages == PAGE_LIMIT then Err(SafetyLimit)
    else
      match serve(pages, |all| + 1, size)
      case Err(e) => Err(e)
      case Ok(page) =>
        var more := all + page.resources;
        if |page.resources| == 0 || |more| >= page.totalResults then Ok(more) else Collect(serve, size, pages + 1, more)
  }

  method List<T>(serve: Provider<T>, requested: int) returns (r: Result<seq<T>, Failure>)
    ensures r == Collect(serve, if 1 <= requested <= 200 then requested else 100, 0, [])
  {
    var size: nat := PageSize(requested);
    var all: seq<T> := [];
    var start, pages := 1, 0;
    while true
      invariant 0 <= pages <= PAGE_LIMIT && start == |all| + 1
      invariant Collect(serve, size, pages, all) == Collect(serve, size, 0, [])
      decreases PAGE_LIMIT - pages
    {
      if pages >= PAGE_LIMIT {
        return Err(SafetyLimit);
      }
      var answer := serve(pages, start, size);
      if answer.Err? {
        return Err(answer.error);
      }
      var page := answer.value;
      all := all + page.resources;
      if |page.resources| == 0 || |all| >= page.totalResults {
        break;
      }
      start := start + |page.resources|;
      pages := pages + 1;
    }
    r := Ok(all);
  }

  // ----- Honest providers -----

  /** An answer that is some of the resources from the start index on, at least one while there are any. */
  predicate HonestAnswer<T(==)>(items: seq<T>, start: nat, count: nat, answer: Result<Page<T>, Failure>) {
    && answer.Ok? && answer.value.totalResults == |items|
    && var page := answer.value.resources;
       if 1 <= start <= |items|
       then 1 <= |page| <= count && start - 1 + |page| <= |items| && page == items[start - 1..start - 1 + |page|]
       else page == []
  }

  ghost predicate Honest<T(!new)>(serve: Provider<T>, items: seq<T>) {
    forall n: nat, start: nat, count: nat :: count >= 1 ==> HonestAnswer(items, start, count, serve(n, start, count))
  }

  /** How many resources an honest provider has handed out after `rounds` requests. */
  ghost function Reached<T(!new)>(serve: Provider<T>, items: seq<T>, size: nat, rounds: nat): (n: nat)
    requires Honest(serve, items) && size >= 1
    ensures n <= |items|
  {
    if rounds == 0 then 0
    else
      var before := Reached(serve, items, size, rounds - 1);
      assert HonestAnswer(items, before + 1, size, serve(rounds - 1, before + 1, size));
      before + |serve(rounds - 1, before + 1, size).value.resources|
  }

  lemma {:induction false} ReachedGrows<T(!new)>(serve: Provider<T>, items: seq<T>, size: nat, a: nat, b: nat)
    requires Honest(serve, items) && size >= 1 && a <= b
    ensures Reached(serve, items, size, a) <= Reached(serve, items, size, b)
    ensures Reached(serve, items, size, a) == |items| || Reached(serve, items, size, a) >= a
    decreases b + a
  {
    if a < b {
      ReachedGrows(serve, items, size, a, b - 1);
    } else if a > 0 {
      ReachedGrows(serve, items, size, a - 1, a - 1);
      var before := Reached(serve, items, size, a - 1);
      assert HonestAnswer(items, before + 1, size, serve(a - 1, before + 1, size));
    }
  }

  /** One round with an honest provider. */
  lemma CollectsOne<T(!new)>(serve: Provider<T>, items: seq<T>, size: nat, pages: nat)
    requires Honest(serve, items) && size >= 1 && pages < PAGE_LIMIT
    requires pages == 0 || Reached(serve, items, size, pages) < |items|
    ensures var n, next := Reached(serve, items, size, pages), Reached(serve, items, size, pages + 1);
            Collect(serve, size, pages, items[..n]) ==
            if next == |items| then Ok(items) else Collect(serve, size, pages + 1, items[..next])
  {
    var n := Reached(serve, items, size, pages);
    var next := Reached(serve, items, size, pages + 1);
    var page := serve(pages, n + 1, size);
    assert HonestAnswer(items, n + 1, size, page);
    hide Honest;
    assert next == n + |page.value.resources|;
    hide Reached;
    assert items[..n] + page.value.resources == items[..next];
    if next == |items| {
      assert items[..next] == items;
    }
  }

  lemma {:induction false} CollectsFrom<T(!new)>(serve: Provider<T>, items: seq<T>, size: nat, pages: nat)
    requires Honest(serve, items) && size >= 1 && pages <= PAGE_LIMIT
    requires pages == 0 || Reached(serve, items, size, pages) < |items|
    ensures Collect(serve, size, pages, items[..Reached(serve, items, size, pages)]) ==
            if Reached(serve, items, size, PAGE_LIMIT) == |items| then Ok(items) else Err(SafetyLimit)
    decreases PAGE_LIMIT - pages
  {
    hide Honest, Reached, Collect;
    if pages == PAGE_LIMIT {
      AtTheLimit(serve, size, items[..Reached(serve, items, size, pages)]);
    } else {
      CollectsOne(serve, items, size, pages);
      ReachedGrows(serve, items, size, pages + 1, PAGE_LIMIT);
      if Reached(serve, items, size, pages + 1) < |items| {
        CollectsFrom(serve, items, size, pages + 1);
      }
    }
  }

  lemma AtTheLimit<T>(serve: Provider<T>, size: nat, all: seq<T>)
    ensures Collect(serve, size, PAGE_LIMIT, all) == Err(SafetyLimit)
  {
  }

  /** The full list in order, or an error when 100 pages do not reach the end: never a truncated list. */
  lemma HonestListsAreComplete<T(!new)>(serve: Provider<T>, items: seq<T>, size: nat)
    requires Honest(serve, items) && size >= 1
    ensures Collect(serve, size, 0, []) ==
            if Reached(serve, items, size, 100) == |items| then Ok(items) else Err(SafetyLimit)
  {
    assert items[..0] == [];
    CollectsFrom(serve, items, size, 0);
  }

  /** Up to 100 resources are always listed. */
  lemma SmallListsAreComplete<T(!new)>(serve: Provider<T>, items: seq<T>, size: nat)
    requires Honest(serve, items) && size >= 1 && |items| <= 100
    ensures Collect(serve, size, 0, []) == Ok(items)
  {
    HonestListsAreComplete(serve, items, size);
    ReachedGrows(serve, items, size, PAGE_LIMIT, PAGE_LIMIT);
  }

  ghost predicate FillsPages<T(!new)>(serve: Provider<T>, items: seq<T>) {
    forall n: nat, start: nat, count: nat :: count >= 1 && 1 <= start <= |items| && serve(n, start, count).Ok? ==>
                                               |serve(n, start, count).value.resources| == count
                                                   || start - 1 + |serve(n, start, count).value.resources| == |items|
  }

  lemma {:induction false} FullPagesReach<T(!new)>(serve: Provider<T>, items: seq<T>, size: nat, rounds: nat)
    requires Honest(serve, items) && FillsPages(serve, items) && size >= 1
    ensures Reached(serve, items, size, rounds) == if |items| <= rounds * size then |items| else rounds * size
  {
    if rounds > 0 {
      FullPagesReach(serve, items, size, rounds - 1);
      var before := Reached(serve, items, size, rounds - 1);
      assert HonestAnswer(items, before + 1, size, serve(rounds - 1, before + 1, size));
      assert rounds * size == (rounds - 1) * size + size;
    }
  }

  /** A provider that fills its pages is listed exactly up to 100 full pages. */
  lemma FullPagesAreExact<T(!new)>(serve: Provider<T>, items: seq<T>, size: nat)
    requires Honest(serve, items) && FillsPages(serve, items) && size >= 1
    ensures Collect(serve, size, 0, []) == if |items| <= 100 * size then Ok(items) else Err(SafetyLimit)
  {
    HonestListsAreComplete(serve, items, size);
    FullPagesReach(serve, items, size, PAGE_LIMIT);
  }

  // ----- Providers that are not honest -----

  /** Pages are taken from the resources in order, but totals and page lengths may be anything. */
  ghost predicate InOrder<T(!new)>(serve: Provider<T>, items: seq<T>) {
    forall n: nat, start: nat, count: nat :: serve(n, start, count).Ok? ==>
                                               var page := serve(n, start, count).value.resources;
                                               page == [] || (1 <= start && start - 1 + |page| <= |items|
                                                   && page == items[start - 1..start - 1 + |page|])
  }

  /** Then the loop can stop early, but what it returns is a prefix. */
  lemma {:induction false} ListsArePrefixes<T(!new)>(serve: Provider<T>, items: seq<T>, size: nat, pages: nat, n: nat)
    requires InOrder(serve, items) && pages <= PAGE_LIMIT && n <= |items|
    ensures var r := Collect(serve, size, pages, items[..n]);
            r.Ok? ==> n <= |r.value| <= |items| && r.value == items[..|r.value|]
    decreases PAGE_LIMIT - pages
  {
    if pages < PAGE_LIMIT && serve(pages, n + 1, size).Ok? {
      var page := serve(pages, n + 1, size).value.resources;
      var next := n + |page|;
      assert items[..n] + page == items[..next];
      ListsArePrefixes(serve, items, size, pages + 1, next);
    }
  }

  /** How many resources have been handed out after some rounds. */
  function Handed<T>(serve: Provider<T>, size: nat, rounds: nat): nat {
    if rounds == 0 then 0
    else
      var before := Handed(serve, size, rounds - 1);
      match serve(rounds - 1, before + 1, size)
      case Err(_) => before
      case Ok(page) => before + |page.resources|
  }

  /** The round serves something and reports a total above what has been handed out. */
  predicate Continues<T>(serve: Provider<T>, size: nat, k: nat) {
    var answer := serve(k, Handed(serve, size, k) + 1, size);
    answer.Ok? && answer.value.resources != [] && Handed(serve, size, k + 1) < answer.value.totalResults
  }

  /** The round is answered and ends the loop. */
  predicate Stops<T>(serve: Provider<T>, size: nat, k: nat) {
    var answer := serve(k, Handed(serve, size, k) + 1, size);
    answer.Ok? && (answer.value.resources == [] || Handed(serve, size, k + 1) >= answer.value.totalResults)
  }

  /** The loop ends in round `k`, within the limit. */
  ghost predicate EndsAt<T>(serve: Provider<T>, size: nat, k: nat) {
    k < 100 && Stops(serve, size, k) && forall j :: 0 <= j < k ==> Continues(serve, size, j)
  }

  lemma {:induction false} HandedIsPrefix<T(!new)>(serve: Provider<T>, items: seq<T>, size: nat, k: nat)
    requires InOrder(serve, items)
    ensures Handed(serve, size, k) <= |items|
    ensures var n := Handed(serve, size, k);
            n <= Handed(serve, size, k + 1) <= |items|
            && (serve(k, n + 1, size).Ok? ==>
                  items[..n] + serve(k, n + 1, size).value.resources == items[..Handed(serve, size, k + 1)])
  {
    if k > 0 {
      HandedIsPrefix(serve, items, size, k - 1);
    }
    var n := Handed(serve, size, k);
    var answer := serve(k, n + 1, size);
    if answer.Ok? {
      var page := answer.value.resources;
      assert page == [] || (1 <= n + 1 && n + |page| <= |items| && page == items[n..n + |page|]);
      hide InOrder;
      assert items[..n] + page == items[..n + |page|];
    }
  }

  /** One round of the loop, from the resources handed out so far. */
  lemma CollectRound<T(!new)>(serve: Provider<T>, items: seq<T>, size: nat, k: nat)
    requires InOrder(serve, items) && k < PAGE_LIMIT
    ensures Handed(serve, size, k) <= |items| && Handed(serve, size, k + 1) <= |items|
    ensures var here := Collect(serve, size, k, items[..Handed(serve, size, k)]);
            var next := items[..Handed(serve, size, k + 1)];
            && (Stops(serve, size, k) ==> here == Ok(next))
            && (Continues(serve, size, k) ==> here == Collect(serve, size, k + 1, next))
            && (!Stops(serve, size, k) && !Continues(serve, size, k) ==> here.Err?)
  {
    HandedIsPrefix(serve, items, size, k);
    hide InOrder;
    var n := Handed(serve, size, k);
    assert |items[..n]| == n;
    var answer := serve(k, n + 1, size);
    assert Handed(serve, size, k + 1) == if answer.Ok? then n + |answer.value.resources| else n;
    hide Handed;
  }

  lemma {:induction false} CollectFollows<T(!new)>(serve: Provider<T>, items: seq<T>, size: nat, k: nat)
    requires InOrder(serve, items) && k <= PAGE_LIMIT && forall j :: 0 <= j < k ==> Continues(serve, size, j)
    ensures Handed(serve, size, k) <= |items|
    ensures Collect(serve, size, 0, []) == Collect(serve, size, k, items[..Handed(serve, size, k)])
  {
    hide InOrder, Collect, Continues, Stops;
    if k == 0 {
      assert items[..0] == [];
    } else {
      CollectFollows(serve, items, size, k - 1);
      CollectRound(serve, items, size, k - 1);
    }
  }

  /** A list that is returned was ended by some round. */
  lemma {:induction false} CollectEnds<T(!new)>(serve: Provider<T>, items: seq<T>, size: nat, k: nat)
    requires InOrder(serve, items) && k <= PAGE_LIMIT && forall j :: 0 <= j < k ==> Continues(serve, size, j)
    ensures Handed(serve, size, k) <= |items|
    ensures var r := Collect(serve, size, k, items[..Handed(serve, size, k)]);
            r.Ok? ==> exists m: nat :: EndsAt(serve, size, m) && Handed(serve, size, m + 1) <= |items|
                                       && r.value == items[..Handed(serve, size, m + 1)]
    decreases PAGE_LIMIT - k
  {
    hide InOrder, Collect, Handed, Continues, Stops;
    if k == PAGE_LIMIT {
      CollectFollows(serve, items, size, k);
      AtTheLimit(serve, size, items[..Handed(serve, size, k)]);
    } else {
      CollectRound(serve, items, size, k);
      if Stops(serve, size, k) {
        assert EndsAt(serve, size, k);
      } else if Continues(serve, size, k) {
        CollectEnds(serve, items, size, k + 1);
      }
    }
  }

  /**
   Exactly when a listing is complete, for every provider that serves its resources in order, whatever totals and page
   lengths it gives: some round within the limit ends the loop with everything handed out, and every earlier round
   served something and reported a total above what had been handed out.
   */
  lemma CompleteExactly<T(!new)>(serve: Provider<T>, items: seq<T>, size: nat)
    requires InOrder(serve, items)
    ensures Collect(serve, size, 0, []) == Ok(items) <==>
            exists k: nat :: EndsAt(serve, size, k) && Handed(serve, size, k + 1) == |items|
  {
    hide InOrder, Collect, Handed, Continues, Stops;
    if Collect(serve, size, 0, []) == Ok(items) {
      CollectFollows(serve, items, size, 0);
      CollectEnds(serve, items, size, 0);
    }
    if k: nat :| EndsAt(serve, size, k) && Handed(serve, size, k + 1) == |items| {
      CollectFollows(serve, items, size, k);
      CollectRound(serve, items, size, k);
      assert items[..|items|] == items;
    }
  }

  /** A total reported too low truncates the list. */
  lemma LowTotalTruncates<T(!new)>(items: seq<T>, size: nat)
    requires |items| > size >= 1
    ensures var serve: Provider<T> := (n, start, count) =>
              Ok(Page(if 1 <= start && start - 1 + size <= |items| then items[start - 1..start - 1 + size]
                  else [], size));
            InOrder(serve, items) && Collect(serve, size, 0, []) == Ok(items[..size])
  {
    assert [] + items[..size] == items[..size];
  }
}
