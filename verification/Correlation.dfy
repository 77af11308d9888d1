/** How an account is compared with a person. */
module Correlation {
  import opened Text
  import opened CaseTables

  datatype Person = Person(id: PersonId, externalId: string, displayName: string, email: string, employeeNumber: string)

  datatype Discovered = Discovered(
    id: AccountId, displayName: string, email: string, employeeNumber: string, providerExternal: string)

  datatype Signal = EmployeeNumber | TrustedEmail | OtherEmail | NameOnly | NoSignal

  predicate Automatic(s: Signal) {
    s == EmployeeNumber || s == TrustedEmail
  }

  function Count(s: string, c: char): nat {
    if s == "" then 0 else Count(s[..|s| - 1], c) + if s[|s| - 1] == c then 1 else 0
  }

  /** Everything after the first separator. */
  function After(s: string, c: char): string {
    if s == "" then "" else if s[0] == c then s[1..] else After(s[1..], c)
  }

  function Before(s: string, c: char): string {
    if s == "" || s[0] == c then "" else [s[0]] + Before(s[1..], c)
  }

  function NormalizeEmail(v: string): string {
    var n := Trim(Lower(v));
    if Count(n, '@') != 1 || Before(n, '@') == "" || After(n, '@') == "" then "" else n
  }

  predicate SameText(a: string, b: string) {
    EqualFold(Trim(a), Trim(b))
  }

  predicate SameEmployee(p: Person, a: Discovered) {
    p.employeeNumber != "" && a.employeeNumber != "" && SameText(p.employeeNumber, a.employeeNumber)
  }

  predicate SameEmail(p: Person, a: Discovered) {
    NormalizeEmail(p.email) != "" && NormalizeEmail(p.email) == NormalizeEmail(a.email)
  }

  function Evaluate(p: Person, a: Discovered, trusted: set<string>, emailUnique: bool): Signal {
    if SameEmployee(p, a) then EmployeeNumber
    else if SameEmail(p, a) && emailUnique then
      (if After(NormalizeEmail(p.email), '@') in trusted then TrustedEmail else OtherEmail)
    else if p.displayName != "" && SameText(p.displayName, a.displayName) then NameOnly
    else NoSignal
  }

  /** The separate test on the provider's external id. */
  predicate SameExternalId(p: Person, a: Discovered) {
    a.providerExternal != "" && SameText(a.providerExternal, p.externalId)
  }

  // ----- Normalising -----

  lemma {:induction false} LowerTrimLeft(s: string)
    ensures TrimLeft(Lower(s)) == Lower(TrimLeft(s))
  {
    if s != "" {
      assert IsSpace(LowerChar(s[0])) == IsSpace(s[0]);
      assert Lower(s)[1..] == Lower(s[1..]);
      LowerTrimLeft(s[1..]);
    }
  }

  lemma {:induction false} LowerTrimRight(s: string)
    ensures TrimRight(Lower(s)) == Lower(TrimRight(s))
  {
    if s != "" {
      assert IsSpace(LowerChar(s[|s| - 1])) == IsSpace(s[|s| - 1]);
      assert Lower(s)[..|s| - 1] == Lower(s[..|s| - 1]);
      LowerTrimRight(s[..|s| - 1]);
    }
  }

  /** The counting map trims before it folds, the comparison folds before it trims: the same text results. */
  lemma FoldAndTrimCommute(s: string)
    ensures Trim(Lower(s)) == Lower(Trim(s))
  {
    LowerTrimLeft(s);
    LowerTrimRight(TrimLeft(s));
  }

  lemma {:induction false} CountSplits(s: string, c: char)
    ensures Count(s, c) == 0 <==> c !in s
    ensures c in s ==> s == Before(s, c) + [c] + After(s, c)
  {
    if s != "" {
      var n := |s| - 1;
      CountSplits(s[..n], c);
      assert s == s[..n] + [s[n]];
      SplitAtFirst(s, c);
    }
  }

  lemma {:induction false} SplitAtFirst(s: string, c: char)
    ensures c in s ==> s == Before(s, c) + [c] + After(s, c)
  {
    if s != "" && s[0] != c {
      SplitAtFirst(s[1..], c);
    }
  }

  lemma {:induction false} CountConcat(left: string, right: string, c: char)
    ensures Count(left + right, c) == Count(left, c) + Count(right, c)
  {
    if right == "" {
      assert left + right == left;
    } else {
      var n := |right| - 1;
      assert (left + right)[..|left + right| - 1] == left + right[..n];
      CountConcat(left, right[..n], c);
    }
  }

  lemma {:induction false} SplitsAt(left: string, c: char, right: string)
    requires c !in left
    ensures Before(left + [c] + right, c) == left && After(left + [c] + right, c) == right
  {
    var s := left + [c] + right;
    if left != "" {
      assert s[1..] == left[1..] + [c] + right;
      SplitsAt(left[1..], c, right);
    }
  }

  lemma {:induction false} BeforeHasNone(s: string, c: char)
    ensures c !in Before(s, c)
  {
    if s != "" && s[0] != c {
      BeforeHasNone(s[1..], c);
    }
  }

  /** A text with exactly one `@` and something on both sides of it. */
  ghost predicate IsAddress(s: string, local: string, domain: string) {
    local != "" && domain != "" && '@' !in local && '@' !in domain && s == local + "@" + domain
  }

  lemma AddressNormalizes(v: string, local: string, domain: string)
    requires IsAddress(Normal(v), local, domain)
    ensures NormalizeEmail(v) == Normal(v) && After(NormalizeEmail(v), '@') == domain
  {
    FoldAndTrimCommute(v);
    CountSplits(local, '@');
    CountSplits(domain, '@');
    CountConcat(local + "@", domain, '@');
    CountConcat(local, "@", '@');
    assert "@"[..0] == "";
    SplitsAt(local, '@', domain);
  }

  /** A normalised address is empty, or it is the folded and trimmed text, split by its only `@` into two parts. */
  lemma NormalizedShape(v: string)
    ensures NormalizeEmail(v) == "" || NormalizeEmail(v) == Lower(Trim(v))
    ensures NormalizeEmail(v) != "" ==>
              IsAddress(Lower(Trim(v)), Before(NormalizeEmail(v), '@'), After(NormalizeEmail(v), '@'))
    ensures NormalizeEmail(v) == "" ==> forall local, domain :: !IsAddress(Lower(Trim(v)), local, domain)
  {
    FoldAndTrimCommute(v);
    var n := Trim(Lower(v));
    var local, domain := Before(n, '@'), After(n, '@');
    CountSplits(n, '@');
    if NormalizeEmail(v) != "" {
      CountConcat(local + ['@'], domain, '@');
      CountConcat(local, ['@'], '@');
      BeforeHasNone(n, '@');
      CountSplits(local, '@');
      CountSplits(domain, '@');
      assert ['@'][..0] == "";
    } else {
      forall l, d | IsAddress(Lower(Trim(v)), l, d)
        ensures false
      {
        AddressNormalizes(v, l, d);
      }
    }
  }
}
