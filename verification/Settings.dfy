/** A connector's stored configuration: a JSON object as its writers check it and as the LDAP client decodes it. */
module Settings {
  import opened Text

  datatype Json = Literal(text: string) | Number(value: real) | Null | Other

  datatype Setting = Setting(key: string, value: Json)

  /** The members of the object in stored order. */
  type Configuration = seq<Setting>

  /** The settings of an LDAP connector. */
  datatype Field =
    | BindDN | SearchBase | UserFilter | GroupFilter | ServerName | DisableStrategy | MembershipAttribute | PageSize

  function KeyOf(f: Field): string {
    match f
    case BindDN => "bindDN"
    case SearchBase => "searchBase"
    case UserFilter => "userFilter"
    case GroupFilter => "groupFilter"
    case ServerName => "serverName"
    case DisableStrategy => "disableStrategy"
    case MembershipAttribute => "membershipAttribute"
    case PageSize => "pageSize"
  }

  lemma KeysDiffer(f: Field, g: Field)
    requires KeyOf(f) == KeyOf(g)
    ensures f == g
  {
    assert KeyOf(f)[0] == KeyOf(g)[0] && KeyOf(f)[1] == KeyOf(g)[1];
  }

  /** The value at exactly the key of the setting. */
  function Lookup(c: Configuration, f: Field): Json {
    if c == [] then Null
    else if c[|c| - 1].key == KeyOf(f) then c[|c| - 1].value
    else Lookup(c[..|c| - 1], f)
  }

  function StringConfig(c: Configuration, f: Field): string {
    if Lookup(c, f).Literal? then Trim(Lookup(c, f).text) else ""
  }

  function Without(c: Configuration, f: Field): Configuration {
    if c == [] then []
    else if c[|c| - 1].key == KeyOf(f) then Without(c[..|c| - 1], f)
    else Without(c[..|c| - 1], f) + [c[|c| - 1]]
  }

  /** The configuration with one setting changed. */
  function Put(c: Configuration, f: Field, value: Json): Configuration {
    Without(c, f) + [Setting(KeyOf(f), value)]
  }

  lemma {:induction false} WithoutKeeps(c: Configuration, f: Field, other: Field)
    requires other != f
    ensures Lookup(Without(c, f), other) == Lookup(c, other)
  {
    hide KeyOf;
    if c != [] {
      var prior, last := c[..|c| - 1], c[|c| - 1];
      WithoutKeeps(prior, f, other);
      if last.key == KeyOf(f) {
        assert last.key != KeyOf(other) by {
          if KeyOf(f) == KeyOf(other) { KeysDiffer(f, other); }
        }
      } else {
        assert (Without(prior, f) + [last])[..|Without(prior, f)|] == Without(prior, f);
      }
    }
  }

  lemma PutLookup(c: Configuration, f: Field, value: Json, other: Field)
    ensures Lookup(Put(c, f, value), other) == if other == f then value else Lookup(c, other)
  {
    hide KeyOf;
    var rest := Without(c, f);
    assert Put(c, f, value)[..|rest|] == rest;
    if other != f {
      WithoutKeeps(c, f, other);
      if KeyOf(f) == KeyOf(other) { KeysDiffer(f, other); }
    }
  }

  /** Member `i` is the one that counts for `key`: the last with exactly that key. */
  ghost predicate LastAt(c: Configuration, key: string, i: nat) {
    i < |c| && c[i].key == key && forall j :: i < j < |c| ==> c[j].key != key
  }

  /** The trimmed text that is stored at `key`. */
  ghost predicate TextAt(c: Configuration, key: string, text: string) {
    exists i: nat :: LastAt(c, key, i) && c[i].value.Literal? && text == Trim(c[i].value.text)
  }

  lemma {:induction false} LookupIsLast(c: Configuration, f: Field)
    ensures forall i: nat :: LastAt(c, KeyOf(f), i) ==> Lookup(c, f) == c[i].value
    ensures Lookup(c, f) != Null ==> exists i: nat :: LastAt(c, KeyOf(f), i)
  {
    hide KeyOf;
    if c != [] {
      var n := |c| - 1;
      var prior := c[..n];
      if c[n].key == KeyOf(f) {
        assert LastAt(c, KeyOf(f), n);
      } else {
        LookupIsLast(prior, f);
        forall i: nat | LastAt(c, KeyOf(f), i)
          ensures Lookup(c, f) == c[i].value
        {
          assert LastAt(prior, KeyOf(f), i);
        }
        if i: nat :| LastAt(prior, KeyOf(f), i) {
          assert LastAt(c, KeyOf(f), i);
        }
      }
    }
  }

  /** The setting that the writers check is the trimmed text at its key, or empty. */
  lemma StringConfigIs(c: Configuration, f: Field)
    ensures forall text :: TextAt(c, KeyOf(f), text) ==> StringConfig(c, f) == text
    ensures StringConfig(c, f) != "" ==> TextAt(c, KeyOf(f), StringConfig(c, f))
  {
    hide KeyOf, Lookup, Trim;
    LookupIsLast(c, f);
  }

  // ----- Decoding into the client's fields -----

  /** A member goes to the field of its key whatever the case of its letters. */
  predicate Folds(s: Setting, f: Field) {
    Lower(s.key) == Lower(KeyOf(f))
  }

  /** What the field holds after decoding: the last text that was assigned to it. */
  function Assigned(c: Configuration, f: Field): string {
    if c == [] then ""
    else if Folds(c[|c| - 1], f) && c[|c| - 1].value.Literal? then c[|c| - 1].value.text
    else Assigned(c[..|c| - 1], f)
  }

  predicate WholeUint32(v: real) {
    0.0 <= v < 4294967296.0 && v.Floor as real == v
  }

  /** Decoding reports no type error: fields of text get text, the page size a whole number; null is skipped. */
  predicate WellTyped(c: Configuration) {
    forall s :: s in c ==>
                  forall f :: Folds(s, f) ==>
                                || s.value.Null?
                                || (f != PageSize && s.value.Literal?)
                                || (f == PageSize && s.value.Number? && WholeUint32(s.value.value))
  }

  /** One member only goes to the field of the key, and it is the one that the writers check. */
  predicate Sole(c: Configuration, f: Field) {
    exists i :: 0 <= i < |c| && c[i].key == KeyOf(f) && forall j :: 0 <= j < |c| && j != i ==> !Folds(c[j], f)
  }

  lemma {:induction false} NothingAssigned(c: Configuration, f: Field)
    requires forall j :: 0 <= j < |c| ==> !Folds(c[j], f)
    ensures Assigned(c, f) == "" && Lookup(c, f) == Null
  {
    if c != [] {
      NothingAssigned(c[..|c| - 1], f);
    }
  }

  /** Then the client reads what the writers checked, but without trimming. */
  lemma {:induction false} SoleIsAssigned(c: Configuration, f: Field)
    requires Sole(c, f) && Lookup(c, f).Literal?
    ensures Assigned(c, f) == Lookup(c, f).text
  {
    var n := |c| - 1;
    var i :| 0 <= i < |c| && c[i].key == KeyOf(f) && forall j :: 0 <= j < |c| && j != i ==> !Folds(c[j], f);
    if i != n {
      assert c[..n][i] == c[i];
      assert !Folds(c[n], f) && c[n].key != KeyOf(f);
      SoleIsAssigned(c[..n], f);
    }
  }

  lemma TrimKeepsSolid(s: string)
    requires s != "" ==> !IsSpace(s[0]) && !IsSpace(s[|s| - 1])
    ensures Trim(s) == s
  {
  }
}
