/** Connector rows, their validation, and how the planner and the executor read them. */
module Connectors {
  import opened Common
  import opened Text
  import opened Settings

  type ConnectorId = nat

  datatype ConnectorType = CsvSource | Scim | Ldap | Entra | Okta | Google | GitHub

  datatype Capability =
    | DiscoverUsers | DiscoverGroups | DiscoverMemberships | DiscoverEntitlements
    | DisableAccountCapability | EnableAccountCapability | RemoveMembershipCapability | AddMembershipCapability

  datatype Connector = Connector(
    typ: ConnectorType, writeEnabled: bool, capabilities: seq<Capability>, configuration: Configuration)

  const WRITE_TYPES := {Scim, Ldap, Entra, Okta, Google, GitHub}
  const DISABLE_TYPES := {Scim, Entra, Okta, Google, Ldap}
  const DISCOVERY := {DiscoverUsers, DiscoverGroups, DiscoverMemberships, DiscoverEntitlements}

  predicate CapabilityAllowed(typ: ConnectorType, c: Capability) {
    match typ
    case CsvSource => false
    case Scim => true
    case Ldap => c in DISCOVERY + {DisableAccountCapability, RemoveMembershipCapability}
    case GitHub => c in DISCOVERY + {RemoveMembershipCapability}
    case _ => c in DISCOVERY + {DisableAccountCapability}
  }

  predicate FilterOk(f: string) {
    |f| >= 1 && f[0] == '(' && f[|f| - 1] == ')' && forall c :: c in f ==> c != '\0' && c != '\r' && c != '\n'
  }

  predicate LdapConfigurationOk(c: Configuration) {
    && (forall f :: f in {BindDN, SearchBase, UserFilter, GroupFilter} ==> StringConfig(c, f) != "")
    && FilterOk(StringConfig(c, UserFilter)) && FilterOk(StringConfig(c, GroupFilter))
    && (Lookup(c, PageSize).Number? ==> 1.0 <= Lookup(c, PageSize).value <= 5000.0)
    && StringConfig(c, DisableStrategy) in ["", "PPOLICY_LOCK", "ACTIVE_DIRECTORY_UAC"]
    && StringConfig(c, MembershipAttribute) in ["", "member", "uniqueMember", "memberUid"]
  }

  predicate LdapWriteConfigurationOk(c: Configuration, capabilities: seq<Capability>) {
    && (DisableAccountCapability in capabilities ==> StringConfig(c, DisableStrategy) != "")
    && (RemoveMembershipCapability in capabilities ==> StringConfig(c, MembershipAttribute) != "")
  }

  predicate Distinct(caps: seq<Capability>) {
    forall i, j :: 0 <= i < j < |caps| ==> caps[i] != caps[j]
  }

  /** What every stored connector satisfies, however edits overlap. */
  predicate Shaped(c: Connector) {
    && CapabilitiesOk(c.typ, c.capabilities)
    && (c.writeEnabled ==> c.typ in WRITE_TYPES)
    && (c.typ == Ldap ==> LdapConfigurationOk(c.configuration))
  }

  /** An LDAP connector that may write has what its write capabilities need. */
  predicate WritesConfigured(c: Connector) {
    c.typ == Ldap && c.writeEnabled ==> LdapWriteConfigurationOk(c.configuration, c.capabilities)
  }

  /** What every stored connector satisfies while edits are serialised. */
  predicate ConnectorOk(c: Connector) {
    Shaped(c) && WritesConfigured(c)
  }

  datatype Change = Change(
    writeEnabled: Option<bool>, capabilities: Option<seq<Capability>>, configuration: Option<Configuration>)

  /** The row that the UPDATE stores: coalesce of the new value and the stored one. */
  function Merge(c: Connector, change: Change): Connector {
    c.(writeEnabled := if change.writeEnabled.Some? then change.writeEnabled.value else c.writeEnabled,
       capabilities := if change.capabilities.Some? then change.capabilities.value else c.capabilities,
       configuration := if change.configuration.Some? then change.configuration.value else c.configuration)
  }

  predicate CapabilitiesOk(typ: ConnectorType, caps: seq<Capability>) {
    (forall cap :: cap in caps ==> CapabilityAllowed(typ, cap)) && Distinct(caps)
  }

  predicate HasWriteCapability(caps: seq<Capability>) {
    DisableAccountCapability in caps || RemoveMembershipCapability in caps
  }

  /** The checks updateConnector makes against the row it read. */
  predicate ChangeOk(read: Connector, change: Change) {
    var merged := Merge(read, change);
    && (read.typ == Ldap && change.configuration.Some? ==> LdapConfigurationOk(change.configuration.value))
    && (change.writeEnabled == Some(true) ==> read.typ in WRITE_TYPES)
    && (change.capabilities.Some? ==> CapabilitiesOk(read.typ, change.capabilities.value))
    && (change.writeEnabled == Some(true) ==> HasWriteCapability(merged.capabilities))
    && (read.typ == Ldap && merged.writeEnabled ==> LdapWriteConfigurationOk(merged.configuration, merged.capabilities))
  }

  predicate NewConnectorOk(c: Connector) {
    ConnectorOk(c) && (c.writeEnabled ==> HasWriteCapability(c.capabilities))
  }

  // ----- The rules, said over the stored members -----

  /** Which connectors may have which capability. */
  ghost predicate Permitted(typ: ConnectorType, c: Capability) {
    match c
    case DiscoverUsers | DiscoverGroups | DiscoverMemberships | DiscoverEntitlements => typ != CsvSource
    case DisableAccountCapability => typ in {Scim, Ldap, Entra, Okta, Google}
    case RemoveMembershipCapability => typ in {Scim, Ldap, GitHub}
    case EnableAccountCapability | AddMembershipCapability => typ == Scim
  }

  lemma PermittedIs(typ: ConnectorType, c: Capability)
    ensures CapabilityAllowed(typ, c) <==> Permitted(typ, c)
  {
  }

  ghost predicate SomeText(c: Configuration, key: string) {
    exists text :: text != "" && TextAt(c, key, text)
  }

  /** The text at the key is in parentheses and on one line. */
  ghost predicate FilterAt(c: Configuration, key: string) {
    forall text :: TextAt(c, key, text) ==>
                     && text != "" && text[0] == '(' && text[|text| - 1] == ')'
                     && forall ch :: ch in text ==> ch !in ['\0', '\r', '\n']
  }

  /** The search settings of a directory: four texts, two of them filters, and options within their values. */
  ghost predicate Searchable(c: Configuration) {
    && SomeText(c, "bindDN") && SomeText(c, "searchBase")
    && SomeText(c, "userFilter") && FilterAt(c, "userFilter")
    && SomeText(c, "groupFilter") && FilterAt(c, "groupFilter")
    && (forall i: nat :: LastAt(c, "pageSize", i) && c[i].value.Number? ==> 1.0 <= c[i].value.value <= 5000.0)
    && (forall text :: TextAt(c, "disableStrategy", text) ==> text in ["", "PPOLICY_LOCK", "ACTIVE_DIRECTORY_UAC"])
    && (forall text :: TextAt(c, "membershipAttribute", text) ==> text in ["", "member", "uniqueMember", "memberUid"])
  }

  /** A connector as its form demands. */
  ghost predicate Sound(c: Connector) {
    && (forall cap :: cap in c.capabilities ==> Permitted(c.typ, cap))
    && (forall i, j :: 0 <= i < j < |c.capabilities| ==> c.capabilities[i] != c.capabilities[j])
    && (c.writeEnabled ==> c.typ != CsvSource)
    && (c.typ == Ldap ==> Searchable(c.configuration))
    && (c.typ == Ldap && c.writeEnabled && DisableAccountCapability in c.capabilities ==>
          SomeText(c.configuration, "disableStrategy"))
    && (c.typ == Ldap && c.writeEnabled && RemoveMembershipCapability in c.capabilities ==>
          SomeText(c.configuration, "membershipAttribute"))
  }

  lemma SomeTextIs(c: Configuration, f: Field)
    ensures SomeText(c, KeyOf(f)) <==> StringConfig(c, f) != ""
  {
    hide KeyOf, StringConfig, TextAt;
    StringConfigIs(c, f);
  }

  lemma FilterIs(c: Configuration, f: Field)
    requires SomeText(c, KeyOf(f))
    ensures FilterOk(StringConfig(c, f)) <==> FilterAt(c, KeyOf(f))
  {
    hide KeyOf, StringConfig, TextAt;
    StringConfigIs(c, f);
  }

  lemma PageSizeIs(c: Configuration)
    ensures (Lookup(c, PageSize).Number? ==> 1.0 <= Lookup(c, PageSize).value <= 5000.0) <==>
            forall i: nat :: LastAt(c, "pageSize", i) && c[i].value.Number? ==> 1.0 <= c[i].value.value <= 5000.0
  {
    LookupIsLast(c, PageSize);
    hide Lookup, LastAt;
  }

  lemma OptionIs(c: Configuration, f: Field, values: seq<string>)
    requires "" in values
    ensures StringConfig(c, f) in values <==> forall text :: TextAt(c, KeyOf(f), text) ==> text in values
  {
    hide KeyOf, StringConfig, TextAt;
    StringConfigIs(c, f);
  }

  /** The validation of the search settings is what the form demands. */
  lemma SearchableIs(c: Configuration)
    ensures LdapConfigurationOk(c) <==> Searchable(c)
  {
    hide StringConfig, TextAt, LastAt, Lookup, FilterOk, SomeText, FilterAt;
    SomeTextIs(c, BindDN);
    SomeTextIs(c, SearchBase);
    SomeTextIs(c, UserFilter);
    SomeTextIs(c, GroupFilter);
    if SomeText(c, "userFilter") && SomeText(c, "groupFilter") {
      FilterIs(c, UserFilter);
      FilterIs(c, GroupFilter);
    }
    PageSizeIs(c);
    OptionIs(c, DisableStrategy, ["", "PPOLICY_LOCK", "ACTIVE_DIRECTORY_UAC"]);
    OptionIs(c, MembershipAttribute, ["", "member", "uniqueMember", "memberUid"]);
  }

  /** A stored connector is valid exactly when it is what its form demands. */
  lemma SoundIs(c: Connector)
    ensures Sound(c) <==> ConnectorOk(c)
  {
    hide LdapConfigurationOk, Searchable, StringConfig, SomeText;
    SearchableIs(c.configuration);
    SomeTextIs(c.configuration, DisableStrategy);
    SomeTextIs(c.configuration, MembershipAttribute);
  }

  lemma MergeKeepsType(c: Connector, change: Change)
    ensures Merge(c, change).typ == c.typ
  {
  }

  /** Checking the change against a valid row is checking the row that it makes. */
  lemma ChecksAreMerged(read: Connector, change: Change)
    requires ConnectorOk(read)
    ensures var merged := Merge(read, change);
            ChangeOk(read, change) <==>
            ConnectorOk(merged) && (change.writeEnabled == Some(true) ==> HasWriteCapability(merged.capabilities))
  {
    hide LdapConfigurationOk, LdapWriteConfigurationOk, CapabilitiesOk, HasWriteCapability;
  }

  class ConnectorTable {
    var rows: map<ConnectorId, Connector>

    ghost predicate Valid()
      reads this
    {
      forall id :: id in rows ==> ConnectorOk(rows[id])
    }

    constructor ()
      ensures Valid() && rows == map[]
    {
      rows := map[];
    }

    /** The capability loop with its `seen` map: known for the type and without repetition. */
    static method CheckCapabilities(typ: ConnectorType, caps: seq<Capability>) returns (ok: bool)
      ensures ok <==> CapabilitiesOk(typ, caps)
      ensures ok <==>
              && (forall cap :: cap in caps ==> Permitted(typ, cap))
              && forall i, j :: 0 <= i < j < |caps| ==> caps[i] != caps[j]
    {
      var seen: set<Capability> := {};
      for i := 0 to |caps|
        invariant forall c :: c in seen <==> c in caps[..i]
        invariant CapabilitiesOk(typ, caps[..i])
      {
        assert caps[..i + 1] == caps[..i] + [caps[i]];
        if !CapabilityAllowed(typ, caps[i]) || caps[i] in seen {
          assert caps[i] in caps;
          return false;
        }
        seen := seen + {caps[i]};
      }
      assert caps[..|caps|] == caps;
      ok := true;
    }

    /** createConnector; `endpointOk` stands for the checks of the name, the URL and the native settings. */
    method Create(id: ConnectorId, c: Connector, endpointOk: bool) returns (created: bool)
      requires Valid() && id !in rows
      modifies this
      ensures Valid()
      ensures created <==>
              && endpointOk && Sound(c)
              && (c.writeEnabled ==>
                    DisableAccountCapability in c.capabilities || RemoveMembershipCapability in c.capabilities)
      ensures created <==> endpointOk && NewConnectorOk(c)
      ensures rows == if created then old(rows)[id := c] else old(rows)
    {
      SoundIs(c);
      hide LdapConfigurationOk, LdapWriteConfigurationOk, Sound;
      var capsOk := CheckCapabilities(c.typ, c.capabilities);
      if !endpointOk || !capsOk {
        return false;
      }
      if c.writeEnabled && (c.typ !in WRITE_TYPES || !HasWriteCapability(c.capabilities)) {
        return false;
      }
      if c.typ == Ldap {
        if !LdapConfigurationOk(c.configuration) {
          return false;
        }
        if c.writeEnabled && !LdapWriteConfigurationOk(c.configuration, c.capabilities) {
          return false;
        }
      }
      rows := rows[id := c];
      created := true;
    }

    /** updateConnector when no other edit falls between its read and its write. */
    method Update(id: ConnectorId, change: Change, endpointOk: bool) returns (updated: bool)
      requires Valid()
      modifies this
      ensures Valid()
      ensures updated <==>
              && id in old(rows) && endpointOk
              && var merged := Merge(old(rows)[id], change);
                 && Sound(merged)
                 && (change.writeEnabled == Some(true) ==>
                       || DisableAccountCapability in merged.capabilities
                       || RemoveMembershipCapability in merged.capabilities)
      ensures updated <==> id in old(rows) && endpointOk && ChangeOk(old(rows)[id], change)
      ensures rows == if updated then old(rows)[id := Merge(old(rows)[id], change)] else old(rows)
    {
      if id !in rows || !endpointOk {
        return false;
      }
      var read := rows[id];
      var merged := Merge(read, change);
      SoundIs(merged);
      ChecksAreMerged(read, change);
      MergeKeepsType(read, change);
      hide LdapConfigurationOk, LdapWriteConfigurationOk, Sound, CapabilitiesOk, ConnectorOk, Merge;
      if read.typ == Ldap && change.configuration.Some? && !LdapConfigurationOk(change.configuration.value) {
        return false;
      }
      if change.writeEnabled == Some(true) && read.typ !in WRITE_TYPES {
        return false;
      }
      if change.capabilities.Some? {
        var capsOk := CheckCapabilities(read.typ, change.capabilities.value);
        if !capsOk {
          return false;
        }
      }
      if change.writeEnabled == Some(true) && !HasWriteCapability(merged.capabilities) {
        return false;
      }
      if read.typ == Ldap && merged.writeEnabled
          && !LdapWriteConfigurationOk(merged.configuration, merged.capabilities) {
        return false;
      }
      rows := rows[id := merged];
      updated := true;
    }
  }

  // ----- Edits that overlap -----

  function MergeAll(c: Connector, changes: seq<Change>): (merged: Connector)
    ensures merged.typ == c.typ
  {
    if changes == [] then c else Merge(MergeAll(c, changes[..|changes| - 1]), changes[|changes| - 1])
  }

  /** The write permission, the capabilities and the configuration that were written last. */
  function LastPermission(c: Connector, changes: seq<Change>): bool {
    if changes == [] then c.writeEnabled
    else
      var last := changes[|changes| - 1].writeEnabled;
      if last.Some? then last.value else LastPermission(c, changes[..|changes| - 1])
  }

  function LastCapabilities(c: Connector, changes: seq<Change>): seq<Capability> {
    if changes == [] then c.capabilities
    else
      var last := changes[|changes| - 1].capabilities;
      if last.Some? then last.value else LastCapabilities(c, changes[..|changes| - 1])
  }

  function LastConfiguration(c: Connector, changes: seq<Change>): Configuration {
    if changes == [] then c.configuration
    else
      var last := changes[|changes| - 1].configuration;
      if last.Some? then last.value else LastConfiguration(c, changes[..|changes| - 1])
  }

  /** The settings written last, each maybe by another edit, go together. */
  predicate LastWritesFit(c: Connector, changes: seq<Change>) {
    c.typ == Ldap && LastPermission(c, changes) ==>
      LdapWriteConfigurationOk(LastConfiguration(c, changes), LastCapabilities(c, changes))
  }

  lemma {:induction false} MergeIsLastWrites(c: Connector, changes: seq<Change>)
    ensures MergeAll(c, changes) ==
            c.(writeEnabled := LastPermission(c, changes), capabilities := LastCapabilities(c, changes),
               configuration := LastConfiguration(c, changes))
  {
    if changes != [] {
      MergeIsLastWrites(c, changes[..|changes| - 1]);
    }
  }

  /** A change checked against a row of the same type leaves any row in shape. */
  lemma MergeKeepsShape(read: Connector, c: Connector, change: Change)
    requires Shaped(c) && read.typ == c.typ && ChangeOk(read, change)
    ensures Shaped(Merge(c, change))
  {
  }

  /**
   Any number of edits, all checked against one row and then written: the result is valid exactly when the permission,
   the capabilities and the configuration that were written last go together, because nothing else can break.
   */
  lemma {:induction false} OverlappingEditsAreExact(row: Connector, changes: seq<Change>)
    requires Shaped(row) && forall change :: change in changes ==> ChangeOk(row, change)
    ensures var merged := MergeAll(row, changes);
            Shaped(merged) && (ConnectorOk(merged) <==> LastWritesFit(row, changes))
  {
    hide ChangeOk, Shaped, LdapWriteConfigurationOk, Merge;
    MergeIsLastWrites(row, changes);
    if changes != [] {
      var prior := changes[..|changes| - 1];
      OverlappingEditsAreExact(row, prior);
      MergeKeepsShape(row, MergeAll(row, prior), changes[|changes| - 1]);
    }
  }

  /** Two edits checked against the same row: one enables writing, the other drops the disable strategy. */
  lemma OverlappingEditsBreakConnector(searching: Configuration)
    requires LdapConfigurationOk(searching)
    requires StringConfig(searching, DisableStrategy) != ""
    ensures var row := Connector(Ldap, false, [DisableAccountCapability], searching);
            var enable := Change(Some(true), None, None);
            var reset := Change(None, None, Some(Put(searching, DisableStrategy, Literal(""))));
            && ConnectorOk(row) && ChangeOk(row, enable) && ChangeOk(row, reset)
            && !ConnectorOk(MergeAll(row, [enable, reset]))
  {
    var dropped := Put(searching, DisableStrategy, Literal(""));
    ResetKeepsSearch(searching);
    DisableOnly(searching);
    DisableOnly(dropped);
    hide Put, LdapConfigurationOk, StringConfig, CapabilitiesOk, LdapWriteConfigurationOk, HasWriteCapability;
    var row := Connector(Ldap, false, [DisableAccountCapability], searching);
    var enable, drop := Change(Some(true), None, None), Change(None, None, Some(dropped));
    MergeTwo(row, enable, drop);
  }

  lemma MergeTwo(c: Connector, first: Change, second: Change)
    ensures MergeAll(c, [first, second]) == Merge(Merge(c, first), second)
  {
    hide Merge;
    var one := [first];
    assert [first, second][..1] == one && one[..0] == [];
    assert MergeAll(c, []) == c;
    assert MergeAll(c, one) == Merge(c, first);
  }

  /** The disable capability alone is allowed for LDAP, lets a connector write, and needs a strategy only. */
  lemma DisableOnly(s: Configuration)
    ensures var caps := [DisableAccountCapability];
            && CapabilitiesOk(Ldap, caps) && HasWriteCapability(caps)
            && (LdapWriteConfigurationOk(s, caps) <==> StringConfig(s, DisableStrategy) != "")
  {
    hide StringConfig;
    assert DisableAccountCapability in [DisableAccountCapability];
  }

  /** Dropping the strategy leaves the search settings in order. */
  lemma ResetKeepsSearch(searching: Configuration)
    requires LdapConfigurationOk(searching)
    ensures var reset := Put(searching, DisableStrategy, Literal(""));
            LdapConfigurationOk(reset) && StringConfig(reset, DisableStrategy) == ""
  {
    hide Put, Lookup;
    var reset := Put(searching, DisableStrategy, Literal(""));
    forall f: Field
      ensures Lookup(reset, f) == if f == DisableStrategy then Literal("") else Lookup(searching, f)
    {
      PutLookup(searching, DisableStrategy, Literal(""), f);
    }
    assert StringConfig(reset, DisableStrategy) == Trim("") == "";
    SameSearch(searching, reset);
  }

  /** Validation looks at the trimmed settings, the page size, and whether a strategy is one it knows. */
  lemma SameSearch(c: Configuration, d: Configuration)
    requires LdapConfigurationOk(c)
    requires forall f :: f in {BindDN, SearchBase, UserFilter, GroupFilter, MembershipAttribute} ==>
                             StringConfig(d, f) == StringConfig(c, f)
    requires Lookup(d, PageSize).Number? && Lookup(d, PageSize) != Lookup(c, PageSize) ==>
               1.0 <= Lookup(d, PageSize).value <= 5000.0
    requires StringConfig(d, DisableStrategy) == ""
             || StringConfig(d, DisableStrategy) == StringConfig(c, DisableStrategy)
    ensures LdapConfigurationOk(d)
  {
    hide StringConfig, FilterOk, Lookup;
  }

  // ----- The capability test on the stored JSON -----

  function Name(c: Capability): string {
    match c
    case DiscoverUsers => "DISCOVER_USERS"
    case DiscoverGroups => "DISCOVER_GROUPS"
    case DiscoverMemberships => "DISCOVER_MEMBERSHIPS"
    case DiscoverEntitlements => "DISCOVER_ENTITLEMENTS"
    case DisableAccountCapability => "DISABLE_ACCOUNT"
    case EnableAccountCapability => "ENABLE_ACCOUNT"
    case RemoveMembershipCapability => "REMOVE_MEMBERSHIP"
    case AddMembershipCapability => "ADD_MEMBERSHIP"
  }

  /** The rest of a jsonb text array after `lead`. */
  function JsonTail(lead: string, caps: seq<Capability>): string
    decreases |caps|
  {
    if caps == [] then "]" else lead + ['"'] + Name(caps[0]) + ['"'] + JsonTail(", ", caps[1..])
  }

  function JsonArray(caps: seq<Capability>): string {
    if caps == [] then "[]" else JsonTail("[", caps)
  }

  lemma NamesDoNotOverlap(c: Capability, wanted: Capability)
    requires wanted == DisableAccountCapability || wanted == RemoveMembershipCapability
    ensures Contains(Name(c), Name(wanted)) <==> c == wanted
  {
    var s, n := Name(c), Name(wanted);
    if Contains(s, n) {
      var i: nat :| OccursAt(s, n, i);
      OccurrenceChars(s, n, i);
      assert s[i] == n[0] && s[i + 3] == n[3];
      assert i == 0 || i == 1 || i == 2 || i == 3 || i == 4 || i == 5 || i == 6;
    }
    if c == wanted {
      assert OccursAt(s, n, 0);
    }
  }

  lemma NameIsLong(c: Capability)
    ensures |Name(c)| > 2 && '"' !in Name(c)
  {
  }

  lemma {:induction false} TailContains(lead: string, caps: seq<Capability>, wanted: Capability)
    requires lead == "[" || lead == ", "
    requires wanted == DisableAccountCapability || wanted == RemoveMembershipCapability
    ensures Contains(JsonTail(lead, caps), Name(wanted)) <==> wanted in caps
    decreases |caps|
  {
    var n := Name(wanted);
    NameIsLong(wanted);
    hide Name;
    if caps == [] {
      assert forall i: nat :: !OccursAt("]", n, i);
    } else {
      var rest := JsonTail(", ", caps[1..]);
      assert JsonTail(lead, caps) == lead + ['"'] + (Name(caps[0]) + ['"'] + rest);
      ContainsAroundSeparator(lead, '"', Name(caps[0]) + ['"'] + rest, n);
      ContainsAroundSeparator(Name(caps[0]), '"', rest, n);
      assert forall i: nat :: !OccursAt(lead, n, i);
      NamesDoNotOverlap(caps[0], wanted);
      TailContains(", ", caps[1..], wanted);
      assert caps == [caps[0]] + caps[1..];
    }
  }

  /** The planner's substring test on the capability JSON is list membership. */
  lemma SubstringTestIsMembership(caps: seq<Capability>, wanted: Capability)
    requires wanted == DisableAccountCapability || wanted == RemoveMembershipCapability
    ensures Contains(JsonArray(caps), Name(wanted)) <==> wanted in caps
  {
    if caps == [] {
      assert forall i: nat :: !OccursAt("[]", Name(wanted), i);
    } else {
      TailContains("[", caps, wanted);
    }
  }

  // ----- Planner and executor -----

  datatype ActionType = DisableAccount | RemoveMembership | VerifyDisabled | ManualReview

  /** The planner's choice for an account whose stored state is or is not DISABLED. */
  function PlannedAction(storedDisabled: bool, c: Connector): ActionType {
    if storedDisabled then VerifyDisabled
    else if c.typ in DISABLE_TYPES && c.writeEnabled && Contains(JsonArray(c.capabilities), "DISABLE_ACCOUNT")
        then DisableAccount
    else if c.typ == GitHub && c.writeEnabled && Contains(JsonArray(c.capabilities), "REMOVE_MEMBERSHIP")
        then RemoveMembership
    else ManualReview
  }

  datatype RemoteBranch = ScimDisable | LdapDisable | NativeDisable | LdapMembershipError | UnsupportedError

  /** Where executeRemoteAction goes. */
  function Branch(typ: ConnectorType, action: ActionType): RemoteBranch {
    match typ
    case Scim => ScimDisable
    case Ldap => if action != DisableAccount then LdapMembershipError else LdapDisable
    case CsvSource => UnsupportedError
    case _ => NativeDisable
  }

  /** Exactly when each action is planned; a planned write always has a branch in the executor. */
  lemma PlannedWriteHasABranch(storedDisabled: bool, c: Connector)
    ensures var action := PlannedAction(storedDisabled, c);
            && (action == VerifyDisabled <==> storedDisabled)
            && (action == DisableAccount <==>
                !storedDisabled && c.typ in {Scim, Entra, Okta, Google, Ldap} && c.writeEnabled
                    && DisableAccountCapability in c.capabilities)
            && (action == RemoveMembership <==>
                !storedDisabled && c.typ == GitHub && c.writeEnabled && RemoveMembershipCapability in c.capabilities)
            && (action == DisableAccount || action == RemoveMembership ==>
                  Branch(c.typ, action) == if c.typ == Scim then ScimDisable
                                           else if c.typ == Ldap then LdapDisable else NativeDisable)
  {
    SubstringTestIsMembership(c.capabilities, DisableAccountCapability);
    SubstringTestIsMembership(c.capabilities, RemoveMembershipCapability);
  }

  // ----- What the LDAP executor accepts -----

  predicate SupportedStrategy(s: string) {
    s == "PPOLICY_LOCK" || s == "ACTIVE_DIRECTORY_UAC"
  }

  /** The stored configuration decodes, the client accepts it, and disabling finds a strategy. */
  predicate ExecutorAccepts(c: Configuration) {
    && WellTyped(c)
    && Assigned(c, SearchBase) != ""
    && FilterOk(Assigned(c, UserFilter)) && FilterOk(Assigned(c, GroupFilter))
    && SupportedStrategy(Assigned(c, DisableStrategy))
  }

  /**
   A setting that its writers accepted suits the executor: it is stored without surrounding white space, or another
   spelling of its key takes its place and is itself acceptable.
   */
  predicate Suits(c: Configuration, f: Field, replacement: bool) {
    if Sole(c, f) then Unpadded(c, f) else replacement
  }

  /** The setting is stored as validation reads it. */
  predicate Unpadded(c: Configuration, f: Field) {
    Lookup(c, f) == Literal(StringConfig(c, f))
  }

  lemma SolidFilter(v: string)
    requires FilterOk(Trim(v))
    ensures FilterOk(v) <==> v == Trim(v)
  {
    if FilterOk(v) { TrimKeepsSolid(v); }
  }

  lemma SolidStrategy(v: string)
    requires SupportedStrategy(Trim(v))
    ensures SupportedStrategy(v) <==> v == Trim(v)
  {
    if SupportedStrategy(v) { TrimKeepsSolid(v); }
  }

  /**
   A required setting that passed validation is text, and the executor reads it as stored when its key stands alone.
   */
  lemma CheckedSetting(c: Configuration, f: Field)
    requires StringConfig(c, f) != ""
    ensures Lookup(c, f).Literal? && StringConfig(c, f) == Trim(Lookup(c, f).text)
    ensures Sole(c, f) ==> Assigned(c, f) == Lookup(c, f).text
  {
    if Sole(c, f) { SoleIsAssigned(c, f); }
  }

  lemma FilterSuits(c: Configuration, f: Field)
    requires StringConfig(c, f) != "" && FilterOk(StringConfig(c, f))
    ensures FilterOk(Assigned(c, f)) <==> Suits(c, f, FilterOk(Assigned(c, f)))
  {
    CheckedSetting(c, f);
    SolidFilter(Lookup(c, f).text);
    hide FilterOk, Sole, Assigned, Lookup, Trim;
  }

  lemma StrategySuits(c: Configuration)
    requires SupportedStrategy(StringConfig(c, DisableStrategy))
    ensures SupportedStrategy(Assigned(c, DisableStrategy)) <==>
            Suits(c, DisableStrategy, SupportedStrategy(Assigned(c, DisableStrategy)))
  {
    CheckedSetting(c, DisableStrategy);
    SolidStrategy(Lookup(c, DisableStrategy).text);
    hide SupportedStrategy, Sole, Assigned, Lookup, Trim;
  }

  lemma SearchBaseSuits(c: Configuration)
    requires StringConfig(c, SearchBase) != ""
    ensures Assigned(c, SearchBase) != "" <==> Sole(c, SearchBase) || Assigned(c, SearchBase) != ""
  {
    CheckedSetting(c, SearchBase);
    hide Sole, Assigned, Lookup;
    assert Trim("") == "";
  }

  /**
   An LDAP disable that was planned found a configured strategy.  The executor accepts the stored configuration
   exactly when every member decodes to the type of its field, the page size to a whole number, and both filters
   and the strategy are stored without surrounding white space, or replaced by an acceptable other spelling.
   */
  lemma PlannerAndExecutorAgree(storedDisabled: bool, c: Connector)
    requires ConnectorOk(c) && c.typ == Ldap && PlannedAction(storedDisabled, c) == DisableAccount
    ensures var s := c.configuration;
            && SupportedStrategy(StringConfig(s, DisableStrategy))
            && (ExecutorAccepts(s) <==>
                && WellTyped(s)
                && (Sole(s, SearchBase) || Assigned(s, SearchBase) != "")
                && Suits(s, UserFilter, FilterOk(Assigned(s, UserFilter)))
                && Suits(s, GroupFilter, FilterOk(Assigned(s, GroupFilter)))
                && Suits(s, DisableStrategy, SupportedStrategy(Assigned(s, DisableStrategy))))
  {
    PlannedWriteHasABranch(storedDisabled, c);
    var s := c.configuration;
    ValidSettings(s);
    hide PlannedAction, LdapConfigurationOk, StringConfig, Assigned, Lookup, Sole;
    hide FilterOk, Suits, WellTyped, CapabilitiesOk;
    SearchBaseSuits(s);
    FilterSuits(s, UserFilter);
    FilterSuits(s, GroupFilter);
    StrategySuits(s);
  }

  /**
   Where no key has a second spelling, the executor accepts what validation accepted exactly when the types fit
   and the filters and the strategy are stored without surrounding white space.
   */
  lemma PlainSettingsAgree(storedDisabled: bool, c: Connector)
    requires ConnectorOk(c) && c.typ == Ldap && PlannedAction(storedDisabled, c) == DisableAccount
    requires forall f :: f in {SearchBase, UserFilter, GroupFilter, DisableStrategy} ==> Sole(c.configuration, f)
    ensures var s := c.configuration;
            ExecutorAccepts(s) <==>
            WellTyped(s) && Unpadded(s, UserFilter) && Unpadded(s, GroupFilter) && Unpadded(s, DisableStrategy)
  {
    hide ConnectorOk, PlannedAction, ExecutorAccepts, WellTyped, Unpadded, Sole, Assigned, FilterOk;
    PlannerAndExecutorAgree(storedDisabled, c);
  }

  lemma ValidSettings(s: Configuration)
    requires LdapConfigurationOk(s)
    ensures StringConfig(s, SearchBase) != ""
    ensures StringConfig(s, UserFilter) != "" && FilterOk(StringConfig(s, UserFilter))
    ensures StringConfig(s, GroupFilter) != "" && FilterOk(StringConfig(s, GroupFilter))
    ensures StringConfig(s, DisableStrategy) != "" ==> SupportedStrategy(StringConfig(s, DisableStrategy))
  {
    hide StringConfig, FilterOk;
  }

  /** Every valid configuration stays valid when its user filter is stored with a leading blank, and is then refused. */
  lemma PaddedFilterIsRefused(s: Configuration)
    requires LdapConfigurationOk(s)
    ensures var padded := Put(s, UserFilter, Literal(" " + StringConfig(s, UserFilter)));
            LdapConfigurationOk(padded) && !ExecutorAccepts(padded)
  {
    var v := StringConfig(s, UserFilter);
    var padded := Put(s, UserFilter, Literal(" " + v));
    ValidSettings(s);
    assert (" " + v)[1..] == v;
    assert TrimLeft(" " + v) == TrimLeft(v);
    TrimKeepsSolid(v);
    assert padded[|padded| - 1] == Setting(KeyOf(UserFilter), Literal(" " + v));
    assert Assigned(padded, UserFilter) == " " + v;
    forall f: Field
      ensures StringConfig(padded, f) == StringConfig(s, f)
      ensures f != UserFilter ==> Lookup(padded, f) == Lookup(s, f)
    {
      PutLookup(s, UserFilter, Literal(" " + v), f);
    }
    hide Put, StringConfig, Lookup, Assigned, LdapConfigurationOk, WellTyped;
    SameSearch(s, padded);
  }

  /** A member whose key is no setting's is not checked. */
  lemma {:induction false} UncheckedKey(s: Configuration, key: string, value: Json)
    requires LdapConfigurationOk(s) && forall f: Field :: key != KeyOf(f)
    ensures LdapConfigurationOk(s + [Setting(key, value)])
  {
    var t := s + [Setting(key, value)];
    assert t[..|s|] == s;
    forall f: Field
      ensures Lookup(t, f) == Lookup(s, f)
    {
    }
    hide LdapConfigurationOk, Lookup, KeyOf;
    SameSearch(s, t);
  }

  lemma SpelledOtherwise(key: string, f: Field)
    requires key != "userFilter" && Lower(key) == "userfilter"
    ensures key != KeyOf(f) && Lower(KeyOf(UserFilter)) == "userfilter"
  {
    assert Lower("userFilter") == "userfilter";
    assert Lower(KeyOf(f))[0] == 'u' ==> f == UserFilter;
  }

  /** Another spelling of the user filter is never checked, and it is the one that the executor reads. */
  lemma SecondSpellingIsRead(s: Configuration, key: string, text: string)
    requires LdapConfigurationOk(s) && key != "userFilter" && Lower(key) == "userfilter"
    ensures var t := s + [Setting(key, Literal(text))];
            LdapConfigurationOk(t) && Assigned(t, UserFilter) == text && (ExecutorAccepts(t) ==> FilterOk(text))
  {
    hide LdapConfigurationOk, WellTyped, FilterOk, KeyOf, Lower;
    forall f: Field
      ensures key != KeyOf(f) && Lower(KeyOf(UserFilter)) == "userfilter"
    {
      SpelledOtherwise(key, f);
    }
    var t := s + [Setting(key, Literal(text))];
    assert t[|t| - 1] == Setting(key, Literal(text));
    UncheckedKey(s, key, Literal(text));
  }

  /** Decoding needs a value of the type of its field. */
  lemma PutIsTyped(s: Configuration, f: Field, value: Json)
    requires WellTyped(Put(s, f, value))
    ensures || value.Null?
            || (f != PageSize && value.Literal?)
            || (f == PageSize && value.Number? && value.value == value.value.Floor as real)
  {
    hide KeyOf, Lower;
    var t := Put(s, f, value);
    assert t[|t| - 1] == Setting(KeyOf(f), value) && t[|t| - 1] in t;
    assert Folds(Setting(KeyOf(f), value), f);
  }

  /** A page size that passed validation must be a whole number for the executor. */
  lemma FractionIsRefused(s: Configuration, size: real)
    requires LdapConfigurationOk(s) && 1.0 <= size <= 5000.0
    ensures var t := Put(s, PageSize, Number(size));
            LdapConfigurationOk(t) && (ExecutorAccepts(t) ==> size == size.Floor as real)
  {
    hide Put, Lookup, WellTyped, FilterOk, LdapConfigurationOk, SupportedStrategy, KeyOf, Trim;
    var t := Put(s, PageSize, Number(size));
    forall f: Field
      ensures Lookup(t, f) == if f == PageSize then Number(size) else Lookup(s, f)
    {
      PutLookup(s, PageSize, Number(size), f);
    }
    SameSearch(s, t);
    if WellTyped(t) {
      PutIsTyped(s, PageSize, Number(size));
    }
  }

  /** The server name is not checked at all: anything but text makes the executor refuse. */
  lemma MistypedNameIsRefused(s: Configuration, value: Json)
    requires LdapConfigurationOk(s) && !value.Literal? && !value.Null?
    ensures var t := Put(s, ServerName, value);
            LdapConfigurationOk(t) && !ExecutorAccepts(t)
  {
    hide Put, Lookup, WellTyped, FilterOk, LdapConfigurationOk, SupportedStrategy, KeyOf, Trim;
    var t := Put(s, ServerName, value);
    forall f: Field
      ensures f != ServerName ==> Lookup(t, f) == Lookup(s, f)
    {
      PutLookup(s, ServerName, value, f);
    }
    SameSearch(s, t);
    if WellTyped(t) {
      PutIsTyped(s, ServerName, value);
    }
  }
}
