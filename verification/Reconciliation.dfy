/**
 The three synchronisations.  Each lists a provider, upserts what it saw and marks the rest MISSING, all in one
 transaction; each brings the account table into agreement with the listing.
 */
module Reconciliation {
  import opened Common
  import opened Text
  import opened CaseTables
  import Connectors

  type OrgId = nat
  type ConnectorId = Connectors.ConnectorId

  datatype Profile = Profile(displayName: string, email: string, employeeNumber: string)

  /** `providerExternal` is written by the first insert only. */
  datatype Row = Row(
    org: OrgId, connector: ConnectorId, externalId: string, status: AccountStatus, missingSince: Option<int>,
    profile: Profile, providerExternal: string)

  /** One discovered account; `employee` is absent where the statement does not set the employee number. */
  datatype Entry = Entry(
    externalId: string, active: bool, displayName: string, email: string, employee: Option<string>,
        providerExternal: string)

  type Rows = map<AccountId, Row>

  predicate Mine(row: Row, org: OrgId, connector: ConnectorId) {
    row.org == org && row.connector == connector
  }

  /** UNIQUE (organization_id, connector_id, external_account_id). */
  ghost predicate UniqueRows(rows: Rows) {
    forall a, b :: a in rows && b in rows && a != b ==>
                     !(rows[a].org == rows[b].org && rows[a].connector == rows[b].connector
                       && rows[a].externalId == rows[b].externalId)
  }

  predicate SameIdentity(a: Row, b: Row) {
    a.org == b.org && a.connector == b.connector && a.externalId == b.externalId
        && a.providerExternal == b.providerExternal
  }

  function Names(entries: seq<Entry>): (listing: seq<Listed>)
    ensures |listing| == |entries|
    ensures forall i :: 0 <= i < |entries| ==> listing[i] == Listed(entries[i].externalId, entries[i].active)
  {
    seq(|entries|, i requires 0 <= i < |entries| => Listed(entries[i].externalId, entries[i].active))
  }

  predicate IsListed(entries: seq<Entry>, externalId: string) {
    exists i :: 0 <= i < |entries| && entries[i].externalId == externalId
  }

  lemma {:induction false} ListedIffNotMissing(entries: seq<Entry>, externalId: string)
    ensures ListedStatus(Names(entries), externalId) == Missing <==> !IsListed(entries, externalId)
  {
    if entries != [] {
      var n := |entries| - 1;
      assert Names(entries)[..n] == Names(entries[..n]);
      ListedIffNotMissing(entries[..n], externalId);
    }
  }

  lemma ListedSnoc(entries: seq<Entry>, entry: Entry, externalId: string)
    ensures ListedStatus(Names(entries + [entry]), externalId) ==
            if entry.externalId == externalId then (if entry.active then Active else Disabled)
            else ListedStatus(Names(entries), externalId)
  {
    assert Names(entries + [entry])[..|entries|] == Names(entries);
  }

  /** The last entry for an id, the first one, and the last that says something about the employee number. */
  function LastEntry(entries: seq<Entry>, externalId: string): Option<Entry> {
    if entries == [] then None
    else if entries[|entries| - 1].externalId == externalId then Some(entries[|entries| - 1])
    else LastEntry(entries[..|entries| - 1], externalId)
  }

  function FirstEntry(entries: seq<Entry>, externalId: string): Option<Entry> {
    if entries == [] then None
    else
      var first := FirstEntry(entries[..|entries| - 1], externalId);
      if first.None? && entries[|entries| - 1].externalId == externalId then Some(entries[|entries| - 1]) else first
  }

  function LastEmployee(entries: seq<Entry>, externalId: string): Option<string> {
    if entries == [] then None
    else if entries[|entries| - 1].externalId == externalId && entries[|entries| - 1].employee.Some?
    then entries[|entries| - 1].employee
    else LastEmployee(entries[..|entries| - 1], externalId)
  }

  lemma EntriesSnoc(entries: seq<Entry>, entry: Entry, externalId: string)
    ensures var more := entries + [entry]; var same := entry.externalId == externalId;
            && LastEntry(more, externalId) == (if same then Some(entry) else LastEntry(entries, externalId))
            && FirstEntry(more, externalId) ==
               (if FirstEntry(entries, externalId).None? && same then Some(entry) else FirstEntry(entries, externalId))
            && LastEmployee(more, externalId) ==
               (if same && entry.employee.Some? then entry.employee else LastEmployee(entries, externalId))
  {
    assert (entries + [entry])[..|entries|] == entries;
  }

  lemma {:induction false} ListedHasEntries(entries: seq<Entry>, externalId: string)
    ensures IsListed(entries, externalId) <==> LastEntry(entries, externalId).Some?
    ensures IsListed(entries, externalId) <==> FirstEntry(entries, externalId).Some?
    ensures !IsListed(entries, externalId) ==> LastEmployee(entries, externalId).None?
  {
    if entries != [] {
      var n := |entries| - 1;
      ListedHasEntries(entries[..n], externalId);
      IsListedSnoc(entries[..n], entries[n], externalId);
      assert entries[..n] + [entries[n]] == entries;
    }
  }

  // ----- The specification -----

  /** The columns of a listed row: names and address of its last entry, a known employee number otherwise kept. */
  ghost predicate RowContent(before: Rows, entries: seq<Entry>, a: AccountId, row: Row) {
    var last, first := LastEntry(entries, row.externalId), FirstEntry(entries, row.externalId);
    var employee := LastEmployee(entries, row.externalId);
    && last.Some? && first.Some?
    && row.profile.displayName == last.value.displayName && row.profile.email == last.value.email
    && row.profile.employeeNumber ==
       (if employee.Some? then employee.value else if a in before then before[a].profile.employeeNumber else "")
    && (a !in before ==> row.providerExternal == first.value.providerExternal)
  }

  /** Row `a` after the entries so far: as listed and present, or not yet touched. */
  ghost predicate RowSeen(before: Rows, entries: seq<Entry>, a: AccountId, row: Row) {
    if IsListed(entries, row.externalId)
    then row.status == ListedStatus(Names(entries), row.externalId) && row.missingSince == None
        && RowContent(before, entries, a, row)
    else a in before && row == before[a]
  }

  ghost predicate HasRow(rows: Rows, org: OrgId, connector: ConnectorId, externalId: string) {
    exists a :: a in rows && Mine(rows[a], org, connector) && rows[a].externalId == externalId
  }

  /** Every listed account has a row. */
  ghost predicate Present(rows: Rows, org: OrgId, connector: ConnectorId, entries: seq<Entry>) {
    forall i :: 0 <= i < |entries| ==> HasRow(rows, org, connector, entries[i].externalId)
  }

  ghost predicate Stable(before: Rows, rows: Rows, org: OrgId, connector: ConnectorId) {
    && UniqueRows(rows) && before.Keys <= rows.Keys
    && (forall a :: a in before ==> SameIdentity(rows[a], before[a]))
    && (forall a :: a in before && !Mine(before[a], org, connector) ==> rows[a] == before[a])
    && (forall a :: a in rows && a !in before ==> Mine(rows[a], org, connector))
  }

  /** The upserts for `entries` are done. */
  ghost predicate Discovered(before: Rows, rows: Rows, org: OrgId, connector: ConnectorId, entries: seq<Entry>) {
    && Stable(before, rows, org, connector) && Present(rows, org, connector, entries)
    && (forall a :: a in rows && Mine(rows[a], org, connector) ==> RowSeen(before, entries, a, rows[a]))
  }

  /** The whole synchronisation: the table agrees with the listing, and a first miss is dated. */
  ghost predicate Reconciled(before: Rows, rows: Rows, org: OrgId, connector: ConnectorId, entries: seq<Entry>,
                             now: int) {
    && Stable(before, rows, org, connector) && Present(rows, org, connector, entries)
    && (forall a :: a in rows && Mine(rows[a], org, connector) ==> RowReconciled(before, entries, a, rows[a], now))
  }

  ghost predicate RowReconciled(before: Rows, entries: seq<Entry>, a: AccountId, row: Row, now: int) {
    && row.status == ListedStatus(Names(entries), row.externalId)
    && (if row.status != Missing then row.missingSince == None && RowContent(before, entries, a, row)
        else && a in before && row.profile == before[a].profile
             && row.missingSince == if before[a].missingSince.Some? then before[a].missingSince else Some(now))
  }

  function Updated(row: Row, entry: Entry): Row {
    row.(status := if entry.active then Active else Disabled, missingSince := None,
         profile := Profile(entry.displayName, entry.email,
                            if entry.employee.Some? then entry.employee.value else row.profile.employeeNumber))
  }

  function Inserted(org: OrgId, connector: ConnectorId, entry: Entry): Row {
    Row(org, connector, entry.externalId, if entry.active then Active else Disabled, None,
        Profile(entry.displayName, entry.email, if entry.employee.Some? then entry.employee.value else ""),
            entry.providerExternal)
  }

  /** INSERT .. ON CONFLICT (organization, connector, external id) DO UPDATE .. RETURNING id. */
  method Upsert(rows: Rows, org: OrgId, connector: ConnectorId, entry: Entry, spare: AccountId)
    returns (after: Rows, id: AccountId)
    requires UniqueRows(rows) && spare !in rows
    ensures Upserted(rows, after, org, connector, entry, id) && (id in rows || id == spare)
  {
    if known :| known in rows && Mine(rows[known], org, connector) && rows[known].externalId == entry.externalId {
      id := known;
      after := rows[known := Updated(rows[known], entry)];
    } else {
      id := spare;
      after := rows[spare := Inserted(org, connector, entry)];
    }
  }

  lemma IsListedSnoc(entries: seq<Entry>, entry: Entry, externalId: string)
    ensures IsListed(entries + [entry], externalId) <==> IsListed(entries, externalId) || entry.externalId == externalId
  {
    var more := entries + [entry];
    assert more[|entries|] == entry;
    if IsListed(entries, externalId) {
      var i :| 0 <= i < |entries| && entries[i].externalId == externalId;
      assert more[i].externalId == externalId;
    }
  }

  /** `after` is `rows` with the row of one entry upserted. */
  ghost predicate Upserted(rows: Rows, after: Rows, org: OrgId, connector: ConnectorId, entry: Entry, id: AccountId) {
    && UniqueRows(after) && id in after && after == rows[id := after[id]]
    && Mine(after[id], org, connector) && after[id].externalId == entry.externalId
    && (id in rows ==> SameIdentity(after[id], rows[id]) && after[id] == Updated(rows[id], entry))
    && (id !in rows ==> after[id] == Inserted(org, connector, entry))
  }

  lemma UpsertIsStable(before: Rows, rows: Rows, after: Rows, org: OrgId, connector: ConnectorId, entry: Entry,
                       id: AccountId)
    requires Stable(before, rows, org, connector) && Upserted(rows, after, org, connector, entry, id)
    ensures Stable(before, after, org, connector)
  {
  }

  lemma UpsertSees(before: Rows, rows: Rows, after: Rows, org: OrgId, connector: ConnectorId, entries: seq<Entry>,
                   entry: Entry, id: AccountId, a: AccountId)
    requires Upserted(rows, after, org, connector, entry, id) && a in after && Mine(after[a], org, connector)
    requires a in rows ==> RowSeen(before, entries, a, rows[a])
    requires a !in rows ==> a !in before && !IsListed(entries, after[a].externalId)
    ensures RowSeen(before, entries + [entry], a, after[a])
  {
    hide ListedStatus, IsListed, LastEntry, FirstEntry, LastEmployee;
    var ext := after[a].externalId;
    ListedSnoc(entries, entry, ext);
    IsListedSnoc(entries, entry, ext);
    EntriesSnoc(entries, entry, ext);
    ListedHasEntries(entries, ext);
  }

  lemma UpsertIsPresent(rows: Rows, after: Rows, org: OrgId, connector: ConnectorId, entries: seq<Entry>, entry: Entry,
                        id: AccountId)
    requires Present(rows, org, connector, entries) && Upserted(rows, after, org, connector, entry, id)
    ensures Present(after, org, connector, entries + [entry])
  {
    hide UniqueRows, Updated, Inserted;
    var more := entries + [entry];
    forall i | 0 <= i < |more|
      ensures HasRow(after, org, connector, more[i].externalId)
    {
      if i < |entries| {
        var a :| a in rows && Mine(rows[a], org, connector) && rows[a].externalId == entries[i].externalId;
        assert a in after && Mine(after[a], org, connector) && after[a].externalId == rows[a].externalId;
      } else {
        assert id in after && after[id].externalId == more[i].externalId;
      }
    }
  }

  /** An insert is the first time that the account is seen. */
  lemma NewRowIsNew(before: Rows, rows: Rows, after: Rows, org: OrgId, connector: ConnectorId, entries: seq<Entry>,
                    entry: Entry, id: AccountId)
    requires Stable(before, rows, org, connector) && Present(rows, org, connector, entries)
    requires Upserted(rows, after, org, connector, entry, id)
    ensures id !in rows ==> id !in before && !IsListed(entries, entry.externalId)
  {
    hide Updated, Inserted;
    forall i | 0 <= i < |entries| && entries[i].externalId == entry.externalId
      ensures id in rows
    {
      assert HasRow(rows, org, connector, entries[i].externalId);
      var a :| a in rows && Mine(rows[a], org, connector) && rows[a].externalId == entries[i].externalId;
      assert a in after && after[a].externalId == after[id].externalId && Mine(after[a], org, connector);
      assert a == id;
    }
  }

  /** One upsert takes the table from one prefix of the listing to the next. */
  lemma UpsertDiscovers(before: Rows, rows: Rows, after: Rows, org: OrgId, connector: ConnectorId, entries: seq<Entry>,
                        entry: Entry, id: AccountId)
    requires Discovered(before, rows, org, connector, entries) && Upserted(rows, after, org, connector, entry, id)
    ensures Discovered(before, after, org, connector, entries + [entry])
  {
    UpsertIsStable(before, rows, after, org, connector, entry, id);
    UpsertIsPresent(rows, after, org, connector, entries, entry, id);
    NewRowIsNew(before, rows, after, org, connector, entries, entry, id);
    hide Stable, Present, RowSeen, Updated, UniqueRows, IsListed;
    forall a | a in after && Mine(after[a], org, connector)
      ensures RowSeen(before, entries + [entry], a, after[a])
    {
      UpsertSees(before, rows, after, org, connector, entries, entry, id, a);
    }
  }

  function Marked(row: Row, now: int): Row {
    row.(status := Missing, missingSince := if row.missingSince.Some? then row.missingSince else Some(now))
  }

  /** `after` is `rows` with the unlisted rows of the connector marked. */
  ghost predicate MarkedRows(rows: Rows, after: Rows, org: OrgId, connector: ConnectorId, entries: seq<Entry>,
                             now: int) {
    && after.Keys == rows.Keys
    && forall a :: a in rows ==>
                     after[a] == if Mine(rows[a], org, connector) && !IsListed(entries, rows[a].externalId)
                                 then Marked(rows[a], now) else rows[a]
  }

  lemma MarkRow(before: Rows, entries: seq<Entry>, a: AccountId, row: Row, now: int)
    requires RowSeen(before, entries, a, row)
    ensures RowReconciled(before, entries, a, if IsListed(entries, row.externalId) then row else Marked(row, now), now)
  {
    hide ListedStatus, IsListed, RowContent;
    ListedIffNotMissing(entries, row.externalId);
  }

  lemma MarkIsStable(before: Rows, rows: Rows, after: Rows, org: OrgId, connector: ConnectorId, entries: seq<Entry>,
                     now: int)
    requires Stable(before, rows, org, connector) && MarkedRows(rows, after, org, connector, entries, now)
    ensures Stable(before, after, org, connector)
  {
    hide IsListed;
    assert forall a :: a in rows ==> SameIdentity(after[a], rows[a]);
  }

  lemma MarkIsPresent(rows: Rows, after: Rows, org: OrgId, connector: ConnectorId, entries: seq<Entry>, now: int)
    requires Present(rows, org, connector, entries) && MarkedRows(rows, after, org, connector, entries, now)
    ensures Present(after, org, connector, entries)
  {
    hide IsListed;
    forall i | 0 <= i < |entries|
      ensures HasRow(after, org, connector, entries[i].externalId)
    {
      assert HasRow(rows, org, connector, entries[i].externalId);
      var a :| a in rows && Mine(rows[a], org, connector) && rows[a].externalId == entries[i].externalId;
      assert a in after && Mine(after[a], org, connector) && after[a].externalId == rows[a].externalId;
    }
  }

  /** The MISSING update, whichever way it names the rows that were seen. */
  lemma MarkReconciles(before: Rows, rows: Rows, after: Rows, org: OrgId, connector: ConnectorId, entries: seq<Entry>,
                       now: int)
    requires Discovered(before, rows, org, connector, entries) && MarkedRows(rows, after, org, connector, entries, now)
    ensures Reconciled(before, after, org, connector, entries, now) && UniqueRows(after)
  {
    MarkIsStable(before, rows, after, org, connector, entries, now);
    MarkIsPresent(rows, after, org, connector, entries, now);
    hide Present, IsListed, RowSeen, RowReconciled;
    forall a | a in after && Mine(after[a], org, connector)
      ensures RowReconciled(before, entries, a, after[a], now)
    {
      assert Mine(rows[a], org, connector);
      MarkRow(before, entries, a, rows[a], now);
    }
    hide UniqueRows;
  }

  lemma NothingDiscovered(rows: Rows, org: OrgId, connector: ConnectorId)
    requires UniqueRows(rows)
    ensures Discovered(rows, rows, org, connector, [])
  {
  }

  // ----- What the providers list -----

  /** The attributes of a directory entry that the synchronisation reads. */
  datatype LdapEntry = LdapEntry(
    dn: string, cn: string, mail: string, employeeNumber: string, description: string, lockedTime: string)

  function FromLdap(e: LdapEntry): Entry {
    Entry(e.dn, !(EqualFold(e.description, "DISABLED") || e.lockedTime != ""),
          e.cn, e.mail, Some(e.employeeNumber), "")
  }

  datatype Email = Email(value: string, primary: bool)

  datatype ScimUser = ScimUser(id: string, displayName: string, emails: seq<Email>, active: bool, externalId: string)

  /** The e-mail that the SCIM loop keeps. */
  function KeptEmail(emails: seq<Email>): string {
    if emails == [] then ""
    else
      var last := emails[|emails| - 1];
      var kept := KeptEmail(emails[..|emails| - 1]);
      if last.primary || kept == "" then Normal(last.value) else kept
  }

  function FromScim(u: ScimUser): Entry {
    Entry(u.id, u.active, u.displayName, KeptEmail(u.emails), None, u.externalId)
  }

  datatype NativeUser = NativeUser(
    id: string, displayName: string, email: string, employeeNumber: string, active: bool, externalId: string)

  function FromNative(u: NativeUser): Entry {
    Entry(u.id, u.active, u.displayName, u.email, Some(u.employeeNumber), u.externalId)
  }

  function LdapEntries(listing: seq<LdapEntry>): (entries: seq<Entry>)
    ensures |entries| == |listing| && forall i :: 0 <= i < |listing| ==> entries[i] == FromLdap(listing[i])
  {
    seq(|listing|, i requires 0 <= i < |listing| => FromLdap(listing[i]))
  }

  function ScimEntries(listing: seq<ScimUser>): (entries: seq<Entry>)
    ensures |entries| == |listing| && forall i :: 0 <= i < |listing| ==> entries[i] == FromScim(listing[i])
  {
    seq(|listing|, i requires 0 <= i < |listing| => FromScim(listing[i]))
  }

  function NativeEntries(listing: seq<NativeUser>): (entries: seq<Entry>)
    ensures |entries| == |listing| && forall i :: 0 <= i < |listing| ==> entries[i] == FromNative(listing[i])
  {
    seq(|listing|, i requires 0 <= i < |listing| => FromNative(listing[i]))
  }

  /** Row ids that the database will hand out. */
  ghost predicate FreshIds(rows: Rows, ids: seq<AccountId>, n: nat) {
    && |ids| >= n
    && (forall i :: 0 <= i < |ids| ==> ids[i] !in rows)
    && (forall i, j :: 0 <= i < j < |ids| ==> ids[i] != ids[j])
  }

  /** The rows whose ids were collected are those of the listed accounts. */
  ghost predicate SeenRows(rows: Rows, org: OrgId, connector: ConnectorId, entries: seq<Entry>, seen: seq<AccountId>) {
    forall a :: a in rows && Mine(rows[a], org, connector) ==> (a in seen <==> IsListed(entries, rows[a].externalId))
  }

  lemma SeenSnoc(rows: Rows, after: Rows, org: OrgId, connector: ConnectorId, entries: seq<Entry>, entry: Entry,
                 id: AccountId, seen: seq<AccountId>)
    requires SeenRows(rows, org, connector, entries, seen) && Upserted(rows, after, org, connector, entry, id)
    ensures SeenRows(after, org, connector, entries + [entry], seen + [id])
  {
    hide IsListed, Updated;
    forall a | a in after && Mine(after[a], org, connector)
      ensures a in seen + [id] <==> IsListed(entries + [entry], after[a].externalId)
    {
      IsListedSnoc(entries, entry, after[a].externalId);
    }
  }

  /** The e-mail loop: a later primary address replaces what was kept. */
  method ChooseEmail(emails: seq<Email>) returns (email: string)
    ensures email == KeptEmail(emails)
  {
    email := "";
    for i := 0 to |emails|
      invariant email == KeptEmail(emails[..i])
    {
      assert emails[..i + 1][..i] == emails[..i];
      if emails[i].primary || email == "" {
        email := Normal(emails[i].value);
      }
    }
    assert emails[..|emails|] == emails;
  }

  /** A primary address with content wins; without primaries the first address with content is kept. */
  lemma {:induction false} KeptEmailIsPrimary(emails: seq<Email>, i: nat)
    requires i < |emails| && Normal(emails[i].value) != ""
    requires emails[i].primary || forall j :: 0 <= j < i ==> Normal(emails[j].value) == ""
    requires forall j :: i < j < |emails| ==> !emails[j].primary
    ensures KeptEmail(emails) == Normal(emails[i].value)
  {
    var n := |emails| - 1;
    if i < n {
      KeptEmailIsPrimary(emails[..n], i);
    } else if !emails[i].primary {
      NothingKept(emails[..n]);
    }
  }

  lemma {:induction false} NothingKept(emails: seq<Email>)
    requires forall j :: 0 <= j < |emails| ==> Normal(emails[j].value) == ""
    ensures KeptEmail(emails) == ""
  {
    if emails != [] {
      NothingKept(emails[..|emails| - 1]);
    }
  }

  // ----- The loops -----

  method DiscoverLdap(rows: Rows, org: OrgId, connector: ConnectorId, listing: seq<LdapEntry>, ids: seq<AccountId>)
    returns (draft: Rows, seen: seq<string>)
    requires UniqueRows(rows) && FreshIds(rows, ids, |listing|)
    ensures Discovered(rows, draft, org, connector, LdapEntries(listing)) && UniqueRows(draft)
    ensures forall name :: name in seen <==> IsListed(LdapEntries(listing), name)
  {
    hide Discovered, Upserted, FromLdap;
    ghost var entries := LdapEntries(listing);
    draft, seen := rows, [];
    NothingDiscovered(rows, org, connector);
    for i := 0 to |listing|
      invariant Discovered(rows, draft, org, connector, entries[..i]) && UniqueRows(draft)
      invariant forall j :: i <= j < |ids| ==> ids[j] !in draft
      invariant forall name :: name in seen <==> IsListed(entries[..i], name)
    {
      var entry := FromLdap(listing[i]);
      var after, id := Upsert(draft, org, connector, entry, ids[i]);
      assert entries[..i + 1] == entries[..i] + [entry];
      UpsertedFacts(draft, after, org, connector, entry, id);
      UpsertDiscovers(rows, draft, after, org, connector, entries[..i], entry, id);
      forall name
        ensures name in seen + [entry.externalId] <==> IsListed(entries[..i + 1], name)
      {
        IsListedSnoc(entries[..i], entry, name);
      }
      draft := after;
      seen := seen + [entry.externalId];
    }
    assert entries[..|listing|] == entries;
  }

  lemma UpsertedFacts(rows: Rows, after: Rows, org: OrgId, connector: ConnectorId, entry: Entry, id: AccountId)
    requires Upserted(rows, after, org, connector, entry, id)
    ensures UniqueRows(after) && after.Keys == rows.Keys + {id}
  {
  }

  method DiscoverScim(rows: Rows, org: OrgId, connector: ConnectorId, listing: seq<ScimUser>, ids: seq<AccountId>)
    returns (draft: Rows, seen: seq<AccountId>)
    requires UniqueRows(rows) && FreshIds(rows, ids, |listing|)
    ensures Discovered(rows, draft, org, connector, ScimEntries(listing)) && UniqueRows(draft)
    ensures SeenRows(draft, org, connector, ScimEntries(listing), seen)
  {
    hide Discovered, Upserted, SeenRows, KeptEmail;
    ghost var entries := ScimEntries(listing);
    draft, seen := rows, [];
    NothingDiscovered(rows, org, connector);
    NothingSeen(rows, org, connector);
    for i := 0 to |listing|
      invariant Discovered(rows, draft, org, connector, entries[..i]) && UniqueRows(draft)
      invariant forall j :: i <= j < |ids| ==> ids[j] !in draft
      invariant SeenRows(draft, org, connector, entries[..i], seen)
    {
      var u := listing[i];
      var email := ChooseEmail(u.emails);
      var entry := Entry(u.id, u.active, u.displayName, email, None, u.externalId);
      var after, id := Upsert(draft, org, connector, entry, ids[i]);
      assert entries[..i + 1] == entries[..i] + [entry];
      UpsertedFacts(draft, after, org, connector, entry, id);
      UpsertDiscovers(rows, draft, after, org, connector, entries[..i], entry, id);
      SeenSnoc(draft, after, org, connector, entries[..i], entry, id, seen);
      draft := after;
      seen := seen + [id];
    }
    assert entries[..|listing|] == entries;
  }

  lemma NothingSeen(rows: Rows, org: OrgId, connector: ConnectorId)
    ensures SeenRows(rows, org, connector, [], [])
  {
  }

  method DiscoverNative(rows: Rows, org: OrgId, connector: ConnectorId, listing: seq<NativeUser>, ids: seq<AccountId>)
    returns (draft: Rows, seen: seq<AccountId>)
    requires UniqueRows(rows) && FreshIds(rows, ids, |listing|)
    ensures Discovered(rows, draft, org, connector, NativeEntries(listing)) && UniqueRows(draft)
    ensures SeenRows(draft, org, connector, NativeEntries(listing), seen)
  {
    hide Discovered, Upserted, SeenRows;
    ghost var entries := NativeEntries(listing);
    draft, seen := rows, [];
    NothingDiscovered(rows, org, connector);
    NothingSeen(rows, org, connector);
    for i := 0 to |listing|
      invariant Discovered(rows, draft, org, connector, entries[..i]) && UniqueRows(draft)
      invariant forall j :: i <= j < |ids| ==> ids[j] !in draft
      invariant SeenRows(draft, org, connector, entries[..i], seen)
    {
      var entry := FromNative(listing[i]);
      var after, id := Upsert(draft, org, connector, entry, ids[i]);
      assert entries[..i + 1] == entries[..i] + [entry];
      UpsertedFacts(draft, after, org, connector, entry, id);
      UpsertDiscovers(rows, draft, after, org, connector, entries[..i], entry, id);
      SeenSnoc(draft, after, org, connector, entries[..i], entry, id, seen);
      draft := after;
      seen := seen + [id];
    }
    assert entries[..|listing|] == entries;
  }

  // ----- What is stored, said over the listings themselves -----

  /** Entry `i` is the last for its id, or the first. */
  ghost predicate IsLast(entries: seq<Entry>, i: nat) {
    i < |entries| && forall j :: i < j < |entries| ==> entries[j].externalId != entries[i].externalId
  }

  ghost predicate IsFirst(entries: seq<Entry>, i: nat) {
    i < |entries| && forall j :: 0 <= j < i ==> entries[j].externalId != entries[i].externalId
  }

  lemma {:induction false} LastIs(entries: seq<Entry>, i: nat)
    requires IsLast(entries, i)
    ensures var ext := entries[i].externalId;
            && LastEntry(entries, ext) == Some(entries[i])
            && ListedStatus(Names(entries), ext) == (if entries[i].active then Active else Disabled)
            && (entries[i].employee.Some? ==> LastEmployee(entries, ext) == entries[i].employee)
  {
    var n := |entries| - 1;
    assert Names(entries)[..n] == Names(entries[..n]);
    if i < n {
      assert entries[..n][i] == entries[i];
      LastIs(entries[..n], i);
    }
  }

  lemma {:induction false} FirstIs(entries: seq<Entry>, i: nat)
    requires IsFirst(entries, i)
    ensures FirstEntry(entries, entries[i].externalId) == Some(entries[i])
  {
    var n := |entries| - 1;
    if i < n {
      FirstIs(entries[..n], i);
    } else {
      ListedHasEntries(entries[..n], entries[i].externalId);
    }
  }

  lemma {:induction false} NoEmployee(entries: seq<Entry>, externalId: string)
    requires forall i :: 0 <= i < |entries| ==> entries[i].employee.None?
    ensures LastEmployee(entries, externalId).None?
  {
    if entries != [] {
      NoEmployee(entries[..|entries| - 1], externalId);
    }
  }

  /** The row of the connector with this id. */
  predicate RowFor(rows: Rows, a: AccountId, org: OrgId, connector: ConnectorId, externalId: string) {
    a in rows && rows[a].org == org && rows[a].connector == connector && rows[a].externalId == externalId
  }

  /** The row of a listed account after the synchronisation, read off its last and its first entry. */
  lemma ListedRow(before: Rows, rows: Rows, org: OrgId, connector: ConnectorId, entries: seq<Entry>, now: int, i: nat)
    requires Reconciled(before, rows, org, connector, entries, now) && IsLast(entries, i)
    ensures exists a :: RowFor(rows, a, org, connector, entries[i].externalId)
    ensures forall a :: RowFor(rows, a, org, connector, entries[i].externalId) ==>
                          && rows[a].status == (if entries[i].active then Active else Disabled)
                          && rows[a].missingSince.None?
                          && rows[a].profile.displayName == entries[i].displayName
                          && rows[a].profile.email == entries[i].email
                          && (entries[i].employee.Some? ==> rows[a].profile.employeeNumber == entries[i].employee.value)
                          && RowContent(before, entries, a, rows[a])
  {
    LastIs(entries, i);
    assert HasRow(rows, org, connector, entries[i].externalId);
    var a :| a in rows && Mine(rows[a], org, connector) && rows[a].externalId == entries[i].externalId;
    assert RowFor(rows, a, org, connector, entries[i].externalId);
    hide UniqueRows, LastEntry, FirstEntry, LastEmployee, ListedStatus, IsLast;
    forall b | RowFor(rows, b, org, connector, entries[i].externalId)
      ensures RowReconciled(before, entries, b, rows[b], now)
    {
      assert Mine(rows[b], org, connector);
    }
  }

  lemma UnlistedRow(before: Rows, rows: Rows, org: OrgId, connector: ConnectorId, entries: seq<Entry>, now: int,
                    a: AccountId)
    requires Reconciled(before, rows, org, connector, entries, now) && a in rows && Mine(rows[a], org, connector)
    requires forall i :: 0 <= i < |entries| ==> entries[i].externalId != rows[a].externalId
    ensures rows[a].status == Missing && rows[a].missingSince.Some? && a in before
    ensures rows[a].profile == before[a].profile
  {
    ListedIffNotMissing(entries, rows[a].externalId);
    hide ListedStatus, UniqueRows;
  }

  /** SyncLDAP: locked, or described as disabled in letters of any case, is DISABLED; anything else is ACTIVE. */
  ghost predicate LdapRow(row: Row, e: LdapEntry) {
    && (row.status == Disabled <==> e.lockedTime != "" || Lower(e.description) == "disabled")
    && (row.status == Active <==> e.lockedTime == "" && Lower(e.description) != "disabled")
    && row.profile == Profile(e.cn, e.mail, e.employeeNumber)
  }

  /** Entry `i` is the last for its account. */
  ghost predicate LastLdap(listing: seq<LdapEntry>, i: nat) {
    i < |listing| && forall j :: i < j < |listing| ==> listing[j].dn != listing[i].dn
  }

  ghost predicate InLdap(listing: seq<LdapEntry>, externalId: string) {
    exists i :: 0 <= i < |listing| && listing[i].dn == externalId
  }

  /** Every listed account has a row as its last entry says, and the rows of unlisted ones are MISSING. */
  ghost predicate LdapStored(rows: Rows, org: OrgId, connector: ConnectorId, listing: seq<LdapEntry>) {
    && (forall i: nat :: LastLdap(listing, i) ==> exists a :: RowFor(rows, a, org, connector, listing[i].dn))
    && (forall i: nat, a :: LastLdap(listing, i) && RowFor(rows, a, org, connector, listing[i].dn) ==>
          LdapRow(rows[a], listing[i]))
    && (forall a :: a in rows && Mine(rows[a], org, connector) && !InLdap(listing, rows[a].externalId) ==>
          rows[a].status == Missing)
  }

  lemma DisabledFolds(s: string)
    ensures EqualFold(s, "DISABLED") <==> Lower(s) == "disabled"
  {
    assert Lower("DISABLED") == "disabled";
  }

  lemma LdapListed(before: Rows, rows: Rows, org: OrgId, connector: ConnectorId, listing: seq<LdapEntry>, now: int,
                   i: nat)
    requires Reconciled(before, rows, org, connector, LdapEntries(listing), now) && LastLdap(listing, i)
    ensures exists a :: RowFor(rows, a, org, connector, listing[i].dn)
    ensures forall a :: RowFor(rows, a, org, connector, listing[i].dn) ==> LdapRow(rows[a], listing[i])
  {
    var entries := LdapEntries(listing);
    assert IsLast(entries, i);
    ListedRow(before, rows, org, connector, entries, now, i);
    DisabledFolds(listing[i].description);
    hide Reconciled, IsLast, LastEntry, FirstEntry, LastEmployee;
  }

  lemma LdapUnlisted(before: Rows, rows: Rows, org: OrgId, connector: ConnectorId, listing: seq<LdapEntry>, now: int,
                     a: AccountId)
    requires Reconciled(before, rows, org, connector, LdapEntries(listing), now)
    requires a in rows && Mine(rows[a], org, connector) && !InLdap(listing, rows[a].externalId)
    ensures rows[a].status == Missing
  {
    var entries := LdapEntries(listing);
    forall i | 0 <= i < |entries|
      ensures entries[i].externalId != rows[a].externalId
    {
      assert listing[i].dn != rows[a].externalId;
    }
    UnlistedRow(before, rows, org, connector, entries, now, a);
  }

  lemma LdapIsStored(before: Rows, rows: Rows, org: OrgId, connector: ConnectorId, listing: seq<LdapEntry>, now: int)
    requires Reconciled(before, rows, org, connector, LdapEntries(listing), now)
    ensures LdapStored(rows, org, connector, listing)
  {
    hide Reconciled, LdapEntries, LdapRow, InLdap;
    forall i: nat | LastLdap(listing, i)
      ensures i < |listing|
      ensures exists a :: RowFor(rows, a, org, connector, listing[i].dn)
      ensures forall a :: RowFor(rows, a, org, connector, listing[i].dn) ==> a in rows && LdapRow(rows[a], listing[i])
    {
      LdapListed(before, rows, org, connector, listing, now, i);
    }
    forall a | a in rows && Mine(rows[a], org, connector) && !InLdap(listing, rows[a].externalId)
      ensures rows[a].status == Missing
    {
      LdapUnlisted(before, rows, org, connector, listing, now, a);
    }
  }

  lemma NewRowTakesFirst(before: Rows, rows: Rows, org: OrgId, connector: ConnectorId, entries: seq<Entry>, now: int,
                         i: nat, a: AccountId)
    requires Reconciled(before, rows, org, connector, entries, now) && IsFirst(entries, i) && a !in before
    requires RowFor(rows, a, org, connector, entries[i].externalId)
    ensures rows[a].providerExternal == entries[i].providerExternal
  {
    FirstIs(entries, i);
    assert Mine(rows[a], org, connector) && RowReconciled(before, entries, a, rows[a], now);
    hide FirstEntry, LastEntry, LastEmployee, ListedStatus, UniqueRows;
  }

  /** SyncSCIM: the state is the active flag; the employee number of a known row is kept. */
  ghost predicate ScimRow(before: Rows, a: AccountId, row: Row, e: ScimUser) {
    && row.status == (if e.active then Active else Disabled)
    && row.profile == Profile(e.displayName, KeptEmail(e.emails), if a in before
          then before[a].profile.employeeNumber else "")
  }

  /** Entry `i` is the last for its account, or the first. */
  ghost predicate LastScim(listing: seq<ScimUser>, i: nat) {
    i < |listing| && forall j :: i < j < |listing| ==> listing[j].id != listing[i].id
  }

  ghost predicate FirstScim(listing: seq<ScimUser>, i: nat) {
    i < |listing| && forall j :: 0 <= j < i ==> listing[j].id != listing[i].id
  }

  ghost predicate InScim(listing: seq<ScimUser>, externalId: string) {
    exists i :: 0 <= i < |listing| && listing[i].id == externalId
  }

  /** Every listed account has a row as its last entry says, and the rows of unlisted ones are MISSING. */
  ghost predicate ScimStored(before: Rows, rows: Rows, org: OrgId, connector: ConnectorId, listing: seq<ScimUser>) {
    && (forall i: nat :: LastScim(listing, i) ==> exists a :: RowFor(rows, a, org, connector, listing[i].id))
    && (forall i: nat, a :: LastScim(listing, i) && RowFor(rows, a, org, connector, listing[i].id) ==>
          ScimRow(before, a, rows[a], listing[i]))
    && (forall i: nat, a :: FirstScim(listing, i) && RowFor(rows, a, org, connector, listing[i].id) && a !in before ==>
          rows[a].providerExternal == listing[i].externalId)
    && (forall a :: a in rows && Mine(rows[a], org, connector) && !InScim(listing, rows[a].externalId) ==>
          rows[a].status == Missing)
  }

  lemma ScimListed(before: Rows, rows: Rows, org: OrgId, connector: ConnectorId, listing: seq<ScimUser>, now: int,
                   i: nat)
    requires Reconciled(before, rows, org, connector, ScimEntries(listing), now) && LastScim(listing, i)
    ensures exists a :: RowFor(rows, a, org, connector, listing[i].id)
    ensures forall a :: RowFor(rows, a, org, connector, listing[i].id) ==> ScimRow(before, a, rows[a], listing[i])
  {
    var entries := ScimEntries(listing);
    assert IsLast(entries, i);
    ListedRow(before, rows, org, connector, entries, now, i);
    NoEmployee(entries, listing[i].id);
    hide KeptEmail;
    hide Reconciled, IsLast, LastEntry, FirstEntry;
  }

  lemma ScimNew(before: Rows, rows: Rows, org: OrgId, connector: ConnectorId, listing: seq<ScimUser>, now: int, i: nat,
               a: AccountId)
    requires Reconciled(before, rows, org, connector, ScimEntries(listing), now) && FirstScim(listing, i)
    requires RowFor(rows, a, org, connector, listing[i].id) && a !in before
    ensures rows[a].providerExternal == listing[i].externalId
  {
    var entries := ScimEntries(listing);
    assert IsFirst(entries, i);
    NewRowTakesFirst(before, rows, org, connector, entries, now, i, a);
  }

  lemma ScimUnlisted(before: Rows, rows: Rows, org: OrgId, connector: ConnectorId, listing: seq<ScimUser>, now: int,
                     a: AccountId)
    requires Reconciled(before, rows, org, connector, ScimEntries(listing), now)
    requires a in rows && Mine(rows[a], org, connector) && !InScim(listing, rows[a].externalId)
    ensures rows[a].status == Missing
  {
    var entries := ScimEntries(listing);
    forall i | 0 <= i < |entries|
      ensures entries[i].externalId != rows[a].externalId
    {
      assert listing[i].id != rows[a].externalId;
    }
    UnlistedRow(before, rows, org, connector, entries, now, a);
  }

  lemma ScimIsStored(before: Rows, rows: Rows, org: OrgId, connector: ConnectorId, listing: seq<ScimUser>, now: int)
    requires Reconciled(before, rows, org, connector, ScimEntries(listing), now)
    ensures ScimStored(before, rows, org, connector, listing)
  {
    hide Reconciled, ScimEntries, ScimRow, InScim;
    forall i: nat | LastScim(listing, i)
      ensures i < |listing|
      ensures exists a :: RowFor(rows, a, org, connector, listing[i].id)
      ensures forall a :: RowFor(rows, a, org, connector, listing[i].id) ==>
              a in rows && ScimRow(before, a, rows[a], listing[i])
    {
      ScimListed(before, rows, org, connector, listing, now, i);
    }
    forall i: nat, a | FirstScim(listing, i) && RowFor(rows, a, org, connector, listing[i].id) && a !in before
      ensures rows[a].providerExternal == listing[i].externalId
    {
      ScimNew(before, rows, org, connector, listing, now, i, a);
    }
    forall a | a in rows && Mine(rows[a], org, connector) && !InScim(listing, rows[a].externalId)
      ensures rows[a].status == Missing
    {
      ScimUnlisted(before, rows, org, connector, listing, now, a);
    }
  }

  /** SyncNative: the state is the active flag, the columns are those of the user. */
  ghost predicate NativeRow(row: Row, e: NativeUser) {
    && row.status == (if e.active then Active else Disabled)
    && row.profile == Profile(e.displayName, e.email, e.employeeNumber)
  }

  /** Entry `i` is the last for its account, or the first. */
  ghost predicate LastNative(listing: seq<NativeUser>, i: nat) {
    i < |listing| && forall j :: i < j < |listing| ==> listing[j].id != listing[i].id
  }

  ghost predicate FirstNative(listing: seq<NativeUser>, i: nat) {
    i < |listing| && forall j :: 0 <= j < i ==> listing[j].id != listing[i].id
  }

  ghost predicate InNative(listing: seq<NativeUser>, externalId: string) {
    exists i :: 0 <= i < |listing| && listing[i].id == externalId
  }

  /** Every listed account has a row as its last entry says, and the rows of unlisted ones are MISSING. */
  ghost predicate NativeStored(before: Rows, rows: Rows, org: OrgId, connector: ConnectorId, listing: seq<NativeUser>) {
    && (forall i: nat :: LastNative(listing, i) ==> exists a :: RowFor(rows, a, org, connector, listing[i].id))
    && (forall i: nat, a :: LastNative(listing, i) && RowFor(rows, a, org, connector, listing[i].id) ==>
          NativeRow(rows[a], listing[i]))
    && (forall i: nat, a ::
          FirstNative(listing, i) && RowFor(rows, a, org, connector, listing[i].id) && a !in before ==>
            rows[a].providerExternal == listing[i].externalId)
    && (forall a :: a in rows && Mine(rows[a], org, connector) && !InNative(listing, rows[a].externalId) ==>
          rows[a].status == Missing)
  }

  lemma NativeListed(before: Rows, rows: Rows, org: OrgId, connector: ConnectorId, listing: seq<NativeUser>, now: int,
                     i: nat)
    requires Reconciled(before, rows, org, connector, NativeEntries(listing), now) && LastNative(listing, i)
    ensures exists a :: RowFor(rows, a, org, connector, listing[i].id)
    ensures forall a :: RowFor(rows, a, org, connector, listing[i].id) ==> NativeRow(rows[a], listing[i])
  {
    var entries := NativeEntries(listing);
    assert IsLast(entries, i);
    ListedRow(before, rows, org, connector, entries, now, i);
    hide Reconciled, IsLast, LastEntry, FirstEntry, LastEmployee;
  }

  lemma NativeNew(before: Rows, rows: Rows, org: OrgId, connector: ConnectorId, listing: seq<NativeUser>, now: int,
                  i: nat,
               a: AccountId)
    requires Reconciled(before, rows, org, connector, NativeEntries(listing), now) && FirstNative(listing, i)
    requires RowFor(rows, a, org, connector, listing[i].id) && a !in before
    ensures rows[a].providerExternal == listing[i].externalId
  {
    var entries := NativeEntries(listing);
    assert IsFirst(entries, i);
    NewRowTakesFirst(before, rows, org, connector, entries, now, i, a);
  }

  lemma NativeUnlisted(before: Rows, rows: Rows, org: OrgId, connector: ConnectorId, listing: seq<NativeUser>, now: int,
                     a: AccountId)
    requires Reconciled(before, rows, org, connector, NativeEntries(listing), now)
    requires a in rows && Mine(rows[a], org, connector) && !InNative(listing, rows[a].externalId)
    ensures rows[a].status == Missing
  {
    var entries := NativeEntries(listing);
    forall i | 0 <= i < |entries|
      ensures entries[i].externalId != rows[a].externalId
    {
      assert listing[i].id != rows[a].externalId;
    }
    UnlistedRow(before, rows, org, connector, entries, now, a);
  }

  lemma NativeIsStored(before: Rows, rows: Rows, org: OrgId, connector: ConnectorId, listing: seq<NativeUser>, now: int)
    requires Reconciled(before, rows, org, connector, NativeEntries(listing), now)
    ensures NativeStored(before, rows, org, connector, listing)
  {
    hide Reconciled, NativeEntries, NativeRow, InNative;
    forall i: nat | LastNative(listing, i)
      ensures i < |listing|
      ensures exists a :: RowFor(rows, a, org, connector, listing[i].id)
      ensures forall a :: RowFor(rows, a, org, connector, listing[i].id) ==> a in rows && NativeRow(rows[a], listing[i])
    {
      NativeListed(before, rows, org, connector, listing, now, i);
    }
    forall i: nat, a | FirstNative(listing, i) && RowFor(rows, a, org, connector, listing[i].id) && a !in before
      ensures rows[a].providerExternal == listing[i].externalId
    {
      NativeNew(before, rows, org, connector, listing, now, i, a);
    }
    forall a | a in rows && Mine(rows[a], org, connector) && !InNative(listing, rows[a].externalId)
      ensures rows[a].status == Missing
    {
      NativeUnlisted(before, rows, org, connector, listing, now, a);
    }
  }

  // ----- The transactions -----

  function MarkUnnamed(rows: Rows, org: OrgId, connector: ConnectorId, seen: seq<string>, now: int): Rows {
    map a | a in rows ::
      if Mine(rows[a], org, connector) && rows[a].externalId !in seen then Marked(rows[a], now) else rows[a]
  }

  function MarkUnseen(rows: Rows, org: OrgId, connector: ConnectorId, seen: seq<AccountId>, now: int): Rows {
    map a | a in rows :: if Mine(rows[a], org, connector) && a !in seen then Marked(rows[a], now) else rows[a]
  }

  class IdentityTable {
    var rows: Rows

    ghost predicate Valid()
      reads this
    {
      UniqueRows(rows)
    }

    constructor ()
      ensures Valid() && rows == map[]
    {
      rows := map[];
    }

    /** SyncLDAP: rows are marked missing by external id. */
    method SyncLdap(org: OrgId, connector: ConnectorId, listing: Result<seq<LdapEntry>, string>, groupsListed: bool,
                    now: int, ids: seq<AccountId>) returns (ok: bool)
      requires Valid() && (listing.Ok? ==> FreshIds(rows, ids, |listing.value|))
      modifies this
      ensures Valid() && (ok <==> listing.Ok? && groupsListed)
      ensures !ok ==> rows == old(rows)
      ensures ok ==> LdapStored(rows, org, connector, listing.value)
      ensures ok ==> Reconciled(old(rows), rows, org, connector, LdapEntries(listing.value), now)
    {
      if listing.Err? || !groupsListed {
        return false;
      }
      hide Discovered, LdapStored;
      var draft, seen := DiscoverLdap(rows, org, connector, listing.value, ids);
      MarkReconciles(rows, draft, MarkUnnamed(draft, org, connector, seen, now), org, connector,
          LdapEntries(listing.value), now);
      LdapIsStored(rows, MarkUnnamed(draft, org, connector, seen, now), org, connector, listing.value, now);
      rows := MarkUnnamed(draft, org, connector, seen, now);
      ok := true;
    }

    /** SyncSCIM: rows are marked missing by row id. */
    method SyncScim(org: OrgId, connector: ConnectorId, listing: Result<seq<ScimUser>, string>, groupsListed: bool,
                    now: int, ids: seq<AccountId>) returns (ok: bool)
      requires Valid() && (listing.Ok? ==> FreshIds(rows, ids, |listing.value|))
      modifies this
      ensures Valid() && (ok <==> listing.Ok? && groupsListed)
      ensures !ok ==> rows == old(rows)
      ensures ok ==> ScimStored(old(rows), rows, org, connector, listing.value)
      ensures ok ==> Reconciled(old(rows), rows, org, connector, ScimEntries(listing.value), now)
    {
      if listing.Err? || !groupsListed {
        return false;
      }
      hide Discovered, ScimStored;
      var draft, seen := DiscoverScim(rows, org, connector, listing.value, ids);
      MarkReconciles(rows, draft, MarkUnseen(draft, org, connector, seen, now), org, connector,
          ScimEntries(listing.value), now);
      ScimIsStored(rows, MarkUnseen(draft, org, connector, seen, now), org, connector, listing.value, now);
      rows := MarkUnseen(draft, org, connector, seen, now);
      ok := true;
    }

    /** SyncNative: as SyncSCIM, with the employee number kept up to date. */
    method SyncNative(org: OrgId, connector: ConnectorId, listing: Result<seq<NativeUser>, string>, groupsListed: bool,
                      now: int, ids: seq<AccountId>) returns (ok: bool)
      requires Valid() && (listing.Ok? ==> FreshIds(rows, ids, |listing.value|))
      modifies this
      ensures Valid() && (ok <==> listing.Ok? && groupsListed)
      ensures !ok ==> rows == old(rows)
      ensures ok ==> NativeStored(old(rows), rows, org, connector, listing.value)
      ensures ok ==> Reconciled(old(rows), rows, org, connector, NativeEntries(listing.value), now)
    {
      if listing.Err? || !groupsListed {
        return false;
      }
      hide Discovered, NativeStored;
      var draft, seen := DiscoverNative(rows, org, connector, listing.value, ids);
      MarkReconciles(rows, draft, MarkUnseen(draft, org, connector, seen, now), org, connector,
          NativeEntries(listing.value), now);
      NativeIsStored(rows, MarkUnseen(draft, org, connector, seen, now), org, connector, listing.value, now);
      rows := MarkUnseen(draft, org, connector, seen, now);
      ok := true;
    }
  }
}
