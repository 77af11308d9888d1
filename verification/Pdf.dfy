/** The report writer: five objects, a cross-reference table (section 7.5.4 of ISO 32000-1) and a trailer. */
module Pdf {
  import opened Common
  import opened PdfText

  // ----- Wrapping -----

  function Join(words: seq<string>): (line: string)
    ensures words != [] && words[0] != "" ==> line != ""
  {
    if words == [] then ""
    else if |words| == 1 then words[0]
    else Join(words[..|words| - 1]) + " " + words[|words| - 1]
  }

  ghost function Flatten(groups: seq<seq<string>>): seq<string> {
    if groups == [] then [] else Flatten(groups[..|groups| - 1]) + groups[|groups| - 1]
  }

  /** A line that fits, or a single word that cannot be broken. */
  ghost predicate Fits(group: seq<string>, width: int) {
    group != [] && (|Join(group)| <= width || |group| == 1)
  }

  /** The lines are the joined groups, and each breaks where the next word would not have fitted. */
  ghost predicate Wrapped(groups: seq<seq<string>>, out: seq<string>, width: int) {
    && |out| == |groups|
    && (forall i :: 0 <= i < |out| ==> out[i] == Join(groups[i]) && Fits(groups[i], width))
    && (forall i :: 0 <= i < |out| - 1 ==> |out[i]| + |groups[i + 1][0]| + 1 > width)
  }

  /** `done` words are on finished lines or on the current one. */
  ghost predicate Wrapping(done: seq<string>, groups: seq<seq<string>>, out: seq<string>, current: seq<string>,
                           width: int) {
    && Flatten(groups) + current == done && Wrapped(groups, out, width)
    && (current == [] ==> groups == [])
    && (current != [] ==> Fits(current, width) && current[0] != "")
    && (current != [] && groups != [] ==> |out[|out| - 1]| + |current[0]| + 1 > width)
  }

  /** wrap after strings.Fields: every word once and in order, on lines filled greedily. */
  method Wrap(words: seq<string>, width: int) returns (out: seq<string>)
    requires forall i :: 0 <= i < |words| ==> words[i] != ""
    ensures exists groups :: Flatten(groups) == words && Wrapped(groups, out, width)
  {
    hide Wrapping, Wrapped, Flatten, Join;
    out := [];
    var line := "";
    ghost var groups: seq<seq<string>> := [];
    ghost var current: seq<string> := [];
    NoLine(width);
    for i := 0 to |words|
      invariant Wrapping(words[..i], groups, out, current, width)
      invariant line == Join(current) && (line == "" <==> current == [])
    {
      var word := words[i];
      assert words[..i + 1] == words[..i] + [word];
      if |line| + |word| + 1 > width && line != "" {
        Breaks(words[..i], groups, out, current, word, width);
        out := out + [line];
        groups := groups + [current];
        line := word;
        current := [word];
      } else {
        Extends(words[..i], groups, out, current, word, width);
        if line != "" {
          line := line + " ";
        }
        line := line + word;
        current := current + [word];
      }
    }
    assert words[..|words|] == words;
    Ends(words, groups, out, current, width);
    if line != "" {
      out := out + [line];
      groups := groups + [current];
    }
    assert Flatten(groups) == words && Wrapped(groups, out, width);
  }

  lemma NoLine(width: int)
    ensures Wrapping([], [], [], [], width) && Join([]) == ""
  {
  }

  lemma Breaks(done: seq<string>, groups: seq<seq<string>>, out: seq<string>, current: seq<string>, word: string,
               width: int)
    requires Wrapping(done, groups, out, current, width) && current != [] && word != ""
    requires |Join(current)| + |word| + 1 > width
    ensures Wrapping(done + [word], groups + [current], out + [Join(current)], [word], width) && Join([word]) == word
  {
    Closes(groups, out, current, width);
  }

  lemma Extends(done: seq<string>, groups: seq<seq<string>>, out: seq<string>, current: seq<string>, word: string,
                width: int)
    requires Wrapping(done, groups, out, current, width) && word != ""
    requires current == [] || |Join(current)| + |word| + 1 <= width
    ensures Wrapping(done + [word], groups, out, current + [word], width)
    ensures Join(current + [word]) == if current == [] then word else Join(current) + " " + word
  {
    hide Wrapped, Flatten;
    assert (current + [word])[..|current|] == current;
    assert Flatten(groups) + (current + [word]) == done + [word];
  }

  lemma Ends(done: seq<string>, groups: seq<seq<string>>, out: seq<string>, current: seq<string>, width: int)
    requires Wrapping(done, groups, out, current, width)
    ensures if current == [] then Flatten(groups) == done && Wrapped(groups, out, width)
            else Flatten(groups + [current]) == done && Wrapped(groups + [current], out + [Join(current)], width)
  {
    hide Join;
    if current != [] {
      Closes(groups, out, current, width);
    } else {
      assert Flatten(groups) + current == Flatten(groups);
    }
  }

  lemma Closes(groups: seq<seq<string>>, out: seq<string>, current: seq<string>, width: int)
    requires Wrapped(groups, out, width) && current != [] && Fits(current, width)
    requires groups != [] ==> |out[|out| - 1]| + |current[0]| + 1 > width
    ensures Wrapped(groups + [current], out + [Join(current)], width)
    ensures Flatten(groups + [current]) == Flatten(groups) + current
  {
    assert (groups + [current])[..|groups|] == groups;
  }

  // ----- The content stream -----

  const BEGIN: string := "BT /F1 16 Tf 54 756 Td 0 -22 Td\n"
  const SMALL: string := "/F1 9 Tf\n"
  const SHOW: string := " Tj 0 -14 Td\n"

  function LineText(line: string, second: bool): string {
    (if second then SMALL else "") + "(" + PdfString(line) + ")" + SHOW
  }

  function ContentFrom(lines: seq<string>, i: nat): string
    requires i <= |lines|
    decreases |lines| - i
  {
    if i == |lines| then "ET" else LineText(lines[i], i == 1) + ContentFrom(lines, i + 1)
  }

  function Content(lines: seq<string>): string {
    BEGIN + ContentFrom(lines, 0)
  }

  method WriteContent(lines: seq<string>) returns (content: string)
    ensures content == Content(lines)
  {
    hide ContentFrom, PdfString;
    content := BEGIN;
    for i := 0 to |lines|
      invariant content + ContentFrom(lines, i) == Content(lines)
    {
      ghost var before := content;
      if i == 1 {
        content := content + SMALL;
      }
      content := content + "(" + PdfString(lines[i]) + ")" + SHOW;
      assert content == before + LineText(lines[i], i == 1);
      NextLine(before, lines, i);
    }
    content := content + "ET";
    LastLine(lines);
  }

  lemma NextLine(before: string, lines: seq<string>, i: nat)
    requires i < |lines|
    ensures before + ContentFrom(lines, i) == before + LineText(lines[i], i == 1) + ContentFrom(lines, i + 1)
  {
    hide LineText;
  }

  lemma LastLine(lines: seq<string>)
    ensures ContentFrom(lines, |lines|) == "ET"
  {
  }

  function SanitisedFrom(lines: seq<string>, i: nat): (r: seq<string>)
    requires i <= |lines|
    ensures |r| == |lines| - i && forall k :: 0 <= k < |r| ==> r[k] == Sanitised(lines[i + k])
    decreases |lines| - i
  {
    if i == |lines| then [] else [Sanitised(lines[i])] + SanitisedFrom(lines, i + 1)
  }

  lemma LineIsRead(line: string, second: bool, rest: string)
    ensures ReadLiterals(LineText(line, second) + rest) == [Sanitised(line)] + ReadLiterals(rest)
  {
    hide Escaped, Sanitised;
    var small := if second then SMALL else "";
    var literal := PdfString(line) + ")" + (SHOW + rest);
    assert LineText(line, second) + rest == small + ("(" + literal);
    OperatorsAreSkipped(small, "(" + literal);
    LiteralRoundTrip(Sanitised(line), SHOW + rest);
    assert ("(" + literal)[1..] == literal;
    OperatorsAreSkipped(SHOW, rest);
  }

  lemma {:induction false} LinesAreRead(lines: seq<string>, i: nat)
    requires i <= |lines|
    ensures ReadLiterals(ContentFrom(lines, i)) == SanitisedFrom(lines, i)
    decreases |lines| - i
  {
    hide LineText;
    if i == |lines| {
      OperatorsAreSkipped("ET", "");
      assert "ET" + "" == "ET";
    } else {
      LinesAreRead(lines, i + 1);
      LineIsRead(lines[i], i == 1, ContentFrom(lines, i + 1));
    }
  }

  /** Every line is there, in order, with its printable ASCII as it was and a dash for anything else. */
  ghost predicate Shows(texts: seq<string>, lines: seq<string>) {
    && |texts| == |lines|
    && forall k :: 0 <= k < |lines| ==> LineShows(texts[k], lines[k])
  }

  ghost predicate LineShows(text: string, line: string) {
    |text| == |line| && forall j :: 0 <= j < |line| ==> text[j] == if ' ' <= line[j] <= '~' then line[j] else '-'
  }

  /** The literals of the content stream are the lines, all of them and in order. */
  lemma ContentRoundTrip(lines: seq<string>)
    ensures Shows(ReadLiterals(Content(lines)), lines)
  {
    OperatorsAreSkipped(BEGIN, ContentFrom(lines, 0));
    LinesAreRead(lines, 0);
  }

  // ----- The file -----

  function StreamObject(stream: string): string {
    "<< /Length " + Decimal(|stream|) + " >>\nstream\n" + stream + "\nendstream"
  }

  const PAGE: string :=
    "/Page /Parent 2 0 R /MediaBox [0 0 612 792] /Resources << /Font << /F1 5 0 R >> >> /Contents "

  /** The five objects around a content stream. */
  function ObjectsAround(stream: string): seq<string> {
    ["<< /Type /Catalog /Pages 2 0 R >>",
     "<< /Type /Pages /Kids [3 0 R] /Count 1 >>",
     "<< /Type " + PAGE + "4 0 R >>",
     StreamObject(stream),
     "<< /Type /Font /Subtype /Type1 /BaseFont /Helvetica >>"]
  }

  function Objects(lines: seq<string>): seq<string> {
    ObjectsAround(Content(lines))
  }

  function ObjectText(i: nat, body: string): string {
    Decimal(i) + " 0 obj\n" + body + "\nendobj\n"
  }

  /** Header and the first `k` objects. */
  function Body(objects: seq<string>, k: nat): string
    requires k <= |objects|
  {
    if k == 0 then "%PDF-1.4\n" else Body(objects, k - 1) + ObjectText(k, objects[k - 1])
  }

  /** Where object `i` begins. */
  function Offset(objects: seq<string>, i: nat): nat
    requires 1 <= i <= |objects|
  {
    |Body(objects, i - 1)|
  }

  function Entry(offset: nat): string {
    Padded(offset) + " 00000 n \n"
  }

  function Entries(objects: seq<string>, k: nat): string
    requires k <= |objects|
  {
    if k == 0 then "0000000000 65535 f \n" else Entries(objects, k - 1) + Entry(Offset(objects, k))
  }

  function Head(objects: seq<string>): string {
    "xref\n0 " + Decimal(|objects| + 1) + "\n"
  }

  function Trailer(objects: seq<string>, xref: nat): string {
    "trailer << /Size " + Decimal(|objects| + 1) + " /Root 1 0 R >>\nstartxref\n" + Decimal(xref) + "\n%%EOF\n"
  }

  function Document(objects: seq<string>): string {
    var body := Body(objects, |objects|);
    body + (Head(objects) + (Entries(objects, |objects|) + Trailer(objects, |body|)))
  }

  method Render(lines: seq<string>) returns (out: string)
    ensures out == Document(Objects(lines))
  {
    hide Body, Entries, Content, ContentFrom;
    var stream := WriteContent(lines);
    var objects := ObjectsAround(stream);
    var offsets: array<nat>;
    out, offsets := WriteObjects(objects);
    var xref := |out|;
    var table := WriteTable(objects, offsets);
    out := out + (Head(objects) + (table + Trailer(objects, xref)));
  }

  method WriteObjects(objects: seq<string>) returns (out: string, offsets: array<nat>)
    ensures out == Body(objects, |objects|)
    ensures fresh(offsets) && offsets.Length == |objects| + 1
    ensures forall i :: 1 <= i <= |objects| ==> offsets[i] == Offset(objects, i)
  {
    out := "%PDF-1.4\n";
    offsets := new nat[|objects| + 1];
    for i := 0 to |objects|
      invariant out == Body(objects, i)
      invariant forall j :: 1 <= j <= i ==> offsets[j] == Offset(objects, j)
    {
      offsets[i + 1] := |out|;
      out := out + ObjectText(i + 1, objects[i]);
    }
  }

  method WriteTable(objects: seq<string>, offsets: array<nat>) returns (table: string)
    requires offsets.Length == |objects| + 1
    requires forall i :: 1 <= i <= |objects| ==> offsets[i] == Offset(objects, i)
    ensures table == Entries(objects, |objects|)
  {
    table := "0000000000 65535 f \n";
    for i := 1 to |objects| + 1
      invariant table == Entries(objects, i - 1)
    {
      table := table + Entry(offsets[i]);
    }
  }

  // ----- The structure of the file -----

  predicate At(s: string, position: nat, t: string) {
    position + |t| <= |s| && s[position..position + |t|] == t
  }

  lemma {:induction false} ObjectsFollow(objects: seq<string>, i: nat, k: nat) returns (rest: string)
    requires i <= k <= |objects|
    ensures Body(objects, k) == Body(objects, i) + rest
  {
    if i == k {
      rest := "";
    } else {
      var before := ObjectsFollow(objects, i, k - 1);
      rest := before + ObjectText(k, objects[k - 1]);
    }
  }

  /** The offset of an object is the byte where it begins. */
  lemma ObjectIsAtOffset(objects: seq<string>, i: nat) returns (rest: string)
    requires 1 <= i <= |objects|
    ensures Offset(objects, i) <= |Document(objects)|
    ensures Document(objects)[Offset(objects, i)..] == ObjectText(i, objects[i - 1]) + rest
  {
    hide ObjectText, Head, Entries, Trailer;
    var more := ObjectsFollow(objects, i, |objects|);
    var body := Body(objects, |objects|);
    var end := Head(objects) + (Entries(objects, |objects|) + Trailer(objects, |body|));
    rest := more + end;
    assert Document(objects) == Body(objects, i - 1) + (ObjectText(i, objects[i - 1]) + rest);
  }

  lemma {:induction false} OffsetsGrow(objects: seq<string>, i: nat, k: nat)
    requires 1 <= i <= k <= |objects|
    ensures Offset(objects, i) <= Offset(objects, k)
  {
    if i < k {
      OffsetsGrow(objects, i, k - 1);
    }
  }

  lemma EntryHasTwentyBytes(offset: nat)
    ensures |Entry(offset)| == 20 <==> offset < 10_000_000_000
  {
    PaddedLength(offset);
  }

  /** Entries of 20 bytes each, so that entry `i` stands at 20 times `i`. */
  lemma {:induction false} EntryIsAtPlace(objects: seq<string>, i: nat, k: nat)
    requires i <= k <= |objects| && forall j :: 1 <= j <= k ==> Offset(objects, j) < 10_000_000_000
    ensures |Entries(objects, k)| == 20 * (k + 1)
    ensures 1 <= i ==> At(Entries(objects, k), 20 * i, Entry(Offset(objects, i)))
  {
    hide Offset, Entry, Body;
    if k > 0 {
      EntryHasTwentyBytes(Offset(objects, k));
      EntryIsAtPlace(objects, if i < k then i else k - 1, k - 1);
      if 1 <= i {
        EntryHasTwentyBytes(Offset(objects, i));
      }
    }
  }

  // ----- A reader that knows the file only -----

  function Strip(prefix: string, s: string): Option<string> {
    if At(s, 0, prefix) then Some(s[|prefix|..]) else None
  }

  lemma StripOf(prefix: string, rest: string)
    ensures Strip(prefix, prefix + rest) == Some(rest)
  {
  }

  /** The number before `%%EOF`. */
  function StartXref(file: string): Option<nat> {
    if |file| >= 7 && At(file, |file| - 7, "\n%%EOF\n") then Some(Value(TrailingDigits(file[..|file| - 7]))) else None
  }

  /** The offset that the cross-reference table at `xref` gives for object `i`. */
  function Lookup(file: string, xref: nat, i: nat): Option<nat> {
    if xref > |file| then None
    else
      var sized :- Strip("xref\n0 ", file[xref..]);
      var size := LeadingDigits(sized);
      var table :- Strip("\n", sized[|size|..]);
      if i >= Value(size) || 20 * i + 20 > |table| then None
      else
        var entry := table[20 * i..20 * i + 20];
        if entry[10..] == " 00000 n \n" then Some(Value(entry[..10])) else None
  }

  /** The stream of object `i` at `offset`, taken by its /Length. */
  function ReadStream(file: string, offset: nat, i: nat): Option<string> {
    if offset > |file| then None
    else
      var sized :- Strip(Decimal(i) + " 0 obj\n<< /Length ", file[offset..]);
      var size := LeadingDigits(sized);
      var data :- Strip(" >>\nstream\n", sized[|size|..]);
      if Value(size) <= |data| && At(data, Value(size), "\nendstream\nendobj\n")
      then Some(data[..Value(size)]) else None
  }

  /** The number at the front of a text, after `prefix`. */
  function NumberAfter(prefix: string, s: string): Option<nat> {
    var rest :- Strip(prefix, s);
    if LeadingDigits(rest) == "" then None else Some(Value(LeadingDigits(rest)))
  }

  /** The object that the trailer, which stands behind the table, calls the root. */
  function Root(file: string, xref: nat): Option<nat> {
    if xref > |file| then None
    else
      var sized :- Strip("xref\n0 ", file[xref..]);
      var size := LeadingDigits(sized);
      var table :- Strip("\n", sized[|size|..]);
      if 20 * Value(size) > |table| then None
      else
        var trailer :- Strip("trailer << /Size ", table[20 * Value(size)..]);
        NumberAfter(" /Root ", trailer[|LeadingDigits(trailer)|..])
  }

  /** The object that object `i`, found through the table, refers to after `key`. */
  function Follow(file: string, xref: nat, i: nat, key: string): Option<nat> {
    var offset :- Lookup(file, xref, i);
    if offset > |file| then None else NumberAfter(Decimal(i) + " 0 obj\n<< /Type " + key, file[offset..])
  }

  /**
   From the end of the file to its lines: startxref, the trailer's root, the page tree, the page, its content stream
   and the literals in it.
   */
  function ReadBack(file: string): Option<seq<string>> {
    var xref :- StartXref(file);
    var catalog :- Root(file, xref);
    var pages :- Follow(file, xref, catalog, "/Catalog /Pages ");
    var page :- Follow(file, xref, pages, "/Pages /Kids [");
    var contents :- Follow(file, xref, page, PAGE);
    var offset :- Lookup(file, xref, contents);
    var stream :- ReadStream(file, offset, contents);
    Some(ReadLiterals(stream))
  }

  /** startxref points at the table. */
  lemma StartXrefIsExact(objects: seq<string>)
    ensures StartXref(Document(objects)) == Some(|Body(objects, |objects|)|)
    ensures At(Document(objects), |Body(objects, |objects|)|, "xref\n0 ")
  {
    hide Body, Entries, Decimal, Value, StartXref, Trailer, Head, TrailerFront;
    var body := Body(objects, |objects|);
    TrailerEnds(objects, |body|);
    DecimalValue(|body|);
    var middle := Head(objects) + Entries(objects, |objects|);
    Regroup(body, Head(objects), Entries(objects, |objects|), TrailerFront(objects), Decimal(|body|), "\n%%EOF\n");
    StartXrefOf(body + (middle + TrailerFront(objects)), Decimal(|body|));
    TableFollows(objects);
  }

  lemma Regroup(a: string, b: string, c: string, d: string, e: string, f: string)
    ensures a + (b + (c + (d + e + f))) == a + (b + c + d) + e + f
  {
    assert b + (c + (d + e + f)) == b + c + d + (e + f);
    assert a + (b + c + d + (e + f)) == a + (b + c + d) + (e + f);
  }

  function TrailerFront(objects: seq<string>): string {
    "trailer << /Size " + Decimal(|objects| + 1) + " /Root 1 0 R >>\nstartxref\n"
  }

  lemma TrailerEnds(objects: seq<string>, xref: nat)
    ensures Trailer(objects, xref) == TrailerFront(objects) + Decimal(xref) + "\n%%EOF\n"
    ensures var front := TrailerFront(objects); front != "" && front[|front| - 1] == '\n'
  {
    hide Decimal;
  }

  lemma StartXrefOf(front: string, digits: string)
    requires AllDigits(digits) && front != "" && !IsDigit(front[|front| - 1])
    ensures StartXref(front + digits + "\n%%EOF\n") == Some(Value(digits))
  {
    hide Value, TrailingDigits;
    var file := front + digits + "\n%%EOF\n";
    assert file[..|file| - 7] == front + digits;
    TrailingDigitsOf(front, digits);
  }

  /** The table, found through startxref, gives for every object the byte where it begins. */
  lemma LookupIsExact(objects: seq<string>, i: nat)
    requires 1 <= i <= |objects| && Offset(objects, |objects|) < 10_000_000_000
    ensures Lookup(Document(objects), |Body(objects, |objects|)|, i) == Some(Offset(objects, i))
  {
    forall j | 1 <= j <= |objects|
      ensures Offset(objects, j) < 10_000_000_000
    {
      OffsetsGrow(objects, j, |objects|);
    }
    EntryIsAtPlace(objects, i, |objects|);
    EntryReads(Offset(objects, i));
    hide Body, Entries, Offset, Entry, Value, Decimal, Lookup;
    var n := Decimal(|objects| + 1);
    var body := Body(objects, |objects|);
    var table := Entries(objects, |objects|) + Trailer(objects, |body|);
    var file := Document(objects);
    TableFollows(objects);
    assert table[20 * i..20 * i + 20] == Entry(Offset(objects, i));
    DecimalValue(|objects| + 1);
    LookupOf(file, |body|, n, table, i);
  }

  lemma TableFollows(objects: seq<string>)
    ensures var body := Body(objects, |objects|); var n := Decimal(|objects| + 1);
            var table := Entries(objects, |objects|) + Trailer(objects, |body|);
            |body| <= |Document(objects)| && Document(objects)[|body|..] == "xref\n0 " + (n + ("\n" + table))
  {
    hide Body, Entries, Trailer, Decimal;
  }

  /** Reading entry `i` of a table that stands at `xref`. */
  lemma LookupOf(file: string, xref: nat, n: string, table: string, i: nat)
    requires xref <= |file| && file[xref..] == "xref\n0 " + (n + ("\n" + table))
    requires AllDigits(n) && i < Value(n) && 20 * i + 20 <= |table| && table[20 * i..20 * i + 20][10..] == " 00000 n \n"
    ensures Lookup(file, xref, i) == Some(Value(table[20 * i..20 * i + 20][..10]))
  {
    hide Value, LeadingDigits, At, Strip;
    StripOf("xref\n0 ", n + ("\n" + table));
    LeadingDigitsOf(n, "\n" + table);
    assert (n + ("\n" + table))[|n|..] == "\n" + table;
    StripOf("\n", table);
  }

  lemma EntryReads(offset: nat)
    requires offset < 10_000_000_000
    ensures |Entry(offset)| == 20 && Entry(offset)[10..] == " 00000 n \n" && Value(Entry(offset)[..10]) == offset
  {
    hide Padded, Value;
    PaddedLength(offset);
    PaddedValue(offset);
    assert Entry(offset)[..10] == Padded(offset);
  }

  /** /Length is the length of the stream, so the reader takes exactly the stream. */
  lemma StreamIsExact(objects: seq<string>, i: nat, stream: string)
    requires 1 <= i <= |objects| && objects[i - 1] == StreamObject(stream)
    ensures ReadStream(Document(objects), Offset(objects, i), i) == Some(stream)
  {
    var rest := ObjectIsAtOffset(objects, i);
    hide Document, Offset, Decimal, Value, ReadStream, ObjectText, StreamObject;
    StreamShape(i, stream, rest);
    DecimalValue(|stream|);
    StreamOf(Document(objects), Offset(objects, i), i, Decimal(|stream|), stream, rest);
  }

  lemma StreamShape(i: nat, stream: string, rest: string)
    ensures var data := stream + ("\nendstream\nendobj\n" + rest);
            ObjectText(i, StreamObject(stream)) + rest ==
            Decimal(i) + " 0 obj\n<< /Length " + (Decimal(|stream|) + (" >>\nstream\n" + data))
  {
    hide Decimal;
  }

  lemma StreamOf(file: string, offset: nat, i: nat, n: string, stream: string, rest: string)
    requires offset <= |file| && AllDigits(n) && Value(n) == |stream|
    requires var data := stream + ("\nendstream\nendobj\n" + rest);
             file[offset..] == Decimal(i) + " 0 obj\n<< /Length " + (n + (" >>\nstream\n" + data))
    ensures ReadStream(file, offset, i) == Some(stream)
  {
    hide Value, Decimal, LeadingDigits, Strip;
    var data := stream + ("\nendstream\nendobj\n" + rest);
    var sized := n + (" >>\nstream\n" + data);
    StripOf(Decimal(i) + " 0 obj\n<< /Length ", sized);
    LeadingDigitsOf(n, " >>\nstream\n" + data);
    assert sized[|n|..] == " >>\nstream\n" + data;
    StripOf(" >>\nstream\n", data);
    assert At(data, |stream|, "\nendstream\nendobj\n");
    assert data[..|stream|] == stream;
  }

  lemma NumberAfterOf(prefix: string, n: nat, rest: string)
    requires rest != "" && !IsDigit(rest[0])
    ensures NumberAfter(prefix, prefix + (Decimal(n) + rest)) == Some(n)
  {
    hide Decimal, Value, LeadingDigits, Strip;
    StripOf(prefix, Decimal(n) + rest);
    LeadingDigitsOf(Decimal(n), rest);
    DecimalValue(n);
  }

  /** The trailer names object 1. */
  lemma RootIsExact(objects: seq<string>)
    requires objects != [] && Offset(objects, |objects|) < 10_000_000_000
    ensures Root(Document(objects), |Body(objects, |objects|)|) == Some(1)
  {
    forall j | 1 <= j <= |objects|
      ensures Offset(objects, j) < 10_000_000_000
    {
      OffsetsGrow(objects, j, |objects|);
    }
    EntryIsAtPlace(objects, 0, |objects|);
    DecimalValue(|objects| + 1);
    TableFollows(objects);
    hide Body, Offset, Entries, Entry, Value, Decimal, Root;
    var body := Body(objects, |objects|);
    var n := Decimal(|objects| + 1);
    RootOf(Document(objects), |body|, n, Entries(objects, |objects|), Trailer(objects, |body|));
    TrailerNamesRoot(objects, |body|);
  }

  lemma TrailerNamesRoot(objects: seq<string>, xref: nat)
    ensures var n := Decimal(|objects| + 1); var more := Trailer(objects, xref);
            && |more| >= 17 + |n| && Strip("trailer << /Size ", more) == Some(more[17..])
            && LeadingDigits(more[17..]) == n && NumberAfter(" /Root ", more[17 + |n|..]) == Some(1)
  {
    hide Decimal, Value, LeadingDigits, NumberAfter, Strip, At;
    var n := Decimal(|objects| + 1);
    var end := " 0 R >>\nstartxref\n" + Decimal(xref) + "\n%%EOF\n";
    var rest := " /Root " + (Decimal(1) + end);
    TrailerShape(n, Decimal(xref));
    SmallNumbers();
    var more := Trailer(objects, xref);
    assert more == "trailer << /Size " + (n + rest);
    hide Trailer;
    StripOf("trailer << /Size ", n + rest);
    assert more[17..] == n + rest;
    LeadingDigitsOf(n, rest);
    NumberAfterOf(" /Root ", 1, end);
    assert more[17 + |n|..] == rest;
  }

  lemma TrailerShape(n: string, x: string)
    ensures "trailer << /Size " + n + " /Root 1 0 R >>\nstartxref\n" + x + "\n%%EOF\n" ==
            "trailer << /Size " + (n + (" /Root " + ("1" + (" 0 R >>\nstartxref\n" + x + "\n%%EOF\n"))))
  {
    assert " /Root 1 0 R >>\nstartxref\n" == " /Root " + "1" + " 0 R >>\nstartxref\n";
    var end := x + "\n%%EOF\n";
    assert " 0 R >>\nstartxref\n" + x + "\n%%EOF\n" == " 0 R >>\nstartxref\n" + end;
  }

  lemma SmallNumbers()
    ensures Decimal(1) == "1" && Decimal(2) == "2" && Decimal(3) == "3" && Decimal(4) == "4"
  {
  }

  lemma RootOf(file: string, xref: nat, n: string, entries: string, trailer: string)
    requires xref <= |file| && file[xref..] == "xref\n0 " + (n + ("\n" + (entries + trailer)))
    requires AllDigits(n) && |entries| == 20 * Value(n) && |trailer| >= 17
    requires Strip("trailer << /Size ", trailer) == Some(trailer[17..])
    ensures var size := LeadingDigits(trailer[17..]);
            Root(file, xref) == NumberAfter(" /Root ", trailer[17 + |size|..])
  {
    hide Value, LeadingDigits, At, Strip, NumberAfter;
    var table := entries + trailer;
    StripOf("xref\n0 ", n + ("\n" + table));
    LeadingDigitsOf(n, "\n" + table);
    assert (n + ("\n" + table))[|n|..] == "\n" + table;
    StripOf("\n", table);
    assert table[20 * Value(n)..] == trailer;
    var size := LeadingDigits(trailer[17..]);
    assert trailer[17..][|size|..] == trailer[17 + |size|..];
  }

  lemma ReferenceShape(i: string, key: string, j: string, rest: string, more: string)
    ensures i + " 0 obj\n" + ("<< /Type " + key + (j + rest)) + "\nendobj\n" + more ==
            i + " 0 obj\n<< /Type " + key + (j + (rest + "\nendobj\n" + more))
  {
    assert " 0 obj\n<< /Type " == " 0 obj\n" + "<< /Type ";
    var tail := "\nendobj\n" + more;
    assert rest + "\nendobj\n" + more == rest + tail;
    assert j + (rest + tail) == (j + rest) + tail;
  }

  /** A reference in an object is followed to the object it names. */
  lemma FollowIsExact(objects: seq<string>, i: nat, key: string, j: nat, rest: string)
    requires 1 <= i <= |objects| && Offset(objects, |objects|) < 10_000_000_000 && rest != "" && !IsDigit(rest[0])
    requires objects[i - 1] == "<< /Type " + key + (Decimal(j) + rest)
    ensures Follow(Document(objects), |Body(objects, |objects|)|, i, key) == Some(j)
  {
    LookupIsExact(objects, i);
    var more := ObjectIsAtOffset(objects, i);
    hide Document, Body, Offset, Decimal, Lookup, NumberAfter;
    var prefix := Decimal(i) + " 0 obj\n<< /Type " + key;
    var tail := rest + "\nendobj\n" + more;
    ReferenceShape(Decimal(i), key, Decimal(j), rest, more);
    NumberAfterOf(prefix, j, tail);
  }

  /** The catalog names the page tree, that the page, and the page its contents. */
  lemma References(lines: seq<string>)
    requires Offset(Objects(lines), 5) < 10_000_000_000
    ensures var objects := Objects(lines);
            var file, xref := Document(objects), |Body(objects, 5)|;
            && Follow(file, xref, 1, "/Catalog /Pages ") == Some(2)
            && Follow(file, xref, 2, "/Pages /Kids [") == Some(3)
            && Follow(file, xref, 3, PAGE) == Some(4)
  {
    var objects := Objects(lines);
    SmallNumbers();
    hide Document, Offset, Body, Content, StreamObject, Decimal, Follow;
    assert objects[0] == "<< /Type " + "/Catalog /Pages " + (Decimal(2) + " 0 R >>");
    assert objects[1] == "<< /Type " + "/Pages /Kids [" + (Decimal(3) + " 0 R] /Count 1 >>");
    assert objects[2] == "<< /Type " + PAGE + (Decimal(4) + " 0 R >>");
    FollowIsExact(objects, 1, "/Catalog /Pages ", 2, " 0 R >>");
    FollowIsExact(objects, 2, "/Pages /Kids [", 3, " 0 R] /Count 1 >>");
    FollowIsExact(objects, 3, PAGE, 4, " 0 R >>");
  }

  /** Reading a rendered file from its end gives back every line, in order and with its printable ASCII unchanged. */
  lemma RenderRoundTrip(lines: seq<string>)
    requires Offset(Objects(lines), 5) < 10_000_000_000
    ensures var back := ReadBack(Document(Objects(lines)));
            back.Some? && Shows(back.value, lines)
  {
    var objects := Objects(lines);
    hide Document, Offset, Body, Content, StreamObject, Lookup, ReadStream;
    hide StartXref, Root, Follow, Shows, ReadLiterals;
    StartXrefIsExact(objects);
    RootIsExact(objects);
    References(lines);
    LookupIsExact(objects, 4);
    StreamIsExact(objects, 4, Content(lines));
    ContentRoundTrip(lines);
  }
}
