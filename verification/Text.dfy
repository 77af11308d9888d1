/** The string operations the services use: trimming, ASCII case folding and substring search. */
module Text {

  /** The characters strings.TrimSpace removes. */
  predicate IsSpace(c: char) {
    || c == ' ' || '\t' <= c <= '\r' || c == '\U{85}' || c == '\U{A0}' || c == '\U{1680}'
    || '\U{2000}' <= c <= '\U{200A}' || c == '\U{2028}' || c == '\U{2029}' || c == '\U{202F}'
    || c == '\U{205F}' || c == '\U{3000}'
  }

  function TrimLeft(s: string): string {
    if s != "" && IsSpace(s[0]) then TrimLeft(s[1..]) else s
  }

  function TrimRight(s: string): string {
    if s != "" && IsSpace(s[|s| - 1]) then TrimRight(s[..|s| - 1]) else s
  }

  function Trim(s: string): string {
    TrimRight(TrimLeft(s))
  }

  function LowerChar(c: char): char {
    if 'A' <= c <= 'Z' then c - 'A' + 'a' else c
  }

  function Lower(s: string): (r: string)
    ensures |r| == |s|
    ensures forall i :: 0 <= i < |s| ==> r[i] == if 'A' <= s[i] <= 'Z' then s[i] - 'A' + 'a' else s[i]
  {
    seq(|s|, i requires 0 <= i < |s| => LowerChar(s[i]))
  }

  lemma {:induction false} TrimLeftDrops(s: string)
    ensures |TrimLeft(s)| <= |s| && TrimLeft(s) == s[|s| - |TrimLeft(s)|..]
    ensures forall i :: 0 <= i < |s| - |TrimLeft(s)| ==> IsSpace(s[i])
    ensures TrimLeft(s) != "" ==> !IsSpace(TrimLeft(s)[0])
  {
    if s != "" && IsSpace(s[0]) {
      hide IsSpace;
      TrimLeftDrops(s[1..]);
      forall i | 0 <= i < |s| - |TrimLeft(s)|
        ensures IsSpace(s[i])
      {
        assert i > 0 ==> s[i] == s[1..][i - 1];
      }
    }
  }

  lemma {:induction false} TrimRightDrops(s: string)
    ensures |TrimRight(s)| <= |s| && TrimRight(s) == s[..|TrimRight(s)|]
    ensures forall i :: |TrimRight(s)| <= i < |s| ==> IsSpace(s[i])
    ensures TrimRight(s) != "" ==> !IsSpace(TrimRight(s)[|TrimRight(s)| - 1])
  {
    if s != "" && IsSpace(s[|s| - 1]) {
      hide IsSpace;
      TrimRightDrops(s[..|s| - 1]);
    }
  }

  lemma TrimCuts(s: string) returns (left: string, right: string)
    ensures s == left + Trim(s) + right && forall c :: c in left || c in right ==> IsSpace(c)
    ensures Trim(s) != "" ==> !IsSpace(Trim(s)[0]) && !IsSpace(Trim(s)[|Trim(s)| - 1])
  {
    hide IsSpace, TrimLeft, TrimRight;
    TrimLeftDrops(s);
    var middle := TrimLeft(s);
    TrimRightDrops(middle);
    left, right := s[..|s| - |middle|], middle[|Trim(s)|..];
    assert s == left + middle && middle == Trim(s) + right;
  }

  predicate Visible(c: char) {
    '!' <= c <= '~'
  }

  predicate AsciiBlank(c: char) {
    c == ' ' || c == '\t' || c == '\n' || c == '\r'
  }

  /**
   Trimming cuts white space off both ends and nothing else: no visible ASCII character is lost, and what is left
   neither begins nor ends with a blank, a tab or a line break.
   */
  lemma TrimIsExact(s: string) returns (left: string, right: string)
    ensures s == left + Trim(s) + right && forall c :: c in left || c in right ==> !Visible(c)
    ensures Trim(s) != "" ==> !AsciiBlank(Trim(s)[0]) && !AsciiBlank(Trim(s)[|Trim(s)| - 1])
  {
    hide Trim;
    left, right := TrimCuts(s);
  }

  /** Trimmed and folded text, as addresses are compared. */
  function Normal(s: string): string {
    Lower(Trim(s))
  }

  predicate EqualFold(a: string, b: string) {
    Lower(a) == Lower(b)
  }

  predicate OccursAt(s: string, needle: string, i: nat) {
    i + |needle| <= |s| && s[i..i + |needle|] == needle
  }

  predicate Contains(s: string, needle: string) {
    exists i: nat :: i <= |s| && OccursAt(s, needle, i)
  }

  lemma OccurrenceChars(s: string, needle: string, i: nat)
    requires OccursAt(s, needle, i)
    ensures forall p :: i <= p < i + |needle| ==> s[p] == needle[p - i]
  {
    assert forall p :: i <= p < i + |needle| ==> s[p] == s[i..i + |needle|][p - i];
  }

  lemma OccursInFront(left: string, rest: string, needle: string, i: nat)
    requires i + |needle| <= |left|
    ensures OccursAt(left + rest, needle, i) <==> OccursAt(left, needle, i)
  {
    assert (left + rest)[i..i + |needle|] == left[i..i + |needle|];
  }

  lemma OccursBehind(front: string, right: string, needle: string, i: nat)
    ensures OccursAt(front + right, needle, |front| + i) <==> OccursAt(right, needle, i)
  {
    if i + |needle| <= |right| {
      assert (front + right)[|front| + i..|front| + i + |needle|] == right[i..i + |needle|];
    }
  }

  /** A needle without the separator lies on one side of it. */
  lemma ContainsAroundSeparator(left: string, separator: char, right: string, needle: string)
    requires separator !in needle && needle != ""
    ensures Contains(left + [separator] + right, needle) <==> Contains(left, needle) || Contains(right, needle)
  {
    var s := left + [separator] + right;
    var front, rest := left + [separator], [separator] + right;
    assert s == left + rest && |front| == |left| + 1;
    if Contains(s, needle) {
      var i: nat :| i <= |s| && OccursAt(s, needle, i);
      OccurrenceChars(s, needle, i);
      assert s[|left|] == separator;
      assert i + |needle| <= |left| || i > |left|;
      if i + |needle| <= |left| {
        OccursInFront(left, rest, needle, i);
      } else {
        OccursBehind(front, right, needle, i - |front|);
      }
    }
    hide OccursAt;
    if Contains(left, needle) {
      var i: nat :| i <= |left| && OccursAt(left, needle, i);
      OccurrenceFits(left, needle, i);
      OccursInFront(left, rest, needle, i);
    }
    if Contains(right, needle) {
      var i: nat :| i <= |right| && OccursAt(right, needle, i);
      OccursBehind(front, right, needle, i);
      assert |front| + i <= |s|;
    }
  }

  lemma OccurrenceFits(s: string, needle: string, i: nat)
    requires OccursAt(s, needle, i)
    ensures i + |needle| <= |s|
  {
  }
}
