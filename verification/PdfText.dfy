/** Text in a PDF: decimal numbers, literal strings (section 7.3.4.2 of ISO 32000-1) and their readers. */
module PdfText {
  import opened Common

  // ----- Numbers -----

  predicate IsDigit(c: char) {
    '0' <= c <= '9'
  }

  ghost predicate AllDigits(s: string) {
    forall i :: 0 <= i < |s| ==> IsDigit(s[i])
  }

  function Digit(n: nat): (c: char)
    requires n < 10
    ensures IsDigit(c)
  {
    '0' + n as char
  }

  function Decimal(n: nat): (s: string)
    ensures s != "" && AllDigits(s)
  {
    if n < 10 then [Digit(n)] else Decimal(n / 10) + [Digit(n % 10)]
  }

  /** `%010d` of a number that is not negative. */
  function Padded(n: nat): (s: string)
    ensures |s| >= 10 && AllDigits(s)
  {
    Zeros(10 - |Decimal(n)|) + Decimal(n)
  }

  function Zeros(n: int): (s: string)
    ensures |s| == (if n > 0 then n else 0) && forall i :: 0 <= i < |s| ==> s[i] == '0'
  {
    seq(if n > 0 then n else 0, i => '0')
  }

  function Value(s: string): nat {
    if s == "" then 0
    else 10 * Value(s[..|s| - 1]) + if IsDigit(s[|s| - 1]) then (s[|s| - 1] - '0') as nat else 0
  }

  function LeadingDigits(s: string): (d: string)
    ensures |d| <= |s| && s[..|d|] == d
  {
    if s != "" && IsDigit(s[0]) then [s[0]] + LeadingDigits(s[1..]) else ""
  }

  function TrailingDigits(s: string): (d: string)
    ensures |d| <= |s| && s[|s| - |d|..] == d
  {
    if s != "" && IsDigit(s[|s| - 1]) then TrailingDigits(s[..|s| - 1]) + [s[|s| - 1]] else ""
  }

  lemma {:induction false} DecimalValue(n: nat)
    ensures Value(Decimal(n)) == n
  {
    if n >= 10 {
      DecimalValue(n / 10);
      var s := Decimal(n);
      assert s[..|s| - 1] == Decimal(n / 10);
    } else {
      assert Decimal(n)[..0] == "";
    }
  }

  lemma {:induction false} ZerosHaveNoValue(k: int, s: string)
    ensures Value(Zeros(k) + s) == Value(s)
    decreases |s|, |Zeros(k)|
  {
    var all := Zeros(k) + s;
    if s == "" {
      if k > 0 {
        assert all[..|all| - 1] == Zeros(k - 1) + s;
        ZerosHaveNoValue(k - 1, s);
      }
    } else {
      assert all[..|all| - 1] == Zeros(k) + s[..|s| - 1];
      ZerosHaveNoValue(k, s[..|s| - 1]);
    }
  }

  lemma PaddedValue(n: nat)
    ensures Value(Padded(n)) == n
  {
    DecimalValue(n);
    ZerosHaveNoValue(10 - |Decimal(n)|, Decimal(n));
  }

  function PowerOfTen(k: nat): nat {
    if k == 0 then 1 else 10 * PowerOfTen(k - 1)
  }

  lemma {:induction false} PowersGrow(k: nat)
    ensures PowerOfTen(k) >= 1 && (k == 0 <==> PowerOfTen(k) == 1)
  {
    if k > 0 { PowersGrow(k - 1); }
  }

  lemma {:induction false} DecimalLength(n: nat, k: nat)
    requires k >= 1
    ensures |Decimal(n)| <= k <==> n < PowerOfTen(k)
  {
    assert PowerOfTen(k) == 10 * PowerOfTen(k - 1);
    PowersGrow(k - 1);
    if n >= 10 {
      if k > 1 {
        DecimalLength(n / 10, k - 1);
      }
    }
  }

  /** A padded number has ten digits exactly when it is below ten to the tenth. */
  lemma PaddedLength(n: nat)
    ensures |Padded(n)| == 10 <==> n < 10_000_000_000
  {
    DecimalLength(n, 10);
    assert PowerOfTen(2) == 100;
    assert PowerOfTen(4) == 10_000;
    assert PowerOfTen(6) == 1_000_000;
    assert PowerOfTen(8) == 100_000_000;
    assert PowerOfTen(10) == 10_000_000_000;
  }

  lemma {:induction false} LeadingDigitsOf(d: string, rest: string)
    requires AllDigits(d) && (rest == "" || !IsDigit(rest[0]))
    ensures LeadingDigits(d + rest) == d
  {
    if d == "" {
      assert d + rest == rest;
    } else {
      assert (d + rest)[1..] == d[1..] + rest;
      LeadingDigitsOf(d[1..], rest);
    }
  }

  lemma {:induction false} TrailingDigitsOf(rest: string, d: string)
    requires AllDigits(d) && (rest == "" || !IsDigit(rest[|rest| - 1]))
    ensures TrailingDigits(rest + d) == d
  {
    if d == "" {
      assert rest + d == rest;
    } else {
      var all := rest + d;
      assert all[..|all| - 1] == rest + d[..|d| - 1];
      TrailingDigitsOf(rest, d[..|d| - 1]);
    }
  }

  // ----- Literal strings -----

  function Printable(c: char): char {
    if c < ' ' || c > '~' then '-' else c
  }

  function Sanitised(s: string): (r: string)
    ensures |r| == |s| && forall i :: 0 <= i < |s| ==> r[i] == if ' ' <= s[i] <= '~' then s[i] else '-'
  {
    seq(|s|, i requires 0 <= i < |s| => Printable(s[i]))
  }

  function EscapedChar(c: char): string {
    if c == '\\' || c == '(' || c == ')' then ['\\', c] else [c]
  }

  function Escaped(s: string): string {
    if s == "" then "" else EscapedChar(s[0]) + Escaped(s[1..])
  }

  function PdfString(s: string): string {
    Escaped(Sanitised(s))
  }

  /** What an escaped character stands for; octal codes, which the writer never emits, are not read. */
  function Unescaped(c: char): char {
    match c
    case 'n' => '\n'
    case 'r' => '\r'
    case 't' => '\t'
    case 'b' => 8 as char
    case 'f' => 12 as char
    case _ => c
  }

  /** Reads a literal after its opening parenthesis: the text and what follows the closing one. */
  function ReadLiteral(s: string, depth: nat): (r: Option<(string, string)>)
    ensures r.Some? ==> |r.value.1| < |s|
  {
    if s == "" then None
    else if s[0] == '\\' then
      (if |s| == 1 then None else Before(Unescaped(s[1]), ReadLiteral(s[2..], depth)))
    else if s[0] == '(' then Before('(', ReadLiteral(s[1..], depth + 1))
    else if s[0] == ')' then
      (if depth == 0 then Some(("", s[1..])) else Before(')', ReadLiteral(s[1..], depth - 1)))
    else Before(s[0], ReadLiteral(s[1..], depth))
  }

  function Before(c: char, r: Option<(string, string)>): Option<(string, string)> {
    match r
    case None => None
    case Some((text, rest)) => Some(([c] + text, rest))
  }

  /** Escaping loses nothing: the reader stops at the closing parenthesis and gives the text back. */
  lemma {:induction false} LiteralRoundTrip(s: string, rest: string)
    ensures ReadLiteral(Escaped(s) + ")" + rest, 0) == Some((s, rest))
  {
    if s == "" {
      assert Escaped(s) + ")" + rest == ")" + rest;
    } else {
      var tail := Escaped(s[1..]) + ")" + rest;
      assert Escaped(s) + ")" + rest == EscapedChar(s[0]) + tail;
      LiteralRoundTrip(s[1..], rest);
      assert s == [s[0]] + s[1..];
      if |EscapedChar(s[0])| == 2 {
        var all := EscapedChar(s[0]) + tail;
        assert all[2..] == tail && all[0] == '\\' && Unescaped(all[1]) == s[0];
      } else {
        assert (EscapedChar(s[0]) + tail)[1..] == tail;
      }
    }
  }

  /** All literals of a content stream. */
  function ReadLiterals(s: string): seq<string>
    decreases |s|
  {
    if s == "" then []
    else if s[0] == '(' then
      match ReadLiteral(s[1..], 0)
      case None => []
      case Some((text, rest)) => [text] + ReadLiterals(rest)
    else ReadLiterals(s[1..])
  }

  lemma {:induction false} OperatorsAreSkipped(t: string, s: string)
    requires forall i :: 0 <= i < |t| ==> t[i] != '('
    ensures ReadLiterals(t + s) == ReadLiterals(s)
  {
    if t == "" {
      assert t + s == s;
    } else {
      assert (t + s)[1..] == t[1..] + s;
      OperatorsAreSkipped(t[1..], s);
    }
  }
}
