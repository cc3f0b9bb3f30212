/**
 * String helpers that the dashboard's code gets from JavaScript: decimal
 * numerals of array indices, splitting a dotted path, and `String.prototype.trim`.
 */
module Strings {
  import opened Wrappers

  predicate IsDigit(c: char) {
    '0' <= c <= '9'
  }

  predicate AllDigits(s: string) {
    forall i :: 0 <= i < |s| ==> IsDigit(s[i])
  }

  function DigitChar(d: nat): (c: char)
    requires d < 10
    ensures IsDigit(c) && c as int - '0' as int == d
  {
    ('0' as int + d) as char
  }

  /** The numeral JavaScript writes for a non-negative integer (`String(n)`). */
  function DecimalText(n: nat): (s: string)
    ensures |s| > 0 && AllDigits(s)
    ensures s[0] == '0' ==> n == 0
    decreases n
  {
    if n < 10 then [DigitChar(n)] else DecimalText(n / 10) + [DigitChar(n % 10)]
  }

  /** The value of a string of decimal digits. */
  function DigitsValue(s: string): nat
    requires AllDigits(s)
  {
    if s == [] then 0
    else DigitsValue(s[..|s| - 1]) * 10 + (s[|s| - 1] as int - '0' as int)
  }

  /**
   * A property key read as an array index: only a canonical numeral (digits,
   * no leading zero except "0" itself) names an element.
   */
  function ParseIndex(s: string): Option<nat> {
    if s != [] && AllDigits(s) && (s[0] != '0' || |s| == 1) then Some(DigitsValue(s)) else None
  }

  lemma {:induction false} DigitsValueOfDecimalText(n: nat)
    ensures DigitsValue(DecimalText(n)) == n
    decreases n
  {
    if n >= 10 {
      var s := DecimalText(n);
      assert s[..|s| - 1] == DecimalText(n / 10);
      DigitsValueOfDecimalText(n / 10);
    }
  }

  /** Reading the numeral of n as an index gives back n. */
  lemma DecimalTextParses(n: nat)
    ensures ParseIndex(DecimalText(n)) == Some(n)
  {
    DigitsValueOfDecimalText(n);
  }

  lemma {:induction false} LeadingNonZeroIsPositive(s: string)
    requires s != [] && AllDigits(s) && s[0] != '0'
    ensures DigitsValue(s) >= 1
    decreases |s|
  {
    if |s| > 1 {
      LeadingNonZeroIsPositive(s[..|s| - 1]);
    }
  }

  /** The only key that reads as index n is the numeral of n. */
  lemma {:induction false} ParsedIndexIsCanonical(s: string)
    requires ParseIndex(s).Some?
    ensures s == DecimalText(ParseIndex(s).value)
    decreases |s|
  {
    var n := DigitsValue(s);
    if |s| == 1 {
      assert s[..0] == [] && DigitsValue(s[..0]) == 0;
      assert n == DigitsValue(s[..0]) * 10 + (s[0] as int - '0' as int);
      assert n < 10;
      assert DigitChar(n) == s[0];
    } else {
      var p := s[..|s| - 1];
      assert p[0] == s[0];
      LeadingNonZeroIsPositive(p);
      ParsedIndexIsCanonical(p);
      assert n / 10 == DigitsValue(p) && n % 10 == s[|s| - 1] as int - '0' as int;
      assert DecimalText(n) == DecimalText(n / 10) + [DigitChar(n % 10)];
      assert s == p + [s[|s| - 1]];
    }
  }

  /** The position of the first occurrence of c in s. */
  function IndexOf(s: string, c: char): (k: nat)
    requires c in s
    ensures k < |s| && s[k] == c
    ensures forall i :: 0 <= i < k ==> s[i] != c
  {
    if s[0] == c then 0 else 1 + IndexOf(s[1..], c)
  }

  /** `s.split(sep)`: the pieces between separators, empty pieces kept. */
  function Split(s: string, sep: char): (parts: seq<string>)
    ensures |parts| > 0
    ensures forall i :: 0 <= i < |parts| ==> sep !in parts[i]
    decreases |s|
  {
    if sep !in s then [s]
    else
      var k := IndexOf(s, sep);
      assert sep !in s[..k] by {
        forall i | 0 <= i < k ensures s[..k][i] != sep { }
      }
      [s[..k]] + Split(s[k + 1..], sep)
  }

  /** `parts.join(sep)`. */
  function Join(parts: seq<string>, sep: char): string
    requires |parts| > 0
  {
    if |parts| == 1 then parts[0] else parts[0] + [sep] + Join(parts[1..], sep)
  }

  lemma {:induction false} JoinSplit(s: string, sep: char)
    ensures Join(Split(s, sep), sep) == s
    decreases |s|
  {
    if sep in s {
      var k := IndexOf(s, sep);
      JoinSplit(s[k + 1..], sep);
      assert s == s[..k] + [sep] + s[k + 1..];
    }
  }

  /** The first separator in `p + [sep] + t` is the one right after a separator-free p. */
  lemma {:induction false} IndexOfAfterPiece(p: string, sep: char, t: string)
    requires sep !in p
    ensures sep in p + [sep] + t
    ensures IndexOf(p + [sep] + t, sep) == |p|
    decreases |p|
  {
    var s := p + [sep] + t;
    assert s[|p|] == sep;
    if p != [] {
      assert s[0] == p[0] && s[1..] == p[1..] + [sep] + t;
      IndexOfAfterPiece(p[1..], sep, t);
    }
  }

  /** Splitting a piece, a separator and a rest gives the piece, then the rest's pieces. */
  lemma SplitAfterPiece(p: string, sep: char, t: string)
    requires sep !in p
    ensures Split(p + [sep] + t, sep) == [p] + Split(t, sep)
  {
    var s := p + [sep] + t;
    IndexOfAfterPiece(p, sep, t);
    assert s[..|p|] == p;
    assert s[|p| + 1..] == t;
  }

  lemma {:induction false} SplitJoin(parts: seq<string>, sep: char)
    requires |parts| > 0
    requires forall i :: 0 <= i < |parts| ==> sep !in parts[i]
    ensures Split(Join(parts, sep), sep) == parts
    decreases |parts|
  {
    assert sep !in parts[0];
    if |parts| == 1 {
      assert Join(parts, sep) == parts[0];
    } else {
      var rest := parts[1..];
      var tail := Join(rest, sep);
      assert Join(parts, sep) == parts[0] + [sep] + tail;
      SplitAfterPiece(parts[0], sep, tail);
      TailIsSeparatorFree(parts, sep);
      SplitJoin(rest, sep);
      assert [parts[0]] + rest == parts;
    }
  }

  /** The pieces after the first are separator-free when all are. */
  lemma TailIsSeparatorFree(parts: seq<string>, sep: char)
    requires |parts| > 0
    requires forall i :: 0 <= i < |parts| ==> sep !in parts[i]
    ensures forall i :: 0 <= i < |parts| - 1 ==> sep !in parts[1..][i]
  {
    forall i | 0 <= i < |parts| - 1
      ensures sep !in parts[1..][i]
    {
      assert parts[1..][i] == parts[i + 1];
    }
  }

  /** The white space and line terminators that `String.prototype.trim` strips. */
  predicate IsJsWhitespace(c: char) {
    c == '\t' || c == '\n' || c == '\U{000B}' || c == '\U{000C}' || c == '\r' || c == ' '
    || c == '\U{00A0}' || c == '\U{1680}' || ('\U{2000}' <= c <= '\U{200A}')
    || c == '\U{2028}' || c == '\U{2029}' || c == '\U{202F}' || c == '\U{205F}'
    || c == '\U{3000}' || c == '\U{FEFF}'
  }

  function TrimStart(s: string): (r: string)
    ensures |r| <= |s| && r == s[|s| - |r|..]
    ensures forall i :: 0 <= i < |s| - |r| ==> IsJsWhitespace(s[i])
    ensures |r| > 0 ==> !IsJsWhitespace(r[0])
  {
    if s != [] && IsJsWhitespace(s[0]) then TrimStart(s[1..]) else s
  }

  function TrimEnd(s: string): (r: string)
    ensures |r| <= |s| && r == s[..|r|]
    ensures forall i :: |r| <= i < |s| ==> IsJsWhitespace(s[i])
    ensures |r| > 0 ==> !IsJsWhitespace(r[|r| - 1])
  {
    if s != [] && IsJsWhitespace(s[|s| - 1]) then TrimEnd(s[..|s| - 1]) else s
  }

  /** How many white-space characters `trim` removes from the front of s. */
  function LeadingWhitespace(s: string): (k: nat)
    ensures k <= |s|
  {
    |s| - |TrimStart(s)|
  }

  /** `s.trim()`: s without its leading and trailing white space. */
  function Trim(s: string): (r: string)
    ensures |r| > 0 ==> !IsJsWhitespace(r[0]) && !IsJsWhitespace(r[|r| - 1])
  {
    TrimEnd(TrimStart(s))
  }

  /** Trimming one space before a text that starts and ends non-blank drops just that space. */
  lemma TrimDropsOneSpace(u: string)
    requires |u| > 0 && !IsJsWhitespace(u[0]) && !IsJsWhitespace(u[|u| - 1])
    ensures Trim([' '] + u) == u
  {
    var t := [' '] + u;
    assert t[1..] == u;
    assert TrimStart(t) == TrimStart(u);
    assert TrimStart(u) == u;
    assert TrimEnd(u) == u;
  }

  /**
   * `trim` keeps the middle of s: its result is the slice of s that starts
   * after the leading white space, and only white space lies on either side.
   */
  lemma TrimKeepsMiddle(s: string)
    ensures var r := Trim(s);
            var k := LeadingWhitespace(s);
            k + |r| <= |s| && (forall i :: 0 <= i < |r| ==> r[i] == s[k + i])
            && (forall i :: 0 <= i < k ==> IsJsWhitespace(s[i]))
            && (forall i :: k + |r| <= i < |s| ==> IsJsWhitespace(s[i]))
  {
    TrimmedSlice(s);
    TrailingWhitespace(s);
  }

  /** A prefix of a suffix of s is a slice of s. */
  lemma PrefixOfSuffix(s: string, k: nat, t: string, r: string)
    requires k <= |s| && t == s[k..] && |r| <= |t| && r == t[..|r|]
    ensures k + |r| <= |s| && forall i :: 0 <= i < |r| ==> r[i] == s[k + i]
  {
  }

  /** What lies past a prefix of a suffix of s is past the same prefix in s. */
  lemma PastPrefixOfSuffix(s: string, k: nat, t: string, r: string, P: char -> bool)
    requires k <= |s| && t == s[k..] && |r| <= |t|
    requires forall i :: |r| <= i < |t| ==> P(t[i])
    ensures forall i :: k + |r| <= i < |s| ==> P(s[i])
  {
    forall i | k + |r| <= i < |s|
      ensures P(s[i])
    {
      assert s[i] == t[i - k];
    }
  }

  /** What `trim` keeps is the slice of s that starts after the leading white space. */
  lemma TrimmedSlice(s: string)
    ensures var r := TrimEnd(TrimStart(s));
            var k := LeadingWhitespace(s);
            k + |r| <= |s| && forall i :: 0 <= i < |r| ==> r[i] == s[k + i]
  {
    var t := TrimStart(s);
    var r := TrimEnd(t);
    var k := LeadingWhitespace(s);
    assert k == |s| - |t|;
    assert t == s[k..];
    assert r == t[..|r|];
    PrefixOfSuffix(s, k, t, r);
  }

  /** Everything of s past the slice that `trim` keeps is white space. */
  lemma TrailingWhitespace(s: string)
    ensures var r := TrimEnd(TrimStart(s));
            var k := LeadingWhitespace(s);
            forall i :: k + |r| <= i < |s| ==> IsJsWhitespace(s[i])
  {
    var t := TrimStart(s);
    var r := TrimEnd(t);
    var k := LeadingWhitespace(s);
    assert k == |s| - |t|;
    assert t == s[k..];
    PastPrefixOfSuffix(s, k, t, r, IsJsWhitespace);
  }

  lemma TrimUnpadded(s: string)
    requires |s| > 0 ==> !IsJsWhitespace(s[0]) && !IsJsWhitespace(s[|s| - 1])
    ensures Trim(s) == s
  {
  }
}
