/** Text as the stores use it: decimal numerals, trimming, and splitting at a separator. */
module Text {

  ghost predicate Free(s: string, c: char) {
    forall i :: 0 <= i < |s| ==> s[i] != c
  }

  predicate IsSpace(c: char) {
    c in {' ', '\t', '\n', '\r'}
  }

  function TrimLeft(s: string): string {
    if s != [] && IsSpace(s[0]) then TrimLeft(s[1..]) else s
  }

  function TrimRight(s: string): string {
    if s != [] && IsSpace(s[|s| - 1]) then TrimRight(s[..|s| - 1]) else s
  }

  /** `str.strip`. */
  function Strip(s: string): string {
    TrimRight(TrimLeft(s))
  }

  function LowerChar(c: char): char {
    if 'A' <= c <= 'Z' then c - 'A' + 'a' else c
  }

  function Lower(s: string): string {
    seq(|s|, i requires 0 <= i < |s| => LowerChar(s[i]))
  }

  /** The decimal numeral of a number. */
  function Decimal(n: nat): string {
    if n < 10 then [Digit(n)] else Decimal(n / 10) + [Digit(n % 10)]
  }

  function Digit(d: nat): char
    requires d < 10
  {
    '0' + d as char
  }

  lemma {:induction false} DecimalDigits(n: nat)
    ensures Decimal(n) != [] && forall i :: 0 <= i < |Decimal(n)| ==> '0' <= Decimal(n)[i] <= '9'
  {
    if n >= 10 {
      DecimalDigits(n / 10);
    }
  }

  lemma OneDigit(n: nat)
    ensures |Decimal(n)| == 1 <==> n < 10
  {
    if n >= 10 {
      DecimalDigits(n / 10);
    }
  }

  /** Different numbers have different numerals. */
  lemma {:induction false} DecimalInjective(m: nat, n: nat)
    requires Decimal(m) == Decimal(n)
    ensures m == n
    decreases m + n
  {
    var s, t := Decimal(m), Decimal(n);
    OneDigit(m);
    OneDigit(n);
    assert s[|s| - 1] == t[|t| - 1];
    if m >= 10 {
      assert s[..|s| - 1] == Decimal(m / 10) && t[..|t| - 1] == Decimal(n / 10);
      DecimalInjective(m / 10, n / 10);
    }
  }

  /** Where the same text has an earlier separator, the part after it has one too, and the part
      before the later one as well. */
  lemma SeparatorsApart(a: string, b: string, a': string, b': string, sep: char)
    requires a + [sep] + b == a' + [sep] + b' && |a| < |a'|
    ensures !Free(b, sep) && !Free(a', sep)
  {
    var s := a + [sep] + b;
    assert s[|a'|] == sep && s[|a|] == sep;
    assert b[|a'| - |a| - 1] == s[|a'|] && a'[|a|] == s[|a|];
  }

  lemma SameSplit(a: string, b: string, a': string, b': string, sep: char)
    requires a + [sep] + b == a' + [sep] + b' && |a| == |a'|
    ensures a == a' && b == b'
  {
    var s := a + [sep] + b;
    assert a == s[..|a|] && a' == s[..|a'|];
    assert b == s[|a| + 1..] && b' == s[|a'| + 1..];
  }

  /** A last part without the separator is determined by the whole. */
  lemma LastPart(a: string, b: string, a': string, b': string, sep: char)
    requires a + [sep] + b == a' + [sep] + b' && Free(b, sep) && Free(b', sep)
    ensures a == a' && b == b'
  {
    hide Free;
    if |a| == |a'| {
      SameSplit(a, b, a', b', sep);
    } else if |a| < |a'| {
      SeparatorsApart(a, b, a', b', sep);
    } else {
      SeparatorsApart(a', b', a, b, sep);
    }
  }

  /** A first part without the separator is determined by the whole. */
  lemma FirstPart(a: string, b: string, a': string, b': string, sep: char)
    requires a + [sep] + b == a' + [sep] + b' && Free(a, sep) && Free(a', sep)
    ensures a == a' && b == b'
  {
    hide Free;
    if |a| == |a'| {
      SameSplit(a, b, a', b', sep);
    } else if |a| < |a'| {
      SeparatorsApart(a, b, a', b', sep);
    } else {
      SeparatorsApart(a', b', a, b, sep);
    }
  }
}
