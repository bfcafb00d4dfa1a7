// Decimal integers as text: `str(n)` for formatting and Python's `int(s)` for parsing
// (surrounding whitespace, an optional sign, ASCII digits with single `_` separators).

module Numerals {
  import opened Common
  import opened Text

  function DigitChar(d: nat): (c: char)
    requires d < 10
    ensures IsAsciiDigit(c) && c as int - '0' as int == d
  {
    ('0' as int + d) as char
  }

  /** `str(n)` for n >= 0: the shortest decimal spelling. */
  function NatToString(n: nat): (s: string)
    ensures |s| >= 1
    ensures forall i :: 0 <= i < |s| ==> IsAsciiDigit(s[i])
    ensures |s| > 1 ==> s[0] != '0'
    decreases n
  {
    if n < 10 then [DigitChar(n)] else NatToString(n / 10) + [DigitChar(n % 10)]
  }

  /** `str(n)` for any integer. */
  function IntToString(n: int): (s: string)
    ensures |s| >= 1
    ensures forall i :: 0 <= i < |s| ==> s[i] != ',' && s[i] != ':' && !IsSpace(s[i])
  {
    if n >= 0 then NatToString(n) else "-" + NatToString(-n)
  }

  /** The value of a non-empty string of ASCII digits. */
  function DigitsValue(s: string): nat
    requires forall i :: 0 <= i < |s| ==> IsAsciiDigit(s[i])
  {
    if s == [] then 0
    else
      var d := s[|s| - 1] as int - '0' as int;
      assert 0 <= d <= 9 by { assert IsAsciiDigit(s[|s| - 1]); }
      DigitsValue(s[..|s| - 1]) * 10 + d
  }

  lemma {:induction false} DigitsOfNat(n: nat)
    ensures DigitsValue(NatToString(n)) == n
    decreases n
  {
    if n >= 10 {
      DigitsOfNat(n / 10);
      var s := NatToString(n);
      assert s[..|s| - 1] == NatToString(n / 10);
    }
  }

  /** Digits with single underscores between them, as Python's `int` accepts. */
  predicate WellFormedDigits(s: string)
  {
    |s| >= 1 && IsAsciiDigit(s[0]) && IsAsciiDigit(s[|s| - 1])
    && (forall i :: 0 <= i < |s| ==> IsAsciiDigit(s[i]) || s[i] == '_')
    && (forall i :: 0 <= i < |s| - 1 ==> !(s[i] == '_' && s[i + 1] == '_'))
  }

  /** The digits of s with the underscores dropped. */
  function DropUnderscores(s: string): (r: string)
    requires forall i :: 0 <= i < |s| ==> IsAsciiDigit(s[i]) || s[i] == '_'
    ensures forall i :: 0 <= i < |r| ==> IsAsciiDigit(r[i])
  {
    if s == [] then []
    else (if s[0] == '_' then [] else [s[0]]) + DropUnderscores(s[1..])
  }

  lemma DropUnderscoresOfDigits(s: string)
    requires forall i :: 0 <= i < |s| ==> IsAsciiDigit(s[i])
    ensures DropUnderscores(s) == s
  {
  }

  /** Python's `int(s)` on a `str`: None where Python raises ValueError. */
  function ParseInt(s: string): (r: Option<int>)
    ensures r.Some? ==> Strip(s) != []
  {
    var t := Strip(s);
    if t == [] then None
    else
      var neg := t[0] == '-';
      var body := if t[0] == '-' || t[0] == '+' then t[1..] else t;
      if !WellFormedDigits(body) then None
      else
        var v: int := DigitsValue(DropUnderscores(body));
        Some(if neg then -v else v)
  }

  /** Formatting then parsing gives the number back. */
  lemma IntRoundTrip(n: int)
    ensures ParseInt(IntToString(n)) == Some(n)
  {
    var s := IntToString(n);
    StripOfTrimmed(s);
    assert Strip(s) == s;
    if n >= 0 {
      NatStringParses(n);
      assert IsAsciiDigit(s[0]);
    } else {
      NatStringParses(-n);
      assert s[0] == '-' && s[1..] == NatToString(-n);
    }
  }

  /** The spelling of a natural number is well-formed digits whose value is the number. */
  lemma NatStringParses(m: nat)
    ensures WellFormedDigits(NatToString(m))
    ensures DigitsValue(DropUnderscores(NatToString(m))) == m
  {
    DigitsOfNat(m);
    DropUnderscoresOfDigits(NatToString(m));
  }

  /** Surrounding whitespace does not change what `int` parses. */
  lemma {:induction false} ParseIntIgnoresSpace(s: string)
    requires Strip(s) != []
    ensures ParseInt(s) == ParseInt(Strip(s))
  {
    StripIdempotent(s);
  }
}
