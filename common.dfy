// Shared value types and small numeric helpers used by every other module.

module Common {

  /** An optional value, for the source's `None`-or-value results. */
  datatype Option<T> = None | Some(value: T)
  {
    predicate IsSome() { Some? }
  }

  /** The outcome of an operation that can fail with an error of type E. */
  datatype Result<T, E> = Ok(value: T) | Err(error: E)

  /** The low / medium / high grading used for confidences, reach and risk. */
  datatype Level = Low | Medium | High

  function MaxInt(a: int, b: int): (r: int)
    ensures r >= a && r >= b && (r == a || r == b)
  {
    if a >= b then a else b
  }

  function MinInt(a: int, b: int): (r: int)
    ensures r <= a && r <= b && (r == a || r == b)
  {
    if a <= b then a else b
  }

  function MaxReal(a: real, b: real): (r: real)
    ensures r >= a && r >= b && (r == a || r == b)
  {
    if a >= b then a else b
  }

  function MinReal(a: real, b: real): (r: real)
    ensures r <= a && r <= b && (r == a || r == b)
  {
    if a <= b then a else b
  }

  /** `int(x)` on a float: truncation toward zero. */
  function Trunc(x: real): (n: int)
    ensures x >= 0.0 ==> n as real <= x < n as real + 1.0
    ensures x < 0.0 ==> n as real - 1.0 < x <= n as real
  {
    if x >= 0.0 then x.Floor else -((-x).Floor)
  }

  /** `max(lo, min(x, hi))`: clamps x into [lo, hi], and leaves values already there alone. */
  function Clamp(x: real, lo: real, hi: real): (r: real)
    requires lo <= hi
    ensures lo <= r <= hi
    ensures lo <= x <= hi ==> r == x
    ensures x < lo ==> r == lo
    ensures x > hi ==> r == hi
  {
    MaxReal(lo, MinReal(x, hi))
  }

  /** Integer clamp, `max(lo, min(x, hi))`. */
  function ClampInt(x: int, lo: int, hi: int): (r: int)
    requires lo <= hi
    ensures lo <= r <= hi
    ensures lo <= x <= hi ==> r == x
    ensures x < lo ==> r == lo
    ensures x > hi ==> r == hi
  {
    MaxInt(lo, MinInt(x, hi))
  }

  /** Python's `a / b if b else 0.0`. */
  function SafeDiv(a: real, b: real): (r: real)
    ensures b == 0.0 ==> r == 0.0
    ensures b != 0.0 ==> r * b == a
  {
    if b == 0.0 then 0.0 else a / b
  }

  lemma SafeDivUnit(a: real, b: real)
    requires 0.0 <= a <= b
    ensures 0.0 <= SafeDiv(a, b) <= 1.0
  {
    if b != 0.0 {
      assert SafeDiv(a, b) * b == a;
    }
  }

  /** Python's `s[:n]` for n >= 0. */
  function Take<T>(s: seq<T>, n: nat): (r: seq<T>)
    ensures |r| == if n < |s| then n else |s|
    ensures r == s[..|r|]
  {
    if n < |s| then s[..n] else s
  }

  function Sum(s: seq<int>): int
  {
    if s == [] then 0 else s[0] + Sum(s[1..])
  }

  function SumReal(s: seq<real>): real
  {
    if s == [] then 0.0 else s[0] + SumReal(s[1..])
  }

  lemma {:induction false} SumRealBounds(s: seq<real>, lo: real, hi: real)
    requires forall i :: 0 <= i < |s| ==> lo <= s[i] <= hi
    ensures lo * |s| as real <= SumReal(s) <= hi * |s| as real
  {
    if s != [] {
      SumRealBounds(s[1..], lo, hi);
    }
  }

  lemma {:induction false} SumRealAppend(s: seq<real>, x: real)
    ensures SumReal(s + [x]) == SumReal(s) + x
  {
    if s == [] {
      assert [x][1..] == [];
    } else {
      assert (s + [x])[1..] == s[1..] + [x];
      SumRealAppend(s[1..], x);
    }
  }

  lemma {:induction false} SumAppend(s: seq<int>, x: int)
    ensures Sum(s + [x]) == Sum(s) + x
  {
    if s == [] {
      assert [x][1..] == [];
    } else {
      assert (s + [x])[1..] == s[1..] + [x];
      SumAppend(s[1..], x);
    }
  }

  /** The mean of a non-empty list of values in [lo, hi] lies in [lo, hi]. */
  lemma MeanBounds(s: seq<real>, lo: real, hi: real)
    requires |s| > 0
    requires forall i :: 0 <= i < |s| ==> lo <= s[i] <= hi
    ensures lo <= SumReal(s) / |s| as real <= hi
  {
    SumRealBounds(s, lo, hi);
  }

  /** Nearest integer to y, ties to the even neighbour (Python's rounding rule). */
  function RoundHalfEven(y: real): (n: int)
    ensures y - 0.5 <= n as real <= y + 0.5
  {
    var f := y.Floor;
    var frac := y - f as real;
    if frac < 0.5 then f
    else if frac > 0.5 then f + 1
    else if f % 2 == 0 then f else f + 1
  }

  lemma RoundHalfEvenMonotone(a: real, b: real)
    requires a <= b
    ensures RoundHalfEven(a) <= RoundHalfEven(b)
  {
    var fa, fb := a.Floor, b.Floor;
    if fa < fb {
      assert RoundHalfEven(a) <= fa + 1 <= fb <= RoundHalfEven(b);
    }
  }

  /** The number of units per 1.0 when rounding to 2, 3 or 4 decimal places. */
  type Scale = s: nat | s >= 1 witness 1

  const Digits2: Scale := 100
  const Digits3: Scale := 1000
  const Digits4: Scale := 10000

  /** x measured in units of 1/scale. */
  function Scaled(x: real, scale: Scale): real
  {
    x * scale as real
  }

  /** n units of 1/scale. */
  function Unscaled(n: int, scale: Scale): real
  {
    n as real / scale as real
  }

  /**
   * Python's `round(x, d)` on exact values, where `scale` is 10 to the power d:
   * the nearest multiple of 1/scale, ties to even.
   */
  function Round(x: real, scale: Scale): real
  {
    Unscaled(RoundHalfEven(Scaled(x, scale)), scale)
  }

  lemma ScaledMonotone(x: real, y: real, scale: Scale)
    requires x <= y
    ensures Scaled(x, scale) <= Scaled(y, scale)
  {
  }

  lemma UnscaledMonotone(n: int, m: int, scale: Scale)
    requires n <= m
    ensures Unscaled(n, scale) <= Unscaled(m, scale)
  {
  }

  lemma UnscaledOfScaled(k: int, scale: Scale)
    ensures Scaled(k as real, scale) == (k * scale) as real
    ensures Unscaled(k * scale, scale) == k as real
  {
  }

  /** Being within half a unit after scaling means being within half a unit over scale before. */
  lemma UnscaledNear(x: real, n: int, scale: Scale)
    requires Scaled(x, scale) - 0.5 <= n as real <= Scaled(x, scale) + 0.5
    ensures x - 0.5 / scale as real <= Unscaled(n, scale) <= x + 0.5 / scale as real
  {
  }

  /** Rounding moves a value by at most half a unit in the last kept digit. */
  lemma RoundClose(x: real, scale: Scale)
    ensures x - 0.5 / scale as real <= Round(x, scale) <= x + 0.5 / scale as real
  {
    UnscaledNear(x, RoundHalfEven(Scaled(x, scale)), scale);
  }

  lemma RoundMonotone(x: real, y: real, scale: Scale)
    requires x <= y
    ensures Round(x, scale) <= Round(y, scale)
  {
    ScaledMonotone(x, y, scale);
    RoundHalfEvenMonotone(Scaled(x, scale), Scaled(y, scale));
    UnscaledMonotone(RoundHalfEven(Scaled(x, scale)), RoundHalfEven(Scaled(y, scale)), scale);
  }

  lemma RoundOfInt(k: int, scale: Scale)
    ensures Round(k as real, scale) == k as real
  {
    UnscaledOfScaled(k, scale);
    assert RoundHalfEven((k * scale) as real) == k * scale;
  }

  /** A share `a / b` of a positive whole: in [0, 1], positive when a is, 1 exactly when a == b. */
  lemma RatioFacts(a: nat, b: nat)
    requires 0 < b && a <= b
    ensures 0.0 <= a as real / b as real <= 1.0
    ensures a > 0 ==> a as real / b as real > 0.0
    ensures a as real / b as real == 1.0 <==> a == b
  {
  }

  /** A real below one shrinks a positive real it multiplies. */
  lemma MulBelowOne(q: real, b: real)
    requires q < 1.0 && b > 0.0
    ensures q * b < b
  {
    assert (1.0 - q) * b > 0.0;
  }

  /** A count at least as large as a positive total gives a ratio of at least one. */
  lemma RatioAtLeastOne(a: nat, b: nat)
    requires 0 < b <= a
    ensures a as real / b as real >= 1.0
  {
    var q := a as real / b as real;
    assert q * (b as real) == a as real;
    if q < 1.0 {
      MulBelowOne(q, b as real);
    }
  }

  /** A count below a positive total gives a ratio in [0, 1) that is 0 only for a zero count. */
  lemma RatioBelowOne(a: nat, b: nat)
    requires a < b
    ensures 0.0 <= a as real / b as real < 1.0
    ensures a as real / b as real == 0.0 <==> a == 0
  {
    RatioFacts(a, b);
  }

  /** The difference of two sets is empty exactly when the first is a subset of the second. */
  lemma DiffEmptyIffSubset<T>(a: set<T>, b: set<T>)
    ensures a - b == {} <==> a <= b
  {
    if a - b == {} {
      forall x | x in a ensures x in b {
        assert x !in a - b;
      }
    }
  }

  /** A value that already has at most the kept digits is left unchanged by rounding. */
  lemma RoundOfUnits(k: int, scale: Scale)
    ensures Round(Unscaled(k, scale), scale) == Unscaled(k, scale)
  {
    assert Scaled(Unscaled(k, scale), scale) == k as real;
    assert RoundHalfEven(k as real) == k;
  }

  /** Rounding keeps a value inside [lo, hi] whenever lo and hi are whole numbers. */
  lemma RoundWithin(x: real, lo: int, hi: int, scale: Scale)
    requires lo as real <= x <= hi as real
    ensures lo as real <= Round(x, scale) <= hi as real
  {
    RoundMonotone(lo as real, x, scale);
    RoundMonotone(x, hi as real, scale);
    RoundOfInt(lo, scale);
    RoundOfInt(hi, scale);
  }

  /** Rounding a value in [0, 1] stays in [0, 1]. */
  lemma RoundUnit(x: real, scale: Scale)
    requires 0.0 <= x <= 1.0
    ensures 0.0 <= Round(x, scale) <= 1.0
  {
    RoundWithin(x, 0, 1, scale);
  }
}
