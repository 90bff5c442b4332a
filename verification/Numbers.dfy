/** Arithmetic shared by every component: Python's `min`, `max`, `round`, `int` and sums,
    over exact reals where the source uses floats. */
module Numbers {

  function Max(a: int, b: int): int { if a < b then b else a }

  function Min(a: int, b: int): int { if a < b then a else b }

  function MaxR(a: real, b: real): real { if a < b then b else a }

  function MinR(a: real, b: real): real { if a < b then a else b }

  function AbsR(a: real): real { if a < 0.0 then -a else a }

  /** Python's `int(x)` on a float: truncation toward zero. */
  function Truncate(x: real): int { if x >= 0.0 then x.Floor else -((-x).Floor) }

  // ---- round -------------------------------------------------------------------

  /** Rounding to the nearest integer, ties to the even one. */
  function RoundHalfEven(x: real): int {
    var f := x.Floor;
    var d := x - f as real;
    if d < 0.5 then f
    else if d > 0.5 then f + 1
    else if f % 2 == 0 then f else f + 1
  }

  /** `round(x, 4)`. */
  function Round4(x: real): real { RoundHalfEven(x * 10000.0) as real / 10000.0 }

  /** `round(x, 3)`. */
  function Round3(x: real): real { RoundHalfEven(x * 1000.0) as real / 1000.0 }

  /** Truncation keeps the sign and goes toward zero by less than one. */
  lemma TruncateTowardZero(x: real)
    ensures AbsR(Truncate(x) as real) <= AbsR(x) < AbsR(Truncate(x) as real) + 1.0
    ensures Truncate(x) > 0 ==> x > 0.0
    ensures Truncate(x) < 0 ==> x < 0.0
  {}

  /** The result is a nearest integer, and the even one of two that are equally near. */
  lemma RoundHalfEvenIsNearest(x: real)
    ensures var n := RoundHalfEven(x);
            && -0.5 <= x - n as real <= 0.5
            && (AbsR(x - n as real) == 0.5 ==> n % 2 == 0)
  {}

  /** Rounding to four places moves a number by at most half a unit of the fourth place. */
  lemma Round4IsNearest(x: real)
    ensures -0.00005 <= x - Round4(x) <= 0.00005
    ensures Round4(Round4(x)) == Round4(x)
  {
    RoundHalfEvenIsNearest(x * 10000.0);
    var n := RoundHalfEven(x * 10000.0);
    assert Round4(x) * 10000.0 == n as real;
    assert RoundHalfEven(n as real) == n;
  }

  lemma Round3IsNearest(x: real)
    ensures -0.0005 <= x - Round3(x) <= 0.0005
  {
    RoundHalfEvenIsNearest(x * 1000.0);
  }

  lemma RoundHalfEvenMonotone(x: real, y: real)
    requires x <= y
    ensures RoundHalfEven(x) <= RoundHalfEven(y)
  {}

  lemma Round4Monotone(x: real, y: real)
    requires x <= y
    ensures Round4(x) <= Round4(y)
  {
    RoundHalfEvenMonotone(x * 10000.0, y * 10000.0);
  }

  lemma Round4Apart(x: real, y: real)
    requires x + 0.0002 <= y
    ensures Round4(x) < Round4(y)
  {
    assert RoundHalfEven(x * 10000.0) < RoundHalfEven(y * 10000.0);
  }

  lemma Round4Bounds(x: real)
    requires 0.0 <= x <= 1.0
    ensures 0.0 <= Round4(x) <= 1.0
  {
    Round4Monotone(0.0, x);
    Round4Monotone(x, 1.0);
  }

  // ---- suffixes -------------------------------------------------------------------

  /** The last `k` elements: Python's `s[-k:]`. */
  function Last<T>(s: seq<T>, k: nat): seq<T> { if |s| <= k then s else s[|s| - k..] }

  // ---- sums of integers ----------------------------------------------------------

  function Sum(s: seq<int>): int {
    if s == [] then 0 else s[0] + Sum(s[1..])
  }

  lemma {:induction false} SumAppend(s: seq<int>, t: seq<int>)
    ensures Sum(s + t) == Sum(s) + Sum(t)
  {
    if s == [] {
      assert s + t == t;
    } else {
      assert (s + t)[1..] == s[1..] + t;
      SumAppend(s[1..], t);
    }
  }

  lemma SumOneMore(s: seq<int>, i: nat)
    requires i < |s|
    ensures Sum(s[..i + 1]) == Sum(s[..i]) + s[i]
  {
    SumAppend(s[..i], [s[i]]);
    assert s[..i + 1] == s[..i] + [s[i]];
  }

  lemma {:induction false} SumUpdate(s: seq<int>, i: nat, v: int)
    requires i < |s|
    ensures Sum(s[i := v]) == Sum(s) - s[i] + v
  {
    if i > 0 {
      assert s[i := v][1..] == s[1..][i - 1 := v];
      SumUpdate(s[1..], i - 1, v);
    } else {
      assert s[0 := v][1..] == s[1..];
    }
  }

  lemma {:induction false} SumNonNegative(s: seq<int>)
    requires forall i :: 0 <= i < |s| ==> s[i] >= 0
    ensures Sum(s) >= 0
  {
    if s != [] { SumNonNegative(s[1..]); }
  }

  // ---- nonlinear facts used by several proofs ----------------------------------------

  lemma MulMonotone(a: real, b: real, c: real)
    requires a <= b && 0.0 <= c
    ensures a * c <= b * c
  {}

  lemma QuotientLower(p: real, r: real, k: real)
    requires 0.0 < r && k * r <= p
    ensures k <= p / r
  {}

  lemma QuotientUpper(p: real, r: real, k: real)
    requires 0.0 < r && p <= k * r
    ensures p / r <= k
  {}

  lemma MulCongruence(a: real, b: real, c: real)
    requires a == b
    ensures a * c == b * c
  {}

  lemma SquareNonNegative(a: real)
    ensures a * a >= 0.0
  {}
}
