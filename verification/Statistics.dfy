/** Sums, means, variances and the least-squares slope over windows of readings. */
module Statistics {
  import opened Numbers

  // Products are named so that proofs can treat them as atoms.

  function Square(x: real): real { x * x }

  function Times(x: real, y: real): real { x * y }

  lemma TimesAdds(x: real, y: real, z: real)
    ensures Times(x, y + z) == Times(x, y) + Times(x, z)
  {}

  /** f(0) + ... + f(n - 1). */
  function SumTo(n: nat, f: nat -> real): real {
    if n == 0 then 0.0 else SumTo(n - 1, f) + f(n - 1)
  }

  /** The window as a function of the position; positions outside read 0. */
  function Reading(w: seq<real>): nat -> real { (i: nat) => if i < |w| then w[i] else 0.0 }

  function SumOf(w: seq<real>): real { SumTo(|w|, Reading(w)) }

  function Mean(w: seq<real>): real
    requires |w| > 0
  {
    SumOf(w) / |w| as real
  }

  lemma {:induction false} SumEqual(n: nat, f: nat -> real, g: nat -> real)
    requires forall i: nat :: i < n ==> f(i) == g(i)
    ensures SumTo(n, f) == SumTo(n, g)
  {
    if n > 0 { SumEqual(n - 1, f, g); }
  }

  lemma {:induction false} SumScaled(n: nat, f: nat -> real, g: nat -> real, c: real)
    requires forall i: nat :: i < n ==> f(i) == Times(c, g(i))
    ensures SumTo(n, f) == Times(c, SumTo(n, g))
  {
    if n > 0 {
      SumScaled(n - 1, f, g, c);
      TimesAdds(c, SumTo(n - 1, g), g(n - 1));
    }
  }

  lemma {:induction false} SumShifted(n: nat, f: nat -> real, g: nat -> real, c: real)
    requires forall i: nat :: i < n ==> f(i) == g(i) + c
    ensures SumTo(n, f) == SumTo(n, g) + Times(c, n as real)
  {
    if n > 0 {
      SumShifted(n - 1, f, g, c);
      assert n as real == (n - 1) as real + 1.0;
      TimesAdds(c, (n - 1) as real, 1.0);
    }
  }

  lemma {:induction false} SumNonNegativeTo(n: nat, f: nat -> real)
    requires forall i: nat :: i < n ==> f(i) >= 0.0
    ensures SumTo(n, f) >= 0.0
  {
    if n > 0 { SumNonNegativeTo(n - 1, f); }
  }

  // ---- variance -------------------------------------------------------------------------

  function SquaredDeviation(w: seq<real>, m: real): nat -> real {
    (i: nat) => Square(Reading(w)(i) - m)
  }

  function Variance(w: seq<real>): real
    requires |w| > 0
  {
    SumTo(|w|, SquaredDeviation(w, Mean(w))) / |w| as real
  }

  // ---- the slope ---------------------------------------------------------------------------

  function MeanPosition(n: nat): real { (n as real - 1.0) / 2.0 }

  function CrossTerm(w: seq<real>, xm: real, ym: real): nat -> real {
    (i: nat) => Times(i as real - xm, Reading(w)(i) - ym)
  }

  function Position(): nat -> real { (i: nat) => i as real }

  function Ramp(b: real): nat -> real { (i: nat) => Times(b, i as real) }

  function Offset(xm: real): nat -> real { (i: nat) => i as real - xm }

  function Deviation(w: seq<real>, ym: real): nat -> real { (i: nat) => Reading(w)(i) - ym }

  function SquaredOffset(xm: real): nat -> real {
    (i: nat) => Square(i as real - xm)
  }

  function SlopeNumerator(w: seq<real>): real
    requires |w| > 0
  {
    SumTo(|w|, CrossTerm(w, MeanPosition(|w|), Mean(w)))
  }

  function SlopeDenominator(n: nat): real { SumTo(n, SquaredOffset(MeanPosition(n))) }

  function SlopeOf(w: seq<real>): real
    requires |w| > 0
  {
    var den := SlopeDenominator(|w|);
    if den > 0.0 then SlopeNumerator(w) / den else 0.0
  }

  /** The squared error of the line y = a + b x on the window. */
  function SquaredResidual(w: seq<real>, a: real, b: real): nat -> real {
    (i: nat) => Square(Reading(w)(i) - (a + Times(b, i as real)))
  }

  function SquaredError(w: seq<real>, a: real, b: real): real { SumTo(|w|, SquaredResidual(w, a, b)) }

  // -- the denominator

  lemma {:induction false} SquaredOffsetSum(k: nat, c: real)
    ensures SumTo(k, SquaredOffset(c)) ==
            k as real * (k as real - 1.0) * (2.0 * k as real - 1.0) / 6.0
            - c * k as real * (k as real - 1.0) + k as real * c * c
  {
    if k > 0 {
      SquaredOffsetSum(k - 1, c);
      SquareStep((k - 1) as real, c);
      assert k as real == (k - 1) as real + 1.0;
    }
  }

  lemma SquareStep(j: real, c: real)
    ensures (j + 1.0) * j * (2.0 * j + 1.0) / 6.0 - c * (j + 1.0) * j + (j + 1.0) * c * c ==
            j * (j - 1.0) * (2.0 * j - 1.0) / 6.0 - c * j * (j - 1.0) + j * c * c + Square(j - c)
  {}

  /** den = n (n^2 - 1) / 12, which is positive from two readings on. */
  lemma DenominatorClosedForm(n: nat)
    ensures SlopeDenominator(n) == n as real * (n as real * n as real - 1.0) / 12.0
    ensures n >= 2 ==> SlopeDenominator(n) > 0.0
  {
    var x := n as real;
    SquaredOffsetSum(n, MeanPosition(n));
    ClosedFormAlgebra(x);
    if n >= 2 { PositiveProduct(x); }
  }

  lemma ClosedFormAlgebra(x: real)
    ensures var c := (x - 1.0) / 2.0;
            x * (x - 1.0) * (2.0 * x - 1.0) / 6.0 - c * x * (x - 1.0) + x * c * c == x * (x * x - 1.0) / 12.0
  {}

  lemma PositiveProduct(x: real)
    requires x >= 2.0
    ensures x * (x * x - 1.0) / 12.0 > 0.0
  {
    MulMonotone(2.0, x, x);
  }

  // -- optimality

  /** The sum over the window of (y - ym): zero. */
  lemma ResidualsOfMeanVanish(w: seq<real>)
    requires |w| > 0
    ensures SumTo(|w|, Deviation(w, Mean(w))) == 0.0
  {
    SumShifted(|w|, Deviation(w, Mean(w)), Reading(w), -Mean(w));
    assert |w| as real * Mean(w) == SumOf(w);
  }

  lemma {:induction false} PositionSum(n: nat)
    ensures SumTo(n, Position()) == n as real * MeanPosition(n)
  {
    if n > 0 {
      PositionSum(n - 1);
      var x := (n - 1) as real;
      assert n as real == x + 1.0;
      assert (x + 1.0) * (x / 2.0) == x * ((x - 1.0) / 2.0) + x;
    }
  }

  lemma OffsetsVanish(n: nat)
    ensures SumTo(n, Offset(MeanPosition(n))) == 0.0
  {
    PositionSum(n);
    SumShifted(n, Offset(MeanPosition(n)), Position(), -MeanPosition(n));
  }

  /** With dx = x - xm, dy = y - ym and c = ym - a - b xm, the residual of a + b x is dy - b dx + c. */
  lemma ResidualExpands(dx: real, dy: real, b: real, c: real)
    ensures Square(dy - Times(b, dx) + c) ==
            Square(dy) + Times(b * b, Square(dx)) - Times(2.0 * b, Times(dx, dy))
            + c * c + Times(2.0 * c, dy) - Times(2.0 * b * c, dx)
  {}

  /** The squared error in terms of the sums of y y, x x, x y, y and x over k centred points. */
  function Expansion(yy: real, xx: real, xy: real, y: real, x: real, k: real, b: real, c: real): real {
    yy + Times(b * b, xx) - Times(2.0 * b, xy) + Times(c * c, k) + Times(2.0 * c, y) - Times(2.0 * b * c, x)
  }

  lemma ExpansionStep(yy: real, xx: real, xy: real, y: real, x: real, k: real, dx: real, dy: real, b: real, c: real)
    ensures Expansion(yy, xx, xy, y, x, k, b, c) + Square(dy - Times(b, dx) + c) ==
            Expansion(yy + Square(dy), xx + Square(dx), xy + Times(dx, dy), y + dy, x + dx, k + 1.0, b, c)
  {
    assert Times(c * c, 1.0) == c * c;
    hide Times, Square;
    ResidualExpands(dx, dy, b, c);
    TimesAdds(b * b, xx, Square(dx));
    TimesAdds(2.0 * b, xy, Times(dx, dy));
    TimesAdds(c * c, k, 1.0);
    TimesAdds(2.0 * c, y, dy);
    TimesAdds(2.0 * b * c, x, dx);
  }

  /** The residual of a + b x at one position. */
  lemma ResidualAt(w: seq<real>, xm: real, ym: real, a: real, b: real, j: nat)
    ensures SquaredResidual(w, a, b)(j) ==
            Square((Reading(w)(j) - ym) - Times(b, j as real - xm) + (ym - a - Times(b, xm)))
  {
    TimesAdds(b, j as real - xm, xm);
  }

  /** Summing the expansion over the first `k` positions. */
  lemma {:induction false} ErrorExpands(w: seq<real>, xm: real, ym: real, a: real, b: real, k: nat)
    ensures SumTo(k, SquaredResidual(w, a, b)) ==
            Expansion(SumTo(k, SquaredDeviation(w, ym)), SumTo(k, SquaredOffset(xm)), SumTo(k, CrossTerm(w, xm, ym)),
                      SumTo(k, Deviation(w, ym)), SumTo(k, Offset(xm)), k as real, b, ym - a - Times(b, xm))
  {
    hide Square, Times, Reading;
    if k == 0 {
      ExpansionOfNothing(b, ym - a - Times(b, xm));
    } else {
      hide Expansion, SquaredResidual;
      var j := k - 1;
      ErrorExpands(w, xm, ym, a, b, j);
      ResidualAt(w, xm, ym, a, b, j);
      ExpansionStep(SumTo(j, SquaredDeviation(w, ym)), SumTo(j, SquaredOffset(xm)), SumTo(j, CrossTerm(w, xm, ym)),
                    SumTo(j, Deviation(w, ym)), SumTo(j, Offset(xm)), j as real, j as real - xm, Reading(w)(j) - ym,
                    b, ym - a - Times(b, xm));
      assert k as real == j as real + 1.0;
    }
  }

  lemma ExpansionOfNothing(b: real, c: real)
    ensures Expansion(0.0, 0.0, 0.0, 0.0, 0.0, 0.0, b, c) == 0.0
  {}

  /** Least squares: no line has a smaller squared error on the window than the line through the
      mean point with the computed slope. */
  lemma LeastSquares(w: seq<real>, a: real, b: real)
    requires |w| >= 2
    ensures var s := SlopeOf(w);
            SquaredError(w, Mean(w) - Times(s, MeanPosition(|w|)), s) <= SquaredError(w, a, b)
  {
    hide SumTo, Reading, Mean, MeanPosition, Expansion, Times;
    hide SquaredResidual, SquaredDeviation, SquaredOffset, CrossTerm, Deviation, Offset;
    var n, xm, ym, s := |w|, MeanPosition(|w|), Mean(w), SlopeOf(w);
    DenominatorClosedForm(n);
    ResidualsOfMeanVanish(w);
    OffsetsVanish(n);
    ErrorExpands(w, xm, ym, ym - Times(s, xm), s, n);
    ErrorExpands(w, xm, ym, a, b, n);
    BestExpansion(SumTo(n, SquaredDeviation(w, ym)), SlopeDenominator(n), SlopeNumerator(w), n as real, s,
                  ym - (ym - Times(s, xm)) - Times(s, xm), b, ym - a - Times(b, xm));
  }

  lemma BestExpansion(yy: real, xx: real, xy: real, k: real, s: real, c0: real, b: real, c: real)
    requires xx > 0.0 && s == xy / xx && c0 == 0.0 && k >= 0.0
    ensures Expansion(yy, xx, xy, 0.0, 0.0, k, s, c0) <= Expansion(yy, xx, xy, 0.0, 0.0, k, b, c)
  {
    assert s * xx == xy;
    CompletedSquare(xx, xy, s, b);
    SquareNonNegative(c);
    MulMonotone(0.0, c * c, k);
    assert Expansion(yy, xx, xy, 0.0, 0.0, k, s, c0) == yy + s * s * xx - 2.0 * s * xy;
    assert Expansion(yy, xx, xy, 0.0, 0.0, k, b, c) == yy + b * b * xx - 2.0 * b * xy + c * c * k;
  }

  lemma CompletedSquare(sxx: real, sxy: real, s: real, b: real)
    requires s * sxx == sxy && sxx > 0.0
    ensures s * s * sxx - 2.0 * s * sxy <= b * b * sxx - 2.0 * b * sxy
  {
    var d := b - s;
    SquareNonNegative(d);
    MulMonotone(0.0, d * d, sxx);
    assert d * d * sxx == b * b * sxx - 2.0 * b * (s * sxx) + s * (s * sxx);
  }

  // -- affine and increasing windows

  /** A window on a line has exactly the line's coefficient as its slope. */
  lemma AffineSlope(w: seq<real>, a: real, b: real)
    requires |w| >= 2
    requires forall i :: 0 <= i < |w| ==> w[i] == a + b * i as real
    ensures SlopeOf(w) == b
  {
    var n, xm, ym := |w|, MeanPosition(|w|), Mean(w);
    DenominatorClosedForm(n);
    AffineMean(w, a, b);
    hide SumTo, Mean, MeanPosition, CrossTerm, SquaredOffset, Square, Times;
    forall i: nat | i < n ensures CrossTerm(w, xm, ym)(i) == Times(b, SquaredOffset(xm)(i)) {
      AffineCross(w, a, b, xm, ym, i);
    }
    SumScaled(n, CrossTerm(w, xm, ym), SquaredOffset(xm), b);
    QuotientOfMultiple(b, SlopeDenominator(n));
  }

  lemma AffineCross(w: seq<real>, a: real, b: real, xm: real, ym: real, i: nat)
    requires i < |w| && w[i] == a + b * i as real && ym == a + b * xm
    ensures CrossTerm(w, xm, ym)(i) == Times(b, SquaredOffset(xm)(i))
  {
    AffineTerm(i as real, a, b, xm);
    assert Reading(w)(i) == w[i];
    assert CrossTerm(w, xm, ym)(i) == Times(i as real - xm, w[i] - ym);
  }

  lemma AffineTerm(x: real, a: real, b: real, xm: real)
    ensures Times(x - xm, (a + b * x) - (a + b * xm)) == Times(b, Square(x - xm))
  {}

  lemma QuotientOfMultiple(b: real, d: real)
    requires d > 0.0
    ensures Times(b, d) / d == b
  {}

  lemma AffineMean(w: seq<real>, a: real, b: real)
    requires |w| >= 1
    requires forall i :: 0 <= i < |w| ==> w[i] == a + b * i as real
    ensures Mean(w) == a + b * MeanPosition(|w|)
  {
    var n := |w|;
    PositionSum(n);
    SumShifted(n, Reading(w), Ramp(b), a);
    SumScaled(n, Ramp(b), Position(), b);
    assert SumOf(w) == b * (n as real * MeanPosition(n)) + a * n as real;
    assert SumOf(w) == n as real * (a + b * MeanPosition(n));
  }

  /** A strictly increasing window has a positive slope. */
  lemma IncreasingSlope(w: seq<real>)
    requires |w| >= 2
    requires forall i, j :: 0 <= i < j < |w| ==> w[i] < w[j]
    ensures SlopeOf(w) > 0.0
  {
    var n, xm, ym := |w|, MeanPosition(|w|), Mean(w);
    var t := w[(n - 1) / 2];
    var f := CrossTerm(w, xm, t);
    forall i: nat | i < n ensures f(i) >= 0.0 && (i == n - 1 ==> f(i) > 0.0) {
      RisingTerm(w, i);
    }
    DenominatorClosedForm(n);
    OffsetsVanish(n);
    hide CrossTerm, Offset, Mean, MeanPosition;
    CrossTermShiftTo(w, xm, ym, t, n);
    SumNonNegativeTo(n - 1, f);
    PositiveQuotient(SlopeNumerator(w), SlopeDenominator(n));
  }

  /** Measured from the middle reading, every cross term is non-negative and the last one positive. */
  lemma RisingTerm(w: seq<real>, i: nat)
    requires |w| >= 2 && i < |w|
    requires forall i, j :: 0 <= i < j < |w| ==> w[i] < w[j]
    ensures var f := CrossTerm(w, MeanPosition(|w|), w[(|w| - 1) / 2]);
            f(i) >= 0.0 && (i == |w| - 1 ==> f(i) > 0.0)
  {
    var middle := (|w| - 1) / 2;
    var dx, dy := i as real - MeanPosition(|w|), w[i] - w[middle];
    MiddlePosition(|w|);
    assert Reading(w)(i) == w[i];
    assert CrossTerm(w, MeanPosition(|w|), w[middle])(i) == Times(dx, dy);
    if i <= middle {
      NonNegativeProduct(-dx, -dy);
    } else {
      PositiveFactors(dx, dy);
    }
  }

  lemma MiddlePosition(n: nat)
    requires n > 0
    ensures ((n - 1) / 2) as real <= MeanPosition(n) < ((n - 1) / 2) as real + 1.0
  {
    var m := (n - 1) / 2;
    assert 2 * m <= n - 1 < 2 * m + 2;
    assert (2 * m) as real == 2.0 * m as real;
  }

  lemma NonNegativeProduct(x: real, y: real)
    requires x >= 0.0 && y >= 0.0
    ensures x * y >= 0.0 && (-x) * (-y) >= 0.0
  {}

  lemma PositiveQuotient(x: real, y: real)
    requires x > 0.0 && y > 0.0
    ensures x / y > 0.0
  {}

  lemma PositiveFactors(x: real, y: real)
    requires x > 0.0 && y > 0.0
    ensures x * y > 0.0
  {}

  /** Moving the reference height changes the cross sum by a multiple of the offset sum. */
  lemma {:induction false} CrossTermShiftTo(w: seq<real>, xm: real, ym: real, t: real, k: nat)
    ensures SumTo(k, CrossTerm(w, xm, ym)) == SumTo(k, CrossTerm(w, xm, t)) + Times(t - ym, SumTo(k, Offset(xm)))
  {
    if k > 0 {
      var j := k - 1;
      CrossTermShiftTo(w, xm, ym, t, j);
      CrossStep(j as real - xm, Reading(w)(j), ym, t);
      TimesAdds(t - ym, SumTo(j, Offset(xm)), j as real - xm);
    }
  }

  lemma CrossStep(dx: real, y: real, ym: real, t: real)
    ensures Times(dx, y - ym) == Times(dx, y - t) + Times(t - ym, dx)
  {}
}
