/** How a sensor behaves in time: it approaches its target geometrically, drifts and warms up at fixed rates,
    undoes a shock by recovering, and its statistics read ten, ten and twenty values. */
module SensorLaws {
  import opened Numbers
  import opened Statistics
  import opened Sensors

  // ---- the target of one reading ------------------------------------------------------------------

  /** What the conditions add to the target: 0.01 per degree above 22, 0.3 per unit of wear, half the noise
      per unit of shift factor above 1, and the innovation itself; the drift counts in full. */
  lemma TargetMoves(p: SensorParams, drift: real, c: Conditions, d: real)
    ensures Target(p, 0.0, Conditions(0.0, 1.0, 22.0, c.isWarmup, 0.0)) == p.baseline
    ensures Target(p, drift + d, c) == Target(p, drift, c) + d
    ensures Target(p, drift, c.(ambientTemp := c.ambientTemp + d)) == Target(p, drift, c) + 0.01 * d
    ensures Target(p, drift, c.(toolWear := c.toolWear + d)) == Target(p, drift, c) + 0.3 * d
    ensures Target(p, drift, c.(shiftFactor := c.shiftFactor + d)) == Target(p, drift, c) + Times(d, 0.5 * p.noiseStd)
    ensures Target(p, drift, c.(innovation := c.innovation + d)) == Target(p, drift, c) + d
  {
    assert (c.shiftFactor + d - 1.0) * p.noiseStd * 0.5
        == (c.shiftFactor - 1.0) * p.noiseStd * 0.5 + Times(d, 0.5 * p.noiseStd);
  }

  /** The thresholds: CRITICAL from the critical one on, otherwise WARNING from the warning one on. */
  lemma StatusFollowsThresholds(p: SensorParams, value: real)
    ensures var critical := p.critical.From? && (value >= p.critical.level || -value >= p.critical.level);
            var warning := p.warn.From? && (value >= p.warn.level || -value >= p.warn.level);
            && (StatusOf(p, value) == CRITICAL <==> critical)
            && (StatusOf(p, value) == WARNING <==> warning && !critical)
  {}

  // ---- repeated readings ----------------------------------------------------------------------------

  /** `n` readings under the same conditions. */
  function Readings(p: SensorParams, s: SensorState, c: Conditions, n: nat): SensorState {
    if n == 0 then s else Apply(p, Readings(p, s, c, n - 1), ReadOp(c))
  }

  function Power(a: real, n: nat): real { if n == 0 then 1.0 else Times(a, Power(a, n - 1)) }

  /** The drift grows by the same amount at every reading. */
  lemma {:induction false} DriftIsLinear(p: SensorParams, s: SensorState, c: Conditions, n: nat)
    ensures Readings(p, s, c, n).drift == s.drift + n as real * p.driftPerCycle
  {
    hide Blend, Target;
    if n > 0 {
      DriftIsLinear(p, s, c, n - 1);
      assert n as real * p.driftPerCycle == (n - 1) as real * p.driftPerCycle + p.driftPerCycle;
    }
  }

  /** Under a constant target the distance to it shrinks by the autocorrelation at every reading. */
  lemma {:induction false} TargetIsApproached(p: SensorParams, s: SensorState, c: Conditions, n: nat)
    requires p.driftPerCycle == 0.0
    ensures var target := Target(p, s.drift, c);
            Readings(p, s, c, n).value - target == Times(Power(p.autocorrelation, n), s.value - target)
  {
    hide Target;
    if n > 0 {
      var target, before := Target(p, s.drift, c), Readings(p, s, c, n - 1);
      TargetIsApproached(p, s, c, n - 1);
      DriftIsLinear(p, s, c, n - 1);
      assert before.drift == s.drift;
      BlendShrinks(p, before.value, target);
      TimesAssociates(p.autocorrelation, Power(p.autocorrelation, n - 1), s.value - target);
      hide Times, Blend;
    }
  }

  /** A new sensor without drift, left alone under neutral conditions, reads its baseline for ever. */
  lemma QuietSensorReadsBaseline(p: SensorParams, n: nat)
    requires p.driftPerCycle == 0.0
    ensures var s := Readings(p, NewSensor(p), Conditions(0.0, 1.0, 22.0, false, 0.0), n);
            s.value == p.baseline && s.drift == 0.0 && s.warmupFactor == 1.0
  {
    var s, c := NewSensor(p), Conditions(0.0, 1.0, 22.0, false, 0.0);
    TargetMoves(p, 0.0, c, 0.0);
    TargetIsApproached(p, s, c, n);
    DriftIsLinear(p, s, c, n);
    WarmupIsLinear(p, s, c, n);
    hide Readings, Target;
  }

  lemma BlendShrinks(p: SensorParams, value: real, target: real)
    ensures Blend(p, value, target) - target == Times(p.autocorrelation, value - target)
  {
    var a := p.autocorrelation;
    assert a * value + (1.0 - a) * target - target == a * value - a * target;
    assert a * (value - target) == a * value - a * target;
  }

  lemma TimesAssociates(a: real, b: real, c: real)
    ensures Times(a, Times(b, c)) == Times(Times(a, b), c)
  {}

  /** Warming up lowers the factor by 0.05 a reading down to 0.7; running raises it by 0.02 up to 1. */
  lemma {:induction false} WarmupIsLinear(p: SensorParams, s: SensorState, c: Conditions, n: nat)
    requires 0.7 <= s.warmupFactor <= 1.0
    ensures Readings(p, s, c, n).warmupFactor ==
            if c.isWarmup then MaxR(0.7, s.warmupFactor - 0.05 * n as real)
            else MinR(1.0, s.warmupFactor + 0.02 * n as real)
  {
    hide Blend, Target;
    if n > 0 {
      WarmupIsLinear(p, s, c, n - 1);
      assert n as real == (n - 1) as real + 1.0;
    }
  }

  /** Recovering by the size of a shock undoes it; a recovery never takes the drift below zero, nor does it
      touch anything else. */
  lemma RecoveryUndoesShock(p: SensorParams, s: SensorState, magnitude: real, amount: real)
    requires s.drift >= 0.0
    ensures Apply(p, Apply(p, s, ShockOp(magnitude)), RecoverOp(magnitude)) == s
    ensures var r := Apply(p, s, RecoverOp(amount));
            && r == s.(drift := r.drift) && r.drift >= 0.0
            && (r.drift == s.drift - amount || (r.drift == 0.0 && s.drift < amount))
    ensures Apply(p, s, ResetOp) == Apply(p, s, RecoverOp(s.drift))
  {}

  // ---- the windows --------------------------------------------------------------------------------------

  lemma MeanTimesLength(w: seq<real>)
    requires |w| > 0
    ensures Times(Mean(w), |w| as real) == SumOf(w)
  {}

  /** The moving average is over ten values, the slope over ten and only from five on, the deviation over
      twenty and only from three on. */
  lemma StatisticsReadTheirWindows(p: SensorParams, h: seq<real>, root: real -> real)
    ensures h == [] ==> Ma(p, h) == p.baseline
    ensures 0 < |h| < 10 ==> Times(Ma(p, h), |h| as real) == SumOf(h)
    ensures |h| >= 10 ==> Times(Ma(p, h), 10.0) == SumOf(h[|h| - 10..])
    ensures |h| < 5 ==> Slope(h) == 0.0
    ensures 5 <= |h| < 10 ==> Slope(h) == SlopeOf(h)
    ensures |h| >= 10 ==> Slope(h) == SlopeOf(h[|h| - 10..])
    ensures |h| < 3 ==> Std(h, root) == 0.0
    ensures 3 <= |h| < 20 ==> Std(h, root) == root(Variance(h))
    ensures |h| >= 20 ==> Std(h, root) == root(Variance(h[|h| - 20..]))
  {
    if h != [] { MeanTimesLength(Last(h, 10)); }
    hide Mean, SumOf, SlopeOf, Variance, Times;
  }
}
