/** One simulated sensor: its reading update, its bounded history and the statistics agents see. */
module Sensors {
  import opened Numbers
  import opened Statistics

  const HISTORY_LEN := 100
  const MA_WINDOW := 10
  const SLOPE_WINDOW := 10
  const STD_WINDOW := 20

  datatype Status = NORMAL | WARNING | CRITICAL

  /** A threshold that is infinite is never reached. */
  datatype Threshold = Never | From(level: real)

  datatype SensorParams = SensorParams(
    baseline: real, noiseStd: real, warn: Threshold, critical: Threshold, autocorrelation: real, driftPerCycle: real)

  datatype SensorState = SensorState(value: real, drift: real, warmupFactor: real, history: seq<real>)

  /** The conditions of one reading; `innovation` is the random draw. */
  datatype Conditions = Conditions(
    toolWear: real, shiftFactor: real, ambientTemp: real, isWarmup: bool, innovation: real)

  function NewSensor(p: SensorParams): SensorState { SensorState(p.baseline, 0.0, 1.0, []) }

  function Target(p: SensorParams, drift: real, c: Conditions): real {
    p.baseline + drift + (c.ambientTemp - 22.0) * 0.01 + c.toolWear * 0.3
    + (c.shiftFactor - 1.0) * p.noiseStd * 0.5 + c.innovation
  }

  function Blend(p: SensorParams, value: real, target: real): real {
    p.autocorrelation * value + (1.0 - p.autocorrelation) * target
  }

  /** Appending to a history that keeps the last `limit` values. */
  function Push(h: seq<real>, x: real, limit: nat): seq<real> { Last(h + [x], limit) }

  function AfterRead(p: SensorParams, s: SensorState, c: Conditions): SensorState {
    var drift := s.drift + p.driftPerCycle;
    var value := Blend(p, s.value, Target(p, drift, c));
    SensorState(value, drift,
                if c.isWarmup then MaxR(0.7, s.warmupFactor - 0.05) else MinR(1.0, s.warmupFactor + 0.02),
                Push(s.history, value, HISTORY_LEN))
  }

  predicate Reaches(value: real, t: Threshold) { t.From? && AbsR(value) >= t.level }

  function StatusOf(p: SensorParams, value: real): Status {
    if Reaches(value, p.critical) then CRITICAL else if Reaches(value, p.warn) then WARNING else NORMAL
  }

  // ---- what agents read off the history ------------------------------------------------------

  function Ma(p: SensorParams, h: seq<real>): real {
    if h == [] then p.baseline else Mean(Last(h, MA_WINDOW))
  }

  function Slope(h: seq<real>): real { if |h| < 5 then 0.0 else SlopeOf(Last(h, SLOPE_WINDOW)) }

  /** The standard deviation for any square-root function. */
  function Std(h: seq<real>, root: real -> real): real {
    if |h| < 3 then 0.0 else root(Variance(Last(h, STD_WINDOW)))
  }

  // ---- bounded memory is unobservable ----------------------------------------------------------

  lemma LastOfLast<T>(s: seq<T>, n: nat, k: nat)
    requires k <= n
    ensures Last(Last(s, n), k) == Last(s, k)
    ensures |s| < k <==> |Last(s, n)| < k
    ensures s == [] || n == 0 <==> Last(s, n) == []
  {
    if n < |s| && k < n {
      assert s[|s| - n..][n - k..] == s[|s| - k..];
    }
  }

  lemma PushOfLast(s: seq<real>, x: real, limit: nat)
    ensures Push(Last(s, limit), x, limit) == Last(s + [x], limit)
  {
    if limit < |s| {
      if limit == 0 {
      } else {
        assert s[|s| - limit..] + [x] == (s + [x])[|s| - limit..];
      }
    } else {
      assert Last(s, limit) == s;
    }
  }

  datatype SensorOp = ReadOp(conditions: Conditions) | ShockOp(magnitude: real) | RecoverOp(amount: real) | ResetOp

  function Apply(p: SensorParams, s: SensorState, op: SensorOp): SensorState {
    match op
    case ReadOp(conditions) => AfterRead(p, s, conditions)
    case ShockOp(magnitude) => s.(drift := s.drift + magnitude)
    case RecoverOp(amount) => s.(drift := MaxR(0.0, s.drift - amount))
    case ResetOp => s.(drift := 0.0)
  }

  function Run(p: SensorParams, ops: seq<SensorOp>): SensorState
    decreases |ops|
  {
    if ops == [] then NewSensor(p) else Apply(p, Run(p, ops[..|ops| - 1]), ops[|ops| - 1])
  }

  /** Every value the sensor ever took, nothing dropped. */
  function AllValues(p: SensorParams, ops: seq<SensorOp>): seq<real>
    decreases |ops|
  {
    if ops == [] then []
    else
      var before := AllValues(p, ops[..|ops| - 1]);
      if ops[|ops| - 1].ReadOp? then before + [Run(p, ops).value] else before
  }

  lemma {:induction false} HistoryIsSuffix(p: SensorParams, ops: seq<SensorOp>)
    ensures Run(p, ops).history == Last(AllValues(p, ops), 100)
    decreases |ops|
  {
    if ops != [] {
      HistoryIsSuffix(p, ops[..|ops| - 1]);
      PushOfLast(AllValues(p, ops[..|ops| - 1]), Run(p, ops).value, HISTORY_LEN);
    }
  }

  /** After any stream of readings, shocks and recoveries, the moving average, the slope and the
      deviation on the trimmed history are those on everything ever read. */
  lemma SensorMemoryUnobservable(p: SensorParams, ops: seq<SensorOp>, root: real -> real)
    ensures var kept, all := Run(p, ops).history, AllValues(p, ops);
            Ma(p, kept) == Ma(p, all) && Slope(kept) == Slope(all) && Std(kept, root) == Std(all, root)
  {
    var all := AllValues(p, ops);
    HistoryIsSuffix(p, ops);
    hide Mean, SlopeOf, Variance, Run, AllValues;
    LastOfLast(all, HISTORY_LEN, MA_WINDOW);
    LastOfLast(all, HISTORY_LEN, STD_WINDOW);
    LastOfLast(all, HISTORY_LEN, 5);
    LastOfLast(all, HISTORY_LEN, 3);
  }

  // ---- readings stay between their targets -------------------------------------------------------

  predicate TargetsWithin(p: SensorParams, ops: seq<SensorOp>, lo: real, hi: real)
    decreases |ops|
  {
    ops == [] ||
    (TargetsWithin(p, ops[..|ops| - 1], lo, hi) &&
     (ops[|ops| - 1].ReadOp? ==>
        lo <= Target(p, Run(p, ops[..|ops| - 1]).drift + p.driftPerCycle, ops[|ops| - 1].conditions) <= hi))
  }

  lemma WeightedBetween(a: real, c: real, x: real, y: real, lo: real, hi: real)
    requires 0.0 <= a && 0.0 <= c && a + c == 1.0 && lo <= x <= hi && lo <= y <= hi
    ensures lo <= a * x + c * y <= hi
  {
    NonNegativeProduct(a, x - lo);
    NonNegativeProduct(c, y - lo);
    NonNegativeProduct(a, hi - x);
    NonNegativeProduct(c, hi - y);
    calc {
      a * (x - lo) + c * (y - lo);
      a * x + c * y - (a + c) * lo;
      a * x + c * y - lo;
    }
    calc {
      a * (hi - x) + c * (hi - y);
      (a + c) * hi - (a * x + c * y);
      hi - (a * x + c * y);
    }
  }

  lemma BlendBetween(p: SensorParams, value: real, target: real, lo: real, hi: real)
    requires 0.0 <= p.autocorrelation <= 1.0 && lo <= value <= hi && lo <= target <= hi
    ensures lo <= Blend(p, value, target) <= hi
  {
    var a := p.autocorrelation;
    WeightedBetween(a, 1.0 - a, value, target, lo, hi);
  }

  /** A sensor that forgets geometrically never leaves the band its baseline and targets lie in;
      its warm-up factor stays in 0.7..1. */
  lemma {:induction false} ReadingsStayInBand(p: SensorParams, ops: seq<SensorOp>, lo: real, hi: real)
    requires 0.0 <= p.autocorrelation <= 1.0 && lo <= p.baseline <= hi && TargetsWithin(p, ops, lo, hi)
    ensures lo <= Run(p, ops).value <= hi && 0.7 <= Run(p, ops).warmupFactor <= 1.0
    decreases |ops|
  {
    if ops != [] {
      var before, last := ops[..|ops| - 1], ops[|ops| - 1];
      ReadingsStayInBand(p, before, lo, hi);
      if last.ReadOp? {
        var s := Run(p, before);
        hide Target, Blend;
        BlendBetween(p, s.value, Target(p, s.drift + p.driftPerCycle, last.conditions), lo, hi);
      }
    }
  }

  // ---- the object -------------------------------------------------------------------------------

  class RealisticSensor {
    const params: SensorParams
    var value: real
    var drift: real
    var warmupFactor: real
    var history: seq<real>

    function View(): SensorState
      reads this
    {
      SensorState(value, drift, warmupFactor, history)
    }

    constructor (params: SensorParams)
      ensures this.params == params && View() == NewSensor(params)
    {
      this.params := params;
      value, drift, warmupFactor, history := params.baseline, 0.0, 1.0, [];
    }

    method Read(c: Conditions) returns (reading: real, status: Status)
      modifies this
      ensures View() == Apply(params, old(View()), ReadOp(c))
      ensures reading == Round3(value) && status == StatusOf(params, value)
    {
      drift := drift + params.driftPerCycle;
      if c.isWarmup {
        warmupFactor := MaxR(0.7, warmupFactor - 0.05);
      } else {
        warmupFactor := MinR(1.0, warmupFactor + 0.02);
      }
      var ambientEffect := (c.ambientTemp - 22.0) * 0.01;
      var wearEffect := c.toolWear * 0.3;
      var shiftNoise := (c.shiftFactor - 1.0) * params.noiseStd * 0.5;
      var target := params.baseline + drift + ambientEffect + wearEffect + shiftNoise + c.innovation;
      assert target == Target(params, drift, c);
      value := params.autocorrelation * value + (1.0 - params.autocorrelation) * target;
      assert value == Blend(params, old(value), target);
      history := history + [value];
      if |history| > HISTORY_LEN {
        history := history[|history| - HISTORY_LEN..];
      }
      assert history == Push(old(history), value, HISTORY_LEN);
      status := NORMAL;
      if Reaches(value, params.critical) {
        status := CRITICAL;
      } else if Reaches(value, params.warn) {
        status := WARNING;
      }
      reading := Round3(value);
    }

    method InjectShock(magnitude: real)
      modifies this
      ensures View() == Apply(params, old(View()), ShockOp(magnitude))
    {
      drift := drift + magnitude;
    }

    method Recover(amount: real)
      modifies this
      ensures View() == Apply(params, old(View()), RecoverOp(amount))
    {
      drift := MaxR(0.0, drift - amount);
    }

    method ResetDrift()
      modifies this
      ensures View() == Apply(params, old(View()), ResetOp)
    {
      drift := 0.0;
    }
  }
}
