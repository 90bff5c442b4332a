/** Statistical process control: the quality agent's bounded histories, Cpk, Cpk trend and run
    rules, and the equipment agent's anomaly score. */
module Quality {
  import opened Numbers
  import opened Options
  import opened Statistics
  import opened Sensors

  const MEASUREMENT_HISTORY_LEN := 200
  const CPK_HISTORY_LEN := 50

  /** A missing limit is an infinite one. */
  datatype SpecLimits = SpecLimits(lower: Option<real>, upper: Option<real>)

  /** The distance of the nearer limit in units of three deviations; a missing limit counts 2. */
  function Capability(limits: SpecLimits, mean: real, std: real): real
    requires std > 0.0
  {
    MinR(if limits.upper.Some? then (limits.upper.value - mean) / (3.0 * std) else 2.0,
         if limits.lower.Some? then (mean - limits.lower.value) / (3.0 * std) else 2.0)
  }

  /** Process capability for any square-root function. */
  function Cpk(data: seq<real>, limits: SpecLimits, root: real -> real): real {
    if |data| < 10 then 2.0
    else
      var recent := Last(data, 30);
      var mean, std := Mean(recent), root(Variance(recent));
      if std < 0.0001 then 2.0 else Capability(limits, mean, std)
  }

  datatype Trend = Stable | Falling | Rising

  function CpkTrend(history: seq<real>): Trend {
    if |history| < 5 then Stable
    else
      var recent := Last(history, 10);
      var half := |recent| / 2;
      var diff := Mean(recent[half..]) - Mean(recent[..half]);
      if diff < -0.1 then Falling else if diff > 0.1 then Rising else Stable
  }

  // ---- run rules ----------------------------------------------------------------------------

  datatype Rule = SevenOnOneSide | SixInOneDirection | TwoBeyondTwoSigma

  predicate AllAbove(w: seq<real>, m: real) { forall i :: 0 <= i < |w| ==> w[i] - m > 0.0 }

  predicate AllBelow(w: seq<real>, m: real) { forall i :: 0 <= i < |w| ==> w[i] - m < 0.0 }

  predicate AllRising(w: seq<real>) { forall i :: 0 <= i < |w| - 1 ==> w[i + 1] - w[i] > 0.0 }

  predicate AllFalling(w: seq<real>) { forall i :: 0 <= i < |w| - 1 ==> w[i + 1] - w[i] < 0.0 }

  /** |x - m| > 2 sigma, compared through squares. */
  predicate BeyondTwoSigma(x: real, m: real, variance: real) { Square(x - m) > 4.0 * variance }

  function CountBeyond(w: seq<real>, m: real, variance: real): nat {
    if w == [] then 0
    else (if BeyondTwoSigma(w[0], m, variance) then 1 else 0) + CountBeyond(w[1..], m, variance)
  }

  /** The rules on the last seven and the last nine points, given the window's mean and variance;
      a deviation below 0.0001 is a variance below its square. */
  function RulesOn(seven: seq<real>, recent: seq<real>, mean: real, variance: real): seq<Rule> {
    if variance < 0.00000001 then []
    else
      (if AllAbove(seven, mean) || AllBelow(seven, mean) then [SevenOnOneSide] else []) +
      (if AllRising(seven) || AllFalling(seven) then [SixInOneDirection] else []) +
      (if CountBeyond(recent, mean, variance) >= 2 then [TwoBeyondTwoSigma] else [])
  }

  /** `_check_run_rules`; the last six differences are those of the last seven points. */
  function RunRules(data: seq<real>): seq<Rule> {
    if |data| < 9 then []
    else RulesOn(Last(data, 7), Last(data, 9), Mean(Last(data, 30)), Variance(Last(data, 30)))
  }

  // -- invariance

  function Shifted(data: seq<real>, c: real): (r: seq<real>)
    ensures |r| == |data|
  {
    seq(|data|, i requires 0 <= i < |data| => data[i] + c)
  }

  function Negated(data: seq<real>): (r: seq<real>)
    ensures |r| == |data|
  {
    seq(|data|, i requires 0 <= i < |data| => -data[i])
  }

  lemma LastShifted(data: seq<real>, c: real, k: nat)
    ensures Last(Shifted(data, c), k) == Shifted(Last(data, k), c)
    ensures Last(Negated(data), k) == Negated(Last(data, k))
  {}

  lemma MeanShifted(w: seq<real>, c: real)
    requires |w| > 0
    ensures Mean(Shifted(w, c)) == Mean(w) + c
  {
    SumShifted(|w|, Reading(Shifted(w, c)), Reading(w), c);
    var n := |w| as real;
    assert (SumOf(w) + n * c) / n == SumOf(w) / n + c;
  }

  lemma MeanNegated(w: seq<real>)
    requires |w| > 0
    ensures Mean(Negated(w)) == -Mean(w)
  {
    SumScaled(|w|, Reading(Negated(w)), Reading(w), -1.0);
    var n := |w| as real;
    assert (-SumOf(w)) / n == -(SumOf(w) / n);
  }

  lemma VarianceShifted(w: seq<real>, c: real)
    requires |w| > 0
    ensures Variance(Shifted(w, c)) == Variance(w)
  {
    MeanShifted(w, c);
    SumEqual(|w|, SquaredDeviation(Shifted(w, c), Mean(Shifted(w, c))), SquaredDeviation(w, Mean(w)));
  }

  lemma VarianceNegated(w: seq<real>)
    requires |w| > 0
    ensures Variance(Negated(w)) == Variance(w)
  {
    MeanNegated(w);
    forall i: nat | i < |w|
      ensures SquaredDeviation(Negated(w), Mean(Negated(w)))(i) == SquaredDeviation(w, Mean(w))(i)
    {
      assert Reading(Negated(w))(i) - Mean(Negated(w)) == -(Reading(w)(i) - Mean(w));
      SquareNegated(Reading(w)(i) - Mean(w));
    }
    SumEqual(|w|, SquaredDeviation(Negated(w), Mean(Negated(w))), SquaredDeviation(w, Mean(w)));
  }

  lemma SquareNegated(x: real)
    ensures Square(-x) == Square(x)
  {}

  lemma {:induction false} CountShifted(w: seq<real>, m: real, variance: real, c: real)
    ensures CountBeyond(Shifted(w, c), m + c, variance) == CountBeyond(w, m, variance)
  {
    if w != [] {
      assert Shifted(w, c)[1..] == Shifted(w[1..], c);
      assert Shifted(w, c)[0] - (m + c) == w[0] - m;
      CountShifted(w[1..], m, variance, c);
    }
  }

  lemma {:induction false} CountNegated(w: seq<real>, m: real, variance: real)
    ensures CountBeyond(Negated(w), -m, variance) == CountBeyond(w, m, variance)
  {
    if w != [] {
      assert Negated(w)[1..] == Negated(w[1..]);
      assert Negated(w)[0] - (-m) == -(w[0] - m);
      SquareNegated(w[0] - m);
      CountNegated(w[1..], m, variance);
    }
  }

  lemma SidesShifted(w: seq<real>, m: real, c: real)
    ensures AllAbove(Shifted(w, c), m + c) == AllAbove(w, m) && AllBelow(Shifted(w, c), m + c) == AllBelow(w, m)
    ensures AllRising(Shifted(w, c)) == AllRising(w) && AllFalling(Shifted(w, c)) == AllFalling(w)
  {
    var v := Shifted(w, c);
    assert forall i :: 0 <= i < |w| ==> v[i] - (m + c) == w[i] - m;
    assert forall i :: 0 <= i < |w| - 1 ==> v[i + 1] - v[i] == w[i + 1] - w[i];
  }

  lemma SidesNegated(w: seq<real>, m: real)
    ensures AllAbove(Negated(w), -m) == AllBelow(w, m) && AllBelow(Negated(w), -m) == AllAbove(w, m)
    ensures AllRising(Negated(w)) == AllFalling(w) && AllFalling(Negated(w)) == AllRising(w)
  {
    var v := Negated(w);
    assert forall i :: 0 <= i < |w| ==> v[i] - (-m) == -(w[i] - m);
    assert forall i :: 0 <= i < |w| - 1 ==> v[i + 1] - v[i] == -(w[i + 1] - w[i]);
  }

  lemma RulesShifted(seven: seq<real>, recent: seq<real>, mean: real, variance: real, c: real)
    ensures RulesOn(Shifted(seven, c), Shifted(recent, c), mean + c, variance) == RulesOn(seven, recent, mean, variance)
  {
    SidesShifted(seven, mean, c);
    CountShifted(recent, mean, variance, c);
  }

  lemma RulesNegated(seven: seq<real>, recent: seq<real>, mean: real, variance: real)
    ensures RulesOn(Negated(seven), Negated(recent), -mean, variance) == RulesOn(seven, recent, mean, variance)
  {
    SidesNegated(seven, mean);
    CountNegated(recent, mean, variance);
  }

  /** The run rules do not see the origin of the scale: adding a constant to all readings changes nothing. */
  lemma RunRulesShiftInvariant(data: seq<real>, c: real)
    ensures RunRules(Shifted(data, c)) == RunRules(data)
  {
    if |data| >= 9 {
      var window := Last(data, 30);
      assert |window| > 0;
      LastShifted(data, c, 30);
      LastShifted(data, c, 9);
      LastShifted(data, c, 7);
      hide Mean, Variance, RulesOn, Last, Shifted;
      MeanShifted(window, c);
      VarianceShifted(window, c);
      RulesShifted(Last(data, 7), Last(data, 9), Mean(window), Variance(window), c);
    }
  }

  /** Nor its direction: negating all readings changes nothing. */
  lemma RunRulesNegationInvariant(data: seq<real>)
    ensures RunRules(Negated(data)) == RunRules(data)
  {
    if |data| >= 9 {
      var window := Last(data, 30);
      assert |window| > 0;
      LastShifted(data, 0.0, 30);
      LastShifted(data, 0.0, 9);
      LastShifted(data, 0.0, 7);
      hide Mean, Variance, RulesOn, Last, Negated;
      MeanNegated(window);
      VarianceNegated(window);
      RulesNegated(Last(data, 7), Last(data, 9), Mean(window), Variance(window));
    }
  }

  // -- the Chebyshev bound

  /** Each point beyond two sigma spends more than 4 variances of the window's squared deviations. */
  lemma {:induction false} BeyondCostsFour(w: seq<real>, m: real, variance: real, k: nat)
    requires k <= |w| && variance > 0.0
    ensures var count := CountBeyond(w[k..], m, variance);
            var spent := SumTo(|w|, SquaredDeviation(w, m)) - SumTo(k, SquaredDeviation(w, m));
            && Times(4.0 * variance, count as real) <= spent
            && (count > 0 ==> Times(4.0 * variance, count as real) < spent)
    decreases |w| - k
  {
    assert Times(4.0 * variance, 0.0) == 0.0 && Times(4.0 * variance, 1.0) == 4.0 * variance;
    if k < |w| {
      var f := SquaredDeviation(w, m);
      SquareNonNegative(w[k] - m);
      assert Square(w[k] - m) >= 0.0;
      assert f(k) == Square(w[k] - m) by { assert Reading(w)(k) == w[k]; }
      hide Times, Square, Reading, SquaredDeviation;
      BeyondCostsFour(w, m, variance, k + 1);
      assert w[k..][0] == w[k] && w[k..][1..] == w[k + 1..];
      assert SumTo(k + 1, f) == SumTo(k, f) + f(k);
      TimesAdds(4.0 * variance, CountBeyond(w[k + 1..], m, variance) as real, 1.0);
    }
  }

  /** Unless all readings of the window are equal, four times the number of the last nine points beyond
      two sigma is less than the window's length. */
  lemma ChebyshevBound(data: seq<real>)
    requires |data| >= 9
    ensures var window := Last(data, 30);
            && |window| == Min(30, |data|)
            && (Variance(window) > 0.0 ==>
                  4 * CountBeyond(Last(data, 9), Mean(window), Variance(window)) < |window|)
  {
    var window := Last(data, 30);
    assert Last(data, 9) == window[|window| - 9..];
    if Variance(window) > 0.0 {
      NinthsBound(window);
    }
  }

  lemma NinthsBound(window: seq<real>)
    requires |window| >= 9 && Variance(window) > 0.0
    ensures 4 * CountBeyond(window[|window| - 9..], Mean(window), Variance(window)) < |window|
  {
    var n, m, v := |window|, Mean(window), Variance(window);
    var f := SquaredDeviation(window, m);
    var count := CountBeyond(window[n - 9..], m, v);
    VarianceTotal(window);
    forall i: nat ensures f(i) >= 0.0 {
      SquareNonNegative(Reading(window)(i) - m);
    }
    hide SumTo, Mean, CountBeyond, SquaredDeviation, Variance, Times;
    BeyondCostsFour(window, m, v, n - 9);
    SumNonNegativeTo(n - 9, f);
    if count > 0 {
      CancelVariance(count as real, n as real, v);
    }
  }

  lemma VarianceTotal(w: seq<real>)
    requires |w| > 0
    ensures SumTo(|w|, SquaredDeviation(w, Mean(w))) == Times(Variance(w), |w| as real)
  {
    hide SumTo, SquaredDeviation, Mean;
  }

  lemma CancelVariance(count: real, n: real, v: real)
    requires v > 0.0 && Times(4.0 * v, count) < Times(v, n)
    ensures 4.0 * count < n
  {
    assert Times(4.0 * v, count) == (4.0 * count) * v && Times(v, n) == n * v;
    if 4.0 * count >= n { MulMonotone(n, 4.0 * count, v); }
  }

  // ---- bounded memory is unobservable -----------------------------------------------------------

  /** What the agent keeps about one channel. */
  datatype Channel = Channel(measurements: seq<real>, cpks: seq<real>)

  /** What it reports after a measurement; Cpk and its trend only for channels with a specification. */
  datatype ChannelReport = ChannelReport(cpk: Option<real>, trend: Option<Trend>, rules: seq<Rule>)

  /** One measurement under any two history bounds. */
  function Observed(c: Channel, x: real, spec: Option<SpecLimits>, root: real -> real,
                    measurementLimit: nat, cpkLimit: nat): Channel
  {
    var measurements := Push(c.measurements, x, measurementLimit);
    Channel(measurements,
            if spec.Some? then Push(c.cpks, Cpk(measurements, spec.value, root), cpkLimit) else c.cpks)
  }

  function ReportOn(c: Channel, spec: Option<SpecLimits>, root: real -> real): ChannelReport {
    ChannelReport(
      if spec.Some? then Some(Cpk(c.measurements, spec.value, root)) else None,
      if spec.Some? then Some(CpkTrend(c.cpks)) else None,
      RunRules(c.measurements))
  }

  /** The agent that trims its histories. */
  function Trimmed(stream: seq<real>, spec: Option<SpecLimits>, root: real -> real): Channel
    decreases |stream|
  {
    if stream == [] then Channel([], [])
    else Observed(Trimmed(stream[..|stream| - 1], spec, root), stream[|stream| - 1], spec, root,
                  MEASUREMENT_HISTORY_LEN, CPK_HISTORY_LEN)
  }

  /** Every Cpk value of the agent that drops nothing. */
  function AllCpks(stream: seq<real>, spec: Option<SpecLimits>, root: real -> real): seq<real>
    decreases |stream|
  {
    if stream == [] || spec.None? then []
    else AllCpks(stream[..|stream| - 1], spec, root) + [Cpk(stream, spec.value, root)]
  }

  /** They are the Cpk values of the stream's prefixes. */
  lemma {:induction false} CpksOfPrefixes(stream: seq<real>, limits: SpecLimits, root: real -> real)
    ensures var cpks := AllCpks(stream, Some(limits), root);
            |cpks| == |stream| && forall k :: 0 <= k < |stream| ==> cpks[k] == Cpk(stream[..k + 1], limits, root)
    decreases |stream|
  {
    hide Cpk;
    if stream != [] {
      var before := stream[..|stream| - 1];
      CpksOfPrefixes(before, limits, root);
      forall k | 0 <= k < |before|
        ensures AllCpks(before, Some(limits), root)[k] == Cpk(stream[..k + 1], limits, root)
      {
        assert before[..k + 1] == stream[..k + 1];
      }
      assert stream[..|stream|] == stream;
    }
  }

  /** The agent that drops nothing. */
  function Untrimmed(stream: seq<real>, spec: Option<SpecLimits>, root: real -> real): Channel {
    Channel(stream, AllCpks(stream, spec, root))
  }

  lemma CpkOfSuffix(data: seq<real>, limits: SpecLimits, root: real -> real, n: nat)
    requires n >= 30
    ensures Cpk(Last(data, n), limits, root) == Cpk(data, limits, root)
  {
    hide Mean, Variance;
    LastOfLast(data, n, 30);
    LastOfLast(data, n, 10);
  }

  lemma TrendOfSuffix(history: seq<real>, n: nat)
    requires n >= 10
    ensures CpkTrend(Last(history, n)) == CpkTrend(history)
  {
    LastOfLast(history, n, 10);
    LastOfLast(history, n, 5);
  }

  lemma RulesOfSuffix(data: seq<real>, n: nat)
    requires n >= 30
    ensures RunRules(Last(data, n)) == RunRules(data)
  {
    hide RulesOn, Mean, Variance;
    LastOfLast(data, n, 30);
    LastOfLast(data, n, 9);
    LastOfLast(data, n, 7);
  }

  lemma {:induction false} TrimmedIsSuffix(stream: seq<real>, spec: Option<SpecLimits>, root: real -> real)
    ensures var kept, all := Trimmed(stream, spec, root), Untrimmed(stream, spec, root);
            && kept.measurements == Last(all.measurements, 200)
            && kept.cpks == Last(all.cpks, 50)
    decreases |stream|
  {
    if stream != [] {
      hide Cpk, Last, Push;
      var before, x := stream[..|stream| - 1], stream[|stream| - 1];
      assert before + [x] == stream;
      TrimmedIsSuffix(before, spec, root);
      PushOfLast(before, x, MEASUREMENT_HISTORY_LEN);
      if spec.Some? {
        CpkOfSuffix(stream, spec.value, root, MEASUREMENT_HISTORY_LEN);
        PushOfLast(AllCpks(before, spec, root), Cpk(stream, spec.value, root), CPK_HISTORY_LEN);
      } else {
        NothingKept();
      }
    } else {
      NothingKept();
    }
  }

  lemma NothingKept()
    ensures forall n: nat :: Last<real>([], n) == []
  {}

  /** After any stream of measurements the trimming agent reports the Cpk, the trend and the rule
      violations of an agent that remembers everything; each history is the exact suffix. */
  lemma QualityMemoryUnobservable(stream: seq<real>, spec: Option<SpecLimits>, root: real -> real)
    ensures ReportOn(Trimmed(stream, spec, root), spec, root) ==
            ChannelReport(if spec.Some? then Some(Cpk(stream, spec.value, root)) else None,
                          if spec.Some? then Some(CpkTrend(AllCpks(stream, spec, root))) else None,
                          RunRules(stream))
  {
    hide Cpk, CpkTrend, RunRules, Last, Trimmed;
    TrimmedIsSuffix(stream, spec, root);
    RulesOfSuffix(stream, MEASUREMENT_HISTORY_LEN);
    if spec.Some? {
      CpkOfSuffix(stream, spec.value, root, MEASUREMENT_HISTORY_LEN);
      TrendOfSuffix(AllCpks(stream, spec, root), CPK_HISTORY_LEN);
    }
  }

  // ---- the agents' histories ----------------------------------------------------------------------

  class QualityAgent {
    var measurementHistory: map<string, seq<real>>
    var cpkHistory: map<string, seq<real>>
    const specLimits: map<string, SpecLimits>

    /** A `defaultdict(list)` reads a missing history as empty. */
    function ChannelOf(key: string): Channel
      reads this
    {
      Channel(if key in measurementHistory then measurementHistory[key] else [],
              if key in cpkHistory then cpkHistory[key] else [])
    }

    function SpecOf(key: string): Option<SpecLimits> {
      if key in specLimits then Some(specLimits[key]) else None
    }

    constructor (specLimits: map<string, SpecLimits>)
      ensures this.specLimits == specLimits && forall key :: ChannelOf(key) == Channel([], [])
    {
      this.specLimits := specLimits;
      measurementHistory, cpkHistory := map[], map[];
    }

    /** The body of `sense` for one sensor value. */
    method Observe(key: string, val: real, root: real -> real) returns (report: ChannelReport)
      modifies this
      ensures ChannelOf(key) ==
              Observed(old(ChannelOf(key)), val, SpecOf(key), root, MEASUREMENT_HISTORY_LEN, CPK_HISTORY_LEN)
      ensures forall other :: other != key ==> ChannelOf(other) == old(ChannelOf(other))
      ensures report == ReportOn(ChannelOf(key), SpecOf(key), root)
    {
      hide Cpk, CpkTrend, RunRules;
      var history := (if key in measurementHistory then measurementHistory[key] else []) + [val];
      if |history| > MEASUREMENT_HISTORY_LEN {
        history := history[|history| - MEASUREMENT_HISTORY_LEN..];
      }
      measurementHistory := measurementHistory[key := history];
      var cpk, trend := None, None;
      if key in specLimits {
        var value := Cpk(history, specLimits[key], root);
        var cpks := (if key in cpkHistory then cpkHistory[key] else []) + [value];
        if |cpks| > CPK_HISTORY_LEN {
          cpks := cpks[|cpks| - CPK_HISTORY_LEN..];
        }
        cpkHistory := cpkHistory[key := cpks];
        cpk, trend := Some(value), Some(CpkTrend(cpks));
      }
      report := ChannelReport(cpk, trend, RunRules(history));
    }
  }

  // ---- equipment anomaly --------------------------------------------------------------------------

  function CountRises(w: seq<real>): nat {
    if |w| < 2 then 0 else (if w[1] > w[0] then 1 else 0) + CountRises(w[1..])
  }

  /** Z-score plus a short-term rise, in 0..1. */
  function RawAnomaly(value: real, ma: real, std: real, history: seq<real>): real {
    if std < 0.001 then 0.0
    else
      var z := AbsR(value - ma) / MaxR(std, 0.001);
      var rises := if |history| >= 10 then CountRises(Last(history, 10)) else 0;
      MinR(1.0, z / 3.0 * 0.6 + if rises >= 8 then 0.4 else if rises >= 6 then 0.2 else 0.0)
  }

  /** One key's history after one `trim_history` call. A bound of 0 trims nothing: the slice [-0:] is
      the whole list. */
  function TrimmedOnce(h: seq<real>, val: real, maxlen: nat): seq<real> {
    if maxlen == 0 then h + [val] else Push(h, val, maxlen)
  }

  /** What the trend store keeps of a stream. */
  function Kept(stream: seq<real>, maxlen: nat): seq<real>
    decreases |stream|
  {
    if stream == [] then [] else TrimmedOnce(Kept(stream[..|stream| - 1], maxlen), stream[|stream| - 1], maxlen)
  }

  lemma {:induction false} KeptIsSuffix(stream: seq<real>, maxlen: nat)
    ensures Kept(stream, maxlen) == if maxlen == 0 then stream else Last(stream, maxlen)
    decreases |stream|
  {
    if stream != [] {
      var before, last := stream[..|stream| - 1], stream[|stream| - 1];
      KeptIsSuffix(before, maxlen);
      PushOfLast(before, last, maxlen);
      assert stream == before + [last];
    }
  }

  /** After any stream of readings the anomaly score on the kept trend is the score on everything ever
      recorded, for any bound that keeps the ten values the score reads; it lies in 0..1. */
  lemma AnomalyMemoryUnobservable(value: real, ma: real, std: real, stream: seq<real>, maxlen: nat)
    requires maxlen == 0 || maxlen >= 10
    ensures RawAnomaly(value, ma, std, Kept(stream, maxlen)) == RawAnomaly(value, ma, std, stream)
    ensures 0.0 <= RawAnomaly(value, ma, std, stream) <= 1.0
  {
    KeptIsSuffix(stream, maxlen);
    if maxlen > 0 { LastOfLast(stream, maxlen, 10); }
    if std >= 0.001 {
      assert AbsR(value - ma) / MaxR(std, 0.001) >= 0.0;
    }
  }

  /** A smaller bound is noticed: of ten rising values nine are too few for the score. */
  lemma ShorterTrendsScoreLower(maxlen: nat)
    requires 0 < maxlen < 10
    ensures var rising := seq(10, i requires 0 <= i < 10 => i as real);
            RawAnomaly(0.0, 0.0, 1.0, rising) == 0.4 && RawAnomaly(0.0, 0.0, 1.0, Kept(rising, maxlen)) == 0.0
  {
    var rising := seq(10, i requires 0 <= i < 10 => i as real);
    KeptIsSuffix(rising, maxlen);
    RisesOfRising(rising);
    hide CountRises, Kept;
  }

  lemma {:induction false} RisesOfRising(w: seq<real>)
    requires |w| >= 1 && forall i :: 0 < i < |w| ==> w[i - 1] < w[i]
    ensures CountRises(w) == |w| - 1
  {
    if |w| > 1 {
      RisesOfRising(w[1..]);
    }
  }

  /** The equipment agent's dictionary of trends. */
  class TrendStore {
    var store: map<string, seq<real>>

    constructor ()
      ensures store == map[]
    {
      store := map[];
    }

    method TrimHistory(key: string, val: real, maxlen: nat := 200)
      modifies this
      ensures var h := if key in old(store) then old(store)[key] else [];
              store == old(store)[key := TrimmedOnce(h, val, maxlen)]
    {
      if key !in store {
        store := store[key := []];
      }
      store := store[key := store[key] + [val]];
      if |store[key]| > maxlen && maxlen != 0 {
        store := store[key := store[key][|store[key]| - maxlen..]];
      }
    }
  }
}
