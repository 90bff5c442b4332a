/** What the reports mean: when each run rule fires, what a Cpk level and a trend say about the data, and
    how the anomaly score is made up. */
module SpcLaws {
  import opened Numbers
  import opened Options
  import opened Statistics
  import opened Sensors
  import opened Quality

  // ---- run rules ---------------------------------------------------------------------------

  /** The squared deviation exceeds four variances. */
  predicate FarOut(x: real, m: real, variance: real) { Square(x - m) > 4.0 * variance }

  lemma {:induction false} CountBeyondOne(w: seq<real>, m: real, variance: real)
    ensures CountBeyond(w, m, variance) >= 1 <==> exists i :: 0 <= i < |w| && FarOut(w[i], m, variance)
  {
    if w != [] {
      assert FarOut(w[0], m, variance) == BeyondTwoSigma(w[0], m, variance);
      hide BeyondTwoSigma, FarOut;
      CountBeyondOne(w[1..], m, variance);
      if i :| 0 <= i < |w| && FarOut(w[i], m, variance) {
        assert i > 0 ==> w[1..][i - 1] == w[i];
      }
    }
  }

  lemma {:induction false} CountBeyondTwo(w: seq<real>, m: real, variance: real)
    ensures CountBeyond(w, m, variance) >= 2 <==>
            exists i, j :: 0 <= i < j < |w| && FarOut(w[i], m, variance) && FarOut(w[j], m, variance)
  {
    if w != [] {
      assert FarOut(w[0], m, variance) == BeyondTwoSigma(w[0], m, variance);
      hide BeyondTwoSigma, FarOut;
      var rest := w[1..];
      assert forall i :: 0 < i < |w| ==> rest[i - 1] == w[i];
      CountBeyondOne(rest, m, variance);
      CountBeyondTwo(rest, m, variance);
      if i, j :| 0 <= i < j < |w| && FarOut(w[i], m, variance) && FarOut(w[j], m, variance) {
        assert rest[j - 1] == w[j] && (i > 0 ==> rest[i - 1] == w[i]);
      }
      if i, j :| 0 <= i < j < |rest| && FarOut(rest[i], m, variance) && FarOut(rest[j], m, variance) {
        assert w[i + 1] == rest[i] && w[j + 1] == rest[j];
      }
      if i :| 0 <= i < |rest| && FarOut(rest[i], m, variance) {
        assert w[i + 1] == rest[i];
      }
    }
  }

  /** Nine readings, and a deviation of at least 0.0001 over the last thirty. */
  predicate RulesApply(data: seq<real>) { |data| >= 9 && Variance(Last(data, 30)) >= 0.00000001 }

  /** The last seven readings lie on one side of the mean. */
  predicate OneSide(data: seq<real>)
    requires |data| >= 9
  {
    var n, m := |data|, Mean(Last(data, 30));
    (forall i :: n - 7 <= i < n ==> data[i] > m) || (forall i :: n - 7 <= i < n ==> data[i] < m)
  }

  /** The last six steps go in one direction. */
  predicate OneDirection(data: seq<real>)
    requires |data| >= 9
  {
    var n := |data|;
    || (forall i :: n - 6 <= i < n ==> data[i] > data[i - 1])
    || (forall i :: n - 6 <= i < n ==> data[i] < data[i - 1])
  }

  /** Two of the last nine readings lie beyond two sigma. */
  predicate TwoFarOut(data: seq<real>)
    requires |data| >= 9
  {
    var n, m, v := |data|, Mean(Last(data, 30)), Variance(Last(data, 30));
    exists i, j :: n - 9 <= i < j < n && FarOut(data[i], m, v) && FarOut(data[j], m, v)
  }

  function RuleNumber(rule: Rule): nat {
    match rule
    case SevenOnOneSide => 2
    case SixInOneDirection => 3
    case TwoBeyondTwoSigma => 4
  }

  lemma LastSeven(data: seq<real>)
    requires |data| >= 9
    ensures AllAbove(Last(data, 7), Mean(Last(data, 30))) || AllBelow(Last(data, 7), Mean(Last(data, 30)))
       <==> OneSide(data)
    ensures AllRising(Last(data, 7)) || AllFalling(Last(data, 7)) <==> OneDirection(data)
  {
    var n, seven := |data|, Last(data, 7);
    assert forall i :: n - 7 <= i < n ==> seven[i - (n - 7)] == data[i];
    assert forall i :: 0 <= i < 7 ==> seven[i] == data[n - 7 + i];
    hide Mean, Last;
  }

  lemma LastNine(data: seq<real>)
    requires |data| >= 9
    ensures CountBeyond(Last(data, 9), Mean(Last(data, 30)), Variance(Last(data, 30))) >= 2 <==> TwoFarOut(data)
  {
    var n, nine, m, v := |data|, Last(data, 9), Mean(Last(data, 30)), Variance(Last(data, 30));
    assert |nine| == 9 && forall i :: 0 <= i < 9 ==> nine[i] == data[n - 9 + i];
    hide Mean, Variance, CountBeyond, Last, FarOut;
    CountBeyondTwo(nine, m, v);
    if i, j :| n - 9 <= i < j < n && FarOut(data[i], m, v) && FarOut(data[j], m, v) {
      assert FarOut(nine[i - (n - 9)], m, v) && FarOut(nine[j - (n - 9)], m, v);
    }
    if i, j :| 0 <= i < j < 9 && FarOut(nine[i], m, v) && FarOut(nine[j], m, v) {
      assert FarOut(data[n - 9 + i], m, v) && FarOut(data[n - 9 + j], m, v);
    }
  }

  lemma RulesOnReports(seven: seq<real>, recent: seq<real>, mean: real, variance: real)
    ensures var r, on := RulesOn(seven, recent, mean, variance), variance >= 0.00000001;
            && (SevenOnOneSide in r <==> on && (AllAbove(seven, mean) || AllBelow(seven, mean)))
            && (SixInOneDirection in r <==> on && (AllRising(seven) || AllFalling(seven)))
            && (TwoBeyondTwoSigma in r <==> on && CountBeyond(recent, mean, variance) >= 2)
            && forall i, j :: 0 <= i < j < |r| ==> RuleNumber(r[i]) < RuleNumber(r[j])
  {
    hide AllAbove, AllBelow, AllRising, AllFalling, CountBeyond;
  }

  /** Exactly the rules that hold are reported, each once, in the order of their numbers. */
  lemma RunRulesAreThoseThatHold(data: seq<real>)
    ensures var r := RunRules(data);
            && (SevenOnOneSide in r <==> RulesApply(data) && OneSide(data))
            && (SixInOneDirection in r <==> RulesApply(data) && OneDirection(data))
            && (TwoBeyondTwoSigma in r <==> RulesApply(data) && TwoFarOut(data))
            && forall i, j :: 0 <= i < j < |r| ==> RuleNumber(r[i]) < RuleNumber(r[j])
  {
    if |data| >= 9 {
      hide RulesOn, Mean, Variance, OneSide, OneDirection, TwoFarOut, AllAbove, AllBelow, AllRising, AllFalling;
      hide CountBeyond, Last;
      RulesOnReports(Last(data, 7), Last(data, 9), Mean(Last(data, 30)), Variance(Last(data, 30)));
      LastSeven(data);
      LastNine(data);
    }
  }

  lemma SumOfNine(f: nat -> real)
    ensures SumTo(9, f) == f(0) + f(1) + f(2) + f(3) + f(4) + f(5) + f(6) + f(7) + f(8)
  {
    assert SumTo(3, f) == f(0) + f(1) + f(2);
    assert SumTo(6, f) == SumTo(3, f) + f(3) + f(4) + f(5);
    assert SumTo(9, f) == SumTo(6, f) + f(6) + f(7) + f(8);
  }

  const ONE_TO_NINE := [1.0, 2.0, 3.0, 4.0, 5.0, 6.0, 7.0, 8.0, 9.0]

  lemma NineRisingVary(data: seq<real>)
    requires data == ONE_TO_NINE
    ensures Mean(data) == 5.0 && 9.0 * Variance(data) == 60.0
  {
    SumOfNine(Reading(data));
    assert Mean(data) == 5.0;
    SumOfNine(SquaredDeviation(data, 5.0));
    VarianceTotal(data);
    hide SumTo, Mean, Variance;
  }

  lemma NineRisingHold(data: seq<real>)
    requires data == ONE_TO_NINE && Last(data, 30) == data && Mean(data) == 5.0 && 9.0 * Variance(data) == 60.0
    ensures RulesApply(data) && !OneSide(data) && OneDirection(data) && !TwoFarOut(data)
  {
    hide Mean, Variance, Last;
    assert !(data[2] > 5.0) && !(data[8] < 5.0);
    forall i | 0 <= i < 9 ensures !FarOut(data[i], 5.0, Variance(data)) {
      assert -4.0 <= data[i] - 5.0 <= 4.0;
      assert Square(data[i] - 5.0) <= 16.0;
    }
    hide FarOut;
  }

  /** Nine rising readings: six in one direction, and nothing else. */
  lemma NineRisingReadings()
    ensures RunRules(ONE_TO_NINE) == [SixInOneDirection]
  {
    var data := ONE_TO_NINE;
    NineRisingVary(data);
    assert Last(data, 30) == data;
    NineRisingHold(data);
    LastSeven(data);
    LastNine(data);
    hide Mean, Variance, OneSide, OneDirection, TwoFarOut, AllAbove, AllBelow, AllRising, AllFalling, CountBeyond;
  }

  // ---- process capability --------------------------------------------------------------------------

  /** Each limit lies at least 3 * `level` deviations from the mean; with a limit missing, no level above 2
      is reached. */
  predicate LimitsClear(limits: SpecLimits, mean: real, std: real, level: real) {
    && (limits.upper.Some? ==> mean + 3.0 * level * std <= limits.upper.value)
    && (limits.lower.Some? ==> limits.lower.value <= mean - 3.0 * level * std)
    && (limits.upper.None? || limits.lower.None? ==> level <= 2.0)
  }

  lemma CapabilityLevel(limits: SpecLimits, mean: real, std: real, level: real)
    requires std > 0.0
    ensures Capability(limits, mean, std) >= level <==> LimitsClear(limits, mean, std, level)
  {
    if limits.upper.Some? { QuotientAtLeast(limits.upper.value - mean, 3.0 * std, level); }
    if limits.lower.Some? { QuotientAtLeast(mean - limits.lower.value, 3.0 * std, level); }
    assert 3.0 * level * std == level * (3.0 * std);
  }

  lemma QuotientAtLeast(x: real, d: real, level: real)
    requires d > 0.0
    ensures x / d >= level <==> x >= level * d
  {
    var q := x / d;
    assert q * d == x;
    assert (q - level) * d == x - level * d;
  }

  /** A Cpk of at least `level` means that the limits are clear of the mean by 3 * `level` deviations. */
  lemma CpkLevel(data: seq<real>, limits: SpecLimits, root: real -> real, level: real)
    requires |data| >= 10
    ensures var mean, std := Mean(Last(data, 30)), root(Variance(Last(data, 30)));
            std >= 0.0001 ==> (Cpk(data, limits, root) >= level <==> LimitsClear(limits, mean, std, level))
  {
    hide Mean, Variance, Capability, LimitsClear;
    var std := root(Variance(Last(data, 30)));
    if std >= 0.0001 {
      CapabilityLevel(limits, Mean(Last(data, 30)), std, level);
    }
  }

  /** Fewer than ten readings, or a deviation below 0.0001, report 2. */
  lemma CpkOfTooLittle(data: seq<real>, limits: SpecLimits, root: real -> real)
    requires |data| < 10 || root(Variance(Last(data, 30))) < 0.0001
    ensures Cpk(data, limits, root) == 2.0
  {
    hide Mean, Variance, Last;
  }

  /** Of the last ten values the newer half, the larger one of an odd number, is compared with the older: a
      trend is a difference of more than 0.1 of their means. */
  lemma TrendComparesHalves(history: seq<real>)
    requires |history| >= 5
    ensures var n, k := |history|, Min(10, |history|);
            var older, newer := Mean(history[n - k..n - k + k / 2]), Mean(history[n - k + k / 2..]);
            && (CpkTrend(history) == Falling <==> newer + 0.1 < older)
            && (CpkTrend(history) == Rising <==> newer > older + 0.1)
  {
    HalvesOfRecent(history);
    hide Mean, Last;
  }

  lemma HalvesOfRecent(history: seq<real>)
    requires |history| >= 5
    ensures var n, k, recent := |history|, Min(10, |history|), Last(history, 10);
            && |recent| == k
            && recent[..k / 2] == history[n - k..n - k + k / 2] && recent[k / 2..] == history[n - k + k / 2..]
  {}

  lemma ShortTrendsAreStable(history: seq<real>)
    requires |history| < 5
    ensures CpkTrend(history) == Stable
  {}

  // ---- the anomaly score ----------------------------------------------------------------------------

  predicate RisesAt(w: seq<real>, i: nat) { 0 < i < |w| && w[i] > w[i - 1] }

  /** The rises among the last ten values. */
  function Rises(history: seq<real>): set<nat> {
    set i: nat | |history| - 9 <= i < |history| && RisesAt(history, i)
  }

  /** What rises add: nothing to a history shorter than ten. */
  function RiseBonus(history: seq<real>): real {
    if |history| < 10 || |Rises(history)| < 6 then 0.0 else if |Rises(history)| < 8 then 0.2 else 0.4
  }

  /** The set of positions, from `k` on, where a list rises. */
  function RisesFrom(w: seq<real>, k: nat): set<nat> { set i: nat | k < i < |w| && RisesAt(w, i) }

  lemma {:induction false} CountRisesIsCardinality(w: seq<real>, k: nat)
    requires k < |w|
    ensures CountRises(w[k..]) == |RisesFrom(w, k)|
    decreases |w| - k
  {
    if k + 1 == |w| {
      assert RisesFrom(w, k) == {};
    } else {
      CountRisesIsCardinality(w, k + 1);
      assert w[k..][1..] == w[k + 1..] && w[k..][0] == w[k] && w[k..][1] == w[k + 1];
      assert RisesFrom(w, k) == RisesFrom(w, k + 1) + if w[k + 1] > w[k] then {k + 1} else {};
    }
  }

  lemma BonusIsCounted(history: seq<real>)
    requires |history| >= 10
    ensures |Rises(history)| == CountRises(Last(history, 10))
  {
    CountRisesIsCardinality(history, |history| - 10);
    assert Rises(history) == RisesFrom(history, |history| - 10);
  }

  /** Below 1 the score is 0.2 per deviation from the moving average plus the bonus for rises, and it is 1
      exactly when that sum reaches 1. A deviation below 0.001 scores 0. */
  lemma AnomalyIsDeviationPlusRises(value: real, ma: real, std: real, history: seq<real>)
    ensures std < 0.001 ==> RawAnomaly(value, ma, std, history) == 0.0
    ensures std >= 0.001 ==>
              var score, bonus := RawAnomaly(value, ma, std, history), RiseBonus(history);
              && score <= 1.0
              && (score < 1.0 ==> (score - bonus) * std == 0.2 * AbsR(value - ma))
              && (score == 1.0 <==> AbsR(value - ma) >= 5.0 * (1.0 - bonus) * std)
  {
    if |history| >= 10 { BonusIsCounted(history); }
    hide CountRises, Rises, Last;
    if std >= 0.001 {
      var bonus, d := RiseBonus(history), AbsR(value - ma);
      var z := d / std;
      assert MaxR(std, 0.001) == std;
      assert z * std == d;
      assert RawAnomaly(value, ma, std, history) == MinR(1.0, z / 3.0 * 0.6 + bonus);
      assert z / 3.0 * 0.6 == 0.2 * z;
      assert (0.2 * z) * std == 0.2 * d;
      hide RawAnomaly, RiseBonus;
      QuotientAtLeast(d, std, 5.0 * (1.0 - bonus));
    }
  }
}
