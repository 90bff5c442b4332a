/** What the scores mean: which metric each axis reads, the weight of every KPI, axis and penalty, and that
    a better KPI never costs a proposal its rank. */
module ScoreLaws {
  import opened Numbers
  import opened Options
  import opened Comparison
  import opened Evaluation
  import opened Ranking

  // ---- which metric an axis reads --------------------------------------------------------------

  const DEFAULTS := Axes(0.5, 0.5, 0.3, 0.0, 0.2, 0.0, 0.7)

  /** The axes of a dictionary with one number in it: that axis, all others at their defaults. */
  function SoleAxis(key: Key, x: real): Axes {
    match key
    case ExpectedEffect => DEFAULTS.(effect := x)
    case ExpectedBenefit => DEFAULTS.(effect := x)
    case ExpectedCost => DEFAULTS.(cost := x)
    case CostEstimate => DEFAULTS.(cost := x)
    case CostEstimateNorm => DEFAULTS.(cost := x)
    case QualityRisk => DEFAULTS.(risk := x)
    case DeliveryImpact => DEFAULTS.(delivery := x)
    case MaterialImpact => DEFAULTS.(material := x)
    case ConstraintViolation => DEFAULTS.(violation := x)
    case ConstraintViolationTotal => DEFAULTS.(violation := x)
    case Confidence => DEFAULTS.(confidence := x)
    case RecommendationConfidence => DEFAULTS.(confidence := x)
    case OtherKey(_) => DEFAULTS
  }

  lemma AxesOfSoleMetric(key: Key, x: real)
    requires x != 0.0
    ensures AxesOf(map[key := Num(x)]) == SoleAxis(key, x)
  {
    var m := map[key := Num(x)];
    forall k ensures Get(m, k) == if k == key then Num(x) else MISSING {}
    hide Get;
    SoleEffectAndCost(m, key, x);
    SoleOthers(m, key, x);
    hide AxesOf;
  }

  lemma SoleEffectAndCost(m: map<Key, Value>, key: Key, x: real)
    requires x != 0.0 && forall k :: Get(m, k) == if k == key then Num(x) else MISSING
    ensures AxesOf(m).effect == SoleAxis(key, x).effect && AxesOf(m).cost == SoleAxis(key, x).cost
    ensures AxesOf(m).risk == SoleAxis(key, x).risk
  {
    hide Get;
  }

  lemma SoleOthers(m: map<Key, Value>, key: Key, x: real)
    requires x != 0.0 && forall k :: Get(m, k) == if k == key then Num(x) else MISSING
    ensures AxesOf(m).delivery == SoleAxis(key, x).delivery && AxesOf(m).material == SoleAxis(key, x).material
    ensures AxesOf(m).violation == SoleAxis(key, x).violation && AxesOf(m).confidence == SoleAxis(key, x).confidence
  {
    hide Get;
  }

  lemma AxesOfNothing()
    ensures AxesOf(map[]) == DEFAULTS
  {}

  /** The standard key of an axis hides its aliases, and an earlier alias a later one, unless it is 0. */
  lemma StandardKeyWins(m: map<Key, Value>, x: real)
    requires x != 0.0
    ensures AxesOf(m[ExpectedEffect := Num(x)]).effect == x
    ensures AxesOf(m[ExpectedCost := Num(x)]).cost == x
    ensures Get(m, ExpectedCost) == MISSING ==> AxesOf(m[CostEstimate := Num(x)]).cost == x
    ensures AxesOf(m[ConstraintViolation := Num(x)]).violation == x
    ensures AxesOf(m[Confidence := Num(x)]).confidence == x
  {}

  /** A 0 under the standard key gives way to an alias; text that is no number does not, and is read as
      the default. */
  lemma ZeroGivesWayTextDoesNot(m: map<Key, Value>, x: real)
    requires x != 0.0
    ensures AxesOf(m[ExpectedEffect := Num(0.0)][ExpectedBenefit := Num(x)]).effect == x
    ensures AxesOf(m[ExpectedEffect := Value(true, None)][ExpectedBenefit := Num(x)]).effect == 0.5
    ensures AxesOf(m[QualityRisk := Num(0.0)]).risk == 0.0 && AxesOf(m[QualityRisk := Value(true, None)]).risk == 0.3
  {}

  /** The comparison block overrides the metrics, key by key. */
  lemma ComparisonOverrides(metrics: Block, comparison: Block, key: Key)
    ensures Get(Merged(metrics, comparison).values, key) ==
            if key in comparison.values then comparison.values[key] else Get(metrics.values, key)
  {
    GetMerged(metrics.values, comparison.values, key);
  }

  /** The candidate is the first of these that is given and not empty: the candidate action, the proposal's text,
      the action. */
  lemma FirstNamedCandidate(merged: Block, text: string, name: string)
    requires name != ""
    ensures CandidateOf(merged.(candidateAction := Some(name)), text) == name
    ensures merged.candidateAction in {None, Some("")} ==> CandidateOf(merged, name) == name
    ensures merged.candidateAction in {None, Some("")} ==> CandidateOf(merged.(action := Some(name)), "") == name
    ensures merged.candidateAction in {None, Some("")} && merged.action in {None, Some("")} ==>
              CandidateOf(merged, "") == "unspecified"
  {}

  // ---- the business score -------------------------------------------------------------------------

  predicate IsKpi(kpi: string) { kpi == "quality" || kpi == "delivery" || kpi == "cost" || kpi == "safety" }

  /** The KPI weights. */
  function WeightOf(kpi: string): real {
    match kpi
    case "quality" => 0.30
    case "delivery" => 0.25
    case "cost" => 0.25
    case "safety" => 0.20
    case _ => 0.0
  }

  /** The scores with one of them raised by `d`; a missing score counts as 0. */
  function Raised(scores: map<string, real>, kpi: string, d: real): map<string, real> {
    scores[kpi := (if kpi in scores then scores[kpi] else 0.0) + d]
  }

  /** Raising one score by `d` raises the business score by the weight of its KPI times `d`, and a score
      that is no KPI counts nothing. */
  lemma KpiWeighs(scores: map<string, real>, kpi: string, d: real)
    ensures BusinessScore(map[]) == 0.0
    ensures BusinessScore(Raised(scores, kpi, d)) == BusinessScore(scores) + WeightOf(kpi) * d
  {
    var raised := Raised(scores, kpi, d);
    forall k ensures ScoreOf(raised, k) == ScoreOf(scores, k) + (if k == kpi then d else 0.0) {}
    hide ScoreOf;
  }

  /** The weights add up to one: four equal scores are their own business score. */
  lemma EqualKpisScoreThemselves(scores: map<string, real>, x: real)
    requires forall kpi :: IsKpi(kpi) ==> kpi in scores && scores[kpi] == x
    ensures BusinessScore(scores) == x
  {
    assert IsKpi("quality") && IsKpi("delivery") && IsKpi("cost") && IsKpi("safety");
  }

  /** The quality agent's own bid. */
  lemma QualityBidScores()
    ensures Round4(BusinessScore(map["quality" := 0.9, "delivery" := 0.5, "cost" := 0.4, "safety" := 0.8])) == 0.655
  {
    var scores := map["quality" := 0.9, "delivery" := 0.5, "cost" := 0.4, "safety" := 0.8];
    assert BusinessScore(scores) == 0.655;
    assert Round4(0.655) == 0.655;
  }

  // ---- the comparison score -----------------------------------------------------------------------

  /** Per unit: the effect counts its confidence, the confidence its effect, cost -0.35 and risk -0.25.
      Delivery, material and violation count nothing. */
  lemma AxesWeigh(x: Axes, d: real)
    requires x.effect != 0.0 && x.cost != 0.0 && x.risk != 0.0 && x.confidence != 0.0
    ensures ComparisonScore(Axes(1.0, 1.0, 1.0, x.delivery, x.material, x.violation, 1.0)) == 0.4
    ensures x.effect + d != 0.0 ==>
              ComparisonScore(x.(effect := x.effect + d)) == ComparisonScore(x) + d * x.confidence
    ensures x.confidence + d != 0.0 ==>
              ComparisonScore(x.(confidence := x.confidence + d)) == ComparisonScore(x) + x.effect * d
    ensures x.cost + d != 0.0 ==> ComparisonScore(x.(cost := x.cost + d)) == ComparisonScore(x) - 0.35 * d
    ensures x.risk + d != 0.0 ==> ComparisonScore(x.(risk := x.risk + d)) == ComparisonScore(x) - 0.25 * d
  {
    assert (x.effect + d) * x.confidence == x.effect * x.confidence + d * x.confidence;
    assert x.effect * (x.confidence + d) == x.effect * x.confidence + x.effect * d;
  }

  /** A 0 is scored as the axis' default. */
  lemma ZeroIsScoredAsDefault(x: Axes)
    ensures ComparisonScore(x.(effect := 0.0)) == ComparisonScore(x.(effect := 0.5))
    ensures ComparisonScore(x.(cost := 0.0)) == ComparisonScore(x.(cost := 0.5))
    ensures ComparisonScore(x.(risk := 0.0)) == ComparisonScore(x.(risk := 0.3))
    ensures ComparisonScore(x.(confidence := 0.0)) == ComparisonScore(x.(confidence := 0.7))
  {}

  // ---- the penalty and the total --------------------------------------------------------------------

  /** Each speed note adds 0.4 to the penalty and each unit of violation 0.2, up to 1. */
  lemma PenaltyGrows(notes: nat, violation: real, d: real)
    requires d >= 0.0
    ensures Penalty(0, 0.0) == 0.0 && Penalty(notes, violation) <= 1.0
    ensures Penalty(notes + 1, violation) == MinR(1.0, Penalty(notes, violation) + 0.4)
    ensures Penalty(notes, violation + d) == MinR(1.0, Penalty(notes, violation) + 0.2 * d)
  {
    assert (notes + 1) as real == notes as real + 1.0;
  }

  /** The notes name the limits the judged speed breaks; a limit of 0 reads as the default 40 or 100. */
  lemma NotesNameBrokenLimits(p: Proposal, c: Constraints)
    ensures BelowMin in NotesOn(p, c) <==> JudgedSpeed(p) < (if c.speedMin == 0 then 40 else c.speedMin)
    ensures AboveMax in NotesOn(p, c) <==> JudgedSpeed(p) > (if c.speedMax == 0 then 100 else c.speedMax)
    ensures forall i, j :: 0 <= i < j < |NotesOn(p, c)| ==> NotesOn(p, c)[i] == BelowMin && NotesOn(p, c)[j] == AboveMax
  {}

  /** A recommended speed is what a proposal is judged by; a target speed only in its absence, and 100 in
      the absence of both. 0 counts as absent. */
  lemma SpeedThatIsJudged(p: Proposal, v: int)
    requires v != 0
    ensures JudgedSpeed(p.(speedRecommendation := Some(v))) == v
    ensures p.speedRecommendation in {None, Some(0)} ==> JudgedSpeed(p.(targetSpeed := Some(v))) == v
    ensures p.speedRecommendation in {None, Some(0)} && p.targetSpeed in {None, Some(0)} ==> JudgedSpeed(p) == 100
  {}

  /** The unrounded total counts 0.40 per unit of business score, 0.60 per unit of comparison score and
      -0.20 per unit of penalty. */
  lemma TotalWeighs(business: real, comparison: real, penalty: real, d: real)
    ensures RawTotal(0.0, 0.0, 0.0) == 0.0
    ensures RawTotal(business + d, comparison, penalty) == RawTotal(business, comparison, penalty) + 0.40 * d
    ensures RawTotal(business, comparison + d, penalty) == RawTotal(business, comparison, penalty) + 0.60 * d
    ensures RawTotal(business, comparison, penalty + d) == RawTotal(business, comparison, penalty) - 0.20 * d
  {}

  // ---- the order of the ranking --------------------------------------------------------------------

  /** Later in the ranking means a lower total; on equal totals a lower comparison score; on equal ones of
      both a lower business score; and on three equal scores a later arrival. */
  lemma RankingIsLexicographic(scored: seq<Scored>, i: nat, j: nat)
    requires i < j < |scored|
    ensures var order, r := SortOrder(KeysOf(scored), |scored|), Sorted(scored);
            && r[i] == scored[order[i]] && r[j] == scored[order[j]]
            && r[i].totalScore >= r[j].totalScore
            && (r[i].totalScore == r[j].totalScore ==> r[i].comparisonScore >= r[j].comparisonScore)
            && (r[i].totalScore == r[j].totalScore && r[i].comparisonScore == r[j].comparisonScore ==>
                  r[i].businessScore >= r[j].businessScore)
            && ((&& r[i].totalScore == r[j].totalScore && r[i].comparisonScore == r[j].comparisonScore
                 && r[i].businessScore == r[j].businessScore) ==> order[i] < order[j])
  {
    SortedIsStable(scored, i, j);
    hide Sorted, SortOrder;
  }

  /** Raising one of a proposal's KPIs, other things equal, never moves it later in the ranking. */
  lemma BetterKpiRanksNoLater(proposals: seq<Proposal>, k: nat, kpi: string, d: real, constraints: Option<Constraints>)
    requires k < |proposals| && d >= 0.0
    ensures var p := proposals[k];
            var better := p.(scores := Raised(p.scores, kpi, d));
            var before := KeysOf(EvaluatedAll(proposals, constraints));
            var after := KeysOf(EvaluatedAll(proposals[k := better], constraints));
            |before| == |after| == |proposals| && RankOf(after, k) <= RankOf(before, k)
  {
    var p := proposals[k];
    var better := p.(scores := Raised(p.scores, kpi, d));
    BetterKpiScoresNoWorse(p, better, kpi, d, constraints);
    hide *;
    NoWorseKeyRanksNoLater(proposals, k, better, constraints);
  }

  lemma BetterKpiScoresNoWorse(p: Proposal, better: Proposal, kpi: string, d: real, constraints: Option<Constraints>)
    requires d >= 0.0
    requires better == p.(scores := Raised(p.scores, kpi, d))
    ensures var s, t := Evaluated(p, constraints), Evaluated(better, constraints);
            && t.totalScore >= s.totalScore && t.comparisonScore == s.comparisonScore
            && t.businessScore >= s.businessScore
  {
    KpiWeighs(p.scores, kpi, d);
    var b, c := BusinessScore(p.scores), BusinessScore(better.scores);
    assert WeightOf(kpi) * d >= 0.0;
    assert AxesFor(better) == AxesFor(p);
    hide BusinessScore, ComparisonScore, Penalty, Round4, AxesFor, WithComparison, WeightOf;
    var notes := if constraints.Some? then NotesOn(p, constraints.value) else [];
    assert notes == if constraints.Some? then NotesOn(better, constraints.value) else [];
    hide NotesOn;
    var x := AxesFor(p);
    var penalty := if constraints.Some? then Penalty(|notes|, x.violation) else 0.0;
    Round4Monotone(b, c);
    Round4Monotone(RawTotal(b, ComparisonScore(x), penalty), RawTotal(c, ComparisonScore(x), penalty));
  }
}
