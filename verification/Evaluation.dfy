/** Scoring one proposal: business score, comparison score, constraint penalty and total. */
module Evaluation {
  import opened Numbers
  import opened Options
  import opened Comparison

  datatype Constraints = Constraints(speedMin: int, speedMax: int)

  datatype SpeedNote = BelowMin | AboveMax

  datatype Scored = Scored(
    proposal: Proposal,
    businessScore: real,
    comparisonScore: real,
    penalty: real,
    notes: seq<SpeedNote>,
    totalScore: real)

  // ---- the parts of the score ------------------------------------------------------------

  function ScoreOf(scores: map<string, real>, kpi: string): real { if kpi in scores then scores[kpi] else 0.0 }

  function BusinessScore(scores: map<string, real>): real {
    ScoreOf(scores, "quality") * 0.30 + ScoreOf(scores, "delivery") * 0.25
    + ScoreOf(scores, "cost") * 0.25 + ScoreOf(scores, "safety") * 0.20
  }

  /** `x or default` on a number: 0 counts as missing. */
  function OrNumber(x: real, default: real): real { if x != 0.0 then x else default }

  function OrInt(x: int, default: int): int { if x != 0 then x else default }

  function ComparisonScore(x: Axes): real {
    OrNumber(x.effect, 0.5) * OrNumber(x.confidence, 0.7) - 0.35 * OrNumber(x.cost, 0.5) - 0.25 * OrNumber(x.risk, 0.3)
  }

  /** The speed a proposal is judged by: the first of its two speeds that is present and not 0. */
  function JudgedSpeed(p: Proposal): int {
    if p.speedRecommendation.Some? && p.speedRecommendation.value != 0 then p.speedRecommendation.value
    else if p.targetSpeed.Some? && p.targetSpeed.value != 0 then p.targetSpeed.value
    else 100
  }

  function NotesOn(p: Proposal, c: Constraints): seq<SpeedNote> {
    var sp := JudgedSpeed(p);
    (if sp < OrInt(c.speedMin, 40) then [BelowMin] else []) + (if sp > OrInt(c.speedMax, 100) then [AboveMax] else [])
  }

  /** The penalty of `notes` speed violations and a constraint violation metric. */
  function Penalty(notes: nat, violation: real): real {
    MinR(1.0, 0.4 * notes as real + OrNumber(violation, 0.0) * 0.2)
  }

  /** `score_against_constraints`, which accumulates the penalty and its notes. */
  method ScoreAgainstConstraints(p: Proposal, c: Constraints, violation: real)
    returns (penalty: real, notes: seq<SpeedNote>)
    ensures notes == NotesOn(p, c)
    ensures penalty == Penalty(|NotesOn(p, c)|, violation)
  {
    var sp := JudgedSpeed(p);
    var smin, smax := OrInt(c.speedMin, 40), OrInt(c.speedMax, 100);
    var viol := 0.0;
    notes := [];
    if sp < smin {
      viol := viol + 0.4;
      notes := notes + [BelowMin];
    }
    if sp > smax {
      viol := viol + 0.4;
      notes := notes + [AboveMax];
    }
    viol := viol + OrNumber(violation, 0.0) * 0.2;
    penalty := MinR(1.0, viol);
  }

  // ---- the evaluation ------------------------------------------------------------------------

  function RawTotal(business: real, comparison: real, penalty: real): real {
    0.40 * business + 0.60 * comparison - 0.20 * penalty
  }

  /** The axes a proposal is scored on. */
  function AxesFor(p: Proposal): Axes { AxesOf(Merged(BlockOr(p.metrics), BlockOr(p.comparison)).values) }

  /** `evaluate_proposal`. */
  function Evaluated(p: Proposal, constraints: Option<Constraints>): Scored {
    var x := AxesFor(p);
    var notes := if constraints.Some? then NotesOn(p, constraints.value) else [];
    var penalty := if constraints.Some? then Penalty(|notes|, x.violation) else 0.0;
    var business, comparison := BusinessScore(p.scores), ComparisonScore(x);
    Scored(WithComparison(p), Round4(business), Round4(comparison), Round4(penalty), notes,
           Round4(RawTotal(business, comparison, penalty)))
  }

  /** The whole record of a second evaluation is that of the first exactly when normalizing twice is
      normalizing once. The scores alone need less: see `ScoredAxesSurvive`. */
  lemma EvaluateTwice(p: Proposal, constraints: Option<Constraints>)
    ensures Evaluated(Evaluated(p, constraints).proposal, constraints) == Evaluated(p, constraints) <==> ZerosAgree(p)
  {
    var q := WithComparison(p);
    NormalizeTwice(p);
    if ZerosAgree(p) {
      assert Normalized(q) == Normalized(p);
      AxesDetermineBlock(AxesFor(q), AxesFor(p), CandidateOf(Merged(BlockOr(q.metrics), BlockOr(q.comparison)), q.text),
                         CandidateOf(Merged(BlockOr(p.metrics), BlockOr(p.comparison)), p.text));
      assert AxesFor(q) == AxesFor(p);
      hide AxesFor, Normalized, NotesOn, BusinessScore, ComparisonScore, Penalty, Round4, RawTotal;
      SameSpeed(p, q, constraints);
    }
  }

  lemma SameSpeed(p: Proposal, q: Proposal, constraints: Option<Constraints>)
    requires p.speedRecommendation == q.speedRecommendation && p.targetSpeed == q.targetSpeed
    ensures constraints.Some? ==> NotesOn(p, constraints.value) == NotesOn(q, constraints.value)
  {}

  // ---- when the scores survive a second evaluation ------------------------------------------------

  /** The axes as they are scored, after 0 has fallen to the defaults. */
  function Effective(x: Axes): Axes {
    x.(effect := OrNumber(x.effect, 0.5), cost := OrNumber(x.cost, 0.5), risk := OrNumber(x.risk, 0.3),
       confidence := OrNumber(x.confidence, 0.7))
  }

  /** A normalized 0 was scored as the default, so the aliases that a second pass asks instead may
      also read the default. */
  predicate ZeroScoresAlike(axis: real, aliases: Value, default: real) {
    axis == 0.0 ==> FloatOr(aliases, default) == 0.0 || FloatOr(aliases, default) == default
  }

  predicate ZerosScoreAlike(p: Proposal) {
    var metrics, x := BlockOr(p.metrics).values, AxesFor(p);
    && ZeroScoresAlike(x.effect, EffectAliases(metrics), 0.5)
    && ZeroScoresAlike(x.cost, CostAliases(metrics), 0.5)
    && ZeroScoresAlike(x.violation, ViolationAliases(metrics), 0.0)
    && ZeroScoresAlike(x.confidence, ConfidenceAliases(metrics), 0.7)
  }

  /** A second evaluation scores the same axes exactly when each aliased axis that came out 0 reads 0
      or its default off the aliases of the metrics alone. */
  lemma ScoredAxesSurvive(p: Proposal)
    ensures Effective(AxesFor(WithComparison(p))) == Effective(AxesFor(p)) <==> ZerosScoreAlike(p)
  {
    var candidate := CandidateOf(Merged(BlockOr(p.metrics), BlockOr(p.comparison)), p.text);
    SecondPass(AxesFor(p), candidate, BlockOr(p.metrics).values);
    hide AxesOf, AsBlock;
  }

  predicate SameScores(s: Scored, t: Scored) {
    && s.businessScore == t.businessScore && s.comparisonScore == t.comparisonScore
    && s.penalty == t.penalty && s.notes == t.notes && s.totalScore == t.totalScore
  }

  /** Then every score is the same too. */
  lemma ScoresSurvive(p: Proposal, constraints: Option<Constraints>)
    requires ZerosScoreAlike(p)
    ensures SameScores(Evaluated(Evaluated(p, constraints).proposal, constraints), Evaluated(p, constraints))
  {
    ScoredAxesSurvive(p);
    ScoresOfAxes(p, constraints);
    ScoresOfAxes(WithComparison(p), constraints);
    hide AxesFor, Normalized, Effective, BusinessScore, ComparisonScore, Penalty, Round4, RawTotal;
    SameSpeed(p, WithComparison(p), constraints);
  }

  /** The scores read nothing off the axes but their effective values. */
  lemma ScoresOfAxes(p: Proposal, constraints: Option<Constraints>)
    ensures var x, s := Effective(AxesFor(p)), Evaluated(p, constraints);
            var penalty := if constraints.Some? then Penalty(|s.notes|, x.violation) else 0.0;
            && s.businessScore == Round4(BusinessScore(p.scores)) && s.penalty == Round4(penalty)
            && s.comparisonScore == Round4(ComparisonScore(x))
            && s.totalScore == Round4(RawTotal(BusinessScore(p.scores), ComparisonScore(x), penalty))
  {
    assert ComparisonScore(Effective(AxesFor(p))) == ComparisonScore(AxesFor(p));
    hide AxesFor, ComparisonScore, Penalty, Round4;
  }

  /** The effect as the text "0" in the comparison, over a benefit of 0.9 in the metrics. */
  function ShadowedBenefit(speed: Option<int>): Proposal {
    Proposal("QA", "", Some(Block(map[ExpectedBenefit := Num(0.9)], None, None)),
             Some(Block(map[ExpectedEffect := Value(true, Some(0.0))], None, None)), map[], speed, None, None)
  }

  lemma ShadowedBenefitAxes(speed: Option<int>)
    ensures AxesFor(ShadowedBenefit(speed)) == Axes(0.0, 0.5, 0.3, 0.0, 0.2, 0.0, 0.7)
    ensures AxesFor(WithComparison(ShadowedBenefit(speed))) == Axes(0.9, 0.5, 0.3, 0.0, 0.2, 0.0, 0.7)
  {
    var p := ShadowedBenefit(speed);
    var metrics, comparison := BlockOr(p.metrics).values, BlockOr(p.comparison).values;
    assert metrics == map[ExpectedBenefit := Num(0.9)] && comparison == map[ExpectedEffect := Value(true, Some(0.0))];
    assert Get(metrics + comparison, ExpectedEffect) == Value(true, Some(0.0));
    var candidate := CandidateOf(Merged(BlockOr(p.metrics), BlockOr(p.comparison)), p.text);
    SecondPass(AxesFor(p), candidate, metrics);
    hide AsBlock, CandidateOf;
  }

  lemma ShadowedBenefitScores(speed: Option<int>)
    ensures var p := ShadowedBenefit(speed);
            var x, y := Effective(AxesFor(p)), Effective(AxesFor(WithComparison(p)));
            && ComparisonScore(x) == 0.1 && ComparisonScore(y) == 0.38
            && x.violation == y.violation && x != y
  {
    ShadowedBenefitAxes(speed);
    hide AxesFor, WithComparison;
  }

  /** The condition is needed: this proposal scores 0.1 at first and 0.38 the second time. */
  lemma ShadowedBenefitResurfaces(speed: Option<int>, constraints: Option<Constraints>)
    ensures !ZerosScoreAlike(ShadowedBenefit(speed))
    ensures var p := ShadowedBenefit(speed);
            var first, second := Evaluated(p, constraints), Evaluated(WithComparison(p), constraints);
            && first.proposal == WithComparison(p)
            && first.comparisonScore == 0.1 && second.comparisonScore == 0.38
            && first.totalScore < second.totalScore
  {
    var p := ShadowedBenefit(speed);
    var q := WithComparison(p);
    assert Round4(0.1) == 0.1 && Round4(0.38) == 0.38;
    assert q.scores == p.scores;
    hide AxesFor, Normalized, ZerosScoreAlike, NotesOn, Penalty, Round4, ComparisonScore, BusinessScore, Effective;
    ShadowedBenefitScores(speed);
    ScoredAxesSurvive(p);
    SameSpeed(p, q, constraints);
    ScoresOfAxes(p, constraints);
    ScoresOfAxes(q, constraints);
    var violation := Effective(AxesFor(p)).violation;
    var penalty := if constraints.Some? then Penalty(|Evaluated(p, constraints).notes|, violation) else 0.0;
    Round4Apart(RawTotal(BusinessScore(p.scores), 0.1, penalty), RawTotal(BusinessScore(p.scores), 0.38, penalty));
  }

  lemma NoAliasesScoreAlike(p: Proposal)
    requires NoAliases(p)
    ensures ZerosScoreAlike(p)
  {
    hide AxesFor, EffectAliases, CostAliases, ViolationAliases, ConfidenceAliases;
  }

  /** Records that change while their scores stay: a 0 effect and the default are scored alike. */
  lemma ZerosKeepTheirScores(p: Proposal, constraints: Option<Constraints>)
    requires p == TEXT_ZERO || p == ALIASED_ZERO
    ensures Evaluated(Evaluated(p, constraints).proposal, constraints) != Evaluated(p, constraints)
    ensures SameScores(Evaluated(Evaluated(p, constraints).proposal, constraints), Evaluated(p, constraints))
  {
    hide *;
    TextZeroTurnsIntoDefault();
    AliasInComparisonIsLost();
    EvaluateTwice(p, constraints);
    NoAliasesScoreAlike(p);
    ScoresSurvive(p, constraints);
  }

  // ---- monotonicity -----------------------------------------------------------------------------

  /** No worse on any scored axis; products need effects and confidences that are not negative. */
  predicate NoWorse(x: Axes, y: Axes) {
    && 0.0 <= y.effect <= x.effect && 0.0 <= y.confidence <= x.confidence
    && x.cost <= y.cost && x.risk <= y.risk && x.violation <= y.violation
  }

  lemma ProductMonotone(a: real, b: real, c: real, d: real)
    requires 0.0 <= a <= c && 0.0 <= b <= d
    ensures a * b <= c * d
  {
    MulMonotone(a, c, b);
    MulMonotone(b, d, c);
  }

  /** A proposal whose effective axes are no worse, with the same scores and judged speed, gets no
      worse rounded scores. */
  lemma NoWorseScoresNoWorse(p: Proposal, q: Proposal, constraints: Option<Constraints>)
    requires NoWorse(Effective(AxesFor(q)), Effective(AxesFor(p)))
    requires q.scores == p.scores && JudgedSpeed(q) == JudgedSpeed(p)
    ensures var s, t := Evaluated(p, constraints), Evaluated(q, constraints);
            && t.totalScore >= s.totalScore && t.comparisonScore >= s.comparisonScore
            && t.businessScore == s.businessScore
  {
    var x, y := Effective(AxesFor(p)), Effective(AxesFor(q));
    ProductMonotone(x.effect, x.confidence, y.effect, y.confidence);
    assert ComparisonScore(AxesFor(p)) <= ComparisonScore(AxesFor(q));
    var notes := if constraints.Some? then NotesOn(p, constraints.value) else [];
    assert notes == if constraints.Some? then NotesOn(q, constraints.value) else [];
    var s := if constraints.Some? then Penalty(|notes|, x.violation) else 0.0;
    var t := if constraints.Some? then Penalty(|notes|, y.violation) else 0.0;
    assert t <= s;
    hide ComparisonScore, Penalty, NotesOn, Round4, AxesFor;
    var business := BusinessScore(p.scores);
    Round4Monotone(ComparisonScore(AxesFor(p)), ComparisonScore(AxesFor(q)));
    Round4Monotone(RawTotal(business, ComparisonScore(AxesFor(p)), s),
                   RawTotal(business, ComparisonScore(AxesFor(q)), t));
  }

  /** Strictly positive metrics are their own effective values, so raw improvements count. */
  lemma PositiveAxesAreEffective(x: Axes)
    requires x.effect > 0.0 && x.cost > 0.0 && x.risk > 0.0 && x.confidence > 0.0
    ensures Effective(x) == x
  {}

  /** Lowering the cost never lowers the comparison score, except exactly when the new cost is 0
      and the old one was below the default 0.5 that the 0 then falls to. */
  lemma CheaperIsNoWorse(x: Axes, cost: real)
    requires 0.0 <= cost <= x.cost
    ensures ComparisonScore(x.(cost := cost)) >= ComparisonScore(x) <==> !(cost == 0.0 && 0.0 < x.cost < 0.5)
  {
    var gain := OrNumber(x.effect, 0.5) * OrNumber(x.confidence, 0.7);
    assert ComparisonScore(x) == gain - 0.35 * OrNumber(x.cost, 0.5) - 0.25 * OrNumber(x.risk, 0.3);
    assert ComparisonScore(x.(cost := cost)) == gain - 0.35 * OrNumber(cost, 0.5) - 0.25 * OrNumber(x.risk, 0.3);
  }

  /** Raising the effect never lowers the comparison score, except exactly when the old effect was
      0, scored as 0.5, and the new one is positive but below 0.5. */
  lemma StrongerIsNoWorse(x: Axes, effect: real)
    requires 0.0 <= x.effect <= effect && x.confidence >= 0.0
    ensures ComparisonScore(x.(effect := effect)) >= ComparisonScore(x) <==> !(x.effect == 0.0 && 0.0 < effect < 0.5)
  {
    var c := OrNumber(x.confidence, 0.7);
    var a, b := OrNumber(x.effect, 0.5), OrNumber(effect, 0.5);
    assert c > 0.0;
    ScaledOrder(a, b, c);
    assert ComparisonScore(x) == a * c - 0.35 * OrNumber(x.cost, 0.5) - 0.25 * OrNumber(x.risk, 0.3);
    assert ComparisonScore(x.(effect := effect)) == b * c - 0.35 * OrNumber(x.cost, 0.5) - 0.25 * OrNumber(x.risk, 0.3);
  }

  lemma ScaledOrder(a: real, b: real, c: real)
    requires c > 0.0
    ensures a * c <= b * c <==> a <= b
  {
    if b < a { assert (a - b) * c > 0.0; }
  }
}
