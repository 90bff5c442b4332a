/** The comparison schema of proposals: alias chains, defaults and Python's `x or y` on metrics. */
module Comparison {
  import opened Options

  /** A metric as the code can observe it: its truth value and what `float()` makes of it
      (None when `float()` raises). A missing key reads as Python's None. */
  datatype Value = Value(truthy: bool, number: Option<real>)

  const MISSING := Value(false, None)

  /** A Python number. */
  function Num(r: real): Value { Value(r != 0.0, Some(r)) }

  function Get(m: map<Key, Value>, key: Key): Value { if key in m then m[key] else MISSING }

  /** `a or b`. */
  function Or(a: Value, b: Value): Value { if a.truthy then a else b }

  /** `float(v)`, or the default when that raises. */
  function FloatOr(v: Value, default: real): real { if v.number.Some? then v.number.value else default }

  /** The keys of a metrics or comparison dictionary. */
  datatype Key =
    | ExpectedEffect | ExpectedCost | QualityRisk | DeliveryImpact | MaterialImpact | ConstraintViolation | Confidence
    | ExpectedBenefit | CostEstimate | CostEstimateNorm | ConstraintViolationTotal | RecommendationConfidence
    | OtherKey(name: string)

  /** A metrics dictionary: its values and its two text entries. */
  datatype Block = Block(values: map<Key, Value>, candidateAction: Option<string>, action: Option<string>)

  const EMPTY := Block(map[], None, None)

  datatype Proposal = Proposal(
    agent: string,
    text: string,
    metrics: Option<Block>,
    comparison: Option<Block>,
    scores: map<string, real>,
    speedRecommendation: Option<int>,
    targetSpeed: Option<int>,
    inspectionMode: Option<string>)

  function BlockOr(b: Option<Block>): Block { if b.Some? then b.value else EMPTY }

  /** `{**metrics, **comparison}`. */
  function Merged(metrics: Block, comparison: Block): Block {
    Block(metrics.values + comparison.values,
          if comparison.candidateAction.Some? then comparison.candidateAction else metrics.candidateAction,
          if comparison.action.Some? then comparison.action else metrics.action)
  }

  predicate IsStandard(k: Key) {
    k.ExpectedEffect? || k.ExpectedCost? || k.QualityRisk? || k.DeliveryImpact? || k.MaterialImpact?
    || k.ConstraintViolation? || k.Confidence?
  }

  // The alias chains without their standard key.

  function EffectAliases(m: map<Key, Value>): Value { Get(m, ExpectedBenefit) }

  function CostAliases(m: map<Key, Value>): Value { Or(Get(m, CostEstimate), Get(m, CostEstimateNorm)) }

  function ViolationAliases(m: map<Key, Value>): Value { Get(m, ConstraintViolationTotal) }

  function ConfidenceAliases(m: map<Key, Value>): Value { Get(m, RecommendationConfidence) }

  /** The seven normalized numbers. */
  datatype Axes = Axes(
    effect: real, cost: real, risk: real, delivery: real, material: real, violation: real, confidence: real)

  function AxesOf(m: map<Key, Value>): Axes {
    Axes(FloatOr(Or(Get(m, ExpectedEffect), EffectAliases(m)), 0.5),
         FloatOr(Or(Get(m, ExpectedCost), CostAliases(m)), 0.5),
         FloatOr(Get(m, QualityRisk), 0.3),
         FloatOr(Get(m, DeliveryImpact), 0.0),
         FloatOr(Get(m, MaterialImpact), 0.2),
         FloatOr(Or(Get(m, ConstraintViolation), ViolationAliases(m)), 0.0),
         FloatOr(Or(Get(m, Confidence), ConfidenceAliases(m)), 0.7))
  }

  function AsBlock(x: Axes, candidate: string): Block {
    Block(map[ExpectedEffect := Num(x.effect), ExpectedCost := Num(x.cost), QualityRisk := Num(x.risk),
              DeliveryImpact := Num(x.delivery), MaterialImpact := Num(x.material),
              ConstraintViolation := Num(x.violation), Confidence := Num(x.confidence)],
          Some(candidate), None)
  }

  function TextOr(t: Option<string>, other: string): string { if t.Some? && t.value != "" then t.value else other }

  function CandidateOf(merged: Block, text: string): string {
    TextOr(merged.candidateAction, if text != "" then text else TextOr(merged.action, "unspecified"))
  }

  /** `normalize_comparison_metrics`. */
  function Normalized(p: Proposal): Block {
    var merged := Merged(BlockOr(p.metrics), BlockOr(p.comparison));
    AsBlock(AxesOf(merged.values), CandidateOf(merged, p.text))
  }

  /** `merge_into_proposal`. */
  function WithComparison(p: Proposal): Proposal { p.(comparison := Some(Normalized(p))) }

  // ---- when normalizing twice is normalizing once ---------------------------------------------

  /** A normalized 0 is falsy, so a second pass asks the aliases of the metrics again; they must
      read 0 as well. */
  predicate ZeroAgrees(axis: real, aliases: Value, default: real) { axis == 0.0 ==> FloatOr(aliases, default) == 0.0 }

  predicate ZerosAgree(p: Proposal) {
    var metrics := BlockOr(p.metrics).values;
    var x := AxesOf(Merged(BlockOr(p.metrics), BlockOr(p.comparison)).values);
    && ZeroAgrees(x.effect, EffectAliases(metrics), 0.5)
    && ZeroAgrees(x.cost, CostAliases(metrics), 0.5)
    && ZeroAgrees(x.violation, ViolationAliases(metrics), 0.0)
    && ZeroAgrees(x.confidence, ConfidenceAliases(metrics), 0.7)
  }

  lemma GetMerged(a: map<Key, Value>, b: map<Key, Value>, key: Key)
    ensures Get(a + b, key) == if key in b then b[key] else Get(a, key)
  {}

  lemma NormalizedKeys(x: Axes, s: string)
    ensures var b := AsBlock(x, s).values;
            && (forall key :: key in b <==> IsStandard(key))
            && b[ExpectedEffect] == Num(x.effect) && b[ExpectedCost] == Num(x.cost) && b[QualityRisk] == Num(x.risk)
            && b[DeliveryImpact] == Num(x.delivery) && b[MaterialImpact] == Num(x.material)
            && b[ConstraintViolation] == Num(x.violation) && b[Confidence] == Num(x.confidence)
  {}

  /** What a second pass reads: the standard keys from the first pass, the aliases from the metrics. */
  lemma SecondPass(x: Axes, s: string, metrics: map<Key, Value>)
    ensures var y := AxesOf(metrics + AsBlock(x, s).values);
            && y.risk == x.risk && y.delivery == x.delivery && y.material == x.material
            && y.effect == FloatOr(Or(Num(x.effect), EffectAliases(metrics)), 0.5)
            && y.cost == FloatOr(Or(Num(x.cost), CostAliases(metrics)), 0.5)
            && y.violation == FloatOr(Or(Num(x.violation), ViolationAliases(metrics)), 0.0)
            && y.confidence == FloatOr(Or(Num(x.confidence), ConfidenceAliases(metrics)), 0.7)
  {
    var b := AsBlock(x, s).values;
    NormalizedKeys(x, s);
    hide AsBlock, Get;
    forall key ensures Get(metrics + b, key) == if IsStandard(key) then b[key] else Get(metrics, key) {
      GetMerged(metrics, b, key);
    }
  }

  lemma AxesDetermineBlock(x: Axes, y: Axes, s: string, t: string)
    requires AsBlock(x, s) == AsBlock(y, t)
    ensures x == y && s == t
  {
    var a, b := AsBlock(x, s).values, AsBlock(y, t).values;
    assert a[ExpectedEffect] == b[ExpectedEffect] && a[ExpectedCost] == b[ExpectedCost];
    assert a[QualityRisk] == b[QualityRisk] && a[DeliveryImpact] == b[DeliveryImpact];
    assert a[MaterialImpact] == b[MaterialImpact] && a[ConstraintViolation] == b[ConstraintViolation];
    assert a[Confidence] == b[Confidence];
  }

  /** Normalizing is idempotent exactly when every aliased axis that came out 0 also reads 0 off
      the aliases of the metrics alone. */
  lemma NormalizeTwice(p: Proposal)
    ensures Normalized(WithComparison(p)) == Normalized(p) <==> ZerosAgree(p)
  {
    var q := WithComparison(p);
    var x := AxesOf(Merged(BlockOr(p.metrics), BlockOr(p.comparison)).values);
    var y := AxesOf(Merged(BlockOr(q.metrics), BlockOr(q.comparison)).values);
    var s := CandidateOf(Merged(BlockOr(p.metrics), BlockOr(p.comparison)), p.text);
    SecondPass(x, s, BlockOr(p.metrics).values);
    assert CandidateOf(Merged(BlockOr(q.metrics), BlockOr(q.comparison)), q.text) == s;
    if Normalized(q) == Normalized(p) { AxesDetermineBlock(y, x, s, s); }
  }

  predicate AllNumbers(m: map<Key, Value>) {
    forall k :: k in m ==> m[k].number.Some? && m[k] == Num(m[k].number.value)
  }

  /** Numbers in every metric and only standard keys in the incoming comparison are enough. */
  lemma NumericProposalsNormalizeOnce(p: Proposal)
    requires AllNumbers(BlockOr(p.metrics).values) && AllNumbers(BlockOr(p.comparison).values)
    requires forall k :: k in BlockOr(p.comparison).values ==> IsStandard(k)
    ensures ZerosAgree(p)
  {
    var metrics, comparison := BlockOr(p.metrics).values, BlockOr(p.comparison).values;
    var m := metrics + comparison;
    GetMerged(metrics, comparison, ExpectedEffect);
    GetMerged(metrics, comparison, ExpectedCost);
    GetMerged(metrics, comparison, ConstraintViolation);
    GetMerged(metrics, comparison, Confidence);
    GetMerged(metrics, comparison, ExpectedBenefit);
    GetMerged(metrics, comparison, CostEstimate);
    GetMerged(metrics, comparison, CostEstimateNorm);
    GetMerged(metrics, comparison, ConstraintViolationTotal);
    GetMerged(metrics, comparison, RecommendationConfidence);
    ChainZero(Get(m, ExpectedEffect), EffectAliases(metrics), 0.5);
    ChainZero(Get(m, ExpectedCost), CostAliases(metrics), 0.5);
    ChainZero(Get(m, ConstraintViolation), ViolationAliases(metrics), 0.0);
    ChainZero(Get(m, Confidence), ConfidenceAliases(metrics), 0.7);
    hide Get, Or, FloatOr, AllNumbers;
  }

  lemma ChainZero(standard: Value, aliases: Value, default: real)
    requires IsNumberOrMissing(standard)
    ensures ZeroAgrees(FloatOr(Or(standard, aliases), default), aliases, default)
  {}

  predicate IsNumberOrMissing(v: Value) { v == MISSING || (v.number.Some? && v == Num(v.number.value)) }

  /** No alias among the metrics. */
  predicate NoAliases(p: Proposal) {
    var m := BlockOr(p.metrics).values;
    EffectAliases(m) == CostAliases(m) == ViolationAliases(m) == ConfidenceAliases(m) == MISSING
  }

  /** A benefit of 0 inside the comparison block. */
  const ALIASED_ZERO :=
    Proposal("QA", "", None, Some(Block(map[ExpectedBenefit := Num(0.0)], None, None)), map[], None, None, None)

  /** An effect given as the text "0": truthy, but `float()` makes it 0. */
  const TEXT_ZERO :=
    Proposal("QA", "", Some(Block(map[ExpectedEffect := Value(true, Some(0.0))], None, None)), None, map[],
             None, None, None)

  /** The condition is needed: an alias inside the comparison block is used once and then lost. */
  lemma AliasInComparisonIsLost()
    ensures Normalized(WithComparison(ALIASED_ZERO)) != Normalized(ALIASED_ZERO)
    ensures !ZerosAgree(ALIASED_ZERO) && NoAliases(ALIASED_ZERO)
  {
    var c := map[ExpectedBenefit := Num(0.0)];
    assert Get(EMPTY.values + c, ExpectedBenefit) == Num(0.0) && Get(EMPTY.values + c, ExpectedEffect) == MISSING;
    assert !ZerosAgree(ALIASED_ZERO);
    NormalizeTwice(ALIASED_ZERO);
  }

  /** So is the other half: a truthy metric that reads 0 becomes the number 0, which the second pass
      takes for missing. */
  lemma TextZeroTurnsIntoDefault()
    ensures Normalized(WithComparison(TEXT_ZERO)) != Normalized(TEXT_ZERO)
    ensures !ZerosAgree(TEXT_ZERO) && NoAliases(TEXT_ZERO)
  {
    var c := map[ExpectedEffect := Value(true, Some(0.0))];
    assert Get(c + EMPTY.values, ExpectedEffect) == Value(true, Some(0.0)) && Get(c, ExpectedBenefit) == MISSING;
    assert !ZerosAgree(TEXT_ZERO);
    NormalizeTwice(TEXT_ZERO);
  }
}
