/** From ranked proposals to a strategy: the solver's numbers, the merge with an untrusted reply,
    the rule-based fallback, and the clamp that every strategy passes. */
module Strategy {
  import opened Numbers
  import opened Options
  import opened Comparison
  import opened Evaluation
  import opened Ranking
  import opened CnpSession

  datatype Field =
    | TargetSpeedPct | InspectionMode | BestAgent | BestScore | Decision
    | Rationale | RiskAssessment | ExpectedSsImpact | PromptSuiteVersion | CnpId
    | BestComparisonScore | BestBusinessScore | ConstraintPenalty | ProposalsCount
    | ConstraintsApplied | ProtocolVersion | ConversationId | ApprovalRequired
    | OtherField(name: string)

  datatype Content = IntV(i: int) | RealV(r: real) | TextV(text: string) | BoolV(b: bool) | OtherV(tag: nat)

  type Plan = map<Field, Content>

  /** The fields a reply may not set. */
  predicate IsNumeric(f: Field) {
    f.TargetSpeedPct? || f.InspectionMode? || f.BestAgent? || f.BestScore? || f.Decision?
  }

  // ---- text ------------------------------------------------------------------------------

  /** ASCII part of `str.lower`. */
  function Lower(s: string): (r: string)
    ensures |r| == |s|
  {
    seq(|s|, i requires 0 <= i < |s| => if 'A' <= s[i] <= 'Z' then (s[i] as int + 32) as char else s[i])
  }

  /** `t in s`. */
  predicate Contains(s: string, t: string) { t <= s || (s != "" && Contains(s[1..], t)) }

  /** The solver's inspection modes. Stripping blanks first would not change what is contained. */
  function SolverMode(mode: string): string {
    if Contains(mode, "강화") || Contains(Lower(mode), "enhanced") then "enhanced" else "standard"
  }

  // ---- the solver -----------------------------------------------------------------------------

  function TotalsOf(scored: seq<Scored>): (keys: seq<SortKey>)
    ensures |keys| == |scored|
  {
    seq(|scored|, i requires 0 <= i < |scored| => SortKey(scored[i].totalScore, 0.0, 0.0))
  }

  /** The first proposal after a stable descending sort by total score alone. */
  function BestByTotal(scored: seq<Scored>): Scored
    requires |scored| > 0
  {
    scored[SortOrder(TotalsOf(scored), |scored|)[0]]
  }

  function SolverSpeed(p: Proposal): int {
    ClampSpeed(if p.speedRecommendation.Some? then p.speedRecommendation.value
               else if p.targetSpeed.Some? then p.targetSpeed.value else 100)
  }

  function ModeOf(p: Proposal): string { if p.inspectionMode.Some? then p.inspectionMode.value else "standard" }

  /** `cnp_numeric_strategy`. */
  function NumericPlan(scored: seq<Scored>): Plan {
    if scored == [] then map[]
    else
      var best := BestByTotal(scored);
      map[TargetSpeedPct := IntV(SolverSpeed(best.proposal)),
          InspectionMode := TextV(SolverMode(ModeOf(best.proposal))),
          BestAgent := TextV(best.proposal.agent),
          BestScore := RealV(best.totalScore),
          Decision := TextV("solver_first")]
  }

  function SetDefault(plan: Plan, f: Field, c: Content): Plan { if f in plan then plan else plan[f := c] }

  const NO_LLM_RATIONALE := OtherV(0)
  const NARRATED := OtherV(1)
  const CAUTIOUS := TextV("정보 부족 — 보수적 모니터링")
  const NOT_ASSESSED := TextV("미평가")

  /** The entries of a reply that are taken over. */
  function Accepted(numeric: Plan, reply: Plan): Plan {
    map f | f in numeric.Keys + reply.Keys && (f in numeric || !IsNumeric(f)) ::
      if f in reply && !IsNumeric(f) then reply[f] else numeric[f]
  }

  /** The three texts of a plan without a model's reply. */
  function WithDefaults(plan: Plan): Plan {
    SetDefault(SetDefault(SetDefault(plan, Rationale, NO_LLM_RATIONALE), RiskAssessment, CAUTIOUS),
               ExpectedSsImpact, NOT_ASSESSED)
  }

  function MergedPlan(numeric: Plan, reply: Option<Plan>): Plan {
    if reply.None? || reply.value == map[]
    then WithDefaults(numeric)
    else SetDefault(Accepted(numeric, reply.value), Rationale, NARRATED)
  }

  /** `merge_numeric_and_rationale`: a loop over the reply's items, in any order. */
  method MergeNumericAndRationale(numeric: Plan, reply: Option<Plan>) returns (out: Plan)
    ensures out == MergedPlan(numeric, reply)
  {
    out := numeric;
    if reply.None? || reply.value == map[] {
      out := WithDefaults(out);
      return;
    }
    var remaining := reply.value.Keys;
    ghost var done: set<Field> := {};
    while remaining != {}
      invariant remaining + done == reply.value.Keys && remaining !! done
      invariant out == Accepted(numeric, map f | f in reply.value && f in done :: reply.value[f])
      decreases remaining
    {
      var f :| f in remaining;
      remaining := remaining - {f};
      done := done + {f};
      if !IsNumeric(f) {
        out := out[f := reply.value[f]];
      }
    }
    assert (map f | f in reply.value && f in done :: reply.value[f]) == reply.value;
    out := SetDefault(out, Rationale, NARRATED);
  }

  // ---- the two paths ------------------------------------------------------------------------------

  /** The language model: switched off, raising, or returning any reply at all. */
  datatype Llm = Disabled | Raising | Replying(reply: Option<Plan>)

  function RulePlan(scored: seq<Scored>, cnpId: nat): Plan {
    if scored == [] then
      map[CnpId := IntV(cnpId), Decision := TextV("rule_based"), TargetSpeedPct := IntV(100),
          InspectionMode := TextV("standard"),
          BestAgent := TextV(""), BestScore := IntV(0), BestComparisonScore := IntV(0), BestBusinessScore := IntV(0),
          ConstraintPenalty := IntV(0), ProposalsCount := IntV(0),
          Rationale := TextV("rule-ranked manufacturing proposal selected")]
    else
      var best := scored[0];
      map[CnpId := IntV(cnpId), Decision := TextV("rule_based"),
          TargetSpeedPct :=
            IntV(if best.proposal.speedRecommendation.Some? then best.proposal.speedRecommendation.value else 100),
          InspectionMode := TextV(ModeOf(best.proposal)),
          BestAgent := TextV(best.proposal.agent), BestScore := RealV(best.totalScore),
          BestComparisonScore := RealV(best.comparisonScore), BestBusinessScore := RealV(best.businessScore),
          ConstraintPenalty := RealV(best.penalty), ProposalsCount := IntV(|scored|),
          Rationale := TextV("rule-ranked manufacturing proposal selected")]
  }

  /** `evaluate_proposals` of an enabled model, then the round's id. */
  function SolverPlan(scored: seq<Scored>, reply: Option<Plan>, cnpId: nat): Plan {
    MergedPlan(NumericPlan(scored), reply)
      [Decision := TextV(if reply.Some? && reply.value != map[] then "hybrid_solver_llm" else "solver_only")]
      [PromptSuiteVersion := OtherV(2)]
      [CnpId := IntV(cnpId)]
  }

  /** `_build_strategy`. */
  function BuiltPlan(scored: seq<Scored>, llm: Llm, cnpId: nat): Plan {
    if llm.Replying? && scored != [] then SolverPlan(scored, llm.reply, cnpId) else RulePlan(scored, cnpId)
  }

  /** `int(float(v))` of a speed entry, 100 when it is no number. */
  function SpeedOf(c: Content): int {
    match c
    case IntV(i) => i
    case RealV(r) => Truncate(r)
    case BoolV(b) => if b then 1 else 0
    case _ => 100
  }

  predicate AsksFullInspection(mode: string) { Lower(mode) == "all" || Lower(mode) == "full" || mode == "전수" }

  /** `clamp_strategy`. */
  function Clamped(plan: Plan, conversationId: string): Plan {
    var sp := ClampSpeed(if TargetSpeedPct in plan then SpeedOf(plan[TargetSpeedPct]) else 100);
    plan[TargetSpeedPct := IntV(sp)]
        [ConstraintsApplied := BoolV(true)]
        [ProtocolVersion := TextV("cnp/1")]
        [ConversationId := TextV(conversationId)]
        [ApprovalRequired := BoolV(|| sp < 70
                                   || (&& InspectionMode in plan && plan[InspectionMode].TextV?
                                       && AsksFullInspection(plan[InspectionMode].text)))]
  }

  // ---- the paths agree ------------------------------------------------------------------------------

  /** The solver's second sort by total score leaves the head of a ranked list where it is. */
  lemma BestOfRanked(scored: seq<Scored>)
    requires |scored| > 0
    ensures BestByTotal(Sorted(scored)) == Sorted(scored)[0]
  {
    var ranked := Sorted(scored);
    var keys := TotalsOf(ranked);
    var order := SortOrder(keys, |ranked|);
    if order[0] != 0 {
      assert 0 in order;
      var i :| 0 <= i < |order| && order[i] == 0;
      assert Beats(keys, order[0], order[i]);
      SortedIsStable(scored, 0, order[0]);
    }
  }

  /** No entry of a reply reaches a numeric field. */
  lemma RepliesCannotTouchNumbers(numeric: Plan, reply: Option<Plan>, f: Field)
    requires IsNumeric(f)
    ensures f in MergedPlan(numeric, reply) <==> f in numeric
    ensures f in numeric ==> MergedPlan(numeric, reply)[f] == numeric[f]
  {}

  /** For any collected proposals, once ranked, and any reply of the language model: the solver path
      and the rule path give the same clamped speed in 40..100, the same best agent and the same
      best score. */
  lemma PathsAgree(scored: seq<Scored>, llm: Llm, cnpId: nat, conversationId: string)
    requires |scored| > 0 && forall i :: 0 <= i < |scored| ==> scored[i].proposal.speedRecommendation.Some?
    ensures var ranked := Sorted(scored);
            var plan := Clamped(BuiltPlan(ranked, llm, cnpId), conversationId);
            var rule := Clamped(RulePlan(ranked, cnpId), conversationId);
            && TargetSpeedPct in plan && plan[TargetSpeedPct] == rule[TargetSpeedPct]
            && rule[TargetSpeedPct].IntV? && 40 <= rule[TargetSpeedPct].i <= 100
            && BestAgent in plan && BestAgent in rule && plan[BestAgent] == rule[BestAgent]
            && BestScore in plan && BestScore in rule && plan[BestScore] == rule[BestScore]
  {
    var ranked := Sorted(scored);
    BestOfRanked(scored);
    HeadHasSpeed(scored);
    hide Sorted, RulePlan, SolverPlan, Clamped, BestByTotal;
    RuleFields(ranked, cnpId);
    ClampedFields(RulePlan(ranked, cnpId), conversationId);
    if llm.Replying? {
      SolverFields(ranked, llm.reply, cnpId);
      ClampedFields(SolverPlan(ranked, llm.reply, cnpId), conversationId);
    }
  }

  lemma SolverFields(ranked: seq<Scored>, reply: Option<Plan>, cnpId: nat)
    requires |ranked| > 0
    ensures var plan, best := SolverPlan(ranked, reply, cnpId), BestByTotal(ranked);
            && HasFields(plan) && plan[TargetSpeedPct] == IntV(SolverSpeed(best.proposal))
            && plan[BestAgent] == TextV(best.proposal.agent) && plan[BestScore] == RealV(best.totalScore)
            && plan[InspectionMode] == TextV(SolverMode(ModeOf(best.proposal)))
  {
    hide BestByTotal, MergedPlan, SolverMode, SolverSpeed;
    var numeric := NumericPlan(ranked);
    RepliesCannotTouchNumbers(numeric, reply, TargetSpeedPct);
    RepliesCannotTouchNumbers(numeric, reply, BestAgent);
    RepliesCannotTouchNumbers(numeric, reply, BestScore);
    RepliesCannotTouchNumbers(numeric, reply, InspectionMode);
  }

  predicate HasFields(plan: Plan) {
    TargetSpeedPct in plan && BestAgent in plan && BestScore in plan && InspectionMode in plan
  }

  lemma RuleFields(ranked: seq<Scored>, cnpId: nat)
    requires |ranked| > 0 && ranked[0].proposal.speedRecommendation.Some?
    ensures var plan, best := RulePlan(ranked, cnpId), ranked[0];
            && HasFields(plan) && plan[TargetSpeedPct] == IntV(best.proposal.speedRecommendation.value)
            && plan[BestAgent] == TextV(best.proposal.agent) && plan[BestScore] == RealV(best.totalScore)
            && plan[InspectionMode] == TextV(ModeOf(best.proposal))
  {}

  lemma ClampedFields(plan: Plan, conversationId: string)
    requires HasFields(plan) && plan[TargetSpeedPct].IntV? && plan[InspectionMode].TextV?
    ensures var c, sp := Clamped(plan, conversationId), ClampSpeed(plan[TargetSpeedPct].i);
            && HasFields(c) && c[TargetSpeedPct] == IntV(sp)
            && c[BestAgent] == plan[BestAgent] && c[BestScore] == plan[BestScore]
            && c[InspectionMode] == plan[InspectionMode]
            && ApprovalRequired in c
            && c[ApprovalRequired] == BoolV(sp < 70 || AsksFullInspection(plan[InspectionMode].text))
  {}

  lemma HeadHasSpeed(scored: seq<Scored>)
    requires |scored| > 0 && forall i :: 0 <= i < |scored| ==> scored[i].proposal.speedRecommendation.Some?
    ensures Sorted(scored)[0].proposal.speedRecommendation.Some?
  {
    var order := SortOrder(KeysOf(scored), |scored|);
    assert Sorted(scored)[0] == scored[order[0]];
  }

  /** The paths disagree on the inspection mode: the solver knows two modes only, so a request for
      full inspection becomes "standard" and no longer asks for approval. The two answers to
      "is approval required" are equal exactly when the clamped speed is below 70 or the best
      proposal does not ask for full inspection. */
  lemma ApprovalAgreement(scored: seq<Scored>, reply: Option<Plan>, cnpId: nat, conversationId: string)
    requires |scored| > 0 && forall i :: 0 <= i < |scored| ==> scored[i].proposal.speedRecommendation.Some?
    ensures var ranked := Sorted(scored);
            var plan := Clamped(SolverPlan(ranked, reply, cnpId), conversationId);
            var rule := Clamped(RulePlan(ranked, cnpId), conversationId);
            && ApprovalRequired in plan && ApprovalRequired in rule
            && (plan[ApprovalRequired] == rule[ApprovalRequired] <==>
              (|| ClampSpeed(ranked[0].proposal.speedRecommendation.value) < 70
               || !AsksFullInspection(ModeOf(ranked[0].proposal))))
  {
    var ranked := Sorted(scored);
    BestOfRanked(scored);
    HeadHasSpeed(scored);
    SolverModesAskNothing(ModeOf(ranked[0].proposal));
    hide Sorted, RulePlan, SolverPlan, Clamped, BestByTotal, AsksFullInspection;
    RuleFields(ranked, cnpId);
    SolverFields(ranked, reply, cnpId);
    ClampedFields(RulePlan(ranked, cnpId), conversationId);
    ClampedFields(SolverPlan(ranked, reply, cnpId), conversationId);
  }

  lemma SolverModesAskNothing(mode: string)
    ensures !AsksFullInspection(SolverMode(mode))
  {
    assert |Lower("standard")| == 8 && |Lower("enhanced")| == 8;
  }

  /** The two paths name the same inspection mode exactly for the two modes the solver knows. */
  lemma ModesAgree(mode: string)
    ensures SolverMode(mode) == mode <==> mode == "standard" || mode == "enhanced"
  {
    if mode == "standard" {
      TooShortOrDifferent(Lower(mode), "enhanced", 0, 's');
      NotKorean(mode);
    } else if mode == "enhanced" {
      assert Lower(mode) == mode;
    }
  }

  lemma TooShortOrDifferent(s: string, t: string, i: nat, c: char)
    requires |s| == |t| && i < |s| && s[i] == c && t[i] != c
    ensures !Contains(s, t)
  {
    TooShort(s[1..], t);
  }

  /** A text of ASCII letters does not contain the Korean word for "reinforced". */
  lemma {:induction false} NotKorean(s: string)
    requires forall i :: 0 <= i < |s| ==> s[i] <= 'z'
    ensures !Contains(s, "강화")
  {
    assert "강화"[0] > 'z';
    if s != "" { NotKorean(s[1..]); }
  }

  /** The mode the quality agent asks for in a crisis. */
  lemma FullInspectionBecomesStandard()
    ensures SolverMode("전수") == "standard" && AsksFullInspection("전수")
  {
    var mode := "전수";
    NotContained(mode, "강화");
    assert |Lower(mode)| == 2 && |"enhanced"| == 8;
    TooShort(Lower(mode), "enhanced");
  }

  lemma NotContained(s: string, t: string)
    requires |s| == 2 && |t| == 2 && s != t
    ensures !Contains(s, t)
  {
    TooShort(s[1..], t);
  }

  lemma {:induction false} TooShort(s: string, t: string)
    requires |s| < |t|
    ensures !Contains(s, t)
  {
    if s != "" { TooShort(s[1..], t); }
  }
}
