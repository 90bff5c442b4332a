/** What a negotiation decides: when it starts, which speeds and inspection modes it gives, whose bid it takes,
    and which of the language model's words it keeps. */
module NegotiationLaws {
  import opened Numbers
  import opened Options
  import opened Messages
  import opened Comparison
  import opened Evaluation
  import opened Ranking
  import opened CnpSession
  import opened Strategy
  import opened Planning

  // ---- when a round starts --------------------------------------------------------------------

  lemma {:induction false} CountOne(alerts: seq<Alert>, severity: string)
    ensures CountSeverity(alerts, severity) >= 1 <==> exists i :: 0 <= i < |alerts| && alerts[i].severity == severity
  {
    if alerts != [] {
      CountOne(alerts[1..], severity);
      assert forall i :: 0 < i < |alerts| ==> alerts[1..][i - 1] == alerts[i];
      if i :| 0 <= i < |alerts[1..]| && alerts[1..][i].severity == severity {
        assert alerts[i + 1].severity == severity;
      }
    }
  }

  lemma {:induction false} CountTwo(alerts: seq<Alert>, severity: string)
    ensures CountSeverity(alerts, severity) >= 2 <==>
            exists i, j :: 0 <= i < j < |alerts| && alerts[i].severity == severity && alerts[j].severity == severity
  {
    if alerts != [] {
      var rest := alerts[1..];
      CountOne(rest, severity);
      CountTwo(rest, severity);
      assert forall i :: 0 < i < |alerts| ==> rest[i - 1] == alerts[i];
      if i, j :| 0 <= i < j < |rest| && rest[i].severity == severity && rest[j].severity == severity {
        assert alerts[i + 1].severity == severity && alerts[j + 1].severity == severity;
      }
      if i :| 0 <= i < |rest| && rest[i].severity == severity {
        assert alerts[i + 1].severity == severity;
      }
      if i, j :| 0 <= i < j < |alerts| && alerts[i].severity == severity && alerts[j].severity == severity {
        assert rest[j - 1].severity == severity;
        assert i > 0 ==> rest[i - 1].severity == severity;
      }
    }
  }

  /** A round is called for by one critical alert, two high ones, or an OEE below 0.65 when the last round is
      more than 30 cycles back; and it starts when the last one is more than 10 cycles back. */
  lemma RoundStartsExactlyWhen(cycle: int, alerts: seq<Alert>, avgOee: real, lastCnpCycle: int)
    ensures StartsRound(cycle, alerts, avgOee, lastCnpCycle) <==>
            && cycle - lastCnpCycle > 10
            && (|| (exists i :: 0 <= i < |alerts| && alerts[i].severity == "CRITICAL")
                || (exists i, j ::
                      0 <= i < j < |alerts| && alerts[i].severity == "HIGH" && alerts[j].severity == "HIGH")
                || (avgOee < 0.65 && cycle - lastCnpCycle > 30))
  {
    CountOne(alerts, "CRITICAL");
    CountTwo(alerts, "HIGH");
    hide CountSeverity;
  }

  /** After any run in which no round raised, a critical alert more than 10 cycles after the last round is
      answered by a new one. */
  lemma CriticalAlertIsAnswered(passes: seq<Pass>, pass: Pass, i: nat)
    requires !AfterAll(passes).inProgress && pass.cycle - AfterAll(passes).lastCnpCycle > 10
    requires i < |pass.alerts| && pass.alerts[i].severity == "CRITICAL"
    ensures var s, t := AfterAll(passes), AfterAll(passes + [pass]);
            t.cnpCount == s.cnpCount + 1 && t.lastCnpCycle == pass.cycle && t.session != IDLE
  {
    var s := AfterAll(passes);
    assert (passes + [pass])[..|passes|] == passes;
    RoundStartsExactlyWhen(pass.cycle, pass.alerts, pass.avgOee, s.lastCnpCycle);
    RoundOutcomeStates(pass.round, s.cnpCount + 1);
    hide StartsRound, RoundOutcome;
  }

  // ---- speeds ------------------------------------------------------------------------------------

  /** A bid's speed is its recommended one, or in its absence its target, cut to an integer and held to the
      limits; 100 when there is none or it is no number. */
  lemma SpeedOfBid(bid: Bid, x: real)
    ensures bid.speed == Some(Num(x)) ==>
              Bounded(bid) == bid.proposal.(speedRecommendation := Some(ClampSpeed(Truncate(x))))
    ensures bid.speed.None? && bid.target == Some(Num(x)) ==>
              Bounded(bid) == bid.proposal.(speedRecommendation := Some(ClampSpeed(Truncate(x))))
    ensures bid.speed.None? && bid.target.None? ==> Bounded(bid) == bid.proposal.(speedRecommendation := Some(100))
    ensures bid.speed.Some? && bid.speed.value.number.None? ==>
              Bounded(bid) == bid.proposal.(speedRecommendation := Some(100))
    ensures bid.speed.None? && bid.target.Some? && bid.target.value.number.None? ==>
              Bounded(bid) == bid.proposal.(speedRecommendation := Some(100))
  {}

  /** A bid's speed is held to the limits before it is judged against them, so no collected bid draws a note,
      and its penalty comes from its violation alone. */
  lemma {:induction false} CollectedBidsDrawNoNote(polls: seq<Poll>)
    ensures forall i :: 0 <= i < |Bids(polls)| ==> Bids(polls)[i].notes == []
    decreases |polls|
  {
    if polls != [] {
      CollectedBidsDrawNoNote(polls[..|polls| - 1]);
      var last := polls[|polls| - 1].reply;
      if last.Offered? { BoundedDrawsNoNote(last.bid); }
      hide Evaluated, Bounded;
    }
  }

  lemma BoundedDrawsNoNote(bid: Bid)
    ensures Evaluated(Bounded(bid), Some(LIMITS)).notes == []
  {
    hide WithComparison, AxesFor, Round4, BusinessScore, ComparisonScore;
  }

  /** The collection skips the agents that raise or send nothing, keeps the order of the others, and is empty
      once the deadline has passed at any agent's turn. */
  lemma CollectionFollowsReplies(polls: seq<Poll>, poll: Poll)
    ensures Collected([]) == []
    ensures poll.expired ==> Collected(polls + [poll]) == []
    ensures !poll.expired && !poll.reply.Offered? ==> Collected(polls + [poll]) == Collected(polls)
    ensures !poll.expired && poll.reply.Offered? && (forall i :: 0 <= i < |polls| ==> !polls[i].expired) ==>
              Collected(polls + [poll]) == Collected(polls) + [Evaluated(Bounded(poll.reply.bid), Some(LIMITS))]
    ensures (exists i :: 0 <= i < |polls| && polls[i].expired) ==> Collected(polls + [poll]) == []
  {
    var all := polls + [poll];
    assert all[..|all| - 1] == polls && all[|polls|] == poll;
    assert forall i :: 0 <= i < |polls| ==> all[i] == polls[i];
    hide Evaluated, Bounded;
    if i :| 0 <= i < |polls| && polls[i].expired { assert all[i].expired; }
  }

  // ---- whose bid is taken --------------------------------------------------------------------------

  /** The bid a completed round takes: a collected one, evaluated again, that no other beats in total score. */
  lemma RoundTakesBestBid(round: RoundInput, cnpId: nat)
    requires Collected(round.polls) != [] && !round.raises
    ensures var bids := EvaluatedAll(Bare(Collected(round.polls)), Some(LIMITS));
            var plan := RoundOutcome(round, cnpId).strategy;
            && plan.Some? && |bids| > 0
            && exists i :: 0 <= i < |bids|
                 && (forall j :: 0 <= j < |bids| ==> bids[j].totalScore <= bids[i].totalScore)
                 && bids[i] == Reranked(Collected(round.polls))[0]
                 && HasFields(plan.value)
                 && plan.value[BestAgent] == TextV(bids[i].proposal.agent)
                 && plan.value[BestScore] == RealV(bids[i].totalScore)
                 && bids[i].proposal.speedRecommendation.Some?
                 && plan.value[TargetSpeedPct] == IntV(bids[i].proposal.speedRecommendation.value)
  {
    var collected := Collected(round.polls);
    var bids := EvaluatedAll(Bare(collected), Some(LIMITS));
    CollectedSpeeds(round.polls);
    assert forall i :: 0 <= i < |bids| ==>
             && bids[i].proposal.speedRecommendation.Some?
             && 40 <= bids[i].proposal.speedRecommendation.value <= 100;
    assert Reranked(collected) == Sorted(bids);
    assert RoundOutcome(round, cnpId).strategy
        == Some(Clamped(BuiltPlan(Sorted(bids), round.llm, cnpId), round.conversationId));
    hide *;
    HeadIsBest(bids);
    PlanOfHead(bids, round.llm, cnpId, round.conversationId);
  }

  lemma HeadIsBest(bids: seq<Scored>)
    requires |bids| > 0
    ensures exists i :: 0 <= i < |bids| && bids[i] == Sorted(bids)[0]
                        && forall j :: 0 <= j < |bids| ==> bids[j].totalScore <= bids[i].totalScore
  {
    var order := SortOrder(KeysOf(bids), |bids|);
    var i := order[0];
    assert Sorted(bids)[0] == bids[i];
    forall j | 0 <= j < |bids| ensures bids[j].totalScore <= bids[i].totalScore {
      assert j in order;
      var k :| 0 <= k < |order| && order[k] == j;
      if k > 0 { SortedIsStable(bids, 0, k); }
    }
  }

  lemma PlanOfHead(bids: seq<Scored>, llm: Llm, cnpId: nat, conversationId: string)
    requires |bids| > 0
    requires forall i :: 0 <= i < |bids| ==>
               && bids[i].proposal.speedRecommendation.Some?
               && 40 <= bids[i].proposal.speedRecommendation.value <= 100
    ensures var head, plan := Sorted(bids)[0], Clamped(BuiltPlan(Sorted(bids), llm, cnpId), conversationId);
            && head.proposal.speedRecommendation.Some? && HasFields(plan)
            && plan[BestAgent] == TextV(head.proposal.agent) && plan[BestScore] == RealV(head.totalScore)
            && plan[TargetSpeedPct] == IntV(head.proposal.speedRecommendation.value)
            && plan[InspectionMode] ==
               TextV(if llm.Replying? then SolverMode(ModeOf(head.proposal)) else ModeOf(head.proposal))
            && ApprovalRequired in plan && plan[InspectionMode].TextV?
            && plan[ApprovalRequired] == BoolV(head.proposal.speedRecommendation.value < 70
                                               || AsksFullInspection(plan[InspectionMode].text))
  {
    var ranked := Sorted(bids);
    BestOfRanked(bids);
    HeadIsBest(bids);
    hide Sorted, RulePlan, SolverPlan, Clamped, BestByTotal, SolverMode, AsksFullInspection;
    if llm.Replying? {
      SolverFields(ranked, llm.reply, cnpId);
      ClampedFields(SolverPlan(ranked, llm.reply, cnpId), conversationId);
    } else {
      RuleFields(ranked, cnpId);
      ClampedFields(RulePlan(ranked, cnpId), conversationId);
    }
  }

  // ---- inspection modes -------------------------------------------------------------------------------

  lemma {:induction false} ContainsSplits(s: string, t: string)
    ensures Contains(s, t) <==> exists u, v :: s == u + t + v
  {
    if t <= s {
      assert s == "" + t + s[|t|..];
    } else if s != "" {
      ContainsSplits(s[1..], t);
      if u, v :| s[1..] == u + t + v {
        assert s == ([s[0]] + u) + t + v;
      }
      if u, v :| s == u + t + v {
        assert u != "" by { StartsSplit(s, t, v); }
        assert s[1..] == u[1..] + t + v;
      }
    } else {
      forall u, v ensures s != u + t + v {
        assert |u + t + v| >= |t| > 0;
      }
    }
  }

  lemma StartsSplit(s: string, t: string, v: string)
    ensures s == "" + t + v ==> t <= s
  {}

  /** Lower case changes the 26 letters and nothing else. */
  lemma LowerChangesLetters(s: string, i: nat)
    requires i < |s|
    ensures 'A' <= s[i] <= 'Z' ==>
              'a' <= Lower(s)[i] <= 'z' && Lower(s)[i] as int - 'a' as int == s[i] as int - 'A' as int
    ensures !('A' <= s[i] <= 'Z') ==> Lower(s)[i] == s[i]
    ensures |Lower(s)| == |s|
  {}

  /** The solver reads a mode as "enhanced" exactly when it contains the Korean word for it, or the English
      one in any case, and as "standard" otherwise. */
  lemma SolverReadsMode(mode: string)
    ensures SolverMode(mode) == "enhanced" <==>
            || (exists u, v :: mode == u + "강화" + v)
            || (exists u, v :: Lower(mode) == u + "enhanced" + v)
    ensures SolverMode(mode) == "enhanced" || SolverMode(mode) == "standard"
  {
    ContainsSplits(mode, "강화");
    ContainsSplits(Lower(mode), "enhanced");
    hide Contains, Lower;
  }

  /** Full inspection is asked for by "전수", and by "all" and "full" in any case. */
  lemma FullInspectionIsAskedFor(mode: string)
    ensures AsksFullInspection(mode) <==> mode == "전수" || Lower(mode) == "all" || Lower(mode) == "full"
    ensures AsksFullInspection("ALL") && AsksFullInspection("Full") && !AsksFullInspection("강화")
  {
    assert Lower("ALL") == "all" && Lower("Full") == "full";
    assert |Lower("강화")| == 2;
  }

  /** The quality agent's two modes, as a completed round answers them: enhanced inspection is kept by the
      rules and named "enhanced" by the solver, and asks for no approval at 70 or more; full inspection is
      kept by the rules, which ask for approval, and weakened by the solver, which does not. */
  lemma RoundAnswersMode(round: RoundInput, cnpId: nat)
    requires Collected(round.polls) != [] && !round.raises
    ensures var head, plan := Reranked(Collected(round.polls))[0].proposal, RoundOutcome(round, cnpId).strategy.value;
            && RoundOutcome(round, cnpId).strategy.Some?
            && InspectionMode in plan && ApprovalRequired in plan && head.speedRecommendation.Some?
            && (head.inspectionMode == Some("강화") ==>
                  && plan[InspectionMode] == TextV(if round.llm.Replying? then "enhanced" else "강화")
                  && plan[ApprovalRequired] == BoolV(head.speedRecommendation.value < 70))
            && (head.inspectionMode == Some("전수") ==>
                  && plan[InspectionMode] == TextV(if round.llm.Replying? then "standard" else "전수")
                  && plan[ApprovalRequired] == BoolV(head.speedRecommendation.value < 70 || !round.llm.Replying?))
            && (head.inspectionMode == None ==> plan[InspectionMode] == TextV("standard"))
  {
    var collected := Collected(round.polls);
    var bids := EvaluatedAll(Bare(collected), Some(LIMITS));
    CollectedSpeeds(round.polls);
    assert forall i :: 0 <= i < |bids| ==>
             && bids[i].proposal.speedRecommendation.Some?
             && 40 <= bids[i].proposal.speedRecommendation.value <= 100;
    hide EvaluatedAll, Collected, BuiltPlan, Clamped, Sorted, SolverMode, AsksFullInspection;
    PlanOfHead(bids, round.llm, cnpId, round.conversationId);
    KnownModes();
  }

  lemma KnownModes()
    ensures SolverMode("강화") == "enhanced"
    ensures SolverMode("전수") == "standard" && SolverMode("standard") == "standard"
    ensures !AsksFullInspection("강화") && AsksFullInspection("전수")
    ensures !AsksFullInspection("enhanced") && !AsksFullInspection("standard")
  {
    assert "강화" == "" + "강화" + "";
    SolverReadsMode("강화");
    FullInspectionBecomesStandard();
    ModesAgree("standard");
    FullInspectionIsAskedFor("강화");
    hide SolverMode;
    assert |Lower("enhanced")| == 8 && |Lower("standard")| == 8;
  }

  // ---- the model's words --------------------------------------------------------------------------------

  /** The five fields a reply never sets. */
  predicate Decided(f: Field) {
    f == TargetSpeedPct || f == InspectionMode || f == BestAgent || f == BestScore || f == Decision
  }

  /** Every other entry of a reply arrives, and replaces what was there; a reply that says nothing leaves the
      numbers as they are and adds three stock texts, and one without a rationale gets a stock one. */
  lemma WordsArrive(numeric: Plan, reply: Option<Plan>, f: Field)
    requires !Decided(f)
    ensures var merged := MergedPlan(numeric, reply);
            && (reply.Some? && f in reply.value ==> f in merged && merged[f] == reply.value[f])
            && (f in numeric && !(reply.Some? && f in reply.value) ==> f in merged && merged[f] == numeric[f])
            && (f !in numeric && !(reply.Some? && f in reply.value) ==>
                  (f in merged <==>
                     || f == Rationale
                     || ((reply.None? || reply.value == map[]) && (f == RiskAssessment || f == ExpectedSsImpact))))
  {}

  /** The decision field names the path that was taken. */
  lemma DecisionNamesPath(bids: seq<Scored>, llm: Llm, cnpId: nat, conversationId: string)
    requires bids != []
    ensures var plan := Clamped(BuiltPlan(bids, llm, cnpId), conversationId);
            && Decision in plan && CnpId in plan && plan[CnpId] == IntV(cnpId)
            && ConversationId in plan && plan[ConversationId] == TextV(conversationId)
            && plan[Decision] == TextV(if !llm.Replying? then "rule_based"
                                       else if llm.reply.Some? && llm.reply.value != map[] then "hybrid_solver_llm"
                                       else "solver_only")
  {
    hide MergedPlan, NumericPlan;
  }

  /** What the rules report about the best bid besides its number. */
  lemma RulesReportBestBid(bids: seq<Scored>, cnpId: nat)
    requires bids != []
    ensures var plan := RulePlan(bids, cnpId);
            && BestComparisonScore in plan && plan[BestComparisonScore] == RealV(bids[0].comparisonScore)
            && BestBusinessScore in plan && plan[BestBusinessScore] == RealV(bids[0].businessScore)
            && ConstraintPenalty in plan && plan[ConstraintPenalty] == RealV(bids[0].penalty)
            && ProposalsCount in plan && plan[ProposalsCount] == IntV(|bids|)
  {}
}
