/** The planning agent: when a negotiation round starts, how proposals are collected, how the round
    ends, and what holds over every run of the agent's loop. */
module Planning {
  import opened Numbers
  import opened Options
  import opened Messages
  import opened Comparison
  import opened Evaluation
  import opened Ranking
  import opened Strategy
  import opened CnpSession

  // ---- collecting proposals -----------------------------------------------------------------

  /** A bid as an agent sends it: the two speed entries may be anything. */
  datatype Bid = Bid(proposal: Proposal, speed: Option<Value>, target: Option<Value>)

  datatype Reply = Raised | NoBid | Offered(bid: Bid)

  /** One agent's turn in the collection: whether the deadline has passed by then, and its reply. */
  datatype Poll = Poll(expired: bool, reply: Reply)

  function IntOr(v: Value, default: int): int { if v.number.Some? then Truncate(v.number.value) else default }

  /** The bid with its speed made an integer within the limits. */
  function Bounded(bid: Bid): Proposal {
    var speed := if bid.speed.Some? then IntOr(bid.speed.value, 100)
                 else if bid.target.Some? then IntOr(bid.target.value, 100) else 100;
    bid.proposal.(speedRecommendation := Some(ClampSpeed(speed)))
  }

  const LIMITS := Constraints(SPEED_MIN_PCT, SPEED_MAX_PCT)

  /** What is collected from `polls`: nothing at all once the deadline has passed. */
  function Collected(polls: seq<Poll>): seq<Scored> {
    if exists i :: 0 <= i < |polls| && polls[i].expired then [] else Bids(polls)
  }

  function Bids(polls: seq<Poll>): seq<Scored>
    decreases |polls|
  {
    if polls == [] then []
    else
      var before, last := Bids(polls[..|polls| - 1]), polls[|polls| - 1].reply;
      if last.Offered? then before + [Evaluated(Bounded(last.bid), Some(LIMITS))] else before
  }

  /** `_collect_proposals`: an early exit on expiry, and a reply that raises is skipped. */
  method CollectProposals(polls: seq<Poll>) returns (proposals: seq<Scored>)
    ensures proposals == Collected(polls)
  {
    hide Evaluated;
    proposals := [];
    for i := 0 to |polls|
      invariant forall j :: 0 <= j < i ==> !polls[j].expired
      invariant proposals == Bids(polls[..i])
    {
      if polls[i].expired {
        return [];
      }
      assert polls[..i + 1][..i] == polls[..i];
      match polls[i].reply
      case Raised =>
      case NoBid =>
      case Offered(bid) => proposals := proposals + [Evaluated(Bounded(bid), Some(LIMITS))];
    }
    assert polls[..|polls|] == polls;
  }

  /** Every collected proposal carries a speed within the limits. */
  lemma {:induction false} CollectedSpeeds(polls: seq<Poll>)
    ensures forall i :: 0 <= i < |Bids(polls)| ==>
              && Bids(polls)[i].proposal.speedRecommendation.Some?
              && SPEED_MIN_PCT <= Bids(polls)[i].proposal.speedRecommendation.value <= SPEED_MAX_PCT
    decreases |polls|
  {
    if polls != [] {
      CollectedSpeeds(polls[..|polls| - 1]);
    }
  }

  /** The bounded proposals behind the collected scores. */
  function Offers(polls: seq<Poll>): (r: seq<Proposal>)
    ensures |r| == |Bids(polls)|
    decreases |polls|
  {
    if polls == [] then []
    else
      var before, last := Offers(polls[..|polls| - 1]), polls[|polls| - 1].reply;
      if last.Offered? then before + [Bounded(last.bid)] else before
  }

  lemma {:induction false} BidsAreEvaluatedOffers(polls: seq<Poll>)
    ensures Bids(polls) == EvaluatedAll(Offers(polls), Some(LIMITS))
    decreases |polls|
  {
    hide Evaluated, Bounded;
    if polls != [] {
      BidsAreEvaluatedOffers(polls[..|polls| - 1]);
    }
  }

  /** The proposals inside scored ones. */
  function Bare(scored: seq<Scored>): (r: seq<Proposal>)
    ensures |r| == |scored|
  {
    seq(|scored|, i requires 0 <= i < |scored| => scored[i].proposal)
  }

  /** The records written while collecting are those written again while ranking exactly when every
      collected proposal normalizes once. */
  lemma RecordsSurviveRanking(polls: seq<Poll>)
    ensures EvaluatedAll(Bare(Bids(polls)), Some(LIMITS)) == Bids(polls) <==>
            forall i :: 0 <= i < |Offers(polls)| ==> ZerosAgree(Offers(polls)[i])
  {
    BidsAreEvaluatedOffers(polls);
    var bids, offers := Bids(polls), Offers(polls);
    var again := EvaluatedAll(Bare(bids), Some(LIMITS));
    hide Evaluated, ZerosAgree, Bids, Offers;
    forall i | 0 <= i < |offers| ensures again[i] == bids[i] <==> ZerosAgree(offers[i]) {
      EvaluateTwice(offers[i], Some(LIMITS));
    }
    if again == bids {
      forall i | 0 <= i < |offers| ensures ZerosAgree(offers[i]) {
        assert again[i] == bids[i];
      }
    }
  }

  /** Ranking scores what collecting scored exactly when in every collected proposal each aliased axis
      that came out 0 reads 0 or its default off the aliases of the metrics alone. Then every score
      is the same again, and so is the order the proposals are sorted into. */
  lemma ScoresSurviveRanking(polls: seq<Poll>)
    ensures var bids, offers := Bids(polls), Offers(polls);
            (forall i :: 0 <= i < |bids| ==> Effective(AxesFor(bids[i].proposal)) == Effective(AxesFor(offers[i])))
            <==> forall i :: 0 <= i < |offers| ==> ZerosScoreAlike(offers[i])
    ensures var bids, offers := Bids(polls), Offers(polls);
            var again := EvaluatedAll(Bare(bids), Some(LIMITS));
            (forall i :: 0 <= i < |offers| ==> ZerosScoreAlike(offers[i])) ==>
              (forall i :: 0 <= i < |bids| ==> SameScores(again[i], bids[i])) && KeysOf(again) == KeysOf(bids)
  {
    BidsAreEvaluatedOffers(polls);
    var bids, offers := Bids(polls), Offers(polls);
    forall i | 0 <= i < |offers| ensures bids[i].proposal == WithComparison(offers[i]) {}
    hide Evaluated, ZerosScoreAlike, Bids, Offers, WithComparison, AxesFor, Effective;
    forall i | 0 <= i < |offers|
      ensures Effective(AxesFor(bids[i].proposal)) == Effective(AxesFor(offers[i])) <==> ZerosScoreAlike(offers[i])
    {
      ScoredAxesSurvive(offers[i]);
    }
    if forall i :: 0 <= i < |offers| ==> ZerosScoreAlike(offers[i]) {
      forall i | 0 <= i < |offers| ensures SameScores(EvaluatedAll(Bare(bids), Some(LIMITS))[i], bids[i]) {
        ScoresSurvive(offers[i], Some(LIMITS));
      }
    }
  }

  /** They need not: an agent that sends its effect as the text "0" over a benefit of 0.9 is ranked by
      a higher score than the one it was collected with. */
  lemma CollectedScoreMoves()
    ensures var bids := Bids([Poll(false, Offered(Bid(ShadowedBenefit(None), None, None)))]);
            |bids| == 1 && bids[0].totalScore < EvaluatedAll(Bare(bids), Some(LIMITS))[0].totalScore
  {
    var poll := Poll(false, Offered(Bid(ShadowedBenefit(None), None, None)));
    assert [poll][..0] == [];
    assert Bounded(poll.reply.bid) == ShadowedBenefit(Some(100));
    hide Evaluated, Bounded;
    ShadowedBenefitResurfaces(Some(100), Some(LIMITS));
  }

  // ---- one round -----------------------------------------------------------------------------------

  datatype SessionState = IDLE | CFP_OPEN | COLLECTING | EVALUATING | COMPLETED | TIMEOUT | CANCELLED

  /** The outside of one round: the agents' turns, the language model, and whether a call made after
      the evaluation began (decision card, report) raises. */
  datatype RoundInput = RoundInput(polls: seq<Poll>, llm: Llm, conversationId: string, raises: bool)

  function Reranked(collected: seq<Scored>): seq<Scored> {
    Sorted(EvaluatedAll(Bare(collected), Some(LIMITS)))
  }

  datatype RoundResult = RoundResult(state: SessionState, strategy: Option<Plan>, raised: bool)

  /** How a round ends. */
  function RoundOutcome(round: RoundInput, cnpId: nat): RoundResult {
    var collected := Collected(round.polls);
    if collected == [] then RoundResult(TIMEOUT, None, false)
    else if round.raises then RoundResult(EVALUATING, None, true)
    else
      var plan := Clamped(BuiltPlan(Reranked(collected), round.llm, cnpId), round.conversationId);
      RoundResult(COMPLETED, Some(plan), false)
  }

  function SpeedIn(plan: Plan): Option<int> {
    if TargetSpeedPct in plan && plan[TargetSpeedPct].IntV? then Some(plan[TargetSpeedPct].i) else None
  }

  predicate RunsInLimits(plan: Plan) { SpeedIn(plan).Some? && 40 <= SpeedIn(plan).value <= 100 }

  /** The strategy of a completed round gives the line a speed within the limits. */
  lemma StrategySpeedInLimits(round: RoundInput, cnpId: nat)
    ensures var r := RoundOutcome(round, cnpId);
            r.strategy.Some? ==> RunsInLimits(r.strategy.value)
  {
    hide BuiltPlan, Reranked, Collected, AsksFullInspection;
  }

  /** Whether the line's speed is decided by the solver or by the rules, a completed round gives the
      line the same speed, whatever the language model replies. */
  lemma RoundSpeedIgnoresTheModel(round: RoundInput, other: Llm, cnpId: nat)
    ensures var r, with := RoundOutcome(round, cnpId), RoundOutcome(round.(llm := other), cnpId);
            && (with.strategy.Some? <==> r.strategy.Some?)
            && (r.strategy.Some? ==>
                  && TargetSpeedPct in with.strategy.value && TargetSpeedPct in r.strategy.value
                  && with.strategy.value[TargetSpeedPct] == r.strategy.value[TargetSpeedPct])
  {
    var collected := Collected(round.polls);
    CollectedSpeeds(round.polls);
    var scored := EvaluatedAll(Bare(collected), Some(LIMITS));
    assert forall i :: 0 <= i < |scored| ==> scored[i].proposal.speedRecommendation.Some?;
    hide BuiltPlan, RulePlan, Clamped, Sorted, EvaluatedAll, Collected;
    if collected != [] {
      PathsAgree(scored, round.llm, cnpId, round.conversationId);
      PathsAgree(scored, other, cnpId, round.conversationId);
    }
  }

  // ---- when a round starts ----------------------------------------------------------------------------

  datatype Alert = Alert(sender: AgentId, severity: string)

  function CountSeverity(alerts: seq<Alert>, severity: string): nat {
    if alerts == [] then 0 else (if alerts[0].severity == severity then 1 else 0) + CountSeverity(alerts[1..], severity)
  }

  /** The trigger in `reason`. */
  predicate StartsRound(cycle: int, alerts: seq<Alert>, avgOee: real, lastCnpCycle: int) {
    && (|| CountSeverity(alerts, "CRITICAL") >= 1
        || CountSeverity(alerts, "HIGH") >= 2
        || (avgOee < 0.65 && cycle - lastCnpCycle > 30))
    && cycle - lastCnpCycle > 10
  }

  /** One pass of `_run_pa`: the snapshot's cycle and average OEE, the alerts in the inbox and,
      should a round start, everything that happens in it. */
  datatype Pass = Pass(cycle: int, alerts: seq<Alert>, avgOee: real, round: RoundInput)

  datatype PaState = PaState(
    cnpCount: nat, lastCnpCycle: int, inProgress: bool, strategyLog: seq<Plan>, session: SessionState)

  const FRESH := PaState(0, 0, false, [], IDLE)

  predicate RunsRound(s: PaState, pass: Pass) {
    StartsRound(pass.cycle, pass.alerts, pass.avgOee, s.lastCnpCycle) && !s.inProgress
  }

  function AfterPass(s: PaState, pass: Pass): PaState {
    if !RunsRound(s, pass) then s
    else
      var result := RoundOutcome(pass.round, s.cnpCount + 1);
      PaState(s.cnpCount + 1, pass.cycle, result.raised,
              if result.strategy.Some? then s.strategyLog + [result.strategy.value] else s.strategyLog,
              result.state)
  }

  function AfterAll(passes: seq<Pass>): PaState
    decreases |passes|
  {
    if passes == [] then FRESH else AfterPass(AfterAll(passes[..|passes| - 1]), passes[|passes| - 1])
  }

  /** The cycles at which the run's rounds started. */
  function Starts(passes: seq<Pass>): seq<int>
    decreases |passes|
  {
    if passes == [] then []
    else
      var before, last := passes[..|passes| - 1], passes[|passes| - 1];
      if RunsRound(AfterAll(before), last) then Starts(before) + [last.cycle] else Starts(before)
  }

  /** On every run successive rounds start at least 11 cycles apart, so the number of rounds is
      bounded by the last round's cycle: 11 * count <= last. */
  lemma {:induction false} RoundRate(passes: seq<Pass>)
    ensures var s, starts := AfterAll(passes), Starts(passes);
            && |starts| == s.cnpCount
            && (starts == [] ==> s.lastCnpCycle == 0)
            && (starts != [] ==> starts[0] >= 11 && starts[|starts| - 1] == s.lastCnpCycle)
            && (forall i :: 0 < i < |starts| ==> starts[i] - starts[i - 1] >= 11)
            && 11 * s.cnpCount <= s.lastCnpCycle
    decreases |passes|
  {
    if passes != [] {
      RoundRate(passes[..|passes| - 1]);
      hide StartsRound, RoundOutcome;
      var before, last := passes[..|passes| - 1], passes[|passes| - 1];
      var s := AfterAll(before);
      StartsAreSpaced(last, s);
    }
  }

  lemma StartsAreSpaced(pass: Pass, s: PaState)
    ensures StartsRound(pass.cycle, pass.alerts, pass.avgOee, s.lastCnpCycle) ==> pass.cycle - s.lastCnpCycle > 10
  {}

  /** Between passes the in-progress flag is set exactly when a round of the run raised. */
  lemma {:induction false} FlagMeansARoundRaised(passes: seq<Pass>)
    ensures AfterAll(passes).inProgress <==>
            exists i :: 0 <= i < |passes| && RaisedAt(passes, i)
    decreases |passes|
  {
    if passes != [] {
      hide RoundOutcome, StartsRound;
      var before, n := passes[..|passes| - 1], |passes| - 1;
      FlagMeansARoundRaised(before);
      forall i | 0 <= i < n ensures RaisedAt(passes, i) == RaisedAt(before, i) {
        assert passes[..i] == before[..i];
      }
      assert passes[..n] == before;
      if AfterAll(passes).inProgress {
        if AfterAll(before).inProgress {
          var i :| 0 <= i < |before| && RaisedAt(before, i);
          assert RaisedAt(passes, i);
        } else {
          assert RaisedAt(passes, n);
        }
      }
      if i :| 0 <= i < |passes| && RaisedAt(passes, i) {
        if i < n { assert RaisedAt(before, i); }
      }
    }
  }

  /** The pass at position `i` ran a round that raised. */
  predicate RaisedAt(passes: seq<Pass>, i: nat)
    requires i < |passes|
  {
    var s := AfterAll(passes[..i]);
    RunsRound(s, passes[i]) && RoundOutcome(passes[i].round, s.cnpCount + 1).raised
  }

  /** A round that raises is the last one: the flag is never cleared again, so no later pass starts
      a round, whatever the alerts. */
  lemma {:induction false} RaisingLocksOut(passes: seq<Pass>, more: seq<Pass>)
    requires AfterAll(passes).inProgress
    ensures AfterAll(passes + more) == AfterAll(passes)
    decreases |more|
  {
    if more == [] {
      assert passes + more == passes;
    } else {
      var init := more[..|more| - 1];
      RaisingLocksOut(passes, init);
      assert (passes + more)[..|passes + more| - 1] == passes + init;
    }
  }

  const CRITICAL_ALERT := Alert("EA", "CRITICAL")

  /** It happens: a critical alert starts a round, a call in it raises after one bid was collected, and
      whatever the agent meets from then on, it starts no second round. */
  lemma OneRaiseLocksOut(bid: Bid, llm: Llm, more: seq<Pass>)
    ensures var round := RoundInput([Poll(false, Offered(bid))], llm, "", true);
            var s := AfterAll([Pass(11, [CRITICAL_ALERT], 1.0, round)] + more);
            s.inProgress && s.cnpCount == 1 && s.strategyLog == [] && s.session == EVALUATING
  {
    var poll := Poll(false, Offered(bid));
    var first := Pass(11, [CRITICAL_ALERT], 1.0, RoundInput([poll], llm, "", true));
    assert CountSeverity([CRITICAL_ALERT], "CRITICAL") == 1;
    assert [first][..0] == [] && [poll][..0] == [];
    hide Evaluated, Bounded;
    assert Collected([poll]) != [];
    assert AfterAll([first]) == AfterPass(FRESH, first);
    RaisingLocksOut([first], more);
  }

  predicate LogInLimits(log: seq<Plan>) { forall k :: 0 <= k < |log| ==> RunsInLimits(log[k]) }

  /** The last session is open exactly after a raise, and every strategy logged so far keeps the line
      within the limits. */
  predicate EndedCleanly(s: PaState) {
    && (s.session == EVALUATING <==> s.inProgress)
    && (s.session == IDLE <==> s.cnpCount == 0)
    && s.session != CFP_OPEN && s.session != COLLECTING && s.session != CANCELLED
    && |s.strategyLog| <= s.cnpCount
    && LogInLimits(s.strategyLog)
  }

  lemma RoundOutcomeStates(round: RoundInput, cnpId: nat)
    ensures var r := RoundOutcome(round, cnpId);
            (r.state == EVALUATING && r.raised) || ((r.state == COMPLETED || r.state == TIMEOUT) && !r.raised)
  {
    hide Collected, BuiltPlan, Clamped, Reranked;
  }

  lemma PassEndsCleanly(s: PaState, pass: Pass)
    requires EndedCleanly(s)
    ensures EndedCleanly(AfterPass(s, pass))
  {
    hide RunsInLimits, RoundOutcome, StartsRound, LogInLimits;
    StrategySpeedInLimits(pass.round, s.cnpCount + 1);
    RoundOutcomeStates(pass.round, s.cnpCount + 1);
    var strategy := RoundOutcome(pass.round, s.cnpCount + 1).strategy;
    if strategy.Some? { LogOneMore(s.strategyLog, strategy.value); }
  }

  lemma LogOneMore(log: seq<Plan>, plan: Plan)
    requires LogInLimits(log) && RunsInLimits(plan)
    ensures LogInLimits(log + [plan])
  {
    hide RunsInLimits;
  }

  lemma {:induction false} RunsEndCleanly(passes: seq<Pass>)
    ensures EndedCleanly(AfterAll(passes))
    decreases |passes|
  {
    if passes != [] {
      hide AfterPass, EndedCleanly;
      RunsEndCleanly(passes[..|passes| - 1]);
      PassEndsCleanly(AfterAll(passes[..|passes| - 1]), passes[|passes| - 1]);
    } else {
      assert AfterAll(passes) == FRESH;
    }
  }

  // ---- the objects ---------------------------------------------------------------------------------------

  class PlanningAgent {
    var cnpCount: nat
    var lastCnpCycle: int
    var strategyLog: seq<Plan>
    var session: SessionState

    constructor ()
      ensures cnpCount == 0 && lastCnpCycle == 0 && strategyLog == [] && session == IDLE
    {
      cnpCount, lastCnpCycle, strategyLog, session := 0, 0, [], IDLE;
    }

    method Reason(cycle: int, alerts: seq<Alert>, avgOee: real) returns (initiateCnp: bool)
      ensures initiateCnp == StartsRound(cycle, alerts, avgOee, lastCnpCycle)
    {
      var critical, high := 0, 0;
      for i := 0 to |alerts|
        invariant critical + CountSeverity(alerts[i..], "CRITICAL") == CountSeverity(alerts, "CRITICAL")
        invariant high + CountSeverity(alerts[i..], "HIGH") == CountSeverity(alerts, "HIGH")
      {
        if alerts[i].severity == "CRITICAL" { critical := critical + 1; }
        if alerts[i].severity == "HIGH" { high := high + 1; }
        assert alerts[i..][1..] == alerts[i + 1..];
      }
      var shouldCnp := critical >= 1 || high >= 2 || (avgOee < 0.65 && cycle - lastCnpCycle > 30);
      initiateCnp := shouldCnp && cycle - lastCnpCycle > 10;
    }

    /** `raised` reports an exception that leaves the method. */
    method InitiateCnp(cycle: int, round: RoundInput) returns (strategy: Option<Plan>, raised: bool)
      modifies this
      ensures cnpCount == old(cnpCount) + 1 && lastCnpCycle == cycle
      ensures RoundResult(session, strategy, raised) == RoundOutcome(round, cnpCount)
      ensures !raised ==> (session == COMPLETED <==> strategy.Some?) && (session == TIMEOUT <==> strategy.None?)
      ensures raised ==> strategy.None? && session == EVALUATING
      ensures strategy.Some? ==> Collected(round.polls) != []
      ensures strategyLog == if strategy.Some? then old(strategyLog) + [strategy.value] else old(strategyLog)
    {
      hide Evaluated, BuiltPlan, Clamped, Sorted;
      cnpCount := cnpCount + 1;
      lastCnpCycle := cycle;
      session := CFP_OPEN;
      session := COLLECTING;
      var collected := CollectProposals(round.polls);
      if collected == [] {
        session := TIMEOUT;
        return None, false;
      }
      session := EVALUATING;
      var ranked := RankProposals(Bare(collected), Some(LIMITS));
      if round.raises {
        return None, true;
      }
      var plan := Clamped(BuiltPlan(ranked, round.llm, cnpCount), round.conversationId);
      session := COMPLETED;
      strategyLog := strategyLog + [plan];
      strategy, raised := Some(plan), false;
    }
  }

  /** The runtime's side of the loop. */
  class PaRunner {
    const pa: PlanningAgent
    var cnpInProgress: bool

    constructor (pa: PlanningAgent)
      ensures this.pa == pa && !cnpInProgress
    {
      this.pa, cnpInProgress := pa, false;
    }

    function View(): PaState
      reads this, pa
    {
      PaState(pa.cnpCount, pa.lastCnpCycle, cnpInProgress, pa.strategyLog, pa.session)
    }

    /** `_run_pa`; the speed to give the line, if any. */
    method RunPa(pass: Pass) returns (lineSpeed: Option<int>)
      modifies this, pa
      ensures View() == AfterPass(old(View()), pass)
      ensures lineSpeed.Some? <==> RunsRound(old(View()), pass) && RoundOutcome(pass.round, pa.cnpCount).strategy.Some?
      ensures lineSpeed.Some? ==>
                && 40 <= lineSpeed.value <= 100
                && SpeedIn(RoundOutcome(pass.round, pa.cnpCount).strategy.value) == Some(lineSpeed.value)
    {
      hide RoundOutcome, StartsRound, Collected, Clamped, BuiltPlan, Reranked;
      lineSpeed := None;
      var initiate := pa.Reason(pass.cycle, pass.alerts, pass.avgOee);
      if initiate && !cnpInProgress {
        cnpInProgress := true;
        var strategy, raised := pa.InitiateCnp(pass.cycle, pass.round);
        StrategySpeedInLimits(pass.round, pa.cnpCount);
        if raised {
          return;
        }
        if strategy.Some? {
          lineSpeed := Some(strategy.value[TargetSpeedPct].i);
        }
        cnpInProgress := false;
      }
    }
  }
}
