/** The factory runtime as a state machine: every thread's atomic action is one step, a run is
    any interleaving of steps, and the theorems hold after every run from a new factory. */
module FactoryRuntime {
  import opened Numbers
  import opened Machines
  import opened Environment
  import opened CnpSession

  /** One atomic action: a tick of the environment thread (a cycle, then the repair draws), an
      event of the event thread, or a negotiated speed applied by the planning agent. Events
      that touch none of the modelled state are not steps. */
  datatype Step =
    | EnvTick(draws: CycleDraws, repaired: nat -> bool)
    | BreakdownEvent(at: nat, repairTime: real)
    | NewOrderEvent(quantity: int)
    | SpeedRecoveryEvent(at: nat, bump: int)
    | PlanApplied(requestedSpeed: int)

  function WithRepairs(ss: seq<Station>, repaired: nat -> bool): seq<Station> {
    seq(|ss|, i requires 0 <= i < |ss| =>
      if ss[i].state == Breakdown && repaired(i) then Repaired(ss[i]) else ss[i])
  }

  function WithSpeed(ss: seq<Station>, pct: int): seq<Station> {
    seq(|ss|, i requires 0 <= i < |ss| => SpedTo(ss[i], pct))
  }

  function Apply(f: FactoryState, step: Step): FactoryState {
    match step
    case EnvTick(draws, repaired) =>
      var g := Cycled(f, draws);
      g.(stations := WithRepairs(g.stations, repaired))
    case BreakdownEvent(at, repairTime) =>
      if at < |f.stations| && f.stations[at].state == Running
      then f.(stations := f.stations[at := BrokenDown(f.stations[at], repairTime)])
      else f
    case NewOrderEvent(quantity) =>
      f.(orders := f.orders + [Order(quantity, 0)])
    case SpeedRecoveryEvent(at, bump) =>
      if at < |f.stations| && f.stations[at].speedPct < 100
      then f.(stations := f.stations[at := SpedTo(f.stations[at], Min(100, f.stations[at].speedPct + bump))])
      else f
    case PlanApplied(requestedSpeed) =>
      f.(stations := WithSpeed(f.stations, ClampSpeed(requestedSpeed)))
  }

  /** The state after all of `steps`. */
  function Run(f: FactoryState, steps: seq<Step>): FactoryState
    decreases |steps|
  {
    if steps == [] then f else Apply(Run(f, steps[..|steps| - 1]), steps[|steps| - 1])
  }

  /** How many products of the run were held in front of each station. */
  function HoldsOver(f: FactoryState, steps: seq<Step>): (holds: seq<int>)
    requires |f.stations| > 0
    ensures |holds| == |f.stations|
    decreases |steps|
  {
    if steps == [] then seq(|f.stations|, _ => 0)
    else
      var holds := HoldsOver(f, steps[..|steps| - 1]);
      var last := steps[|steps| - 1];
      RunKeepsLength(f, steps[..|steps| - 1]);
      if last.EnvTick? then CountHold(holds, CycleOutcome(Run(f, steps[..|steps| - 1]), last.draws)) else holds
  }

  function CountHold(holds: seq<int>, outcome: Outcome): (r: seq<int>)
    requires outcome.Held? ==> outcome.at < |holds|
    ensures |r| == |holds|
  {
    if outcome.Held? then holds[outcome.at := holds[outcome.at] + 1] else holds
  }

  lemma {:induction false} RunKeepsLength(f: FactoryState, steps: seq<Step>)
    ensures |Run(f, steps).stations| == |f.stations|
    decreases |steps|
  {
    if steps != [] { RunKeepsLength(f, steps[..|steps| - 1]); }
  }

  // ---- the flow invariant -------------------------------------------------------------------

  /** What reaches station `i`: every product for the first, the good ones of its predecessor after. */
  function Inflow(ss: seq<Station>, cycle: int, i: nat): int
    requires i <= |ss|
  {
    if i == 0 then cycle else ss[i - 1].goodCount
  }

  lemma InflowAfterFirst(ss: seq<Station>, cycle: int, i: nat)
    requires 0 < i <= |ss|
    ensures Inflow(ss, cycle, i) == ss[i - 1].goodCount
  {}

  /** Everything that reaches a station was either worked on there or held in front of it; one
      product may be waiting at station `waiting`. */
  predicate Balanced(ss: seq<Station>, holds: seq<int>, cycle: int, waiting: int) {
    && |holds| == |ss|
    && forall i :: 0 <= i < |ss| ==>
         Inflow(ss, cycle, i) == ss[i].totalCycles + holds[i] + (if i == waiting then 1 else 0)
  }

  predicate StationsOk(ss: seq<Station>) {
    forall i :: 0 <= i < |ss| ==> StationOk(ss[i]) && CountsAgree(ss[i])
  }

  function Defects(ss: seq<Station>): (r: seq<int>)
    ensures |r| == |ss|
  {
    seq(|ss|, i requires 0 <= i < |ss| => ss[i].defectCount)
  }

  predicate FlowOk(f: FactoryState, holds: seq<int>) {
    && |f.stations| > 0
    && StationsOk(f.stations)
    && Balanced(f.stations, holds, f.cycle, -1)
    && f.stations[|f.stations| - 1].goodCount == f.totalProduced
    && Sum(Defects(f.stations)) == f.scrapCount + f.reworkCount
  }

  predicate StockOk(f: FactoryState) {
    && f.fgStock >= 0
    && f.totalProduced == f.fgStock + Sum(Deliveries(f.orders))
    && forall k :: 0 <= k < |f.orders| ==> OrderOk(f.orders[k])
  }

  predicate Invariant(f: FactoryState, holds: seq<int>) {
    FlowOk(f, holds) && StockOk(f) && ShiftAt(f.shift, f.cycle)
  }

  predicate Initial(f: FactoryState) {
    && |f.stations| > 0
    && (forall i :: 0 <= i < |f.stations| ==> 
         f.stations[i].cycleTime > 0.0 && f.stations[i] == NewStation(f.stations[i].cycleTime))
    && (forall k :: 0 <= k < |f.orders| ==> f.orders[k].delivered == 0)
    && f == FactoryState(f.stations, f.orders, ShiftState(0, 0, 0, 0), 0, 0, 0, 0, 0)
  }

  lemma {:induction false} SumOfZeros(s: seq<int>)
    requires forall i :: 0 <= i < |s| ==> s[i] == 0
    ensures Sum(s) == 0
  {
    if s != [] { SumOfZeros(s[1..]); }
  }

  lemma InitialInvariant(f: FactoryState)
    requires Initial(f)
    ensures Invariant(f, HoldsOver(f, []))
  {
    SumOfZeros(Defects(f.stations));
    SumOfZeros(Deliveries(f.orders));
    assert ShiftAt(f.shift, 0);
  }

  /** One station working on the waiting product moves it one place on, or out of the line. */
  lemma VisitBalances(ss: seq<Station>, i: nat, isGood: bool, holds: seq<int>, cycle: int)
    requires i < |ss| && StationsOk(ss) && Balanced(ss, holds, cycle, i)
    requires ss[i].state !in {Breakdown, Maintenance}
    ensures var next := ss[i := Recorded(Executed(ss[i]), isGood)];
            && StationsOk(next)
            && Balanced(next, holds, cycle, if isGood then i + 1 else -1)
            && Sum(Defects(next)) == Sum(Defects(ss)) + (if isGood then 0 else 1)
  {
    hide StationOk, CountsAgree, Recorded, Executed;
    var s := Recorded(Executed(ss[i]), isGood);
    var next := ss[i := s];
    VisitKeepsOk(ss[i], isGood);
    SumUpdate(Defects(ss), i, s.defectCount);
    assert Defects(next) == Defects(ss)[i := s.defectCount];
  }

  /** A product let into a balanced line leaves it balanced again: the unit that entered is now
      one more hold, one more defect or one more finished unit. */
  lemma {:induction false} LinePassBalances(ss: seq<Station>, i: nat, verdict: nat -> bool, holds: seq<int>, cycle: int)
    requires i <= |ss| && |ss| > 0 && StationsOk(ss) && Balanced(ss, holds, cycle, i)
    ensures var (tt, outcome) := LinePass(ss, i, verdict);
            && StationsOk(tt)
            && Balanced(tt, CountHold(holds, outcome), cycle, if outcome.Passed? then |ss| else -1)
            && tt[|ss| - 1].goodCount == ss[|ss| - 1].goodCount + (if outcome.Passed? && i < |ss| then 1 else 0)
            && Sum(Defects(tt)) == Sum(Defects(ss)) + (if outcome.Rejected? then 1 else 0)
    decreases |ss| - i
  {
    hide StationOk, CountsAgree, Defects, Sum, Inflow;
    if i < |ss| && ss[i].state !in {Breakdown, Maintenance} {
      VisitBalances(ss, i, verdict(i), holds, cycle);
      if verdict(i) {
        LinePassBalances(ss[i := Recorded(Executed(ss[i]), true)], i + 1, verdict, holds, cycle);
      }
    }
  }

  /** A product that enters waits at the first station; one that passed the last waits nowhere. */
  lemma EntersBalanced(ss: seq<Station>, holds: seq<int>, cycle: int)
    ensures Balanced(ss, holds, cycle, -1) ==> Balanced(ss, holds, cycle + 1, 0)
    ensures Balanced(ss, holds, cycle, |ss|) ==> Balanced(ss, holds, cycle, -1)
  {
    if Balanced(ss, holds, cycle, -1) {
      forall i | 0 <= i < |ss|
        ensures Inflow(ss, cycle + 1, i) == ss[i].totalCycles + holds[i] + (if i == 0 then 1 else 0)
      {
        assert Inflow(ss, cycle, i) == ss[i].totalCycles + holds[i];
      }
    }
    hide Inflow;
  }

  lemma CycleKeepsFlow(f: FactoryState, d: CycleDraws, holds: seq<int>)
    requires FlowOk(f, holds)
    ensures FlowOk(Cycled(f, d), CountHold(holds, CycleOutcome(f, d)))
  {
    assert |holds| == |f.stations|;
    hide LinePass, Shipped, Sum, StationOk, CountsAgree, Advanced, Defects, Balanced, CountHold;
    EntersBalanced(f.stations, holds, f.cycle);
    LinePassBalances(f.stations, 0, d.verdict, holds, f.cycle + 1);
    var g, after := Cycled(f, d), CountHold(holds, CycleOutcome(f, d));
    EntersBalanced(g.stations, after, g.cycle);
  }

  lemma CycleKeepsStock(f: FactoryState, d: CycleDraws)
    requires StockOk(f)
    ensures StockOk(Cycled(f, d))
  {
    hide LinePass, Shipped, Sum, Advanced;
    ShippedConserves(f.orders, 0, f.fgStock + 1, d.ship);
  }

  lemma CycleKeepsInvariant(f: FactoryState, d: CycleDraws, holds: seq<int>)
    requires Invariant(f, holds)
    ensures Invariant(Cycled(f, d), CountHold(holds, CycleOutcome(f, d)))
  {
    hide Cycled, CycleOutcome, CountHold, FlowOk, StockOk, ShiftAt, Advanced;
    CycleKeepsFlow(f, d, holds);
    CycleKeepsStock(f, d);
    CycleMovesShift(f, d);
    AdvanceFollowsClosedForm(f.shift, f.cycle);
  }

  lemma CycleMovesShift(f: FactoryState, d: CycleDraws)
    ensures Cycled(f, d).shift == Advanced(f.shift) && Cycled(f, d).cycle == f.cycle + 1
  {
    hide LinePass, Shipped, Advanced;
  }

  /** Replacing stations by ones with the same counters that are still fit keeps the flow. */
  lemma SameCountersKeepFlow(f: FactoryState, ss: seq<Station>, holds: seq<int>)
    requires FlowOk(f, holds) && |ss| == |f.stations|
    requires forall i :: 0 <= i < |ss| ==> StationOk(ss[i]) && SameCounters(ss[i], f.stations[i])
    ensures FlowOk(f.(stations := ss), holds)
  {
    hide StationOk;
    assert Defects(ss) == Defects(f.stations);
  }

  lemma EventKeepsFlow(f: FactoryState, step: Step, holds: seq<int>)
    requires FlowOk(f, holds) && (step.BreakdownEvent? || step.SpeedRecoveryEvent? || step.PlanApplied?)
    ensures FlowOk(Apply(f, step), holds)
  {
    hide StationOk, Repaired, BrokenDown, SpedTo;
    var ss := Apply(f, step).stations;
    forall i | 0 <= i < |ss| ensures StationOk(ss[i]) && SameCounters(ss[i], f.stations[i]) {
      match step
      case BreakdownEvent(_, repairTime) => EventsKeepOk(f.stations[i], repairTime, 100);
      case SpeedRecoveryEvent(_, bump) => EventsKeepOk(f.stations[i], 0.0, Min(100, f.stations[i].speedPct + bump));
      case PlanApplied(pct) => EventsKeepOk(f.stations[i], 0.0, ClampSpeed(pct));
    }
    SameCountersKeepFlow(f, ss, holds);
  }

  lemma RepairsKeepFlow(f: FactoryState, repaired: nat -> bool, holds: seq<int>)
    requires FlowOk(f, holds)
    ensures FlowOk(f.(stations := WithRepairs(f.stations, repaired)), holds)
  {
    hide StationOk, Repaired;
    var ss := WithRepairs(f.stations, repaired);
    forall i | 0 <= i < |ss| ensures StationOk(ss[i]) && SameCounters(ss[i], f.stations[i]) {
      EventsKeepOk(f.stations[i], 0.0, 100);
    }
    SameCountersKeepFlow(f, ss, holds);
  }

  lemma EventKeepsInvariant(f: FactoryState, step: Step, holds: seq<int>)
    requires Invariant(f, holds) && (step.BreakdownEvent? || step.SpeedRecoveryEvent? || step.PlanApplied?)
    ensures Invariant(Apply(f, step), holds)
  {
    hide FlowOk, ShiftAt;
    EventKeepsFlow(f, step, holds);
  }

  lemma NewOrderKeepsInvariant(f: FactoryState, quantity: int, holds: seq<int>)
    requires Invariant(f, holds)
    ensures Invariant(Apply(f, NewOrderEvent(quantity)), holds)
  {
    hide FlowOk, ShiftAt;
    SumAppend(Deliveries(f.orders), [0]);
    assert Deliveries(f.orders + [Order(quantity, 0)]) == Deliveries(f.orders) + [0];
    FlowIgnoresOrders(f, quantity, holds);
  }

  lemma FlowIgnoresOrders(f: FactoryState, quantity: int, holds: seq<int>)
    ensures FlowOk(f, holds) ==> FlowOk(Apply(f, NewOrderEvent(quantity)), holds)
  {
    hide StationOk, CountsAgree, Sum, Balanced;
  }

  lemma TickKeepsInvariant(f: FactoryState, draws: CycleDraws, repaired: nat -> bool, holds: seq<int>)
    requires Invariant(f, holds)
    ensures Invariant(Apply(f, EnvTick(draws, repaired)), CountHold(holds, CycleOutcome(f, draws)))
  {
    assert |holds| == |f.stations|;
    hide Cycled, CycleOutcome, FlowOk, ShiftAt;
    CycleKeepsInvariant(f, draws, holds);
    RepairsKeepFlow(Cycled(f, draws), repaired, CountHold(holds, CycleOutcome(f, draws)));
  }

  lemma StepKeepsInvariant(f: FactoryState, step: Step, holds: seq<int>)
    requires Invariant(f, holds)
    ensures Invariant(Apply(f, step), if step.EnvTick? then CountHold(holds, CycleOutcome(f, step.draws)) else holds)
  {
    hide *;
    match step
    case EnvTick(draws, repaired) => TickKeepsInvariant(f, draws, repaired, holds);
    case NewOrderEvent(quantity) => NewOrderKeepsInvariant(f, quantity, holds);
    case _ => EventKeepsInvariant(f, step, holds);
  }

  lemma {:induction false} RunKeepsInvariant(f: FactoryState, steps: seq<Step>)
    requires Initial(f)
    ensures Invariant(Run(f, steps), HoldsOver(f, steps))
    decreases |steps|
  {
    if steps == [] {
      InitialInvariant(f);
    } else {
      var before := steps[..|steps| - 1];
      RunKeepsInvariant(f, before);
      RunKeepsLength(f, before);
      StepKeepsInvariant(Run(f, before), steps[|steps| - 1], HoldsOver(f, before));
    }
  }

  // ---- what the counters count -------------------------------------------------------------------

  /** The product of this step ends with this status. */
  predicate EndsAs(f: FactoryState, step: Step, status: ProductStatus) {
    step.EnvTick? && StatusOf(CycleOutcome(f, step.draws), step.draws.toRework) == status
  }

  /** How many products of the run ended with this status. */
  function EndedAs(f: FactoryState, steps: seq<Step>, status: ProductStatus): nat
    decreases |steps|
  {
    if steps == [] then 0
    else
      var before := steps[..|steps| - 1];
      EndedAs(f, before, status) + if EndsAs(Run(f, before), steps[|steps| - 1], status) then 1 else 0
  }

  lemma CycleCounts(f: FactoryState, d: CycleDraws)
    ensures var g, status := Cycled(f, d), StatusOf(CycleOutcome(f, d), d.toRework);
            && g.cycle == f.cycle + 1
            && g.totalProduced == f.totalProduced + (if status == Good then 1 else 0)
            && g.scrapCount == f.scrapCount + (if status == Scrap then 1 else 0)
            && g.reworkCount == f.reworkCount + (if status == Rework then 1 else 0)
  {
    hide LinePass, Shipped;
  }

  lemma StepCounts(f: FactoryState, step: Step)
    ensures var g := Apply(f, step);
            && g.cycle == f.cycle + (if step.EnvTick? then 1 else 0)
            && g.totalProduced == f.totalProduced + (if EndsAs(f, step, Good) then 1 else 0)
            && g.scrapCount == f.scrapCount + (if EndsAs(f, step, Scrap) then 1 else 0)
            && g.reworkCount == f.reworkCount + (if EndsAs(f, step, Rework) then 1 else 0)
    ensures EndsAs(f, step, Hold) <==> step.EnvTick? && CycleOutcome(f, step.draws).Held?
    ensures step.EnvTick? ==>
              EndsAs(f, step, Good) || EndsAs(f, step, Scrap) || EndsAs(f, step, Rework) || EndsAs(f, step, Hold)
    ensures forall s, t :: EndsAs(f, step, s) && EndsAs(f, step, t) ==> step.EnvTick? && s == t
  {
    if step.EnvTick? {
      CycleCounts(f, step.draws);
      hide Cycled, CycleOutcome;
    }
  }

  /** One step more, for the products that ended with a status. */
  lemma EndedOneMore(f: FactoryState, steps: seq<Step>, status: ProductStatus)
    requires steps != []
    ensures var before, last := steps[..|steps| - 1], steps[|steps| - 1];
            EndedAs(f, steps, status)
              == EndedAs(f, before, status) + if EndsAs(Run(f, before), last, status) then 1 else 0
  {
    hide EndsAs, Run;
  }

  lemma HeldOneMore(f: FactoryState, steps: seq<Step>)
    requires steps != [] && |f.stations| > 0
    ensures var before, last := steps[..|steps| - 1], steps[|steps| - 1];
            Sum(HoldsOver(f, steps)) == Sum(HoldsOver(f, before)) + if EndsAs(Run(f, before), last, Hold) then 1 else 0
  {
    var before, last := steps[..|steps| - 1], steps[|steps| - 1];
    var g, holds := Run(f, before), HoldsOver(f, before);
    RunKeepsLength(f, before);
    StepCounts(g, last);
    hide Sum, CycleOutcome, EndsAs, Run, Apply;
    if EndsAs(g, last, Hold) {
      var outcome := CycleOutcome(g, last.draws);
      SumUpdate(holds, outcome.at, holds[outcome.at] + 1);
    }
  }

  /** Every product ends in exactly one way, and each counter counts its own way. */
  lemma {:induction false} CountersCountOutcomes(f: FactoryState, steps: seq<Step>)
    requires Initial(f)
    ensures var g := Run(f, steps);
            && g.totalProduced == EndedAs(f, steps, Good)
            && g.scrapCount == EndedAs(f, steps, Scrap)
            && g.reworkCount == EndedAs(f, steps, Rework)
            && Sum(HoldsOver(f, steps)) == EndedAs(f, steps, Hold)
            && g.cycle == EndedAs(f, steps, Good) + EndedAs(f, steps, Scrap)
                          + EndedAs(f, steps, Rework) + EndedAs(f, steps, Hold)
    decreases |steps|
  {
    if steps == [] {
      SumOfZeros(HoldsOver(f, []));
    } else {
      var before, last := steps[..|steps| - 1], steps[|steps| - 1];
      assert Run(f, steps) == Apply(Run(f, before), last);
      CountersCountOutcomes(f, before);
      hide *;
      StepCounts(Run(f, before), last);
      HeldOneMore(f, steps);
      EndedOneMore(f, steps, Good);
      EndedOneMore(f, steps, Scrap);
      EndedOneMore(f, steps, Rework);
      EndedOneMore(f, steps, Hold);
    }
  }

  // ---- the theorems ------------------------------------------------------------------------------

  /** Up to station `i`, what entered the line is what was held, what was rejected and what
      goes on into station `i`. */
  lemma {:induction false} FlowTelescopes(ss: seq<Station>, holds: seq<int>, cycle: int, i: nat)
    requires i <= |ss| && StationsOk(ss) && Balanced(ss, holds, cycle, -1)
    ensures cycle == Sum(holds[..i]) + Sum(Defects(ss)[..i]) + Inflow(ss, cycle, i)
  {
    hide StationOk;
    if i > 0 {
      FlowTelescopes(ss, holds, cycle, i - 1);
      SumOneMore(holds, i - 1);
      SumOneMore(Defects(ss), i - 1);
      assert Inflow(ss, cycle, i - 1) == ss[i - 1].totalCycles + holds[i - 1];
      hide Sum, Balanced;
    }
  }

  /** Every product started is finished, scrapped, sent to rework or held, and each station received
      exactly the good output of its predecessor. */
  predicate FlowConserved(f: FactoryState, holds: seq<int>)
    requires |holds| == |f.stations| > 0
  {
    && f.cycle == f.totalProduced + f.scrapCount + f.reworkCount + Sum(holds)
    && (forall i :: 0 <= i < |f.stations| ==>
         f.stations[i].goodCount + f.stations[i].defectCount == f.stations[i].totalCycles)
    && (forall i :: 0 < i < |f.stations| ==>
         f.stations[i - 1].goodCount == f.stations[i].totalCycles + holds[i])
    && f.stations[|f.stations| - 1].goodCount == f.totalProduced
    && Sum(Defects(f.stations)) == f.scrapCount + f.reworkCount
  }

  lemma FlowOkConserves(f: FactoryState, holds: seq<int>)
    requires FlowOk(f, holds)
    ensures FlowConserved(f, holds)
  {
    hide StationOk, Sum, Defects, Inflow;
    FlowTelescopes(f.stations, holds, f.cycle, |f.stations|);
    InflowAfterFirst(f.stations, f.cycle, |f.stations|);
    assert holds[..|holds|] == holds && Defects(f.stations)[..|f.stations|] == Defects(f.stations);
    forall i | 0 < i < |f.stations|
      ensures f.stations[i - 1].goodCount == f.stations[i].totalCycles + holds[i]
    {
      InflowAfterFirst(f.stations, f.cycle, i);
    }
  }

  /** Flow conservation on every run of a line of any length. */
  lemma FlowConservation(f: FactoryState, steps: seq<Step>)
    requires Initial(f)
    ensures |Run(f, steps).stations| == |f.stations|
    ensures FlowConserved(Run(f, steps), HoldsOver(f, steps))
  {
    RunKeepsInvariant(f, steps);
    RunKeepsLength(f, steps);
    FlowOkConserves(Run(f, steps), HoldsOver(f, steps));
  }

  /** Finished goods are conserved on every run: produced = in stock + delivered, stock is never
      negative and no order is overdelivered. */
  lemma FinishedGoodsConservation(f: FactoryState, steps: seq<Step>)
    requires Initial(f)
    ensures var g := Run(f, steps);
            && g.totalProduced == g.fgStock + Sum(Deliveries(g.orders))
            && g.fgStock >= 0
            && forall k :: 0 <= k < |g.orders| ==> 0 <= g.orders[k].delivered <= Max(0, g.orders[k].quantity)
  {
    RunKeepsInvariant(f, steps);
  }

  lemma ReachedStationOk(f: FactoryState, steps: seq<Step>, i: nat)
    requires Initial(f) && i < |f.stations|
    ensures |Run(f, steps).stations| == |f.stations|
    ensures StationOk(Run(f, steps).stations[i]) && CountsAgree(Run(f, steps).stations[i])
  {
    hide StationOk;
    RunKeepsInvariant(f, steps);
    RunKeepsLength(f, steps);
  }

  /** After every run the reported OEE of every station is its reported quality, and its
      reported availability is 1, however long the station was down. */
  lemma OeeOnEveryRun(f: FactoryState, steps: seq<Step>, i: nat)
    requires Initial(f) && i < |f.stations|
    ensures |Run(f, steps).stations| == |f.stations|
    ensures var s := Run(f, steps).stations[i];
            && OeeOf(s).oee == OeeOf(s).quality
            && OeeOf(s).availability == 1.0
            && 0.0 <= OeeOf(s).oee <= 1.0
            && 0.4 <= OeeOf(s).performance <= 1.0
            && 40 <= s.speedPct <= 100
            && s.plannedTime == s.totalCycles as real * s.designTime
            && s.plannedTime <= s.runTime <= 2.5 * s.plannedTime
            && s.state !in {MachineState.Setup, Maintenance}
            && HistoryOk(s)
  {
    hide *;
    ReachedStationOk(f, steps, i);
    OeeIsQuality(Run(f, steps).stations[i]);
  }

  /** Station `i` works through a cycle of this step below full speed. */
  predicate SlowCycle(f: FactoryState, step: Step, i: nat)
    requires i < |f.stations|
  {
    && Apply(f, step).stations[i].totalCycles > f.stations[i].totalCycles
    && f.stations[i].speedPct < 100
  }

  function SlowCycles(f: FactoryState, steps: seq<Step>, i: nat): nat
    requires i < |f.stations|
    decreases |steps|
  {
    if steps == [] then 0
    else
      var before := steps[..|steps| - 1];
      RunKeepsLength(f, before);
      SlowCycles(f, before, i) + if SlowCycle(Run(f, before), steps[|steps| - 1], i) then 1 else 0
  }

  /** A pass leaves a station as it was, or worked on once. */
  lemma {:induction false} StationAfterPass(ss: seq<Station>, j: nat, verdict: nat -> bool, i: nat)
    requires j <= |ss| && i < |ss|
    ensures var t := LinePass(ss, j, verdict).0[i];
            t == ss[i] || (i >= j && t == Recorded(Executed(ss[i]), verdict(i)))
    decreases |ss| - j
  {
    hide Executed, Recorded;
    LinePassAt(ss, j, verdict);
    if j < |ss| && ss[j].state !in {Breakdown, Maintenance} && verdict(j) {
      StationAfterPass(ss[j := Recorded(Executed(ss[j]), true)], j + 1, verdict, i);
    }
  }

  /** Run time runs ahead of planned time in exactly the slow cycles. */
  lemma StepDelays(f: FactoryState, step: Step, i: nat)
    requires i < |f.stations| && StationOk(f.stations[i])
    ensures var s, t := f.stations[i], Apply(f, step).stations[i];
            && t.runTime - t.plannedTime >= s.runTime - s.plannedTime
            && (t.runTime - t.plannedTime == s.runTime - s.plannedTime <==> !SlowCycle(f, step, i))
  {
    var s := f.stations[i];
    match step
    case EnvTick(draws, repaired) =>
      StationAfterPass(f.stations, 0, draws.verdict, i);
      FullSpeedTakesDesignTime(s);
      ActualCycleTimeBounds(s);
      var u := LinePass(f.stations, 0, draws.verdict).0[i];
      hide ActualCycleTime, LinePass, Shipped, Advanced;
      assert Cycled(f, draws).stations[i] == u;
      var t := Apply(f, step).stations[i];
      assert t == u || t == Repaired(u);
    case BreakdownEvent(at, repairTime) =>
      assert Apply(f, step).stations[i] == s || Apply(f, step).stations[i] == BrokenDown(s, repairTime);
    case NewOrderEvent(_) =>
    case SpeedRecoveryEvent(at, bump) =>
      assert Apply(f, step).stations[i] == s || Apply(f, step).stations[i] == SpedTo(s, Min(100, s.speedPct + bump));
    case PlanApplied(pct) =>
      assert Apply(f, step).stations[i] == SpedTo(s, ClampSpeed(pct));
  }

  /** After every run a station's run time is its planned time exactly when it never worked below full
      speed. */
  lemma {:induction false} OnTimeAtFullSpeed(f: FactoryState, steps: seq<Step>, i: nat)
    requires Initial(f) && i < |f.stations|
    ensures |Run(f, steps).stations| == |f.stations|
    ensures var s := Run(f, steps).stations[i];
            s.runTime == s.plannedTime <==> SlowCycles(f, steps, i) == 0
    decreases |steps|
  {
    if steps != [] {
      var before := steps[..|steps| - 1];
      OnTimeAtFullSpeed(f, before, i);
      ReachedStationOk(f, before, i);
      hide Apply, SlowCycle;
      StepDelays(Run(f, before), steps[|steps| - 1], i);
    }
    RunKeepsLength(f, steps);
  }

  /** So on every run the documented formula, on clipped ratios, holds of a station exactly when it
      never worked below full speed or has worked and produced nothing good. */
  lemma OeeFormulaOnEveryRun(f: FactoryState, steps: seq<Step>, i: nat)
    requires Initial(f) && i < |f.stations|
    ensures |Run(f, steps).stations| == |f.stations|
    ensures var s := Run(f, steps).stations[i];
            var a, p, q := Availability(s), Performance(s), Quality(s);
            Product(MinR(1.0, a), MinR(1.0, p), MinR(1.0, q)) == MinR(1.0, Product(a, p, q)) <==>
            SlowCycles(f, steps, i) == 0 || (s.goodCount == 0 && s.totalCycles > 0)
  {
    hide *;
    ReachedStationOk(f, steps, i);
    OnTimeAtFullSpeed(f, steps, i);
    OeeFormulaAgreement(Run(f, steps).stations[i]);
  }

  /** A new line of one station. */
  const SMALL_FACTORY := FactoryState([NewStation(1.0)], [], ShiftState(0, 0, 0, 0), 0, 0, 0, 0, 0)

  /** It fails after two steps: at half speed one good product is reported with OEE 1, although the
      reported factors multiply to 0.5. */
  lemma HalfSpeedReportsFullOee(draws: CycleDraws, repaired: nat -> bool)
    requires draws.verdict(0)
    ensures Initial(SMALL_FACTORY)
    ensures var f := Run(SMALL_FACTORY, [PlanApplied(50), EnvTick(draws, repaired)]);
            && |f.stations| == 1
            && OeeOf(f.stations[0]) == OeeReport(1.0, 0.5, 1.0, 1.0)
  {
    var plan, tick := PlanApplied(50), EnvTick(draws, repaired);
    assert [plan, tick][..1] == [plan] && [plan][..0] == [];
    var slow := Apply(SMALL_FACTORY, plan);
    assert slow.stations == [NewStation(1.0).(speedPct := 50)];
    var s := Recorded(Executed(slow.stations[0]), true);
    LinePassAt(slow.stations, 0, draws.verdict);
    LinePassAt([s], 1, draws.verdict);
    assert Cycled(slow, draws).stations == [s];
    assert Run(SMALL_FACTORY, [plan]) == slow;
    assert s.runTime == 2.0 && s.plannedTime == 1.0 && s.totalCycles == 1 && s.goodCount == 1;
    hide LinePass, Shipped, Advanced;
    assert Apply(slow, tick).stations == [s];
  }

  /** The shift calendar of every run: 320 cycles to a shift, whatever happens in between. */
  lemma ShiftCalendar(f: FactoryState, steps: seq<Step>)
    requires Initial(f)
    ensures var g := Run(f, steps);
            && g.shift.changes == g.cycle / 320
            && g.shift.index == (g.cycle / 320) % 3
            && g.shift.hour == (g.cycle % 320) / 40
  {
    RunKeepsInvariant(f, steps);
  }

  // ---- the object ---------------------------------------------------------------------------------

  /** The threads' actions on the shared factory, each as one method. */
  class Runtime {
    const factory: Factory

    constructor (factory: Factory)
      ensures this.factory == factory
    {
      this.factory := factory;
    }

    /** `_apply_dynamics`: each broken-down station is repaired when its draw says so. */
    method ApplyDynamics(repaired: nat -> bool)
      requires factory.Valid()
      modifies factory.lineParts
      ensures factory.View() == old(factory.View()).(stations := WithRepairs(old(factory.Stations()), repaired))
    {
      ghost var before := factory.Stations();
      for i := 0 to |factory.line|
        invariant factory.Orders() == old(factory.Orders())
        invariant forall k :: 0 <= k < i ==> factory.Stations()[k] == WithRepairs(before, repaired)[k]
        invariant forall k :: i <= k < |factory.line| ==> factory.Stations()[k] == before[k]
      {
        if factory.line[i].state == Breakdown && repaired(i) {
          factory.line[i].CompleteRepair();
        }
      }
      assert factory.Stations() == WithRepairs(before, repaired);
    }

    /** One turn of `_env_loop`. */
    method EnvTurn(draws: CycleDraws, repaired: nat -> bool) returns (status: ProductStatus)
      requires factory.Valid()
      modifies factory`cycle, factory`fgStock, factory`totalProduced, factory`scrapCount, factory`reworkCount
      modifies factory.lineParts, factory.orderParts, factory.shiftMgr
      ensures factory.View() == Apply(old(factory.View()), EnvTick(draws, repaired))
      ensures status == StatusOf(CycleOutcome(old(factory.View()), draws), draws.toRework)
    {
      hide Cycled, CycleOutcome;
      status := factory.RunCycle(draws);
      ApplyDynamics(repaired);
    }

    method OnBreakdown(at: nat, repairTime: real)
      requires factory.Valid() && at < |factory.line|
      modifies factory.line[at]
      ensures factory.View() == Apply(old(factory.View()), BreakdownEvent(at, repairTime))
    {
      var station := factory.line[at];
      if station.state == Running {
        station.TriggerBreakdown(repairTime);
      }
      assert factory.Orders() == old(factory.Orders());
      assert factory.Stations() == Apply(old(factory.View()), BreakdownEvent(at, repairTime)).stations;
    }

    method OnNewOrder(quantity: int)
      requires factory.Valid()
      modifies factory`orders, factory`orderParts
      ensures factory.Valid()
      ensures factory.View() == Apply(old(factory.View()), NewOrderEvent(quantity))
    {
      ghost var before := factory.Orders();
      var order := new CustomerOrder(quantity);
      factory.orders := factory.orders + [order];
      factory.orderParts := factory.orderParts + {order};
      assert factory.Stations() == old(factory.Stations());
      assert factory.Orders() == before + [Order(quantity, 0)];
    }

    method OnSpeedRecovery(at: nat, bump: int)
      requires factory.Valid() && at < |factory.line|
      modifies factory.line[at]
      ensures factory.View() == Apply(old(factory.View()), SpeedRecoveryEvent(at, bump))
    {
      var station := factory.line[at];
      if station.speedPct < 100 {
        station.SetSpeed(Min(100, station.speedPct + bump));
      }
      assert factory.Orders() == old(factory.Orders());
      assert factory.Stations() == Apply(old(factory.View()), SpeedRecoveryEvent(at, bump)).stations;
    }

    /** The line takes the clamped target speed of a completed negotiation. */
    method ApplyPlan(requestedSpeed: int)
      requires factory.Valid()
      modifies factory.lineParts
      ensures factory.View() == Apply(old(factory.View()), PlanApplied(requestedSpeed))
    {
      var speed := ClampSpeed(requestedSpeed);
      ghost var before := factory.Stations();
      for i := 0 to |factory.line|
        invariant factory.Orders() == old(factory.Orders())
        invariant forall k :: 0 <= k < i ==> factory.Stations()[k] == SpedTo(before[k], speed)
        invariant forall k :: i <= k < |factory.line| ==> factory.Stations()[k] == before[k]
      {
        factory.line[i].SetSpeed(speed);
      }
      assert factory.Stations() == WithSpeed(before, speed);
    }
  }
}
