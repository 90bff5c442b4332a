/** What each action of the runtime does to the line: breakdowns stop it, repairs and speeds take effect,
    orders are placed, and a line with nothing down produces. */
module RuntimeEffects {
  import opened Numbers
  import opened Machines
  import opened Environment
  import opened FactoryRuntime
  import opened CnpSession

  // ---- a station that is down ------------------------------------------------------------------

  /** No repair draw of the run succeeds at station `at`. */
  predicate NeverRepaired(steps: seq<Step>, at: nat) {
    forall k :: 0 <= k < |steps| && steps[k].EnvTick? ==> !steps[k].repaired(at)
  }

  /** A product never gets past a station that is down, and leaves it as it was. */
  lemma {:induction false} DownStationHolds(ss: seq<Station>, i: nat, verdict: nat -> bool, at: nat)
    requires i <= at < |ss| && ss[at].state == Breakdown
    ensures var (tt, outcome) := LinePass(ss, i, verdict);
            && tt[at] == ss[at]
            && (outcome.Held? || (outcome.Rejected? && outcome.at < at))
            && outcome.at <= at
    decreases at - i
  {
    hide Executed, Recorded;
    LinePassAt(ss, i, verdict);
    if i < at && ss[i].state !in {Breakdown, Maintenance} && verdict(i) {
      DownStationHolds(ss[i := Recorded(Executed(ss[i]), true)], i + 1, verdict, at);
    }
  }

  lemma StepWhileDown(f: FactoryState, step: Step, at: nat)
    requires at < |f.stations| && f.stations[at].state == Breakdown
    requires step.EnvTick? ==> !step.repaired(at)
    ensures var g := Apply(f, step);
            && |g.stations| == |f.stations| && g.stations[at].state == Breakdown
            && g.totalProduced == f.totalProduced
            && g.stations[at].totalCycles == f.stations[at].totalCycles
  {
    match step
    case EnvTick(draws, repaired) =>
      DownStationHolds(f.stations, 0, draws.verdict, at);
      hide LinePass, Shipped, Advanced;
    case _ =>
  }

  /** A station that is down stops the line: until a repair draw succeeds there, nothing is produced,
      whatever else happens. */
  lemma {:induction false} NothingIsProducedWhileDown(f: FactoryState, steps: seq<Step>, at: nat)
    requires at < |f.stations| && f.stations[at].state == Breakdown && NeverRepaired(steps, at)
    ensures var g := Run(f, steps);
            && |g.stations| == |f.stations| && g.stations[at].state == Breakdown
            && g.totalProduced == f.totalProduced
            && g.stations[at].totalCycles == f.stations[at].totalCycles
    decreases |steps|
  {
    if steps != [] {
      NothingIsProducedWhileDown(f, steps[..|steps| - 1], at);
      hide Apply;
      StepWhileDown(Run(f, steps[..|steps| - 1]), steps[|steps| - 1], at);
    }
  }

  /** A breakdown event strikes exactly the running stations: it is recorded, and the line stands. */
  lemma BreakdownTakesEffect(f: FactoryState, at: nat, repairTime: real, steps: seq<Step>)
    requires at < |f.stations| && NeverRepaired(steps, at)
    ensures var g := Apply(f, BreakdownEvent(at, repairTime));
            var s, t := f.stations[at], g.stations[at];
            && |g.stations| == |f.stations|
            && (forall i :: 0 <= i < |f.stations| && i != at ==> g.stations[i] == f.stations[i])
            && (s.state == Running ==>
                  && t.state == Breakdown && t.failureCount == s.failureCount + 1
                  && t.downtime == s.downtime + repairTime && t.totalRepair == s.totalRepair + repairTime
                  && t.lastFailureCycle == s.totalCycles && t.uptimeSinceRepair == 0
                  && Run(g, steps).totalProduced == f.totalProduced)
            && (s.state != Running ==> t == s)
  {
    var g := Apply(f, BreakdownEvent(at, repairTime));
    if f.stations[at].state == Running {
      NothingIsProducedWhileDown(g, steps, at);
    }
    hide Run;
  }

  // ---- a line with nothing down ----------------------------------------------------------------

  predicate NothingDown(ss: seq<Station>) {
    forall i :: 0 <= i < |ss| ==> ss[i].state !in {Breakdown, Maintenance, MachineState.Setup}
  }

  lemma {:induction false} GoodProductPasses(ss: seq<Station>, i: nat, verdict: nat -> bool)
    requires i <= |ss| && NothingDown(ss) && forall k :: i <= k < |ss| ==> verdict(k)
    ensures var (tt, outcome) := LinePass(ss, i, verdict);
            && outcome.Passed? && NothingDown(tt)
            && (forall k :: 0 <= k < i ==> tt[k] == ss[k])
            && forall k :: i <= k < |ss| ==>
                 && tt[k].state == Running && tt[k].totalCycles == ss[k].totalCycles + 1
                 && tt[k].goodCount == ss[k].goodCount + 1 && tt[k].defectCount == ss[k].defectCount
    decreases |ss| - i
  {
    LinePassAt(ss, i, verdict);
    if i < |ss| {
      var next := ss[i := Recorded(Executed(ss[i]), true)];
      assert NothingDown(next);
      GoodProductPasses(next, i + 1, verdict);
      hide LinePass;
    }
  }

  /** When nothing is down and every verdict is good, a tick produces: every station works one more cycle
      and runs, and one more unit is finished. */
  lemma HealthyLineProduces(f: FactoryState, draws: CycleDraws, repaired: nat -> bool)
    requires NothingDown(f.stations) && forall k :: 0 <= k < |f.stations| ==> draws.verdict(k)
    ensures var g := Apply(f, EnvTick(draws, repaired));
            && g.totalProduced == f.totalProduced + 1 && |g.stations| == |f.stations|
            && NothingDown(g.stations)
            && forall k :: 0 <= k < |f.stations| ==>
                 && g.stations[k].state == Running && g.stations[k].totalCycles == f.stations[k].totalCycles + 1
                 && g.stations[k].goodCount == f.stations[k].goodCount + 1
  {
    GoodProductPasses(f.stations, 0, draws.verdict);
    hide LinePass, Shipped, Advanced;
  }

  /** A repair draw that succeeds ends a breakdown: the station warms up, and takes part again. */
  lemma RepairTakesEffect(f: FactoryState, draws: CycleDraws, repaired: nat -> bool, at: nat)
    requires at < |f.stations| && f.stations[at].state == Breakdown && repaired(at)
    ensures var g := Apply(f, EnvTick(draws, repaired));
            |g.stations| == |f.stations| && g.stations[at] == f.stations[at].(state := Warmup)
  {
    DownStationHolds(f.stations, 0, draws.verdict, at);
    hide LinePass, Shipped, Advanced;
  }

  /** A product is rejected at a station that works on it and finds it bad; there it is a defect, and the draw
      decides between rework and scrap. */
  lemma RejectionIsDrawn(f: FactoryState, d: CycleDraws)
    requires CycleOutcome(f, d).Rejected?
    ensures var g, at := Cycled(f, d), CycleOutcome(f, d).at;
            && at < |f.stations| == |g.stations| && !d.verdict(at)
            && g.stations[at].defectCount == f.stations[at].defectCount + 1
            && g.reworkCount == f.reworkCount + (if d.toRework then 1 else 0)
            && g.scrapCount == f.scrapCount + (if d.toRework then 0 else 1)
            && g.totalProduced == f.totalProduced && g.fgStock == f.fgStock && g.orders == f.orders
  {
    RejectedAtBadVerdict(f.stations, 0, d.verdict);
    hide LinePass, Shipped, Advanced;
  }

  lemma {:induction false} RejectedAtBadVerdict(ss: seq<Station>, i: nat, verdict: nat -> bool)
    requires i <= |ss| && LinePass(ss, i, verdict).1.Rejected?
    ensures var (tt, outcome) := LinePass(ss, i, verdict);
            !verdict(outcome.at) && tt[outcome.at].defectCount == ss[outcome.at].defectCount + 1
    decreases |ss| - i
  {
    LinePassAt(ss, i, verdict);
    if i < |ss| && ss[i].state !in {Breakdown, Maintenance} && verdict(i) {
      RejectedAtBadVerdict(ss[i := Recorded(Executed(ss[i]), true)], i + 1, verdict);
    }
  }

  /** A new line is up, at full speed, has worked nothing and reports ones. */
  lemma NewLineIsUp(f: FactoryState, i: nat)
    requires Initial(f) && i < |f.stations|
    ensures NothingDown(f.stations)
    ensures var s := f.stations[i];
            && s.speedPct == 100 && s.totalCycles == s.goodCount == s.defectCount == s.failureCount == 0
            && s.runTime == s.plannedTime == s.downtime == 0.0
            && OeeOf(s) == OeeReport(1.0, 1.0, 1.0, 1.0)
  {}

  // ---- speeds and orders ------------------------------------------------------------------------

  /** A recovery never slows a station down: it adds the whole draw, or reaches full speed. */
  lemma RecoveryTakesEffect(f: FactoryState, at: nat, bump: nat)
    requires at < |f.stations| && 40 <= f.stations[at].speedPct <= 100
    ensures var g := Apply(f, SpeedRecoveryEvent(at, bump));
            var s, t := f.stations[at], g.stations[at];
            && |g.stations| == |f.stations|
            && (forall i :: 0 <= i < |f.stations| && i != at ==> g.stations[i] == f.stations[i])
            && t == s.(speedPct := t.speedPct)
            && s.speedPct <= t.speedPct <= 100
            && (t.speedPct == s.speedPct + bump || (t.speedPct == 100 && s.speedPct + bump > 100))
  {}

  /** An applied plan puts the whole line on one speed, the one asked for if it is within the limits. */
  lemma PlanTakesEffect(f: FactoryState, requested: int)
    ensures var g := Apply(f, PlanApplied(requested));
            && |g.stations| == |f.stations|
            && forall i :: 0 <= i < |f.stations| ==>
                 && g.stations[i] == f.stations[i].(speedPct := g.stations[i].speedPct)
                 && (40 <= requested <= 100 ==> g.stations[i].speedPct == requested)
                 && (requested < 40 ==> g.stations[i].speedPct == 40)
                 && (requested > 100 ==> g.stations[i].speedPct == 100)
  {}

  /** The quantities ordered in a run, in order. */
  function Placed(steps: seq<Step>): seq<int>
    decreases |steps|
  {
    if steps == [] then []
    else
      var before, last := Placed(steps[..|steps| - 1]), steps[|steps| - 1];
      if last.NewOrderEvent? then before + [last.quantity] else before
  }

  function Quantities(orders: seq<Order>): seq<int> {
    seq(|orders|, i requires 0 <= i < |orders| => orders[i].quantity)
  }

  lemma {:induction false} ShippingKeepsQuantities(orders: seq<Order>, i: nat, stock: int, draws: nat -> ShipDraw)
    requires i <= |orders|
    ensures Quantities(Shipped(orders, i, stock, draws).0) == Quantities(orders)
    decreases |orders| - i
  {
    if i < |orders| {
      var n := ShipmentTo(orders[i], stock, draws(i));
      var next := orders[i := orders[i].(delivered := orders[i].delivered + n)];
      assert Quantities(next) == Quantities(orders);
      ShippingKeepsQuantities(next, i + 1, stock - n, draws);
    }
  }

  /** After every run the order list is the initial one followed by the orders placed, none lost, none
      changed in quantity. */
  lemma {:induction false} OrdersArePlaced(f: FactoryState, steps: seq<Step>)
    ensures Quantities(Run(f, steps).orders) == Quantities(f.orders) + Placed(steps)
    decreases |steps|
  {
    if steps == [] {
      assert Quantities(f.orders) + [] == Quantities(f.orders);
    } else {
      var before, last := steps[..|steps| - 1], steps[|steps| - 1];
      var g := Run(f, before);
      OrdersArePlaced(f, before);
      hide LinePass, Shipped, Advanced;
      match last
      case EnvTick(draws, _) => ShippingKeepsQuantities(g.orders, 0, g.fgStock + 1, draws.ship);
      case NewOrderEvent(quantity) =>
        assert Quantities(g.orders + [Order(quantity, 0)]) == Quantities(g.orders) + [quantity];
      case _ =>
    }
  }

  // ---- what a station records over a run -----------------------------------------------------------

  /** A cycle worked at the station's speed takes its design time times 100 over that speed. */
  function TimeAtSpeed(s: Station): real {
    if s.speedPct > 0 then 100.0 * s.designTime / s.speedPct as real else 0.0
  }

  /** The time station `i` worked in a run, each cycle at the speed it then had. */
  function WorkTime(f: FactoryState, steps: seq<Step>, i: nat): real
    requires i < |f.stations|
    decreases |steps|
  {
    if steps == [] then 0.0
    else
      var before := steps[..|steps| - 1];
      RunKeepsLength(f, before);
      RunKeepsLength(f, steps);
      var s := Run(f, before).stations[i];
      WorkTime(f, before, i) + if Run(f, steps).stations[i].totalCycles > s.totalCycles then TimeAtSpeed(s) else 0.0
  }

  lemma WorkOfStep(f: FactoryState, step: Step, i: nat)
    requires i < |f.stations| && StationOk(f.stations[i])
    ensures |Apply(f, step).stations| == |f.stations|
    ensures var s, t := f.stations[i], Apply(f, step).stations[i];
            && t.designTime == s.designTime
            && t.runTime == s.runTime + if t.totalCycles > s.totalCycles then ActualCycleTime(s) else 0.0
  {
    var s := f.stations[i];
    match step
    case EnvTick(draws, repaired) =>
      StationAfterPass(f.stations, 0, draws.verdict, i);
      var u := LinePass(f.stations, 0, draws.verdict).0[i];
      hide ActualCycleTime, LinePass, Shipped, Advanced;
      assert Cycled(f, draws).stations[i] == u;
      var t := Apply(f, step).stations[i];
      assert t == u || t == Repaired(u);
    case _ =>
      hide ActualCycleTime;
  }

  lemma CycleTimeQuotient(s: Station)
    requires StationOk(s)
    ensures ActualCycleTime(s) == TimeAtSpeed(s)
  {
    CycleTimeAtSpeed(s);
    var m := s.speedPct as real;
    var q := 100.0 * s.designTime / m;
    assert q * m == 100.0 * s.designTime;
    assert (ActualCycleTime(s) - q) * m == 0.0;
  }

  /** After every run a station's run time is the sum of its cycle times, each cycle taking its design
      time times 100 over the speed it was worked at. */
  lemma {:induction false} RunTimeIsWorkTime(f: FactoryState, steps: seq<Step>, i: nat)
    requires Initial(f) && i < |f.stations|
    ensures |Run(f, steps).stations| == |f.stations|
    ensures Run(f, steps).stations[i].runTime == WorkTime(f, steps, i)
    decreases |steps|
  {
    RunKeepsLength(f, steps);
    if steps != [] {
      var before := steps[..|steps| - 1];
      RunTimeIsWorkTime(f, before, i);
      ReachedStationOk(f, before, i);
      hide Apply, ActualCycleTime, TimeAtSpeed, StationOk, CountsAgree;
      WorkOfStep(Run(f, before), steps[|steps| - 1], i);
      CycleTimeQuotient(Run(f, before).stations[i]);
    }
  }

  /** How often station `i` broke down in a run: the events that found it running. */
  function Failures(f: FactoryState, steps: seq<Step>, i: nat): nat
    requires i < |f.stations|
    decreases |steps|
  {
    if steps == [] then 0
    else
      var before, last := steps[..|steps| - 1], steps[|steps| - 1];
      RunKeepsLength(f, before);
      Failures(f, before, i) +
      if last.BreakdownEvent? && last.at == i && Run(f, before).stations[i].state == Running then 1 else 0
  }

  lemma FailuresOfStep(f: FactoryState, step: Step, i: nat)
    requires i < |f.stations|
    ensures |Apply(f, step).stations| == |f.stations|
    ensures var s, t := f.stations[i], Apply(f, step).stations[i];
            t.failureCount
              == s.failureCount + if step.BreakdownEvent? && step.at == i && s.state == Running then 1 else 0
  {
    match step
    case EnvTick(draws, repaired) =>
      StationAfterPass(f.stations, 0, draws.verdict, i);
      var u := LinePass(f.stations, 0, draws.verdict).0[i];
      hide LinePass, Shipped, Advanced, ActualCycleTime;
      assert Cycled(f, draws).stations[i] == u;
      var t := Apply(f, step).stations[i];
      assert t == u || t == Repaired(u);
    case _ =>
  }

  lemma {:induction false} FailuresAreCounted(f: FactoryState, steps: seq<Step>, i: nat)
    requires Initial(f) && i < |f.stations|
    ensures |Run(f, steps).stations| == |f.stations|
    ensures Run(f, steps).stations[i].failureCount == Failures(f, steps, i)
    decreases |steps|
  {
    RunKeepsLength(f, steps);
    if steps != [] {
      var before := steps[..|steps| - 1];
      FailuresAreCounted(f, before, i);
      hide Apply;
      FailuresOfStep(Run(f, before), steps[|steps| - 1], i);
    }
  }
}
