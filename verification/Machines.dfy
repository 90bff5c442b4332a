/** One work center of the line: its state machine, its counters and its OEE report. */
module Machines {
  import opened Numbers

  datatype MachineState = Running | Idle | Setup | Breakdown | Maintenance | Warmup

  /** The state a work center keeps between cycles, as a value. */
  datatype Station = Station(
    state: MachineState,
    cycleTime: real,
    designTime: real,
    totalCycles: nat,
    goodCount: nat,
    defectCount: nat,
    plannedTime: real,
    runTime: real,
    downtime: real,
    failureCount: nat,
    totalRepair: real,
    lastFailureCycle: nat,
    uptimeSinceRepair: nat,
    speedPct: int)

  function NewStation(cycleTime: real): Station {
    Station(Idle, cycleTime, cycleTime, 0, 0, 0, 0.0, 0.0, 0.0, 0, 0.0, 0, 0, 100)
  }

  predicate Stopped(s: Station) { s.state in {Breakdown, Maintenance, MachineState.Setup} }

  function ActualCycleTime(s: Station): real {
    s.cycleTime * (100.0 / Max(40, s.speedPct) as real)
  }

  function Executed(s: Station): Station {
    if Stopped(s) then s
    else s.(state := Running,
            runTime := s.runTime + ActualCycleTime(s),
            plannedTime := s.plannedTime + s.designTime,
            totalCycles := s.totalCycles + 1,
            uptimeSinceRepair := s.uptimeSinceRepair + 1)
  }

  function Recorded(s: Station, isGood: bool): Station {
    if isGood then s.(goodCount := s.goodCount + 1) else s.(defectCount := s.defectCount + 1)
  }

  function BrokenDown(s: Station, repairTime: real): Station {
    s.(state := Breakdown,
       failureCount := s.failureCount + 1,
       totalRepair := s.totalRepair + repairTime,
       downtime := s.downtime + repairTime,
       lastFailureCycle := s.totalCycles,
       uptimeSinceRepair := 0)
  }

  function Repaired(s: Station): Station { s.(state := Warmup) }

  function SpedTo(s: Station, pct: int): Station { s.(speedPct := Max(40, Min(110, pct))) }

  // ---- OEE -------------------------------------------------------------------------

  datatype OeeReport = OeeReport(availability: real, performance: real, quality: real, oee: real)

  function Availability(s: Station): real {
    if s.plannedTime > 0.0 then s.runTime / s.plannedTime else 1.0
  }

  function Performance(s: Station): real {
    if s.runTime > 0.0 then (s.totalCycles as real * s.designTime) / s.runTime else 1.0
  }

  function Quality(s: Station): real {
    if s.totalCycles > 0 then s.goodCount as real / s.totalCycles as real else 1.0
  }

  function Reported(ratio: real): real { Round4(MinR(1.0, ratio)) }

  function OeeOf(s: Station): OeeReport {
    var a, p, q := Availability(s), Performance(s), Quality(s);
    OeeReport(Reported(a), Reported(p), Reported(q), Reported(Product(a, p, q)))
  }

  function Product(a: real, p: real, q: real): real { a * p * q }

  lemma ReportedBounds(ratio: real, low: real)
    requires 0.0 <= low <= ratio && low <= 1.0
    ensures Round4(low) <= Reported(ratio) <= 1.0
  {
    Round4Bounds(MinR(1.0, ratio));
    Round4Monotone(low, MinR(1.0, ratio));
  }

  // ---- what every reachable station satisfies ------------------------------------------

  /** SETUP and MAINTENANCE are never entered, the speed stays in 40..100, and the two clocks
      are tied to the cycle counter. */
  predicate StationOk(s: Station) {
    && s.state !in {MachineState.Setup, Maintenance}
    && s.designTime > 0.0
    && s.cycleTime == s.designTime
    && 40 <= s.speedPct <= 100
    && s.plannedTime == s.totalCycles as real * s.designTime
    && s.plannedTime <= s.runTime <= 2.5 * s.plannedTime
    && HistoryOk(s)
  }

  /** The breakdown record: cycles split into those up to the last failure and those since (a repair
      does not restart the second count), and repair time is downtime. */
  predicate HistoryOk(s: Station) {
    && s.lastFailureCycle + s.uptimeSinceRepair == s.totalCycles
    && s.downtime == s.totalRepair
    && (s.failureCount == 0 ==> s.lastFailureCycle == 0 && s.totalRepair == 0.0)
  }

  predicate CountsAgree(s: Station) { s.goodCount + s.defectCount == s.totalCycles }

  lemma ActualCycleTimeBounds(s: Station)
    requires StationOk(s)
    ensures s.designTime <= ActualCycleTime(s) <= 2.5 * s.designTime
  {
    var m := s.speedPct as real;
    var f := 100.0 / m;
    assert f * m == 100.0;
    assert 1.0 <= f <= 2.5;
    MulMonotone(1.0, f, s.designTime);
    MulMonotone(f, 2.5, s.designTime);
  }

  /** Speed and cycle time are inversely proportional, down to a speed of 40. */
  lemma CycleTimeAtSpeed(s: Station)
    ensures s.speedPct >= 40 ==> ActualCycleTime(s) * s.speedPct as real == 100.0 * s.cycleTime
    ensures s.speedPct < 40 ==> ActualCycleTime(s) == 2.5 * s.cycleTime
  {
    if s.speedPct >= 40 {
      var m := s.speedPct as real;
      assert (100.0 / m) * m == 100.0;
      assert s.cycleTime * (100.0 / m) * m == s.cycleTime * ((100.0 / m) * m);
    } else {
      assert 100.0 / 40.0 == 2.5;
    }
  }

  /** A speed from 40 to 110 is set as asked, and any other becomes the limit it passed. */
  lemma SpeedIsHeldToLimits(s: Station, pct: int)
    ensures var t := SpedTo(s, pct);
            && t == s.(speedPct := t.speedPct)
            && (40 <= pct <= 110 ==> t.speedPct == pct)
            && (pct < 40 ==> t.speedPct == 40) && (pct > 110 ==> t.speedPct == 110)
  {}

  /** A cycle takes its design time exactly at full speed. */
  lemma FullSpeedTakesDesignTime(s: Station)
    requires StationOk(s)
    ensures ActualCycleTime(s) == s.designTime <==> s.speedPct == 100
  {
    var m := s.speedPct as real;
    var f := 100.0 / m;
    assert f * m == 100.0;
    if s.speedPct < 100 {
      assert f > 1.0;
      assert s.designTime * f - s.designTime == s.designTime * (f - 1.0) > 0.0;
    }
  }

  lemma ExecutedKeepsOk(s: Station)
    requires StationOk(s)
    ensures StationOk(Executed(s))
  {
    if !Stopped(s) {
      ActualCycleTimeBounds(s);
      var n := s.totalCycles as real;
      assert (s.totalCycles + 1) as real == n + 1.0;
      assert (n + 1.0) * s.designTime == n * s.designTime + s.designTime;
    }
  }

  /** One product worked on: the invariants hold again and exactly one cycle and one verdict
      were added. */
  lemma VisitKeepsOk(s: Station, isGood: bool)
    requires StationOk(s) && CountsAgree(s) && s.state !in {Breakdown, Maintenance}
    ensures var t := Recorded(Executed(s), isGood);
            && StationOk(t) && CountsAgree(t)
            && t.totalCycles == s.totalCycles + 1
            && t.goodCount == s.goodCount + (if isGood then 1 else 0)
            && t.defectCount == s.defectCount + (if isGood then 0 else 1)
  {
    ExecutedKeepsOk(s);
  }

  /** Breakdowns, repairs and speeds of at most 100 leave the counters alone and the station fit. */
  lemma EventsKeepOk(s: Station, repairTime: real, pct: int)
    requires StationOk(s) && pct <= 100
    ensures StationOk(BrokenDown(s, repairTime)) && SameCounters(BrokenDown(s, repairTime), s)
    ensures StationOk(Repaired(s)) && SameCounters(Repaired(s), s)
    ensures StationOk(SpedTo(s, pct)) && SameCounters(SpedTo(s, pct), s)
  {}

  predicate SameCounters(s: Station, t: Station) {
    s.totalCycles == t.totalCycles && s.goodCount == t.goodCount && s.defectCount == t.defectCount
  }

  /** One pass through a work center keeps good + defect = total_cycles exactly when the work
      center was not in SETUP: `run_cycle` skips only BREAKDOWN and MAINTENANCE, so a work
      center in SETUP would have a verdict recorded without a cycle counted. */
  lemma PassKeepsCounts(s: Station, isGood: bool)
    requires s.state !in {Breakdown, Maintenance}
    requires CountsAgree(s)
    ensures CountsAgree(Recorded(Executed(s), isGood)) <==> s.state != MachineState.Setup
  {}

  /** The unclipped availability times performance is always exactly 1. */
  lemma AvailabilityTimesPerformance(s: Station)
    requires StationOk(s)
    ensures Availability(s) * Performance(s) == 1.0
    ensures Availability(s) >= 1.0
    ensures 0.4 <= Performance(s) <= 1.0
  {
    var n := s.totalCycles as real;
    if s.totalCycles == 0 {
      assert s.plannedTime == 0.0;
    } else {
      MulMonotone(1.0, n, s.designTime);
      var p, r := s.plannedTime, s.runTime;
      assert 0.0 < p <= r;
      var a, q := r / p, p / r;
      assert a * p == r && q * r == p;
      assert a >= 1.0;
      QuotientLower(p, r, 0.4);
      QuotientUpper(p, r, 1.0);
      assert a * q == 1.0 by {
        assert (a * q) * p == q * (a * p) == p;
      }
    }
  }

  /** In every reachable state the reported OEE is the reported quality, the reported
      availability is 1 and every reported ratio lies in 0..1. */
  lemma OeeIsQuality(s: Station)
    requires StationOk(s) && CountsAgree(s)
    ensures OeeOf(s).oee == OeeOf(s).quality
    ensures OeeOf(s).availability == 1.0
    ensures 0.0 <= OeeOf(s).oee <= 1.0
    ensures 0.4 <= OeeOf(s).performance <= 1.0
    ensures 40 <= s.speedPct <= 100
    ensures s.plannedTime == s.totalCycles as real * s.designTime
    ensures s.plannedTime <= s.runTime <= 2.5 * s.plannedTime
    ensures s.state !in {MachineState.Setup, Maintenance}
    ensures HistoryOk(s)
  {
    AvailabilityTimesPerformance(s);
    var a, p, q := Availability(s), Performance(s), Quality(s);
    QualityBounds(s);
    UnitFactorDropsOut(a, p, q);
    ReportedBounds(q, 0.0);
    ReportedBounds(p, 0.4);
    ReportedBounds(a, 1.0);
    assert Round4(0.4) == 0.4 && Round4(1.0) == 1.0 && Round4(0.0) == 0.0;
  }

  lemma UnitFactorDropsOut(a: real, p: real, q: real)
    requires a * p == 1.0
    ensures Product(a, p, q) == q
  {
    MulCongruence(a * p, 1.0, q);
  }

  lemma QualityBounds(s: Station)
    requires CountsAgree(s)
    ensures 0.0 <= Quality(s) <= 1.0
  {
    if s.totalCycles > 0 {
      assert Quality(s) * s.totalCycles as real == s.goodCount as real;
    }
  }

  /** The documentation defines OEE as availability times performance times quality. On the ratios clipped
      at 1, as they are before rounding, the code meets that exactly when the station's run time is its
      planned time, or it has worked and produced nothing good. */
  lemma OeeFormulaAgreement(s: Station)
    requires StationOk(s) && CountsAgree(s)
    ensures var a, p, q := Availability(s), Performance(s), Quality(s);
            Product(MinR(1.0, a), MinR(1.0, p), MinR(1.0, q)) == MinR(1.0, Product(a, p, q)) <==>
            (s.runTime == s.plannedTime || (s.goodCount == 0 && s.totalCycles > 0))
  {
    var a, p, q := Availability(s), Performance(s), Quality(s);
    AvailabilityTimesPerformance(s);
    QualityBounds(s);
    UnitFactorDropsOut(a, p, q);
    QualityZero(s);
    PerformanceOne(s);
    hide Availability, Performance, Quality;
    ProductAgreement(p, q);
  }

  lemma ProductAgreement(p: real, q: real)
    requires 0.4 <= p <= 1.0 && 0.0 <= q <= 1.0
    ensures Product(1.0, p, q) == q <==> p == 1.0 || q == 0.0
  {
    assert Product(1.0, p, q) - q == (p - 1.0) * q;
  }

  lemma QualityZero(s: Station)
    ensures Quality(s) == 0.0 <==> s.goodCount == 0 && s.totalCycles > 0
  {
    if s.totalCycles > 0 { assert Quality(s) * s.totalCycles as real == s.goodCount as real; }
  }

  lemma PerformanceOne(s: Station)
    requires StationOk(s)
    ensures Performance(s) == 1.0 <==> s.runTime == s.plannedTime
  {
    if s.runTime > 0.0 { assert Performance(s) * s.runTime == s.plannedTime; }
  }

  /** A breakdown of any length and its repair leave the whole OEE report as it was. */
  lemma DowntimeDoesNotReachOee(s: Station, repairTime: real)
    ensures OeeOf(Repaired(BrokenDown(s, repairTime))) == OeeOf(s)
  {
    var t := Repaired(BrokenDown(s, repairTime));
    assert Availability(t) == Availability(s) && Performance(t) == Performance(s) && Quality(t) == Quality(s);
  }

  // ---- the object -------------------------------------------------------------------------

  class WorkCenter {
    var state: MachineState
    var cycleTime: real
    var designTime: real
    var totalCycles: nat
    var goodCount: nat
    var defectCount: nat
    var plannedTime: real
    var runTime: real
    var downtime: real
    var failureCount: nat
    var totalRepair: real
    var lastFailureCycle: nat
    var uptimeSinceRepair: nat
    var speedPct: int

    function View(): Station
      reads this
    {
      Station(state, cycleTime, designTime, totalCycles, goodCount, defectCount, plannedTime, runTime,
              downtime, failureCount, totalRepair, lastFailureCycle, uptimeSinceRepair, speedPct)
    }

    constructor (cycleTimeSec: real)
      ensures View() == NewStation(cycleTimeSec)
    {
      state := Idle;
      cycleTime, designTime := cycleTimeSec, cycleTimeSec;
      totalCycles, goodCount, defectCount := 0, 0, 0;
      plannedTime, runTime, downtime := 0.0, 0.0, 0.0;
      failureCount, totalRepair, lastFailureCycle, uptimeSinceRepair := 0, 0.0, 0, 0;
      speedPct := 100;
    }

    method ExecuteCycle()
      modifies this
      ensures View() == Executed(old(View()))
    {
      if state in {Breakdown, Maintenance, MachineState.Setup} {
        return;
      }
      state := Running;
      var actualCt := cycleTime * (100.0 / Max(40, speedPct) as real);
      runTime := runTime + actualCt;
      plannedTime := plannedTime + designTime;
      totalCycles := totalCycles + 1;
      uptimeSinceRepair := uptimeSinceRepair + 1;
    }

    method RecordQuality(isGood: bool)
      modifies this
      ensures View() == Recorded(old(View()), isGood)
    {
      if isGood {
        goodCount := goodCount + 1;
      } else {
        defectCount := defectCount + 1;
      }
    }

    method TriggerBreakdown(repairTime: real)
      modifies this
      ensures View() == BrokenDown(old(View()), repairTime)
    {
      state := Breakdown;
      failureCount := failureCount + 1;
      totalRepair := totalRepair + repairTime;
      downtime := downtime + repairTime;
      lastFailureCycle := totalCycles;
      uptimeSinceRepair := 0;
    }

    method CompleteRepair()
      modifies this
      ensures View() == Repaired(old(View()))
    {
      state := Warmup;
    }

    method SetSpeed(pct: int)
      modifies this
      ensures View() == SpedTo(old(View()), pct)
    {
      speedPct := Max(40, Min(110, pct));
    }
  }
}
