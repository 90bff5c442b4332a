/** The factory: a line of work centers, customer orders, shifts, and the production cycle that
    drives one product down the line. */
module Environment {
  import opened Numbers
  import opened Machines

  // ---- shifts ------------------------------------------------------------------------

  const SHIFT_COUNT := 3
  const CYCLES_PER_HOUR := 40
  const HOURS_PER_SHIFT := 8

  datatype ShiftState = ShiftState(index: nat, hour: nat, cycleCount: nat, changes: nat)

  function Advanced(s: ShiftState): ShiftState {
    var count := s.cycleCount + 1;
    if count / CYCLES_PER_HOUR >= HOURS_PER_SHIFT
    then ShiftState((s.index + 1) % SHIFT_COUNT, 0, 0, s.changes + 1)
    else s.(hour := count / CYCLES_PER_HOUR, cycleCount := count)
  }

  /** The shift state after `n` cycles, in closed form: 320 cycles to a shift, three shifts. */
  predicate ShiftAt(s: ShiftState, n: nat) {
    && s.changes == n / 320
    && s.index == (n / 320) % 3
    && s.cycleCount == n % 320
    && s.hour == (n % 320) / 40
  }

  lemma AdvanceFollowsClosedForm(s: ShiftState, n: nat)
    requires ShiftAt(s, n)
    ensures ShiftAt(Advanced(s), n + 1)
  {
    var q, r := n / 320, n % 320;
    assert n + 1 == 320 * q + (r + 1);
    if r + 1 == 320 {
      assert (n + 1) / 320 == q + 1 && (n + 1) % 320 == 0;
    } else {
      assert (n + 1) / 320 == q && (n + 1) % 320 == r + 1;
    }
  }

  class ShiftManager {
    var currentIndex: nat
    var hourInShift: nat
    var shiftCycleCount: nat
    var shiftChanges: nat

    function View(): ShiftState
      reads this
    {
      ShiftState(currentIndex, hourInShift, shiftCycleCount, shiftChanges)
    }

    constructor ()
      ensures View() == ShiftState(0, 0, 0, 0)
    {
      currentIndex, hourInShift, shiftCycleCount, shiftChanges := 0, 0, 0, 0;
    }

    method Advance()
      modifies this
      ensures View() == Advanced(old(View()))
    {
      shiftCycleCount := shiftCycleCount + 1;
      hourInShift := shiftCycleCount / CYCLES_PER_HOUR;
      if hourInShift >= HOURS_PER_SHIFT {
        currentIndex := (currentIndex + 1) % SHIFT_COUNT;
        hourInShift := 0;
        shiftCycleCount := 0;
        shiftChanges := shiftChanges + 1;
      }
    }
  }

  // ---- customer orders -----------------------------------------------------------------

  datatype Order = Order(quantity: int, delivered: int)

  function Remaining(o: Order): int { Max(0, o.quantity - o.delivered) }

  predicate IsComplete(o: Order) { o.delivered >= o.quantity }

  /** Never delivered below zero, and never beyond the quantity ordered. */
  predicate OrderOk(o: Order) { 0 <= o.delivered <= Max(0, o.quantity) }

  class CustomerOrder {
    const quantity: int
    var delivered: int

    function View(): Order
      reads this
    {
      Order(quantity, delivered)
    }

    constructor (quantity: int)
      ensures View() == Order(quantity, 0)
    {
      this.quantity := quantity;
      delivered := 0;
    }
  }

  /** `random.randint(1, 3)`. */
  type ShipDraw = n: int | 1 <= n <= 3 witness 1

  /** What one order receives out of `stock`. */
  function ShipmentTo(o: Order, stock: int, draw: ShipDraw): int {
    if IsComplete(o) || stock <= 0 then 0 else Min(Min(draw, stock), Remaining(o))
  }

  /** The orders from position `i` on are served in list order from what is left of `stock`. */
  function Shipped(orders: seq<Order>, i: nat, stock: int, draws: nat -> ShipDraw): (r: (seq<Order>, int))
    requires i <= |orders|
    ensures |r.0| == |orders|
    decreases |orders| - i
  {
    if i == |orders| then (orders, stock)
    else
      var n := ShipmentTo(orders[i], stock, draws(i));
      Shipped(orders[i := orders[i].(delivered := orders[i].delivered + n)], i + 1, stock - n, draws)
  }

  /** One unfolding of the loop. */
  lemma ShippedAt(orders: seq<Order>, i: nat, stock: int, draws: nat -> ShipDraw)
    requires i < |orders|
    ensures var n := ShipmentTo(orders[i], stock, draws(i));
            Shipped(orders, i, stock, draws)
              == Shipped(orders[i := orders[i].(delivered := orders[i].delivered + n)], i + 1, stock - n, draws)
  {}

  function Deliveries(orders: seq<Order>): seq<int> {
    seq(|orders|, i requires 0 <= i < |orders| => orders[i].delivered)
  }

  /** Shipping moves units from stock to orders without creating or losing any, leaves no order
      overdelivered, and never takes stock below zero. */
  lemma {:induction false} ShippedConserves(orders: seq<Order>, i: nat, stock: int, draws: nat -> ShipDraw)
    requires i <= |orders| && stock >= 0
    requires forall k :: 0 <= k < |orders| ==> OrderOk(orders[k])
    ensures var (os, left) := Shipped(orders, i, stock, draws);
            && left >= 0
            && left + Sum(Deliveries(os)) == stock + Sum(Deliveries(orders))
            && (forall k :: 0 <= k < |os| ==> OrderOk(os[k]) && os[k].quantity == orders[k].quantity)
    decreases |orders| - i
  {
    if i < |orders| {
      var n := ShipmentTo(orders[i], stock, draws(i));
      var o := orders[i].(delivered := orders[i].delivered + n);
      SumUpdate(Deliveries(orders), i, o.delivered);
      assert Deliveries(orders[i := o]) == Deliveries(orders)[i := o.delivered];
      ShippedConserves(orders[i := o], i + 1, stock - n, draws);
    }
  }

  /** What order `k` finds left when its turn comes. */
  function LeftFor(orders: seq<Order>, after: seq<Order>, stock: int, k: nat): int
    requires k <= |orders| == |after|
  {
    stock + Sum(Deliveries(orders)[..k]) - Sum(Deliveries(after)[..k])
  }

  /** Orders are served strictly in list order: each gets its draw, cut to what it still needs and to
      what the orders before it left. */
  lemma {:induction false} ServedInListOrder(orders: seq<Order>, i: nat, stock: int, draws: nat -> ShipDraw, k: nat)
    requires i <= k < |orders|
    ensures var after := Shipped(orders, i, stock, draws).0;
            && (forall j :: 0 <= j < i ==> after[j] == orders[j])
            && after[k].quantity == orders[k].quantity
            && after[k].delivered
               == orders[k].delivered + ShipmentTo(orders[k], LeftFor(orders, after, stock, k), draws(k))
    decreases k - i
  {
    var n := ShipmentTo(orders[i], stock, draws(i));
    var next := orders[i := orders[i].(delivered := orders[i].delivered + n)];
    var after := Shipped(orders, i, stock, draws).0;
    EarlierOrdersKept(next, i + 1, stock - n, draws);
    assert after == Shipped(next, i + 1, stock - n, draws).0;
    forall j | 0 <= j < i ensures after[j] == orders[j] {
      assert after[j] == next[j];
    }
    assert Deliveries(after)[..i] == Deliveries(orders)[..i];
    if k > i {
      ServedInListOrder(next, i + 1, stock - n, draws, k);
      SumUpdate(Deliveries(orders)[..k], i, next[i].delivered);
      assert Deliveries(next)[..k] == Deliveries(orders)[..k][i := next[i].delivered];
    }
  }

  lemma {:induction false} EarlierOrdersKept(orders: seq<Order>, i: nat, stock: int, draws: nat -> ShipDraw)
    requires i <= |orders|
    ensures forall j :: 0 <= j < i ==> Shipped(orders, i, stock, draws).0[j] == orders[j]
    decreases |orders| - i
  {
    if i < |orders| {
      var n := ShipmentTo(orders[i], stock, draws(i));
      EarlierOrdersKept(orders[i := orders[i].(delivered := orders[i].delivered + n)], i + 1, stock - n, draws);
    }
  }

  /** Shipping is greedy: at its turn an order gets its whole draw, unless that completes it, or empties the
      stock, first; a complete order gets nothing. */
  lemma ShippedGreedily(orders: seq<Order>, i: nat, stock: nat, draws: nat -> ShipDraw, k: nat)
    requires i <= k < |orders| && forall j :: 0 <= j < |orders| ==> OrderOk(orders[j])
    ensures var after := Shipped(orders, i, stock, draws).0;
            var gain := after[k].delivered - orders[k].delivered;
            && 0 <= gain <= draws(k)
            && (|| gain == draws(k)
                || after[k].delivered >= after[k].quantity
                || LeftFor(orders, after, stock, k + 1) == 0)
            && (orders[k].delivered >= orders[k].quantity ==> gain == 0)
            && LeftFor(orders, after, stock, k + 1) >= 0
  {
    var after := Shipped(orders, i, stock, draws).0;
    ServedInListOrder(orders, i, stock, draws, k);
    LeftIsNeverNegative(orders, i, stock, draws, k);
    SumOneMore(Deliveries(orders), k);
    SumOneMore(Deliveries(after), k);
    hide Shipped, Sum;
  }

  lemma {:induction false} LeftIsNeverNegative(orders: seq<Order>, i: nat, stock: nat, draws: nat -> ShipDraw, k: nat)
    requires i <= k <= |orders| && forall j :: 0 <= j < |orders| ==> OrderOk(orders[j])
    ensures LeftFor(orders, Shipped(orders, i, stock, draws).0, stock, k) >= 0
    decreases k - i
  {
    var after := Shipped(orders, i, stock, draws).0;
    EarlierOrdersKept(orders, i, stock, draws);
    if k == i {
      assert Deliveries(after)[..i] == Deliveries(orders)[..i];
    } else {
      LeftIsNeverNegative(orders, i, stock, draws, k - 1);
      ServedInListOrder(orders, i, stock, draws, k - 1);
      SumOneMore(Deliveries(orders), k - 1);
      SumOneMore(Deliveries(after), k - 1);
      hide Shipped, Sum;
    }
  }

  /** What is left in the end is what the last order left. */
  lemma FinallyLeft(orders: seq<Order>, stock: nat, draws: nat -> ShipDraw)
    requires forall j :: 0 <= j < |orders| ==> OrderOk(orders[j])
    ensures var (after, left) := Shipped(orders, 0, stock, draws);
            left == LeftFor(orders, after, stock, |orders|)
  {
    var after := Shipped(orders, 0, stock, draws).0;
    ShippedConserves(orders, 0, stock, draws);
    assert Deliveries(orders)[..|orders|] == Deliveries(orders) && Deliveries(after)[..|orders|] == Deliveries(after);
  }

  /** Nothing that an earlier order left over comes back: once the stock is empty it stays empty. */
  lemma {:induction false} EmptyStaysEmpty(orders: seq<Order>, stock: nat, draws: nat -> ShipDraw, k: nat)
    requires k <= |orders| && forall j :: 0 <= j < |orders| ==> OrderOk(orders[j])
    ensures LeftFor(orders, Shipped(orders, 0, stock, draws).0, stock, k) == 0
        ==> Shipped(orders, 0, stock, draws).1 == 0
    decreases |orders| - k
  {
    var after := Shipped(orders, 0, stock, draws).0;
    if k == |orders| {
      FinallyLeft(orders, stock, draws);
    } else {
      ShippedGreedily(orders, 0, stock, draws, k);
      SumOneMore(Deliveries(orders), k);
      SumOneMore(Deliveries(after), k);
      EmptyStaysEmpty(orders, stock, draws, k + 1);
      hide Shipped, Sum;
    }
  }

  /** So a round leaves stock only if every order is complete or got its whole draw. */
  lemma RoundEmptiesOrServes(orders: seq<Order>, stock: nat, draws: nat -> ShipDraw)
    requires forall j :: 0 <= j < |orders| ==> OrderOk(orders[j])
    ensures var (after, left) := Shipped(orders, 0, stock, draws);
            || left == 0
            || forall k :: 0 <= k < |orders| ==>
                 || after[k].delivered >= after[k].quantity
                 || after[k].delivered == orders[k].delivered + draws(k)
  {
    var (after, left) := Shipped(orders, 0, stock, draws);
    forall k | 0 <= k < |orders| && left != 0
      ensures after[k].delivered >= after[k].quantity || after[k].delivered == orders[k].delivered + draws(k)
    {
      ShippedGreedily(orders, 0, stock, draws, k);
      EmptyStaysEmpty(orders, stock, draws, k + 1);
    }
  }

  // ---- one production cycle --------------------------------------------------------------

  /** The random outcomes of one cycle: the quality verdict at each station, whether a rejected
      product goes to rework, and the shipping draw for each order. */
  datatype CycleDraws = CycleDraws(verdict: nat -> bool, toRework: bool, ship: nat -> ShipDraw)

  /** How the product leaves the line: held before a stopped station, rejected at a station,
      or through the last one. */
  datatype Outcome = Held(at: nat) | Rejected(at: nat) | Passed

  datatype FactoryState = FactoryState(
    stations: seq<Station>,
    orders: seq<Order>,
    shift: ShiftState,
    cycle: nat,
    fgStock: int,
    scrapCount: nat,
    reworkCount: nat,
    totalProduced: nat)

  /** The product enters station `i` and goes on until it is held, rejected or finished. */
  function LinePass(ss: seq<Station>, i: nat, verdict: nat -> bool): (r: (seq<Station>, Outcome))
    requires i <= |ss|
    ensures |r.0| == |ss|
    ensures !r.1.Passed? ==> i <= r.1.at < |ss|
    decreases |ss| - i
  {
    if i == |ss| then (ss, Passed)
    else if ss[i].state in {Breakdown, Maintenance} then (ss, Held(i))
    else
      var next := ss[i := Recorded(Executed(ss[i]), verdict(i))];
      if verdict(i) then LinePass(next, i + 1, verdict) else (next, Rejected(i))
  }

  /** One unfolding of the pass. */
  lemma LinePassAt(ss: seq<Station>, i: nat, verdict: nat -> bool)
    requires i <= |ss|
    ensures i == |ss| ==> LinePass(ss, i, verdict) == (ss, Passed)
    ensures i < |ss| && ss[i].state in {Breakdown, Maintenance} ==> LinePass(ss, i, verdict) == (ss, Held(i))
    ensures i < |ss| && ss[i].state !in {Breakdown, Maintenance} ==>
              LinePass(ss, i, verdict) ==
              (var next := ss[i := Recorded(Executed(ss[i]), verdict(i))];
               if verdict(i) then LinePass(next, i + 1, verdict) else (next, Rejected(i)))
  {}

  function CycleOutcome(f: FactoryState, d: CycleDraws): (o: Outcome)
    ensures !o.Passed? ==> o.at < |f.stations|
  {
    LinePass(f.stations, 0, d.verdict).1
  }

  /** What the outcome of the line pass adds to the factory's counters, stock and orders. */
  function Settled(f: FactoryState, outcome: Outcome, d: CycleDraws): FactoryState {
    match outcome
    case Held(_) => f
    case Rejected(_) =>
      if d.toRework then f.(reworkCount := f.reworkCount + 1) else f.(scrapCount := f.scrapCount + 1)
    case Passed =>
      var (os, left) := Shipped(f.orders, 0, f.fgStock + 1, d.ship);
      f.(orders := os, fgStock := left, totalProduced := f.totalProduced + 1)
  }

  function Cycled(f: FactoryState, d: CycleDraws): FactoryState {
    var (ss, outcome) := LinePass(f.stations, 0, d.verdict);
    Settled(f.(stations := ss, cycle := f.cycle + 1, shift := Advanced(f.shift)), outcome, d)
  }

  /** After a finished product either the stock is empty, or every order is complete or got its whole draw. */
  lemma FinishedProductIsShipped(f: FactoryState, d: CycleDraws)
    requires f.fgStock >= 0 && forall k :: 0 <= k < |f.orders| ==> OrderOk(f.orders[k])
    requires CycleOutcome(f, d).Passed?
    ensures var g := Cycled(f, d);
            && |g.orders| == |f.orders| && g.totalProduced == f.totalProduced + 1
            && (|| g.fgStock == 0
                || forall k :: 0 <= k < |g.orders| ==>
                     || g.orders[k].delivered >= g.orders[k].quantity
                     || g.orders[k].delivered == f.orders[k].delivered + d.ship(k))
  {
    hide LinePass, Shipped, Advanced;
    RoundEmptiesOrServes(f.orders, f.fgStock + 1, d.ship);
  }

  // ---- the object ---------------------------------------------------------------------------

  datatype ProductStatus = InProcess | Good | Rework | Scrap | Hold

  function StatusOf(o: Outcome, toRework: bool): ProductStatus {
    match o
    case Held(_) => Hold
    case Rejected(_) => if toRework then Rework else Scrap
    case Passed => Good
  }

  ghost function StationViews(line: seq<WorkCenter>, parts: set<WorkCenter>): seq<Station>
    requires forall i :: 0 <= i < |line| ==> line[i] in parts
    reads parts
  {
    seq(|line|, i requires 0 <= i < |line| reads parts => line[i].View())
  }

  ghost function OrderViews(orders: seq<CustomerOrder>, parts: set<CustomerOrder>): (r: seq<Order>)
    requires forall i :: 0 <= i < |orders| ==> orders[i] in parts
    reads parts
    ensures |r| == |orders|
  {
    seq(|orders|, i requires 0 <= i < |orders| reads parts => orders[i].View())
  }

  class Factory {
    var line: seq<WorkCenter>
    var orders: seq<CustomerOrder>
    ghost var lineParts: set<WorkCenter>
    ghost var orderParts: set<CustomerOrder>
    var shiftMgr: ShiftManager
    var cycle: nat
    var fgStock: int
    var scrapCount: nat
    var reworkCount: nat
    var totalProduced: nat

    ghost predicate Valid()
      reads this
    {
      && |line| > 0
      && (forall i :: 0 <= i < |line| ==> line[i] in lineParts)
      && (forall i :: 0 <= i < |orders| ==> orders[i] in orderParts)
      && (forall i, j :: 0 <= i < j < |line| ==> line[i] != line[j])
      && (forall i, j :: 0 <= i < j < |orders| ==> orders[i] != orders[j])
    }

    ghost function Stations(): seq<Station>
      requires Valid()
      reads this, lineParts
    {
      StationViews(line, lineParts)
    }

    ghost function Orders(): seq<Order>
      requires Valid()
      reads this, orderParts
    {
      OrderViews(orders, orderParts)
    }

    ghost function View(): FactoryState
      requires Valid()
      reads this, lineParts, orderParts, shiftMgr
    {
      FactoryState(Stations(), Orders(), shiftMgr.View(), cycle, fgStock, scrapCount, reworkCount, totalProduced)
    }

    constructor (line: seq<WorkCenter>, orders: seq<CustomerOrder>)
      requires |line| > 0
      requires forall i, j :: 0 <= i < j < |line| ==> line[i] != line[j]
      requires forall i, j :: 0 <= i < j < |orders| ==> orders[i] != orders[j]
      ensures Valid() && this.line == line && this.orders == orders && fresh(shiftMgr)
      ensures View() == FactoryState(Stations(), Orders(), ShiftState(0, 0, 0, 0), 0, 0, 0, 0, 0)
    {
      this.line, this.orders := line, orders;
      lineParts, orderParts := set w | w in line, set o | o in orders;
      shiftMgr := new ShiftManager();
      cycle, fgStock, scrapCount, reworkCount, totalProduced := 0, 0, 0, 0, 0;
    }

    /** The body of the shipping loop. */
    method ShipTo(i: nat, draw: ShipDraw)
      requires Valid() && i < |orders|
      modifies this`fgStock, orders[i]
      ensures var before := old(Orders());
              var n := ShipmentTo(before[i], old(fgStock), draw);
              && fgStock == old(fgStock) - n
              && Orders() == before[i := before[i].(delivered := before[i].delivered + n)]
    {
      var order := orders[i];
      ghost var before := Orders();
      if order.delivered < order.quantity && fgStock > 0 {
        var ship := Min(Min(draw, fgStock), Max(0, order.quantity - order.delivered));
        order.delivered := order.delivered + ship;
        fgStock := fgStock - ship;
      }
      assert Orders() == before[i := order.View()];
    }

    method ProcessShipments(draws: nat -> ShipDraw)
      requires Valid()
      modifies this`fgStock, orderParts
      ensures (Orders(), fgStock) == Shipped(old(Orders()), 0, old(fgStock), draws)
    {
      hide OrderViews, ShipmentTo;
      for i := 0 to |orders|
        invariant Shipped(Orders(), i, fgStock, draws) == Shipped(old(Orders()), 0, old(fgStock), draws)
      {
        ShippedAt(Orders(), i, fgStock, draws);
        ShipTo(i, draws(i));
      }
    }

    /** One station works on the product and records the verdict on it. */
    method VisitStation(i: nat, isGood: bool)
      requires Valid() && i < |line|
      modifies line[i]
      ensures Stations() == old(Stations())[i := Recorded(Executed(old(Stations())[i]), isGood)]
    {
      line[i].ExecuteCycle();
      line[i].RecordQuality(isGood);
    }

    /** The station loop of `RunCycle`. */
    method PassDownLine(d: CycleDraws) returns (status: ProductStatus)
      requires Valid()
      modifies this`scrapCount, this`reworkCount, lineParts
      ensures var (ss, outcome) := LinePass(old(Stations()), 0, d.verdict);
              && Stations() == ss
              && status == (if outcome.Passed? then InProcess else StatusOf(outcome, d.toRework))
              && scrapCount == old(scrapCount) + (if outcome.Rejected? && !d.toRework then 1 else 0)
              && reworkCount == old(reworkCount) + (if outcome.Rejected? && d.toRework then 1 else 0)
      ensures Orders() == old(Orders())
    {
      hide LinePass, Recorded, Executed;
      status := InProcess;
      for i := 0 to |line|
        invariant status == InProcess
        invariant scrapCount == old(scrapCount) && reworkCount == old(reworkCount)
        invariant LinePass(Stations(), i, d.verdict) == LinePass(old(Stations()), 0, d.verdict)
      {
        LinePassAt(Stations(), i, d.verdict);
        if line[i].state in {Breakdown, Maintenance} {
          return Hold;
        }
        var isGood := d.verdict(i);
        VisitStation(i, isGood);
        if !isGood {
          if d.toRework {
            status := Rework;
            reworkCount := reworkCount + 1;
          } else {
            status := Scrap;
            scrapCount := scrapCount + 1;
          }
          return;
        }
      }
      LinePassAt(Stations(), |line|, d.verdict);
    }

    /** The tail of `RunCycle` for a product that went through every station. */
    method StoreFinished(d: CycleDraws)
      requires Valid()
      modifies this`fgStock, this`totalProduced, orderParts
      ensures View() == Settled(old(View()), Passed, d)
    {
      fgStock := fgStock + 1;
      totalProduced := totalProduced + 1;
      ProcessShipments(d.ship);
      assert Stations() == old(Stations());
    }

    /** The head of `RunCycle`: the clock and the shift move on. */
    method StartCycle()
      requires Valid()
      modifies this`cycle, shiftMgr
      ensures View() == old(View()).(cycle := old(cycle) + 1, shift := Advanced(old(View()).shift))
    {
      cycle := cycle + 1;
      shiftMgr.Advance();
      assert Stations() == old(Stations()) && Orders() == old(Orders());
    }

    method RunCycle(d: CycleDraws) returns (status: ProductStatus)
      requires Valid()
      modifies this`cycle, this`fgStock, this`totalProduced, this`scrapCount, this`reworkCount
      modifies lineParts, orderParts, shiftMgr
      ensures View() == Cycled(old(View()), d)
      ensures status == StatusOf(CycleOutcome(old(View()), d), d.toRework)
    {
      hide LinePass, Shipped, Advanced;
      StartCycle();
      status := PassDownLine(d);
      if status == InProcess {
        status := Good;
        StoreFinished(d);
      }
    }
  }
}
