/** The scenario environment: the factory, a finished-goods warehouse and a demand model driven by
    one environment loop. */
module Scenario {
  import opened Numbers
  import opened Machines
  import opened Environment
  import opened FactoryRuntime

  // ---- demand orders -------------------------------------------------------------------

  datatype OrderStatus = OPEN | PARTIAL | FULFILLED | LATE

  datatype Demand = Demand(customer: string, quantity: int, fulfilled: int, status: OrderStatus)

  function ToShip(o: Demand): int { Max(0, o.quantity - o.fulfilled) }

  /** `CustomerOrder.ship`. */
  function Fulfilled(o: Demand, qty: int): Demand {
    var fulfilled := o.fulfilled + Min(qty, ToShip(o));
    o.(fulfilled := fulfilled,
       status := if fulfilled >= o.quantity then FULFILLED else if fulfilled > 0 then PARTIAL else o.status)
  }

  // ---- the warehouse --------------------------------------------------------------------------

  datatype Shipment = Shipment(cycle: int, customer: string, requested: int, shipped: int, shortfall: int)

  datatype Stock = Stock(stock: int, totalRequested: int, totalShipped: int, shipments: seq<Shipment>)

  function Received(w: Stock, qty: int): Stock { w.(stock := w.stock + qty) }

  function ShippedTo(w: Stock, customer: string, qty: int, cycle: int): Stock {
    var actual := Min(qty, w.stock);
    Stock(w.stock - actual, w.totalRequested + qty, w.totalShipped + actual,
          w.shipments + [Shipment(cycle, customer, qty, actual, qty - actual)])
  }

  function ServiceLevel(w: Stock): real {
    if w.totalRequested == 0 then 1.0 else Round4(w.totalShipped as real / w.totalRequested as real)
  }

  // ---- shipping from the demand list --------------------------------------------------------------

  datatype Config = Config(shipmentInterval: int, batchSize: int)

  function Interval(c: Config): int { Max(1, c.shipmentInterval) }

  /** What one order asks for at a shipping cycle: nothing unless it is open and something remains. */
  function Request(o: Demand, batch: int): int {
    if (o.status == OPEN || o.status == PARTIAL) && ToShip(o) > 0 then Max(0, Min(batch, ToShip(o))) else 0
  }

  /** The orders from position `i` on are served in list order. */
  function ServedFrom(w: Stock, orders: seq<Demand>, i: nat, batch: int, cycle: int): (r: (Stock, seq<Demand>))
    requires i <= |orders|
    ensures |r.1| == |orders|
    decreases |orders| - i
  {
    if i == |orders| then (w, orders)
    else
      var qty := Request(orders[i], batch);
      if qty == 0 then ServedFrom(w, orders, i + 1, batch, cycle)
      else
        ServedFrom(ShippedTo(w, orders[i].customer, qty, cycle), orders[i := Fulfilled(orders[i], qty)],
                   i + 1, batch, cycle)
  }

  /** `process_shipments`. */
  function Processed(w: Stock, orders: seq<Demand>, c: Config, cycle: int): (r: (Stock, seq<Demand>))
    ensures |r.1| == |orders|
  {
    if cycle % Interval(c) != 0 then (w, orders) else ServedFrom(w, orders, 0, c.batchSize, cycle)
  }

  // ---- the scenario as a state machine ----------------------------------------------------------------

  /** `moved` (units taken off the factory's own stock) and `addedAt` (when each order came in) are
      history. */
  datatype ScenarioState = ScenarioState(
    factory: FactoryState,
    warehouse: Stock,
    orders: seq<Demand>,
    breachCycles: nat,
    moved: nat,
    addedAt: seq<nat>)

  /** A turn of the environment loop, an order added to the demand model, or an action on the factory
      that is not a tick. */
  datatype ScenarioStep =
    | LoopTurn(draws: CycleDraws, repaired: nat -> bool, safetyStock: int)
    | AddOrder(customer: string, quantity: int)
    | FactoryAction(step: Step)

  /** `on_good_finished_unit`. */
  function GoodUnit(s: ScenarioState): ScenarioState {
    s.(warehouse := Received(s.warehouse, 1),
       factory := if s.factory.fgStock > 0 then s.factory.(fgStock := s.factory.fgStock - 1) else s.factory,
       moved := if s.factory.fgStock > 0 then s.moved + 1 else s.moved)
  }

  /** The first half of a turn: a cycle, and the finished unit into the warehouse. */
  function Produced(s: ScenarioState, draws: CycleDraws): ScenarioState {
    var t := s.(factory := Cycled(s.factory, draws));
    if CycleOutcome(s.factory, draws).Passed? then GoodUnit(t) else t
  }

  /** The second half: shipping, and the check of the safety stock. */
  function ShippedOut(s: ScenarioState, c: Config, safetyStock: int): ScenarioState {
    var (w, orders) := Processed(s.warehouse, s.orders, c, s.factory.cycle);
    s.(warehouse := w, orders := orders, breachCycles := s.breachCycles + if w.stock < safetyStock then 1 else 0)
  }

  function Turned(s: ScenarioState, c: Config, draws: CycleDraws, safetyStock: int): ScenarioState {
    ShippedOut(Produced(s, draws), c, safetyStock)
  }

  function Stepped(s: ScenarioState, c: Config, step: ScenarioStep): ScenarioState {
    match step
    case LoopTurn(draws, repaired, safetyStock) =>
      var t := Turned(s, c, draws, safetyStock);
      t.(factory := t.factory.(stations := WithRepairs(t.factory.stations, repaired)))
    case AddOrder(customer, quantity) =>
      s.(orders := s.orders + [Demand(customer, quantity, 0, OPEN)], addedAt := s.addedAt + [s.factory.cycle])
    case FactoryAction(action) =>
      if action.EnvTick? then s else s.(factory := Apply(s.factory, action))
  }

  function ScenarioRun(s: ScenarioState, c: Config, steps: seq<ScenarioStep>): ScenarioState
    decreases |steps|
  {
    if steps == [] then s else Stepped(ScenarioRun(s, c, steps[..|steps| - 1]), c, steps[|steps| - 1])
  }

  /** A scenario before its first cycle, with `stock` units in the warehouse. */
  predicate Fresh(s: ScenarioState, stock: nat) {
    Initial(s.factory) && s == ScenarioState(s.factory, Stock(stock, 0, 0, []), [], 0, 0, [])
  }

  // ---- the invariants -----------------------------------------------------------------------------------

  /** Number of shipping cycles in (from, to]. */
  function ShippingCycles(c: Config, from: nat, to: nat): int { to / Interval(c) - from / Interval(c) }

  /** What the code decides an order has been fulfilled with: no stock in it. */
  function FulfilmentAt(o: Demand, c: Config, from: nat, to: nat): int {
    Min(Max(0, o.quantity), Max(0, c.batchSize) * ShippingCycles(c, from, to))
  }

  predicate OrdersFollow(s: ScenarioState, c: Config) {
    && |s.addedAt| == |s.orders|
    && forall k :: 0 <= k < |s.orders| ==>
         && s.addedAt[k] <= s.factory.cycle
         && OrderFollows(s.orders[k], c, s.addedAt[k], s.factory.cycle)
  }

  predicate OrderFollows(o: Demand, c: Config, from: nat, to: nat) {
    && o.fulfilled == FulfilmentAt(o, c, from, to)
    && o.status == (if o.fulfilled == 0 then OPEN else if o.fulfilled >= o.quantity then FULFILLED else PARTIAL)
  }

  function FulfilledAmounts(orders: seq<Demand>): seq<int> {
    seq(|orders|, k requires 0 <= k < |orders| => orders[k].fulfilled)
  }

  function Shortfalls(shipments: seq<Shipment>): seq<int> {
    seq(|shipments|, k requires 0 <= k < |shipments| => shipments[k].shortfall)
  }

  predicate StockBalanced(w: Stock, orders: seq<Demand>) {
    && w.stock >= 0
    && w.totalRequested == w.totalShipped + Sum(Shortfalls(w.shipments))
    && Sum(FulfilledAmounts(orders)) == w.totalRequested
    && (forall k :: 0 <= k < |w.shipments| ==> w.shipments[k].shipped >= 0 && w.shipments[k].shortfall >= 0)
    && 0 <= w.totalShipped
  }

  predicate FactoryStockOk(f: FactoryState, moved: int) {
    && f.fgStock == 0
    && f.totalProduced == moved + Sum(Deliveries(f.orders))
    && forall k :: 0 <= k < |f.orders| ==> OrderOk(f.orders[k])
  }

  // -- one shipping round

  /** A shipping round moves requests, shipments and fulfilled amounts in step, for every order at
      its turn exactly once. */
  lemma {:induction false} ServingBalances(w: Stock, orders: seq<Demand>, i: nat, batch: int, cycle: int)
    requires i <= |orders| && StockBalanced(w, orders)
    ensures var (v, os) := ServedFrom(w, orders, i, batch, cycle);
            && StockBalanced(v, os) && v.stock + v.totalShipped == w.stock + w.totalShipped
            && (forall k :: 0 <= k < i ==> os[k] == orders[k])
            && (forall k :: i <= k < |orders| ==>
                  var qty := Request(orders[k], batch);
                  os[k] == if qty == 0 then orders[k] else Fulfilled(orders[k], qty))
    decreases |orders| - i
  {
    if i < |orders| {
      var qty := Request(orders[i], batch);
      if qty == 0 {
        ServingBalances(w, orders, i + 1, batch, cycle);
      } else {
        var o := Fulfilled(orders[i], qty);
        var v := ShippedTo(w, orders[i].customer, qty, cycle);
        OneShipmentBalances(w, orders, i, qty, cycle);
        ServingBalances(v, orders[i := o], i + 1, batch, cycle);
      }
    }
  }

  lemma OneShipmentBalances(w: Stock, orders: seq<Demand>, i: nat, qty: int, cycle: int)
    requires i < |orders| && StockBalanced(w, orders) && 0 < qty <= ToShip(orders[i])
    ensures StockBalanced(ShippedTo(w, orders[i].customer, qty, cycle), orders[i := Fulfilled(orders[i], qty)])
  {
    var o := Fulfilled(orders[i], qty);
    var v := ShippedTo(w, orders[i].customer, qty, cycle);
    var last := v.shipments[|v.shipments| - 1];
    SumUpdate(FulfilledAmounts(orders), i, o.fulfilled);
    assert FulfilledAmounts(orders[i := o]) == FulfilledAmounts(orders)[i := o.fulfilled];
    SumAppend(Shortfalls(w.shipments), [last.shortfall]);
    assert Shortfalls(v.shipments) == Shortfalls(w.shipments) + [last.shortfall];
  }

  // -- the closed form at one more cycle

  lemma NextCycleCount(c: Config, from: nat, n: nat)
    requires from <= n
    ensures ShippingCycles(c, from, n + 1) == ShippingCycles(c, from, n) + (if (n + 1) % Interval(c) == 0 then 1 else 0)
    ensures ShippingCycles(c, from, n) >= 0
  {
    var d := Interval(c);
    QuotientStep(n, d);
    QuotientMonotone(from, n, d);
  }

  lemma QuotientStep(n: nat, d: int)
    requires d > 0
    ensures (n + 1) / d == n / d + (if (n + 1) % d == 0 then 1 else 0)
  {
    var q, r := n / d, n % d;
    assert n == q * d + r;
    if r + 1 == d {
      assert n + 1 == (q + 1) * d;
      QuotientIs(n + 1, d, q + 1, 0);
    } else {
      QuotientIs(n + 1, d, q, r + 1);
    }
  }

  lemma QuotientIs(n: int, d: int, q: int, r: int)
    requires d > 0 && 0 <= r < d && n == q * d + r
    ensures n / d == q && n % d == r
  {
    var e := n / d - q;
    assert e * d == r - n % d;
    assert e >= 1 ==> e * d >= d;
    assert e <= -1 ==> e * d <= -d;
  }

  lemma QuotientMonotone(a: nat, b: nat, d: int)
    requires a <= b && d > 0
    ensures a / d <= b / d
  {
    var e := a / d - b / d;
    assert e * d == (a - a % d) - (b - b % d);
    assert e >= 1 ==> e * d >= d;
  }

  lemma OrderAfterCycle(o: Demand, c: Config, from: nat, n: nat)
    requires from <= n
    ensures var qty := if (n + 1) % Interval(c) == 0 then Request(o, c.batchSize) else 0;
            OrderFollows(o, c, from, n) ==>
              OrderFollows(if qty == 0 then o else Fulfilled(o, qty), c, from, n + 1)
  {
    NextCycleCount(c, from, n);
    var m, b := ShippingCycles(c, from, n), Max(0, c.batchSize);
    hide ShippingCycles;
    assert b * (m + 1) == b * m + b;
    assert b * m >= 0;
  }

  lemma NewOrderFollows(o: Demand, c: Config, n: nat)
    requires o.fulfilled == 0 && o.status == OPEN
    ensures OrderFollows(o, c, n, n)
  {}

  // -- preservation

  lemma GoodUnitKeepsFactoryStock(f: FactoryState, d: CycleDraws, moved: nat)
    requires FactoryStockOk(f, moved)
    ensures var g := Cycled(f, d);
            if CycleOutcome(f, d).Passed?
            then && FactoryStockOk(g.(fgStock := 0), moved + g.fgStock)
                 && 0 <= g.fgStock <= 1 && g.totalProduced == f.totalProduced + 1
            else FactoryStockOk(g, moved) && g.totalProduced == f.totalProduced
  {
    hide LinePass, Advanced, Sum, Shipped;
    ShippedConserves(f.orders, 0, f.fgStock + 1, d.ship);
    if CycleOutcome(f, d).Passed? {
      ShippingTakes(f.orders, 0, 1, d.ship);
    }
  }

  /** Shipping never adds to the stock it is given. */
  lemma {:induction false} ShippingTakes(orders: seq<Order>, i: nat, stock: nat, draws: nat -> ShipDraw)
    requires i <= |orders|
    ensures Shipped(orders, i, stock, draws).1 <= stock
    decreases |orders| - i
  {
    if i < |orders| {
      var n := ShipmentTo(orders[i], stock, draws(i));
      ShippingTakes(orders[i := orders[i].(delivered := orders[i].delivered + n)], i + 1, stock - n, draws);
    }
  }

  predicate ScenarioOk(s: ScenarioState, c: Config, initialStock: nat) {
    && OrdersFollow(s, c)
    && StockBalanced(s.warehouse, s.orders)
    && s.warehouse.stock + s.warehouse.totalShipped == initialStock + s.factory.totalProduced
    && FactoryStockOk(s.factory, s.moved)
  }

  lemma ProcessedKeepsOrders(w: Stock, orders: seq<Demand>, c: Config, addedAt: seq<nat>, n: nat)
    requires StockBalanced(w, orders) && |addedAt| == |orders|
    requires forall k :: 0 <= k < |orders| ==> addedAt[k] <= n && OrderFollows(orders[k], c, addedAt[k], n)
    ensures var (v, os) := Processed(w, orders, c, n + 1);
            && StockBalanced(v, os) && v.stock + v.totalShipped == w.stock + w.totalShipped
            && forall k :: 0 <= k < |orders| ==> OrderFollows(os[k], c, addedAt[k], n + 1)
  {
    var (v, os) := Processed(w, orders, c, n + 1);
    hide OrderFollows, StockBalanced, Request, Fulfilled, Interval;
    ServingBalances(w, orders, 0, c.batchSize, n + 1);
    forall k | 0 <= k < |orders| ensures OrderFollows(os[k], c, addedAt[k], n + 1) {
      OrderAfterCycle(orders[k], c, addedAt[k], n);
    }
  }

  lemma TurnKeepsOk(s: ScenarioState, c: Config, draws: CycleDraws, safetyStock: int, initialStock: nat)
    requires ScenarioOk(s, c, initialStock)
    ensures ScenarioOk(Turned(s, c, draws, safetyStock), c, initialStock)
  {
    GoodUnitKeepsFactoryStock(s.factory, draws, s.moved);
    var passed := CycleOutcome(s.factory, draws).Passed?;
    var g := Cycled(s.factory, draws);
    assert g.cycle == s.factory.cycle + 1;
    hide OrderFollows, Cycled, CycleOutcome, Processed, Sum;
    var w := if passed then Received(s.warehouse, 1) else s.warehouse;
    assert StockBalanced(w, s.orders);
    ProcessedKeepsOrders(w, s.orders, c, s.addedAt, s.factory.cycle);
  }

  lemma AddOrderKeepsOk(s: ScenarioState, c: Config, customer: string, quantity: int, initialStock: nat)
    requires ScenarioOk(s, c, initialStock)
    ensures ScenarioOk(Stepped(s, c, AddOrder(customer, quantity)), c, initialStock)
  {
    var o := Demand(customer, quantity, 0, OPEN);
    NewOrderFollows(o, c, s.factory.cycle);
    hide OrderFollows, FactoryStockOk;
    SumAppend(FulfilledAmounts(s.orders), [0]);
    assert FulfilledAmounts(s.orders + [o]) == FulfilledAmounts(s.orders) + [0];
  }

  lemma ActionKeepsOk(s: ScenarioState, c: Config, action: Step, initialStock: nat)
    requires ScenarioOk(s, c, initialStock) && !action.EnvTick?
    ensures ScenarioOk(Stepped(s, c, FactoryAction(action)), c, initialStock)
  {
    hide OrderFollows, StockBalanced;
    var f := s.factory;
    if action.NewOrderEvent? {
      SumAppend(Deliveries(f.orders), [0]);
      assert Deliveries(f.orders + [Order(action.quantity, 0)]) == Deliveries(f.orders) + [0];
    }
  }

  lemma FreshIsOk(s: ScenarioState, c: Config, stock: nat)
    requires Fresh(s, stock)
    ensures ScenarioOk(s, c, stock)
  {
    SumOfZeros(Deliveries(s.factory.orders));
  }

  lemma {:induction false} ScenarioRunOk(s: ScenarioState, c: Config, stock: nat, steps: seq<ScenarioStep>)
    requires Fresh(s, stock)
    ensures ScenarioOk(ScenarioRun(s, c, steps), c, stock)
    decreases |steps|
  {
    if steps == [] {
      FreshIsOk(s, c, stock);
    } else {
      var t, step := ScenarioRun(s, c, steps[..|steps| - 1]), steps[|steps| - 1];
      ScenarioRunOk(s, c, stock, steps[..|steps| - 1]);
      match step
      case LoopTurn(draws, repaired, safetyStock) =>
        hide Turned;
        TurnKeepsOk(t, c, draws, safetyStock, stock);
      case AddOrder(customer, quantity) => AddOrderKeepsOk(t, c, customer, quantity, stock);
      case FactoryAction(action) => if !action.EnvTick? { ActionKeepsOk(t, c, action, stock); }
    }
  }

  // ---- the theorems ---------------------------------------------------------------------------------------

  /** Fulfilment in closed form, after any run: an order that came in at cycle c0 is fulfilled with
      the batch size times the number of shipping cycles since, capped by its quantity, whether or
      not the warehouse had anything to ship. */
  lemma FulfilmentClosedForm(s: ScenarioState, c: Config, stock: nat, steps: seq<ScenarioStep>, k: nat)
    requires Fresh(s, stock) && k < |ScenarioRun(s, c, steps).orders|
    ensures var t := ScenarioRun(s, c, steps);
            && |t.addedAt| == |t.orders|
            && t.orders[k].fulfilled ==
               Min(Max(0, t.orders[k].quantity),
                   Max(0, c.batchSize) *
                   (t.factory.cycle / Max(1, c.shipmentInterval) - t.addedAt[k] / Max(1, c.shipmentInterval)))
            && (t.orders[k].status == OPEN <==> t.orders[k].fulfilled == 0)
            && (t.orders[k].status == FULFILLED <==>
                  t.orders[k].fulfilled != 0 && t.orders[k].fulfilled >= t.orders[k].quantity)
            && t.orders[k].status != LATE
  {
    ScenarioRunOk(s, c, stock, steps);
    hide ScenarioRun, StockBalanced, FactoryStockOk;
  }

  /** Conservation in the warehouse, after any run. */
  lemma WarehouseConservation(s: ScenarioState, c: Config, stock: nat, steps: seq<ScenarioStep>)
    requires Fresh(s, stock)
    ensures var t := ScenarioRun(s, c, steps);
            && t.warehouse.stock == stock + t.factory.totalProduced - t.warehouse.totalShipped
            && t.warehouse.stock >= 0
            && Sum(FulfilledAmounts(t.orders)) == t.warehouse.totalRequested
            && t.warehouse.totalRequested == t.warehouse.totalShipped + Sum(Shortfalls(t.warehouse.shipments))
            && 0.0 <= ServiceLevel(t.warehouse) <= 1.0
  {
    ScenarioRunOk(s, c, stock, steps);
    var w := ScenarioRun(s, c, steps).warehouse;
    hide ScenarioRun, OrdersFollow, FactoryStockOk;
    SumNonNegative(Shortfalls(w.shipments));
    ServiceLevelBounds(w);
  }

  /** The service level is the share of what was requested that was shipped, to four places; 1 before anything
      was requested. */
  lemma ServiceLevelIsShare(w: Stock)
    ensures w.totalRequested == 0 ==> ServiceLevel(w) == 1.0
    ensures w.totalRequested > 0 ==>
              var share := w.totalShipped as real / w.totalRequested as real;
              && share * w.totalRequested as real == w.totalShipped as real
              && -0.00005 <= share - ServiceLevel(w) <= 0.00005
  {
    if w.totalRequested > 0 {
      Round4IsNearest(w.totalShipped as real / w.totalRequested as real);
    }
  }

  lemma ServiceLevelBounds(w: Stock)
    requires 0 <= w.totalShipped <= w.totalRequested
    ensures 0.0 <= ServiceLevel(w) <= 1.0
  {
    if w.totalRequested != 0 {
      var p, r := w.totalShipped as real, w.totalRequested as real;
      QuotientLower(p, r, 0.0);
      QuotientUpper(p, r, 1.0);
      Round4Bounds(p / r);
    }
  }

  /** What a round records of one order: the request at the round's cycle, split into shipped and short. */
  predicate RecordOf(record: Shipment, order: Demand, batch: int, cycle: int) {
    && record.cycle == cycle && record.customer == order.customer
    && record.requested == Request(order, batch) == record.shipped + record.shortfall
    && record.shipped >= 0 && record.shortfall >= 0
  }

  /** The records after the first `n` are those of the orders in `asking`. */
  predicate Records(shipments: seq<Shipment>, n: nat, asking: seq<Demand>, batch: int, cycle: int) {
    && |shipments| == n + |asking|
    && forall k :: 0 <= k < |asking| ==> RecordOf(shipments[n + k], asking[k], batch, cycle)
  }

  lemma RecordsJoin(ws: seq<Shipment>, us: seq<Shipment>, vs: seq<Shipment>, order: Demand, rest: seq<Demand>,
                    batch: int, cycle: int)
    requires |us| == |ws| + 1 && us[..|ws|] == ws && RecordOf(us[|ws|], order, batch, cycle)
    requires Records(vs, |us|, rest, batch, cycle) && vs[..|us|] == us
    ensures Records(vs, |ws|, [order] + rest, batch, cycle) && vs[..|ws|] == ws
  {
    hide RecordOf;
    var n, asking := |ws|, [order] + rest;
    assert vs[n] == vs[..n + 1][n] && vs[..n] == vs[..n + 1][..n];
    forall k | 0 <= k < |asking| ensures RecordOf(vs[n + k], asking[k], batch, cycle) {
      if k > 0 { assert RecordOf(vs[n + 1 + (k - 1)], rest[k - 1], batch, cycle); }
    }
  }

  /** A shipping round writes one record for each order that asks for something, in list order. */
  lemma {:induction false} RoundWritesRecords(w: Stock, orders: seq<Demand>, i: nat, batch: int, cycle: int)
    requires i <= |orders| && w.stock >= 0
    ensures var v := ServedFrom(w, orders, i, batch, cycle).0;
            && Records(v.shipments, |w.shipments|, Asking(orders, i, batch), batch, cycle)
            && v.shipments[..|w.shipments|] == w.shipments
    decreases |orders| - i
  {
    if i < |orders| {
      var qty := Request(orders[i], batch);
      if qty == 0 {
        RoundWritesRecords(w, orders, i + 1, batch, cycle);
      } else {
        var u, served := ShippedTo(w, orders[i].customer, qty, cycle), orders[i := Fulfilled(orders[i], qty)];
        var v, rest := ServedFrom(u, served, i + 1, batch, cycle).0, Asking(orders, i + 1, batch);
        assert RecordOf(u.shipments[|w.shipments|], orders[i], batch, cycle);
        AskingLater(orders, served, i + 1, batch);
        hide RecordOf, Request, Fulfilled, Records;
        RoundWritesRecords(u, served, i + 1, batch, cycle);
        RecordsJoin(w.shipments, u.shipments, v.shipments, orders[i], rest, batch, cycle);
      }
    }
  }

  /** The orders from position `i` on that ask for something. */
  function Asking(orders: seq<Demand>, i: nat, batch: int): seq<Demand>
    requires i <= |orders|
    decreases |orders| - i
  {
    if i == |orders| then []
    else (if Request(orders[i], batch) != 0 then [orders[i]] else []) + Asking(orders, i + 1, batch)
  }

  lemma {:induction false} AskingLater(orders: seq<Demand>, served: seq<Demand>, i: nat, batch: int)
    requires i <= |orders| == |served| && forall k :: i <= k < |orders| ==> served[k] == orders[k]
    ensures Asking(served, i, batch) == Asking(orders, i, batch)
    decreases |orders| - i
  {
    if i < |orders| { AskingLater(orders, served, i + 1, batch); }
  }

  /** The turns of the run that left the warehouse below its safety stock. */
  function Breaches(s: ScenarioState, c: Config, steps: seq<ScenarioStep>): nat
    decreases |steps|
  {
    if steps == [] then 0
    else
      var last := steps[|steps| - 1];
      Breaches(s, c, steps[..|steps| - 1]) +
      if last.LoopTurn? && ScenarioRun(s, c, steps).warehouse.stock < last.safetyStock then 1 else 0
  }

  lemma {:induction false} BreachesAreCounted(s: ScenarioState, c: Config, stock: nat, steps: seq<ScenarioStep>)
    requires Fresh(s, stock)
    ensures ScenarioRun(s, c, steps).breachCycles == Breaches(s, c, steps)
    decreases |steps|
  {
    if steps != [] {
      BreachesAreCounted(s, c, stock, steps[..|steps| - 1]);
      hide Fresh, Cycled, CycleOutcome, Processed, Apply, WithRepairs;
    }
  }

  // -- when customers get what their orders say they got

  function Requests(orders: seq<Demand>, batch: int): seq<int> {
    seq(|orders|, k requires 0 <= k < |orders| => Request(orders[k], batch))
  }

  /** A shipping round ships what is requested in it, up to the stock before it. */
  lemma {:induction false} RoundShips(w: Stock, orders: seq<Demand>, i: nat, batch: int, cycle: int)
    requires i <= |orders| && w.stock >= 0
    ensures var v, asked := ServedFrom(w, orders, i, batch, cycle).0, Sum(Requests(orders, batch)[i..]);
            && v.totalRequested == w.totalRequested + asked
            && v.totalShipped == w.totalShipped + Min(asked, w.stock)
    decreases |orders| - i
  {
    var requests := Requests(orders, batch);
    if i < |orders| {
      var qty := Request(orders[i], batch);
      assert requests[i..][1..] == requests[i + 1..];
      SumNonNegative(requests[i + 1..]);
      if qty == 0 {
        RoundShips(w, orders, i + 1, batch, cycle);
      } else {
        var served := orders[i := Fulfilled(orders[i], qty)];
        assert Requests(served, batch)[i + 1..] == requests[i + 1..];
        RoundShips(ShippedTo(w, orders[i].customer, qty, cycle), served, i + 1, batch, cycle);
      }
    }
  }

  /** The stock before the round covers everything that will be asked for in it. */
  predicate Covered(w: Stock, orders: seq<Demand>, c: Config, cycle: int) {
    cycle % Interval(c) == 0 ==> Sum(Requests(orders, c.batchSize)) <= w.stock
  }

  /** The warehouse when this turn's shipping round comes. */
  function StockedFor(s: ScenarioState, draws: CycleDraws): Stock {
    if CycleOutcome(s.factory, draws).Passed? then Received(s.warehouse, 1) else s.warehouse
  }

  /** Every shipping round of the run found enough stock. */
  predicate AlwaysCovered(s: ScenarioState, c: Config, steps: seq<ScenarioStep>)
    decreases |steps|
  {
    steps == [] ||
    var t, last := ScenarioRun(s, c, steps[..|steps| - 1]), steps[|steps| - 1];
    && AlwaysCovered(s, c, steps[..|steps| - 1])
    && (last.LoopTurn? ==> Covered(StockedFor(t, last.draws), t.orders, c, t.factory.cycle + 1))
  }

  function Unshipped(w: Stock): int { w.totalRequested - w.totalShipped }

  /** A round leaves more unshipped exactly when it was not covered, and never less. */
  lemma RoundLeaves(w: Stock, orders: seq<Demand>, c: Config, cycle: int)
    requires w.stock >= 0
    ensures var v := Processed(w, orders, c, cycle).0;
            && Unshipped(v) >= Unshipped(w)
            && (Unshipped(v) == Unshipped(w) <==> Covered(w, orders, c, cycle))
  {
    RoundShips(w, orders, 0, c.batchSize, cycle);
    assert Requests(orders, c.batchSize)[0..] == Requests(orders, c.batchSize);
    hide ServedFrom, Sum, Requests, Interval;
  }

  /** What one step leaves unshipped; only the shipping round of a turn can add to it. */
  lemma StepLeaves(t: ScenarioState, c: Config, step: ScenarioStep)
    requires t.warehouse.stock >= 0
    ensures var v, w := Stepped(t, c, step).warehouse, t.warehouse;
            && Unshipped(v) >= Unshipped(w)
            && (Unshipped(v) == Unshipped(w) <==>
                  (step.LoopTurn? ==> Covered(StockedFor(t, step.draws), t.orders, c, t.factory.cycle + 1)))
  {
    if step.LoopTurn? {
      CycleMovesShift(t.factory, step.draws);
      RoundLeaves(StockedFor(t, step.draws), t.orders, c, t.factory.cycle + 1);
      hide Covered, Cycled, CycleOutcome, Processed, WithRepairs;
    }
  }

  lemma StockIsNeverNegative(s: ScenarioState, c: Config, stock: nat, steps: seq<ScenarioStep>)
    requires Fresh(s, stock)
    ensures ScenarioRun(s, c, steps).warehouse.stock >= 0
  {
    ScenarioRunOk(s, c, stock, steps);
    hide OrdersFollow, FactoryStockOk, ScenarioRun, Sum, Shortfalls;
  }

  lemma {:induction false} UnshippedIffUncovered(s: ScenarioState, c: Config, stock: nat, steps: seq<ScenarioStep>)
    requires Fresh(s, stock)
    ensures var w := ScenarioRun(s, c, steps).warehouse;
            Unshipped(w) >= 0 && (Unshipped(w) == 0 <==> AlwaysCovered(s, c, steps))
    decreases |steps|
  {
    if steps != [] {
      var before := steps[..|steps| - 1];
      UnshippedIffUncovered(s, c, stock, before);
      StockIsNeverNegative(s, c, stock, before);
      hide Fresh, Covered, StockedFor, Stepped;
      StepLeaves(ScenarioRun(s, c, before), c, steps[|steps| - 1]);
    }
  }

  /** After any run, what orders count as fulfilled is what was shipped exactly when every shipping
      round's requests were covered by the stock before it. */
  lemma FulfilledIsShippedWhenCovered(s: ScenarioState, c: Config, stock: nat, steps: seq<ScenarioStep>)
    requires Fresh(s, stock)
    ensures var t := ScenarioRun(s, c, steps);
            Sum(FulfilledAmounts(t.orders)) == t.warehouse.totalShipped <==> AlwaysCovered(s, c, steps)
  {
    UnshippedIffUncovered(s, c, stock, steps);
    ScenarioRunOk(s, c, stock, steps);
    hide ScenarioRun, OrdersFollow, FactoryStockOk, AlwaysCovered;
  }

  lemma RejectedAtOnce(draws: CycleDraws)
    requires !draws.verdict(0)
    ensures CycleOutcome(SMALL_FACTORY, draws) == Rejected(0)
    ensures Cycled(SMALL_FACTORY, draws).cycle == 1
  {
    LinePassAt(SMALL_FACTORY.stations, 0, draws.verdict);
    hide LinePass, Shipped, Advanced;
  }

  lemma OneOrderRound(o: Demand, c: Config, cycle: int)
    requires o == Demand("A", 10, 0, OPEN) && c == Config(1, 5)
    ensures var (w, os) := Processed(Stock(0, 0, 0, []), [o], c, cycle);
            w.totalShipped == 0 && os == [Demand("A", 10, 5, PARTIAL)]
  {
    var w := Stock(0, 0, 0, []);
    var served := [o][0 := Fulfilled(o, 5)];
    assert ServedFrom(w, [o], 0, 5, cycle) == ServedFrom(ShippedTo(w, "A", 5, cycle), served, 1, 5, cycle);
  }

  const EMPTY_SCENARIO := ScenarioState(SMALL_FACTORY, Stock(0, 0, 0, []), [], 0, 0, [])

  lemma TwoSteps(s: ScenarioState, c: Config, x: ScenarioStep, y: ScenarioStep)
    ensures ScenarioRun(s, c, [x, y]) == Stepped(Stepped(s, c, x), c, y)
  {
    hide Stepped;
    assert [x, y][..1] == [x] && [x][..0] == [];
    assert ScenarioRun(s, c, [x]) == Stepped(s, c, x);
  }

  lemma EmptyScenarioIsFresh()
    ensures Fresh(EMPTY_SCENARIO, 0)
  {}

  lemma FirstTurn(s: ScenarioState, c: Config, draws: CycleDraws)
    requires s == EMPTY_SCENARIO.(orders := [Demand("A", 10, 0, OPEN)], addedAt := [0])
    requires c == Config(1, 5) && !draws.verdict(0)
    ensures var t := Turned(s, c, draws, 0);
            t.orders == [Demand("A", 10, 5, PARTIAL)] && t.warehouse.totalShipped == 0
  {
    RejectedAtOnce(draws);
    OneOrderRound(s.orders[0], c, 1);
    hide Cycled, CycleOutcome, Processed, WithRepairs;
  }

  /** It fails at once in an empty warehouse: an order of ten is half fulfilled and nothing was shipped. */
  lemma EmptyWarehouseFulfils(draws: CycleDraws, repaired: nat -> bool)
    requires !draws.verdict(0)
    ensures Fresh(EMPTY_SCENARIO, 0)
    ensures var t := ScenarioRun(EMPTY_SCENARIO, Config(1, 5), [AddOrder("A", 10), LoopTurn(draws, repaired, 0)]);
            t.orders == [Demand("A", 10, 5, PARTIAL)] && t.warehouse.totalShipped == 0
  {
    var c, order, turn := Config(1, 5), AddOrder("A", 10), LoopTurn(draws, repaired, 0);
    TwoSteps(EMPTY_SCENARIO, c, order, turn);
    EmptyScenarioIsFresh();
    hide Turned, WithRepairs, ScenarioRun, Fresh;
    FirstTurn(Stepped(EMPTY_SCENARIO, c, order), c, draws);
  }

  // -- the line under the scenario's loop

  lemma StepKeepsLength(s: ScenarioState, c: Config, step: ScenarioStep)
    ensures |Stepped(s, c, step).factory.stations| == |s.factory.stations|
  {
    hide LinePass, Processed, Shipped, Advanced;
  }

  lemma {:induction false} ScenarioKeepsLength(s: ScenarioState, c: Config, steps: seq<ScenarioStep>)
    ensures |ScenarioRun(s, c, steps).factory.stations| == |s.factory.stations|
    decreases |steps|
  {
    if steps != [] {
      ScenarioKeepsLength(s, c, steps[..|steps| - 1]);
      StepKeepsLength(ScenarioRun(s, c, steps[..|steps| - 1]), c, steps[|steps| - 1]);
    }
  }

  /** How many products of the run were held in front of each station. */
  function ScenarioHolds(s: ScenarioState, c: Config, steps: seq<ScenarioStep>): (holds: seq<int>)
    ensures |holds| == |s.factory.stations|
    decreases |steps|
  {
    if steps == [] then seq(|s.factory.stations|, _ => 0)
    else
      var before, last := steps[..|steps| - 1], steps[|steps| - 1];
      var holds := ScenarioHolds(s, c, before);
      ScenarioKeepsLength(s, c, before);
      if last.LoopTurn? then CountHold(holds, CycleOutcome(ScenarioRun(s, c, before).factory, last.draws)) else holds
  }

  lemma TurnedFactory(s: ScenarioState, c: Config, draws: CycleDraws, safetyStock: int)
    ensures var f, g := Turned(s, c, draws, safetyStock).factory, Cycled(s.factory, draws);
            f == g || f == g.(fgStock := g.fgStock - 1)
  {
    hide Cycled, CycleOutcome, Processed;
  }

  lemma FlowIgnoresStock(f: FactoryState, stock: int, holds: seq<int>)
    requires FlowOk(f, holds)
    ensures FlowOk(f.(fgStock := stock), holds)
  {
    hide Balanced, StationsOk, Sum;
  }

  lemma TurnKeepsFlow(s: ScenarioState, c: Config, turn: ScenarioStep, holds: seq<int>)
    requires turn.LoopTurn? && |holds| == |s.factory.stations| && FlowOk(s.factory, holds)
    ensures FlowOk(Stepped(s, c, turn).factory, CountHold(holds, CycleOutcome(s.factory, turn.draws)))
  {
    hide FlowOk, Turned, WithRepairs, Cycled, CycleOutcome;
    var g, after := Cycled(s.factory, turn.draws), CountHold(holds, CycleOutcome(s.factory, turn.draws));
    CycleKeepsFlow(s.factory, turn.draws, holds);
    TurnedFactory(s, c, turn.draws, turn.safetyStock);
    FlowIgnoresStock(g, g.fgStock - 1, after);
    RepairsKeepFlow(Turned(s, c, turn.draws, turn.safetyStock).factory, turn.repaired, after);
  }

  lemma {:induction false} ScenarioFlow(s: ScenarioState, c: Config, stock: nat, steps: seq<ScenarioStep>)
    requires Fresh(s, stock)
    ensures FlowOk(ScenarioRun(s, c, steps).factory, ScenarioHolds(s, c, steps))
    decreases |steps|
  {
    if steps == [] {
      InitialInvariant(s.factory);
    } else {
      var before, last := steps[..|steps| - 1], steps[|steps| - 1];
      var t, holds := ScenarioRun(s, c, before), ScenarioHolds(s, c, before);
      ScenarioFlow(s, c, stock, before);
      ScenarioKeepsLength(s, c, before);
      hide FlowOk, Turned, Fresh;
      match last
      case LoopTurn(_, _, _) => TurnKeepsFlow(t, c, last, holds);
      case AddOrder(_, _) =>
      case FactoryAction(action) =>
        if action.NewOrderEvent? {
          FlowIgnoresOrders(t.factory, action.quantity, holds);
        } else if !action.EnvTick? {
          EventKeepsFlow(t.factory, action, holds);
        }
    }
  }

  /** What the line keeps under the plain runtime it keeps here: flow conservation, and at every station
      a reported OEE that is the reported quality. */
  lemma LineOnEveryScenarioRun(s: ScenarioState, c: Config, stock: nat, steps: seq<ScenarioStep>)
    requires Fresh(s, stock)
    ensures var f := ScenarioRun(s, c, steps).factory;
            && |f.stations| == |s.factory.stations| > 0
            && FlowConserved(f, ScenarioHolds(s, c, steps))
            && forall i :: 0 <= i < |f.stations| ==>
                 && OeeOf(f.stations[i]).oee == OeeOf(f.stations[i]).quality
                 && OeeOf(f.stations[i]).availability == 1.0
                 && 40 <= f.stations[i].speedPct <= 100
  {
    var f := ScenarioRun(s, c, steps).factory;
    ScenarioFlow(s, c, stock, steps);
    ScenarioKeepsLength(s, c, steps);
    FlowOkConserves(f, ScenarioHolds(s, c, steps));
    hide ScenarioRun, ScenarioHolds, OeeOf, FlowConserved, StationOk, CountsAgree, Balanced;
    forall i | 0 <= i < |f.stations|
      ensures OeeOf(f.stations[i]).oee == OeeOf(f.stations[i]).quality
      ensures OeeOf(f.stations[i]).availability == 1.0 && 40 <= f.stations[i].speedPct <= 100
    {
      OeeIsQuality(f.stations[i]);
    }
  }

  /** Every good unit is counted twice: it enters the warehouse, and it is either delivered to one of
      the factory's own orders or taken off the factory's stock, which is empty between turns. */
  lemma UnitsAreCountedTwice(s: ScenarioState, c: Config, stock: nat, steps: seq<ScenarioStep>)
    requires Fresh(s, stock)
    ensures var t := ScenarioRun(s, c, steps);
            && t.factory.fgStock == 0
            && t.warehouse.stock + t.warehouse.totalShipped - stock == t.factory.totalProduced
            && t.moved + Sum(Deliveries(t.factory.orders)) == t.factory.totalProduced
  {
    ScenarioRunOk(s, c, stock, steps);
    hide ScenarioRun, OrdersFollow, StockBalanced;
  }
}
