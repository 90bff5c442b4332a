/** The scenario environment as objects: the warehouse, the demand orders and the factory. */
module ManufacturingEnv {
  import opened Numbers
  import opened Environment
  import opened Scenario

  class FinishedGoodsWarehouse {
    var stock: int
    var totalRequested: int
    var totalShipped: int
    var shipments: seq<Shipment>

    function View(): Stock
      reads this
    {
      Stock(stock, totalRequested, totalShipped, shipments)
    }

    constructor (stock: int)
      ensures View() == Stock(stock, 0, 0, [])
    {
      this.stock, totalRequested, totalShipped, shipments := stock, 0, 0, [];
    }

    method Receive(qty: int)
      modifies this
      ensures View() == Received(old(View()), qty)
    {
      stock := stock + qty;
    }

    method Ship(customer: string, qty: int, cycle: int) returns (actual: int)
      modifies this
      ensures View() == ShippedTo(old(View()), customer, qty, cycle)
      ensures actual == Min(qty, old(stock))
    {
      actual := Min(qty, stock);
      stock := stock - actual;
      totalRequested := totalRequested + qty;
      totalShipped := totalShipped + actual;
      shipments := shipments + [Shipment(cycle, customer, qty, actual, qty - actual)];
    }
  }

  class DemandOrder {
    const customer: string
    const quantity: int
    var fulfilled: int
    var status: OrderStatus

    function View(): Demand
      reads this
    {
      Demand(customer, quantity, fulfilled, status)
    }

    constructor (customer: string, quantity: int)
      ensures View() == Demand(customer, quantity, 0, OPEN)
    {
      this.customer, this.quantity, fulfilled, status := customer, quantity, 0, OPEN;
    }

    method Ship(qty: int) returns (actual: int)
      modifies this
      ensures View() == Fulfilled(old(View()), qty)
      ensures actual == Min(qty, ToShip(old(View())))
    {
      actual := Min(qty, Max(0, quantity - fulfilled));
      fulfilled := fulfilled + actual;
      if fulfilled >= quantity {
        status := FULFILLED;
      } else if fulfilled > 0 {
        status := PARTIAL;
      }
    }
  }

  ghost function DemandViews(orders: seq<DemandOrder>, parts: set<DemandOrder>): (r: seq<Demand>)
    requires forall i :: 0 <= i < |orders| ==> orders[i] in parts
    reads parts
    ensures |r| == |orders|
  {
    seq(|orders|, i requires 0 <= i < |orders| reads parts => orders[i].View())
  }

  class ManufacturingEnvironment {
    const config: Config
    const factory: Factory
    const warehouse: FinishedGoodsWarehouse
    var orders: seq<DemandOrder>
    ghost var orderParts: set<DemandOrder>

    ghost predicate Valid()
      reads this
    {
      && (forall i :: 0 <= i < |orders| ==> orders[i] in orderParts)
      && (forall i, j :: 0 <= i < j < |orders| ==> orders[i] != orders[j])
    }

    ghost function Orders(): seq<Demand>
      requires Valid()
      reads this, orderParts
    {
      DemandViews(orders, orderParts)
    }

    constructor (config: Config, factory: Factory, stock: int)
      ensures Valid() && this.config == config && this.factory == factory && orders == []
      ensures fresh(warehouse) && warehouse.View() == Stock(stock, 0, 0, [])
    {
      this.config, this.factory := config, factory;
      warehouse := new FinishedGoodsWarehouse(stock);
      orders, orderParts := [], {};
    }

    method AddDemand(customer: string, quantity: int)
      requires Valid()
      modifies this
      ensures Valid()
      ensures Orders() == old(Orders()) + [Demand(customer, quantity, 0, OPEN)]
    {
      var order := new DemandOrder(customer, quantity);
      ghost var before := Orders();
      orders := orders + [order];
      orderParts := orderParts + {order};
      assert Orders() == before + [Demand(customer, quantity, 0, OPEN)];
    }

    method OnGoodFinishedUnit()
      modifies warehouse, factory`fgStock
      ensures warehouse.View() == Received(old(warehouse.View()), 1)
      ensures factory.fgStock == if old(factory.fgStock) > 0 then old(factory.fgStock) - 1 else old(factory.fgStock)
    {
      warehouse.Receive(1);
      if factory.fgStock > 0 {
        factory.fgStock := factory.fgStock - 1;
      }
    }

    /** One order's share of a shipping cycle. */
    method ServeOrder(i: nat, cycle: int)
      requires Valid() && i < |orders|
      modifies warehouse, orders[i]
      ensures var o := old(Orders())[i];
              var qty := Request(o, config.batchSize);
              && warehouse.View() == (if qty == 0 then old(warehouse.View())
                                      else ShippedTo(old(warehouse.View()), o.customer, qty, cycle))
              && Orders() == old(Orders())[i := if qty == 0 then o else Fulfilled(o, qty)]
    {
      var order := orders[i];
      ghost var before := Orders();
      if order.status == OPEN || order.status == PARTIAL {
        var remaining := Max(0, order.quantity - order.fulfilled);
        if remaining > 0 {
          var qty := Min(config.batchSize, remaining);
          if qty > 0 {
            var _ := warehouse.Ship(order.customer, qty, cycle);
            var _ := order.Ship(qty);
          }
        }
      }
      assert Orders() == before[i := order.View()];
    }

    method ProcessShipments(cycle: int)
      requires Valid()
      modifies warehouse, orderParts
      ensures (warehouse.View(), Orders()) == Processed(old(warehouse.View()), old(Orders()), config, cycle)
    {
      var interval := Max(1, config.shipmentInterval);
      if cycle % interval != 0 {
        return;
      }
      ghost var before := Orders();
      for i := 0 to |orders|
        invariant ServedFrom(warehouse.View(), Orders(), i, config.batchSize, cycle)
               == ServedFrom(old(warehouse.View()), before, 0, config.batchSize, cycle)
      {
        ghost var now := Orders();
        ServeOrder(i, cycle);
        SkippedOrder(now, i);
      }
    }
  }

  /** The environment thread of the scenario runtime. */
  class AgentRuntime {
    const env: ManufacturingEnvironment
    var ssBreachCycles: nat

    constructor (env: ManufacturingEnvironment)
      ensures this.env == env && ssBreachCycles == 0
    {
      this.env, ssBreachCycles := env, 0;
    }

    ghost function View(): ScenarioState
      requires env.Valid() && env.factory.Valid()
      reads this, env, env.orderParts, env.warehouse
      reads env.factory, env.factory.lineParts, env.factory.orderParts, env.factory.shiftMgr
    {
      ScenarioState(env.factory.View(), env.warehouse.View(), env.Orders(), ssBreachCycles, 0, [])
    }

    /** One turn of `_env_loop` up to the repair draws, which `FactoryRuntime.Runtime.ApplyDynamics`
        models. The history field `moved` is not kept by the object. */
    method EnvTurn(draws: CycleDraws, safetyStock: int)
      requires env.Valid() && env.factory.Valid()
      modifies this`ssBreachCycles, env.warehouse, env.orderParts
      modifies env.factory`cycle, env.factory`fgStock, env.factory`totalProduced
      modifies env.factory`scrapCount, env.factory`reworkCount
      modifies env.factory.lineParts, env.factory.orderParts, env.factory.shiftMgr
      ensures View() == Turned(old(View()), env.config, draws, safetyStock).(moved := 0)
    {
      ghost var before := View();
      ProduceUnit(draws);
      ShipOut(safetyStock);
      ShippingIgnoresMoved(Produced(before, draws), env.config, safetyStock);
      hide *;
    }

    method ProduceUnit(draws: CycleDraws)
      requires env.Valid() && env.factory.Valid()
      modifies env.warehouse
      modifies env.factory`cycle, env.factory`fgStock, env.factory`totalProduced
      modifies env.factory`scrapCount, env.factory`reworkCount
      modifies env.factory.lineParts, env.factory.orderParts, env.factory.shiftMgr
      ensures View() == Produced(old(View()), draws).(moved := 0)
    {
      hide Cycled, CycleOutcome;
      var status := env.factory.RunCycle(draws);
      if status == Good {
        env.OnGoodFinishedUnit();
      }
    }

    method ShipOut(safetyStock: int)
      requires env.Valid() && env.factory.Valid()
      modifies this`ssBreachCycles, env.warehouse, env.orderParts
      ensures View() == ShippedOut(old(View()), env.config, safetyStock)
    {
      hide Processed, DemandViews, StationViews, OrderViews;
      env.ProcessShipments(env.factory.cycle);
      if env.warehouse.stock < safetyStock {
        ssBreachCycles := ssBreachCycles + 1;
      }
    }
  }

  lemma ShippingIgnoresMoved(s: ScenarioState, c: Config, safetyStock: int)
    ensures ShippedOut(s.(moved := 0), c, safetyStock) == ShippedOut(s, c, safetyStock).(moved := 0)
  {
    hide Processed;
  }

  lemma SkippedOrder(orders: seq<Demand>, i: nat)
    requires i < |orders|
    ensures orders[i := orders[i]] == orders
  {}
}
