/** What the broker guarantees over every run: the accounting of deliveries, full queues and dead
    letters, and the acknowledgement window. */
module BrokerTheorems {
  import opened Numbers
  import opened Options
  import opened Messages
  import opened BrokerSpec

  // ---- full queues -------------------------------------------------------------------------

  /** Dead letters written by `retries` refusals of one envelope. */
  function DeadCopies(retries: nat): nat { if retries < MAX_RETRIES then 0 else retries - MAX_RETRIES + 1 }

  function Repeat(n: nat, k: nat): seq<nat> { seq(k, _ => n) }

  predicate OpenFor(b: BrokerState, agent: AgentId) { agent in b.boxes && !FullFor(b, agent) }

  function OpenTargets(b: BrokerState, targets: set<AgentId>): set<AgentId> { set a | a in targets && OpenFor(b, a) }

  function FullTargets(b: BrokerState, targets: set<AgentId>): set<AgentId> { set a | a in targets && FullFor(b, a) }

  function PutInto(boxes: map<AgentId, Box>, agents: set<AgentId>, n: nat, message: Message): map<AgentId, Box> {
    map a | a in boxes :: if a in agents then Put(boxes[a], n, message) else boxes[a]
  }

  /** One copy for each agent in `open` and `refusals` refused puts. */
  function Spread(b: BrokerState, open: set<AgentId>, refusals: nat, n: nat): BrokerState
    requires WellFormed(b) && n < |b.pubs|
  {
    var r := b.retries[n] + refusals;
    var copies := DeadCopies(r) - DeadCopies(b.retries[n]);
    b.(boxes := PutInto(b.boxes, open, n, b.pubs[n].message),
       delivered := b.delivered + |open|,
       retries := b.retries[n := r],
       dlq := b.dlq + Repeat(n, copies),
       totalDlq := b.totalDlq + copies)
  }

  /** The effect of delivering to a set of targets while nobody consumes, without an order. */
  function Fanout(b: BrokerState, targets: set<AgentId>, n: nat): BrokerState
    requires WellFormed(b) && n < |b.pubs|
  {
    Spread(b, OpenTargets(b, targets), |FullTargets(b, targets)|, n)
  }

  function Elements(order: seq<AgentId>): set<AgentId> { set a | a in order }

  predicate Distinct(order: seq<AgentId>) { forall i, j :: 0 <= i < j < |order| ==> order[i] != order[j] }

  /** Nobody consumes: the drain the source's threads never perform during the publication. */
  function NoDrain(): AgentId -> nat { _ => 0 }

  /** No agent whose queue is full consumes while the publication is under way. */
  predicate Quiet(b: BrokerState, order: seq<AgentId>, drained: AgentId -> nat) {
    forall a :: a in order && FullFor(b, a) ==> drained(a) == 0
  }

  lemma FanoutEmpty(b: BrokerState, n: nat)
    requires WellFormed(b) && n < |b.pubs|
    ensures Fanout(b, {}, n) == b
  {
    var f := Fanout(b, {}, n);
    assert OpenTargets(b, {}) == {} && FullTargets(b, {}) == {};
    assert f.boxes == b.boxes;
    assert f.dlq == b.dlq && f.retries == b.retries;
  }

  lemma DeliverFull(b: BrokerState, agent: AgentId, n: nat)
    requires WellFormed(b) && n < |b.pubs| && FullFor(b, agent)
    ensures Deliver(b, agent, n, 0) ==
            b.(retries := b.retries[n := b.retries[n] + 1],
               dlq := b.dlq + Repeat(n, DeadCopies(b.retries[n] + 1) - DeadCopies(b.retries[n])),
               totalDlq := b.totalDlq + DeadCopies(b.retries[n] + 1) - DeadCopies(b.retries[n]))
  {
    var c := b.(retries := b.retries[n := b.retries[n] + 1]);
    TakeNothing(c, agent);
    var k := DeadCopies(b.retries[n] + 1) - DeadCopies(b.retries[n]);
    if k == 0 {
      assert b.dlq + Repeat(n, 0) == b.dlq;
    } else {
      assert Repeat(n, 1) == [n];
    }
  }

  lemma SpreadAfterPut(b: BrokerState, agent: AgentId, open: set<AgentId>, refusals: nat, n: nat)
    requires WellFormed(b) && n < |b.pubs| && agent in b.boxes && agent !in open
    ensures Spread(PutNow(b, agent, n), open, refusals, n) == Spread(b, open + {agent}, refusals, n)
  {
    var c := PutNow(b, agent, n);
    var message := b.pubs[n].message;
    assert PutInto(c.boxes, open, n, message) == PutInto(b.boxes, open + {agent}, n, message);
  }

  lemma SpreadAfterRefusal(b: BrokerState, agent: AgentId, open: set<AgentId>, refusals: nat, n: nat)
    requires WellFormed(b) && n < |b.pubs| && FullFor(b, agent)
    ensures Spread(Deliver(b, agent, n, 0), open, refusals, n) == Spread(b, open, refusals + 1, n)
  {
    DeliverFull(b, agent, n);
    hide Deliver, PutInto;
    var r := b.retries[n];
    assert Repeat(n, DeadCopies(r + 1) - DeadCopies(r)) + Repeat(n, DeadCopies(r + 1 + refusals) - DeadCopies(r + 1))
        == Repeat(n, DeadCopies(r + refusals + 1) - DeadCopies(r));
  }

  /** Delivering to one more target first, then fanning out, is fanning out to the larger set. */
  lemma FanoutStep(b: BrokerState, agent: AgentId, targets: set<AgentId>, n: nat, drained: nat)
    requires WellFormed(b) && n < |b.pubs| && agent !in targets
    requires FullFor(b, agent) ==> drained == 0
    ensures Fanout(Deliver(b, agent, n, drained), targets, n) == Fanout(b, targets + {agent}, n)
  {
    hide Spread;
    var c := Deliver(b, agent, n, drained);
    var more := targets + {agent};
    if OpenFor(b, agent) {
      assert OpenTargets(c, targets) == OpenTargets(b, targets);
      assert FullTargets(c, targets) == FullTargets(b, targets) == FullTargets(b, more);
      assert OpenTargets(b, more) == OpenTargets(b, targets) + {agent};
      SpreadAfterPut(b, agent, OpenTargets(b, targets), |FullTargets(b, targets)|, n);
    } else if FullFor(b, agent) {
      DeliverFull(b, agent, n);
      assert OpenTargets(c, targets) == OpenTargets(b, targets) == OpenTargets(b, more);
      assert FullTargets(c, targets) == FullTargets(b, targets);
      assert FullTargets(b, more) == FullTargets(b, targets) + {agent};
      SpreadAfterRefusal(b, agent, OpenTargets(b, targets), |FullTargets(b, targets)|, n);
    } else {
      assert OpenTargets(b, targets) == OpenTargets(b, more);
      assert FullTargets(b, targets) == FullTargets(b, more);
    }
  }

  /** Without a concurrent consumer the outcome of a fan-out does not depend on the order in
      which the subscriber set is walked: it is the set-based fan-out. */
  lemma {:induction false} DeliverAllIsFanout(b: BrokerState, order: seq<AgentId>, n: nat, drained: AgentId -> nat)
    requires WellFormed(b) && n < |b.pubs| && Distinct(order) && Quiet(b, order, drained)
    ensures DeliverAll(b, order, n, drained) == Fanout(b, Elements(order), n)
    decreases |order|
  {
    if order == [] {
      assert Elements(order) == {};
      FanoutEmpty(b, n);
    } else {
      var a, rest := order[0], order[1..];
      var c := Deliver(b, a, n, drained(a));
      assert Elements(order) == Elements(rest) + {a};
      assert Quiet(c, rest, drained) by { DeliverKeepsOthersFull(b, a, n, drained(a)); }
      DeliverAllIsFanout(c, rest, n, drained);
      FanoutStep(b, a, Elements(rest), n, drained(a));
    }
  }

  lemma DeliverKeepsOthersFull(b: BrokerState, agent: AgentId, n: nat, drained: nat)
    requires WellFormed(b) && n < |b.pubs|
    ensures forall a :: a != agent ==> (FullFor(Deliver(b, agent, n, drained), a) <==> FullFor(b, a))
  {}

  lemma OrderingElements(order: seq<AgentId>, targets: set<AgentId>)
    requires IsOrdering(order, targets)
    ensures Distinct(order) && Elements(order) == targets
  {}

  /** `refusals` refused puts of envelope `n` lie between the two states. */
  predicate RefusedTimes(b: BrokerState, r: BrokerState, n: nat, refusals: nat)
    requires n < |b.retries|
  {
    var copies := DeadCopies(b.retries[n] + refusals) - DeadCopies(b.retries[n]);
    && r.retries == b.retries[n := b.retries[n] + refusals]
    && r.dlq == b.dlq + Repeat(n, copies) && r.totalDlq == b.totalDlq + copies
  }

  lemma RepeatsAdd(n: nat, i: nat, j: nat)
    ensures Repeat(n, i) + Repeat(n, j) == Repeat(n, i + j)
  {}

  lemma RefusedOnceMore(b: BrokerState, c: BrokerState, r: BrokerState, n: nat, refusals: nat)
    requires n < |b.retries| && RefusedTimes(b, c, n, 1) && RefusedTimes(c, r, n, refusals)
    ensures RefusedTimes(b, r, n, refusals + 1)
  {
    var t := b.retries[n];
    assert c.retries[n] == t + 1;
    var now, later := DeadCopies(t + 1) - DeadCopies(t), DeadCopies(t + 1 + refusals) - DeadCopies(t + 1);
    assert now + later == DeadCopies(t + (refusals + 1)) - DeadCopies(t);
    hide Repeat, DeadCopies;
    RepeatsAdd(n, now, later);
    assert b.dlq + Repeat(n, now) + Repeat(n, later) == b.dlq + (Repeat(n, now) + Repeat(n, later));
  }

  lemma NotRefused(b: BrokerState, r: BrokerState, n: nat)
    requires n < |b.retries| && r.retries == b.retries && r.dlq == b.dlq && r.totalDlq == b.totalDlq
    ensures RefusedTimes(b, r, n, 0)
  {
    assert b.dlq + Repeat(n, 0) == b.dlq;
  }

  /** What one put does to the counters and the dead-letter queue, whoever consumes meanwhile. */
  lemma RefusalCounted(b: BrokerState, agent: AgentId, n: nat, drained: nat)
    requires WellFormed(b) && n < |b.pubs|
    ensures RefusedTimes(b, Deliver(b, agent, n, drained), n, if FullFor(b, agent) then 1 else 0)
  {
    assert b.dlq + Repeat(n, 0) == b.dlq && Repeat(n, 1) == [n];
  }

  lemma NeverRefusedBefore(b: BrokerState, c: BrokerState, r: BrokerState, n: nat, refusals: nat)
    requires n < |b.retries| && RefusedTimes(b, c, n, 0) && n < |c.retries| && RefusedTimes(c, r, n, refusals)
    ensures RefusedTimes(b, r, n, refusals)
  {
    assert b.dlq + Repeat(n, 0) == b.dlq;
    assert b.retries[n := b.retries[n]] == b.retries;
  }

  /** How many full targets a walk still has after its first delivery. */
  lemma FullTargetsLeft(b: BrokerState, c: BrokerState, order: seq<AgentId>)
    requires Distinct(order) && order != []
    requires forall a :: a != order[0] ==> (FullFor(c, a) <==> FullFor(b, a))
    ensures |FullTargets(b, Elements(order))| ==
            |FullTargets(c, Elements(order[1..]))| + if FullFor(b, order[0]) then 1 else 0
  {
    var a, rest := order[0], order[1..];
    hide FullFor;
    assert a !in rest && Elements(order) == Elements(rest) + {a};
    assert FullTargets(c, Elements(rest)) == FullTargets(b, Elements(rest));
    if FullFor(b, a) {
      assert FullTargets(b, Elements(order)) == FullTargets(b, Elements(rest)) + {a};
    } else {
      assert FullTargets(b, Elements(order)) == FullTargets(b, Elements(rest));
    }
  }

  /** Refusals depend on the set of full targets only: not on the order of the walk, and not on what the
      agents consume during the retries. */
  lemma {:induction false} RefusalsCounted(b: BrokerState, order: seq<AgentId>, n: nat, drained: AgentId -> nat)
    requires WellFormed(b) && n < |b.pubs| && Distinct(order)
    ensures RefusedTimes(b, DeliverAll(b, order, n, drained), n, |FullTargets(b, Elements(order))|)
    decreases |order|
  {
    if order == [] {
      assert FullTargets(b, Elements(order)) == {};
      NotRefused(b, b, n);
    } else {
      var a, rest := order[0], order[1..];
      var c := Deliver(b, a, n, drained(a));
      var r := DeliverAll(b, order, n, drained);
      assert r == DeliverAll(c, rest, n, drained);
      hide Deliver, RefusedTimes, FullTargets, FullFor, DeliverAll;
      DeliverKeepsOthersFull(b, a, n, drained(a));
      FullTargetsLeft(b, c, order);
      RefusalCounted(b, a, n, drained(a));
      RefusalsCounted(c, rest, n, drained);
      if FullFor(b, a) {
        RefusedOnceMore(b, c, r, n, |FullTargets(c, Elements(rest))|);
      } else {
        NeverRefusedBefore(b, c, r, n, |FullTargets(c, Elements(rest))|);
      }
    }
  }

  /** The delivery of one envelope to one box: at once, or not to the inbox. */
  predicate BoxAfter(b: BrokerState, agent: AgentId, n: nat, box: Box)
    requires n < |b.pubs| && agent in b.boxes
  {
    var was := b.boxes[agent];
    if !FullFor(b, agent) then box == Put(was, n, b.pubs[n].message)
    else
      && box.inbox == was.inbox && box.received == was.received
      && (box.taken + box.queue == was.taken + was.queue || box.taken + box.queue == was.taken + was.queue + [n])
  }

  lemma DeliveredBox(b: BrokerState, agent: AgentId, n: nat, drained: nat)
    requires WellFormed(b) && n < |b.pubs| && agent in b.boxes
    ensures BoxAfter(b, agent, n, Deliver(b, agent, n, drained).boxes[agent])
    ensures forall a :: a in b.boxes && a != agent ==> Deliver(b, agent, n, drained).boxes[a] == b.boxes[a]
  {
    var was := b.boxes[agent];
    if FullFor(b, agent) {
      var k := Min(drained, |was.queue|);
      assert was.taken + was.queue[..k] + was.queue[k..] == was.taken + was.queue;
      assert was.taken + was.queue[..k] + (was.queue[k..] + [n]) == was.taken + was.queue + [n];
    }
  }

  /** Every target's box after a walk, and that no other box moves. */
  lemma {:induction false} DeliveredBoxes(b: BrokerState, order: seq<AgentId>, n: nat, drained: AgentId -> nat)
    requires WellFormed(b) && n < |b.pubs| && Distinct(order)
    ensures var r := DeliverAll(b, order, n, drained);
            forall a :: a in b.boxes ==>
              if a in order then BoxAfter(b, a, n, r.boxes[a]) else r.boxes[a] == b.boxes[a]
    decreases |order|
  {
    if order != [] {
      var a, rest := order[0], order[1..];
      var c := Deliver(b, a, n, drained(a));
      assert a !in rest;
      DeliveredBoxes(c, rest, n, drained);
      if a in b.boxes { DeliveredBox(b, a, n, drained(a)); }
      hide Deliver, Put;
    }
  }

  /** A publication that meets f full queues, in whatever order the subscribers are walked and whatever
      is consumed meanwhile: it ends with retry_count f and leaves max(0, f - 2) copies of itself in the
      dead-letter queue; it reaches every other target exactly once, and no inbox of a full one. */
  lemma FullQueueAccounting(b: BrokerState, message: Message, topic: Option<Topic>, order: seq<AgentId>,
                            drained: AgentId -> nat)
    requires WellFormed(b) && !Undeliverable(b, message)
    requires IsOrdering(order, Targets(b, message, ChosenTopic(message, topic)))
    ensures var targets := Targets(b, message, ChosenTopic(message, topic));
            var r, n := Published(b, message, topic, order, drained), |b.pubs|;
            var f := |FullTargets(b, targets)|;
            && |r.retries| == n + 1 && r.retries[n] == f
            && r.dlq == b.dlq + Repeat(n, Max(0, f - 2))
            && r.totalDlq == b.totalDlq + Max(0, f - 2)
            && r.boxes.Keys == b.boxes.Keys
            && forall a :: a in b.boxes ==>
                 var was, box := b.boxes[a], r.boxes[a];
                 if a !in targets then box == was
                 else if !FullFor(b, a) then box == Put(was, n, message)
                 else
                   && box.inbox == was.inbox && box.received == was.received
                   && (|| box.taken + box.queue == was.taken + was.queue
                       || box.taken + box.queue == was.taken + was.queue + [n])
  {
    var targets := Targets(b, message, ChosenTopic(message, topic));
    var c, n := Logged(b, message, ChosenTopic(message, topic)), |b.pubs|;
    OrderingElements(order, targets);
    assert FullTargets(c, targets) == FullTargets(b, targets);
    RefusalsCounted(c, order, n, drained);
    DeliveredBoxes(c, order, n, drained);
    hide DeliverAll, Targets, Put;
  }

  /** When nobody consumes, a publication that meets f full queues is delivered once to each other
      target, and the full queues stay as they were. */
  lemma FullQueuesStayFull(b: BrokerState, message: Message, topic: Option<Topic>, order: seq<AgentId>,
                           drained: AgentId -> nat)
    requires WellFormed(b) && !Undeliverable(b, message)
    requires IsOrdering(order, Targets(b, message, ChosenTopic(message, topic)))
    requires Quiet(b, order, drained)
    ensures var targets := Targets(b, message, ChosenTopic(message, topic));
            var r := Published(b, message, topic, order, drained);
            && r.delivered == b.delivered + |OpenTargets(b, targets)|
            && r.boxes == PutInto(b.boxes, OpenTargets(b, targets), |b.pubs|, message)
  {
    var targets := Targets(b, message, ChosenTopic(message, topic));
    var c := Logged(b, message, ChosenTopic(message, topic));
    OrderingElements(order, targets);
    assert OpenTargets(c, targets) == OpenTargets(b, targets);
    assert Quiet(c, order, drained);
    DeliverAllIsFanout(c, order, |b.pubs|, drained);
  }

  /** A unicast to a full queue reaches no inbox and no dead-letter queue, whatever is consumed during the
      retry. It gets into the queue exactly when enough was consumed to make room. */
  lemma FullUnicastVanishes(b: BrokerState, message: Message, topic: Option<Topic>, drained: AgentId -> nat)
    requires WellFormed(b) && message.receiver != ALL && FullFor(b, message.receiver)
    ensures var r, n := Published(b, message, topic, [message.receiver], drained), |b.pubs|;
            var was, k := b.boxes[message.receiver], Min(drained(message.receiver), |b.boxes[message.receiver].queue|);
            && r.dlq == b.dlq && r.totalDlq == b.totalDlq
            && r.boxes == b.boxes[message.receiver := was.(
                 taken := was.taken + was.queue[..k],
                 queue := was.queue[k..] + if |was.queue| - k < b.maxQueue then [n] else [])]
  {
    var agent, n := message.receiver, |b.pubs|;
    var c := Logged(b, message, ChosenTopic(message, topic));
    var d := Deliver(c, agent, n, drained(agent));
    assert [agent][1..] == [];
    assert DeliverAll(c, [agent], n, drained) == DeliverAll(d, [], n, drained) == d;
    assert d == PutAgain(c.(retries := c.retries[n := 1]), agent, n, drained(agent));
    var k := Min(drained(agent), |b.boxes[agent].queue|);
    assert b.boxes[agent].queue[k..] + [] == b.boxes[agent].queue[k..];
  }

  // ---- runs ------------------------------------------------------------------------------------

  datatype Op =
    | RegisterOp(agent: AgentId, extra: set<Topic>, inbox: seq<Message>)
    | SubscribeOp(agent: AgentId, topic: Topic)
    | UnsubscribeOp(agent: AgentId, topic: Topic)
    | PublishOp(message: Message, chosen: Option<Topic>, order: seq<AgentId>, drained: AgentId -> nat)
    | ConsumeOp(agent: AgentId)
    | ConsumeAllOp(agent: AgentId)
    | AcknowledgeOp(id: string)
    | PopInboxOp(agent: AgentId)

  /** The length of the envelope log after `n` publications: it grows to 2000 and is then cut
      to 1000 by every 1001st publication. */
  function LogLength(n: nat): nat {
    if n <= MAX_ENVELOPE_LOG then n else 1000 + (n - 2001) % 1001
  }

  /** The log holds exactly the latest publications, in order. */
  predicate LogIsSuffix(b: BrokerState) {
    && b.published == |b.pubs|
    && |b.log| == LogLength(|b.pubs|)
    && forall i :: 0 <= i < |b.log| ==> b.log[i] == |b.pubs| - |b.log| + i
  }

  predicate Sound(b: BrokerState) { WellFormed(b) && LogIsSuffix(b) }

  lemma LogLengthBounds(n: nat)
    ensures LogLength(n) <= n && Min(n, 1000) <= LogLength(n) <= MAX_ENVELOPE_LOG
    ensures LogLength(n + 1) == if LogLength(n) == MAX_ENVELOPE_LOG then 1000 else LogLength(n) + 1
  {
    if n > MAX_ENVELOPE_LOG {
      var q, r := (n - 2001) / 1001, (n - 2001) % 1001;
      assert n + 1 - 2001 == 1001 * q + (r + 1);
      if r == 1000 {
        assert (n + 1 - 2001) / 1001 == q + 1 && (n + 1 - 2001) % 1001 == 0;
      } else {
        assert (n + 1 - 2001) / 1001 == q && (n + 1 - 2001) % 1001 == r + 1;
      }
    }
  }

  lemma LoggedStaysSuffix(b: BrokerState, message: Message, topic: Topic)
    requires Sound(b)
    ensures Sound(Logged(b, message, topic))
  {
    LogLengthBounds(|b.pubs|);
  }

  function Apply(b: BrokerState, op: Op): (r: BrokerState)
    requires Sound(b)
    ensures Sound(r)
  {
    LogLengthBounds(|b.pubs|);
    match op
    case RegisterOp(agent, extra, inbox) => Registered(b, agent, extra, inbox)
    case SubscribeOp(agent, topic) => Subscribed(b, agent, topic)
    case UnsubscribeOp(agent, topic) => Unsubscribed(b, agent, topic)
    case PublishOp(message, chosen, order, drained) =>
      LoggedStaysSuffix(b, message, ChosenTopic(message, chosen));
      Published(b, message, chosen, order, drained)
    case ConsumeOp(agent) => Consumed(b, agent)
    case ConsumeAllOp(agent) => ConsumedAll(b, agent)
    case AcknowledgeOp(id) => Acknowledged(b, id)
    case PopInboxOp(agent) => InboxPopped(b, agent)
  }

  function Run(b: BrokerState, ops: seq<Op>): (r: BrokerState)
    requires Sound(b)
    ensures Sound(r)
    decreases |ops|
  {
    if ops == [] then b else Apply(Run(b, ops[..|ops| - 1]), ops[|ops| - 1])
  }

  // ---- accounting --------------------------------------------------------------------------------

  /** The sum of `f` over the boxes. */
  ghost function Total(m: map<AgentId, Box>, f: Box -> nat): nat
    decreases m.Keys
  {
    if m == map[] then 0
    else
      var k :| k in m;
      f(m[k]) + Total(m - {k}, f)
  }

  lemma {:induction false} TotalPick(m: map<AgentId, Box>, f: Box -> nat, k: AgentId)
    requires k in m
    ensures Total(m, f) == f(m[k]) + Total(m - {k}, f)
    decreases m.Keys
  {
    var j :| j in m && Total(m, f) == f(m[j]) + Total(m - {j}, f);
    if j != k {
      TotalPick(m - {j}, f, k);
      TotalPick(m - {k}, f, j);
      assert m - {j} - {k} == m - {k} - {j};
    }
  }

  lemma TotalUpdate(m: map<AgentId, Box>, f: Box -> nat, k: AgentId, v: Box)
    ensures Total(m[k := v], f) == Total(m, f) + f(v) - (if k in m then f(m[k]) else 0)
  {
    TotalPick(m[k := v], f, k);
    if k in m {
      TotalPick(m, f, k);
      assert m[k := v] - {k} == m - {k};
    } else {
      assert m[k := v] - {k} == m;
    }
  }

  function TakenCount(box: Box): nat { |box.taken| }

  function Depth(box: Box): nat { |box.queue| }

  function ReceivedCount(box: Box): nat { |box.received| }

  /** Every delivery is accounted for: consumed, still queued, or thrown away with a queue that a
      second registration replaced; and every delivery reached an inbox or came from the retry. */
  ghost predicate Accounted(b: BrokerState) {
    && b.delivered == Total(b.boxes, TakenCount) + Total(b.boxes, Depth) + b.lost
    && b.delivered == Total(b.boxes, ReceivedCount) + b.resent
  }

  /** The three totals after one box is replaced. */
  lemma BoxReplaced(m: map<AgentId, Box>, k: AgentId, v: Box)
    ensures var old_ := if k in m then m[k] else Box([], [], [], []);
            && Total(m[k := v], TakenCount) == Total(m, TakenCount) + |v.taken| - |old_.taken|
            && Total(m[k := v], Depth) == Total(m, Depth) + |v.queue| - |old_.queue|
            && Total(m[k := v], ReceivedCount) == Total(m, ReceivedCount) + |v.received| - |old_.received|
  {
    TotalUpdate(m, TakenCount, k, v);
    TotalUpdate(m, Depth, k, v);
    TotalUpdate(m, ReceivedCount, k, v);
  }

  lemma TakeKeepsAccounts(b: BrokerState, agent: AgentId, k: nat)
    requires Accounted(b) && agent in b.boxes && k <= |b.boxes[agent].queue|
    ensures Accounted(Take(b, agent, k))
  {
    hide Total;
    BoxReplaced(b.boxes, agent, TakeFrom(b.boxes[agent], k));
  }

  lemma PutNowKeepsAccounts(b: BrokerState, agent: AgentId, n: nat)
    requires WellFormed(b) && n < |b.pubs| && Accounted(b) && agent in b.boxes
    ensures Accounted(PutNow(b, agent, n))
  {
    hide Total;
    BoxReplaced(b.boxes, agent, Put(b.boxes[agent], n, b.pubs[n].message));
  }

  lemma PutAgainKeepsAccounts(b: BrokerState, agent: AgentId, n: nat, drained: nat)
    requires WellFormed(b) && n < |b.pubs| && Accounted(b) && agent in b.boxes
    ensures Accounted(PutAgain(b, agent, n, drained))
  {
    hide Total;
    var k := Min(drained, |b.boxes[agent].queue|);
    TakeKeepsAccounts(b, agent, k);
    var box := TakeFrom(b.boxes[agent], k);
    BoxReplaced(Take(b, agent, k).boxes, agent, box.(queue := box.queue + [n]));
  }

  lemma DeliverKeepsAccounts(b: BrokerState, agent: AgentId, n: nat, drained: nat)
    requires WellFormed(b) && n < |b.pubs| && Accounted(b)
    ensures Accounted(Deliver(b, agent, n, drained))
  {
    hide PutNow, PutAgain, Total;
    if agent in b.boxes {
      PutNowKeepsAccounts(b, agent, n);
      PutAgainKeepsAccounts(b.(retries := b.retries[n := b.retries[n] + 1]), agent, n, drained);
    }
  }

  lemma {:induction false} DeliverAllKeepsAccounts(b: BrokerState, order: seq<AgentId>, n: nat, drained: AgentId -> nat)
    requires WellFormed(b) && n < |b.pubs| && Accounted(b)
    ensures Accounted(DeliverAll(b, order, n, drained))
    decreases |order|
  {
    if order != [] {
      DeliverKeepsAccounts(b, order[0], n, drained(order[0]));
      DeliverAllKeepsAccounts(Deliver(b, order[0], n, drained(order[0])), order[1..], n, drained);
    }
  }

  lemma AckKeepsBoxes(b: BrokerState, id: string)
    requires WellFormed(b) && LogInRange(b)
    ensures var r := Acknowledged(b, id);
            r.boxes == b.boxes && r.delivered == b.delivered && r.lost == b.lost && r.resent == b.resent
  {}

  lemma ApplyKeepsAccounts(b: BrokerState, op: Op)
    requires Sound(b) && Accounted(b)
    ensures Accounted(Apply(b, op))
  {
    hide DeliverAll, Total, Acknowledged;
    match op
    case RegisterOp(agent, extra, inbox) =>
      BoxReplaced(b.boxes, agent, Registered(b, agent, extra, inbox).boxes[agent]);
    case PopInboxOp(agent) =>
      if agent in b.boxes { BoxReplaced(b.boxes, agent, b.boxes[agent].(inbox := [])); }
    case PublishOp(message, chosen, order, drained) =>
      if !Undeliverable(b, message) {
        DeliverAllKeepsAccounts(Logged(b, message, ChosenTopic(message, chosen)), order, |b.pubs|, drained);
      }
    case ConsumeOp(agent) =>
      if agent in b.boxes && b.boxes[agent].queue != [] { TakeKeepsAccounts(b, agent, 1); }
    case ConsumeAllOp(agent) =>
      if agent in b.boxes { TakeKeepsAccounts(b, agent, |b.boxes[agent].queue|); }
    case AcknowledgeOp(id) =>
      AckKeepsBoxes(b, id);
    case _ =>
  }

  /** On every run, with full queues, retries, concurrent consumers and second registrations. */
  lemma {:induction false} DeliveryAccounting(maxQueue: int, ops: seq<Op>)
    ensures Accounted(Run(NewBroker(maxQueue), ops))
    decreases |ops|
  {
    if ops != [] {
      DeliveryAccounting(maxQueue, ops[..|ops| - 1]);
      ApplyKeepsAccounts(Run(NewBroker(maxQueue), ops[..|ops| - 1]), ops[|ops| - 1]);
    }
  }

  // ---- bounded queues --------------------------------------------------------------------------------

  /** No queue is longer than the bound, if there is one. */
  predicate Bounded(b: BrokerState) {
    b.maxQueue > 0 ==> forall a :: a in b.boxes ==> |b.boxes[a].queue| <= b.maxQueue
  }

  lemma DeliverKeepsBound(b: BrokerState, agent: AgentId, n: nat, drained: nat)
    requires WellFormed(b) && n < |b.pubs| && Bounded(b)
    ensures Bounded(Deliver(b, agent, n, drained))
  {}

  lemma {:induction false} DeliverAllKeepsBound(b: BrokerState, order: seq<AgentId>, n: nat, drained: AgentId -> nat)
    requires WellFormed(b) && n < |b.pubs| && Bounded(b)
    ensures Bounded(DeliverAll(b, order, n, drained))
    decreases |order|
  {
    if order != [] {
      DeliverKeepsBound(b, order[0], n, drained(order[0]));
      hide Bounded, Deliver;
      DeliverAllKeepsBound(Deliver(b, order[0], n, drained(order[0])), order[1..], n, drained);
    }
  }

  lemma ApplyKeepsBound(b: BrokerState, op: Op)
    requires Sound(b) && Bounded(b)
    ensures Bounded(Apply(b, op)) && Apply(b, op).maxQueue == b.maxQueue
  {
    if op.PublishOp? && !Undeliverable(b, op.message) {
      var c := Logged(b, op.message, ChosenTopic(op.message, op.chosen));
      DeliverAllKeepsBound(c, op.order, |b.pubs|, op.drained);
    }
    if op.AcknowledgeOp? { AckKeepsBoxes(b, op.id); }
    hide AckTarget, LogLength, DeliverAll, WithSubscriptions, DefaultTopics, Targets;
  }

  /** On every run a positive bound is kept, a queue being full exactly when it holds that many envelopes,
      and with any other bound no queue is ever full. */
  lemma {:induction false} QueuesAreBounded(maxQueue: int, ops: seq<Op>)
    ensures var b := Run(NewBroker(maxQueue), ops);
            && b.maxQueue == maxQueue && Bounded(b)
            && (forall a :: a in b.boxes && maxQueue > 0 ==>
                  && |b.boxes[a].queue| <= maxQueue
                  && (FullFor(b, a) <==> |b.boxes[a].queue| == maxQueue))
            && (forall a :: maxQueue <= 0 ==> !FullFor(b, a))
    decreases |ops|
  {
    if ops != [] {
      var before := Run(NewBroker(maxQueue), ops[..|ops| - 1]);
      QueuesAreBounded(maxQueue, ops[..|ops| - 1]);
      ApplyKeepsBound(before, ops[|ops| - 1]);
      hide Apply;
    }
  }

  // ---- acknowledgement ------------------------------------------------------------------------------

  predicate Acknowledgeable(b: BrokerState, i: nat, id: string)
    requires WellFormed(b) && i < |b.pubs|
  {
    b.pubs[i].message.id == id && !b.acked[i]
  }

  lemma {:induction false} AckScan(b: BrokerState, window: seq<nat>, lo: nat, id: string)
    requires WellFormed(b) && lo + |window| <= |b.pubs|
    requires forall i :: 0 <= i < |window| ==> window[i] == lo + i
    ensures match AckTarget(b, window, id)
            case None => forall i :: lo <= i < lo + |window| ==> !Acknowledgeable(b, i, id)
            case Some(n) =>
              && lo <= n < lo + |window| && Acknowledgeable(b, n, id)
              && forall i :: n < i < lo + |window| ==> !Acknowledgeable(b, i, id)
  {
    if window != [] {
      AckScan(b, window[..|window| - 1], lo, id);
    }
  }

  /** In every sound state, so after every run and however often the log was halved: an
      acknowledgement succeeds exactly when its id names an unacknowledged envelope among the
      last 200 publications; it marks the latest such one and no other; and it is counted in
      total_acked whether it succeeds or not. */
  lemma AckWindow(b: BrokerState, id: string)
    requires Sound(b)
    ensures LogInRange(b)
    ensures var r, n := Acknowledged(b, id), |b.pubs|;
            var target := AckTarget(b, Last(b.log, ACK_WINDOW), id);
            && (target.Some? <==> exists i :: Max(0, n - 200) <= i < n && Acknowledgeable(b, i, id))
            && (target.Some? ==>
                 && r.acked == b.acked[target.value := true]
                 && Acknowledgeable(b, target.value, id)
                 && forall i :: target.value < i < n ==> !Acknowledgeable(b, i, id))
            && (target.None? ==> r.acked == b.acked)
            && r.totalAcked == b.totalAcked + 1
  {
    LogLengthBounds(|b.pubs|);
    var window := Last(b.log, ACK_WINDOW);
    AckScan(b, window, |b.pubs| - |window|, id);
  }
}
