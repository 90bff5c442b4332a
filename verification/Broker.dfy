/** The broker object: envelopes, agents' inboxes, queues and logs, changed in place. Every
    method's effect on the abstract state is one operation of BrokerSpec. */
module Broker {
  import opened Numbers
  import opened Options
  import opened Messages
  import opened BrokerSpec

  class MessageEnvelope {
    const message: Message
    const topic: Topic
    var acked: bool
    var retryCount: nat
    ghost const number: nat  // publication number

    constructor (message: Message, topic: Topic, ghost number: nat)
      ensures this.message == message && this.topic == topic && this.number == number
      ensures !acked && retryCount == 0
    {
      this.message, this.topic, this.number := message, topic, number;
      acked, retryCount := false, 0;
    }
  }

  /** The messaging half of an agent. */
  class Agent {
    const id: AgentId
    var inbox: seq<Message>

    constructor (id: AgentId)
      ensures this.id == id && inbox == []
    {
      this.id, inbox := id, [];
    }

    method ReceiveMessage(message: Message)
      modifies this
      ensures inbox == old(inbox) + [message]
    {
      inbox := inbox + [message];
    }

    method PopInbox() returns (messages: seq<Message>)
      modifies this
      ensures messages == old(inbox) && inbox == []
    {
      messages := inbox;
      inbox := [];
    }
  }

  ghost function NumbersOf(envelopes: seq<MessageEnvelope>): (r: seq<nat>)
    ensures |r| == |envelopes|
  {
    seq(|envelopes|, i requires 0 <= i < |envelopes| => envelopes[i].number)
  }

  ghost function PublicationsOf(history: seq<MessageEnvelope>): (r: seq<Publication>)
    ensures |r| == |history|
  {
    seq(|history|, i requires 0 <= i < |history| => Publication(history[i].message, history[i].topic))
  }

  ghost function AcksOf(history: seq<MessageEnvelope>, envelopes: set<MessageEnvelope>): (r: seq<bool>)
    requires forall i :: 0 <= i < |history| ==> history[i] in envelopes
    reads envelopes
    ensures |r| == |history|
  {
    seq(|history|, i requires 0 <= i < |history| reads envelopes => history[i].acked)
  }

  ghost function RetriesOf(history: seq<MessageEnvelope>, envelopes: set<MessageEnvelope>): (r: seq<nat>)
    requires forall i :: 0 <= i < |history| ==> history[i] in envelopes
    reads envelopes
    ensures |r| == |history|
  {
    seq(|history|, i requires 0 <= i < |history| reads envelopes => history[i].retryCount)
  }

  /** Everything the agent's consumer took and everything its inbox was given. */
  datatype Trace = Trace(taken: seq<nat>, received: seq<Message>)

  ghost function TraceOf(traces: map<AgentId, Trace>, agent: AgentId): Trace {
    if agent in traces then traces[agent] else Trace([], [])
  }

  ghost predicate Linked(queues: map<AgentId, seq<MessageEnvelope>>, refs: map<AgentId, Agent>, agents: set<Agent>) {
    forall a :: a in queues ==> a in refs && refs[a] in agents && refs[a].id == a
  }

  ghost function BoxesOf(queues: map<AgentId, seq<MessageEnvelope>>, refs: map<AgentId, Agent>, agents: set<Agent>,
                         traces: map<AgentId, Trace>): (r: map<AgentId, Box>)
    requires Linked(queues, refs, agents)
    reads agents
    ensures r.Keys == queues.Keys
  {
    map a | a in queues ::
      Box(NumbersOf(queues[a]), refs[a].inbox, TraceOf(traces, a).taken, TraceOf(traces, a).received)
  }

  lemma BoxOf(queues: map<AgentId, seq<MessageEnvelope>>, refs: map<AgentId, Agent>, agents: set<Agent>,
              traces: map<AgentId, Trace>, agent: AgentId)
    requires Linked(queues, refs, agents) && agent in queues
    ensures BoxesOf(queues, refs, agents, traces)[agent] ==
            Box(NumbersOf(queues[agent]), refs[agent].inbox,
                TraceOf(traces, agent).taken, TraceOf(traces, agent).received)
  {}

  lemma BoxWithQueue(queues: map<AgentId, seq<MessageEnvelope>>, refs: map<AgentId, Agent>, agents: set<Agent>,
                     traces: map<AgentId, Trace>, agent: AgentId, queue: seq<MessageEnvelope>)
    requires Linked(queues, refs, agents) && agent in queues
    ensures Linked(queues[agent := queue], refs, agents)
    ensures var boxes := BoxesOf(queues, refs, agents, traces);
            BoxesOf(queues[agent := queue], refs, agents, traces)
              == boxes[agent := boxes[agent].(queue := NumbersOf(queue))]
  {}

  lemma BoxWithTrace(queues: map<AgentId, seq<MessageEnvelope>>, refs: map<AgentId, Agent>, agents: set<Agent>,
                     traces: map<AgentId, Trace>, agent: AgentId, trace: Trace)
    requires Linked(queues, refs, agents) && agent in queues
    ensures var boxes := BoxesOf(queues, refs, agents, traces);
            BoxesOf(queues, refs, agents, traces[agent := trace]) ==
            boxes[agent := boxes[agent].(taken := trace.taken, received := trace.received)]
  {}

  lemma BoxRegistered(queues: map<AgentId, seq<MessageEnvelope>>, refs: map<AgentId, Agent>, agents: set<Agent>,
                      traces: map<AgentId, Trace>, agent: Agent)
    requires Linked(queues, refs, agents)
    ensures Linked(queues[agent.id := []], refs[agent.id := agent], agents + {agent})
    ensures var trace := TraceOf(traces, agent.id);
            BoxesOf(queues[agent.id := []], refs[agent.id := agent], agents + {agent}, traces) ==
            BoxesOf(queues, refs, agents, traces)[agent.id := Box([], agent.inbox, trace.taken, trace.received)]
  {}

  /** `e` is the envelope its number says it is. */
  ghost predicate Known(e: MessageEnvelope, history: seq<MessageEnvelope>) {
    e.number < |history| && history[e.number] == e
  }

  ghost predicate AllKnown(s: seq<MessageEnvelope>, history: seq<MessageEnvelope>) {
    forall i :: 0 <= i < |s| ==> Known(s[i], history)
  }

  ghost predicate QueuesKnown(queues: map<AgentId, seq<MessageEnvelope>>, history: seq<MessageEnvelope>) {
    forall a :: a in queues ==> AllKnown(queues[a], history)
  }

  lemma KnownSplit(s: seq<MessageEnvelope>, k: nat, history: seq<MessageEnvelope>)
    requires AllKnown(s, history) && k <= |s|
    ensures AllKnown(s[..k], history) && AllKnown(s[k..], history)
  {}

  lemma KnownAppend(s: seq<MessageEnvelope>, e: MessageEnvelope, history: seq<MessageEnvelope>)
    requires AllKnown(s, history) && Known(e, history)
    ensures AllKnown(s + [e], history)
  {}

  lemma NoneNumbered()
    ensures NumbersOf([]) == []
    ensures forall h :: AllKnown([], h)
  {}

  lemma NumbersAppend(s: seq<MessageEnvelope>, e: MessageEnvelope)
    ensures NumbersOf(s + [e]) == NumbersOf(s) + [e.number]
  {}

  lemma NumbersSplit(s: seq<MessageEnvelope>, k: nat)
    requires k <= |s|
    ensures NumbersOf(s[..k]) == NumbersOf(s)[..k] && NumbersOf(s[k..]) == NumbersOf(s)[k..]
  {}

  // ---- the pieces of a delivery, and how they compose --------------------------------------

  function Queued(b: BrokerState, agent: AgentId, n: nat): BrokerState
    requires agent in b.boxes
  {
    WithBox(b, agent, b.boxes[agent].(queue := b.boxes[agent].queue + [n]))
  }

  function Counted(b: BrokerState, retried: bool): BrokerState {
    b.(delivered := b.delivered + 1, resent := b.resent + if retried then 1 else 0)
  }

  function Handed(b: BrokerState, agent: AgentId, message: Message): BrokerState
    requires agent in b.boxes
  {
    var box := b.boxes[agent];
    WithBox(b, agent, box.(inbox := box.inbox + [message], received := box.received + [message]))
  }

  function Refused(b: BrokerState, n: nat): BrokerState
    requires n < |b.retries|
  {
    b.(retries := b.retries[n := b.retries[n] + 1])
  }

  lemma PutInThree(b: BrokerState, agent: AgentId, n: nat)
    requires n < |b.pubs| && agent in b.boxes
    ensures agent in Queued(b, agent, n).boxes
    ensures Handed(Counted(Queued(b, agent, n), false), agent, b.pubs[n].message) == PutNow(b, agent, n)
  {
    var box := b.boxes[agent];
    WithBoxTwice(b, agent, box.(queue := box.queue + [n]), Put(box, n, b.pubs[n].message));
  }

  /** `Deliver` as the composition the object computes. */
  lemma DeliverInPieces(b: BrokerState, agent: AgentId, n: nat, drained: nat)
    requires WellFormed(b) && n < |b.pubs| && agent in b.boxes
    ensures !FullFor(b, agent) ==> Deliver(b, agent, n, drained) == PutNow(b, agent, n)
    ensures FullFor(b, agent) ==>
              var c := Refused(b, n);
              Deliver(b, agent, n, drained) ==
                if c.retries[n] < MAX_RETRIES then PutAgain(c, agent, n, drained) else DeadLettered(c, n)
  {}

  function Admitted(b: BrokerState, message: Message, topic: Topic): BrokerState {
    b.(pubs := b.pubs + [Publication(message, topic)], acked := b.acked + [false], retries := b.retries + [0])
  }

  function Recorded(b: BrokerState, n: nat): BrokerState {
    b.(log := AppendHalving(b.log, n, MAX_ENVELOPE_LOG), published := b.published + 1)
  }

  function Buried(b: BrokerState, n: nat): BrokerState {
    b.(dlq := AppendHalving(b.dlq, n, MAX_DLQ), totalDlq := b.totalDlq + 1)
  }

  lemma PublishedInPieces(b: BrokerState, message: Message, topic: Option<Topic>, drained: AgentId -> nat)
    requires WellFormed(b)
    ensures var t := ChosenTopic(message, topic);
            var c := Logged(b, message, t);
            && WellFormed(c) && |b.pubs| < |c.pubs|
            && c == Recorded(Admitted(b, message, t), |b.pubs|)
            && forall order: seq<AgentId> {:trigger Published(b, message, topic, order, drained)} ::
                 Published(b, message, topic, order, drained) ==
                 if Undeliverable(b, message) then Buried(c, |b.pubs|) else DeliverAll(c, order, |b.pubs|, drained)
  {}

  lemma DeliverNone(b: BrokerState, n: nat, drained: AgentId -> nat)
    requires WellFormed(b) && n < |b.pubs|
    ensures DeliverAll(b, [], n, drained) == b
  {}

  lemma {:induction false} DeliverOneMore(b: BrokerState, order: seq<AgentId>, agent: AgentId, n: nat,
                                          drained: AgentId -> nat)
    requires WellFormed(b) && n < |b.pubs|
    ensures DeliverAll(b, order + [agent], n, drained)
         == Deliver(DeliverAll(b, order, n, drained), agent, n, drained(agent))
    decreases |order|
  {
    if order == [] {
      assert DeliverAll(b, [agent], n, drained) == DeliverAll(Deliver(b, agent, n, drained(agent)), [], n, drained);
    } else {
      DeliverOneMore(Deliver(b, order[0], n, drained(order[0])), order[1..], agent, n, drained);
      assert (order + [agent])[1..] == order[1..] + [agent];
    }
  }

  lemma OrderOneMore(order: seq<AgentId>, targets: set<AgentId>, remaining: set<AgentId>, agent: AgentId)
    requires agent in remaining && remaining <= targets && IsOrdering(order, targets - remaining)
    ensures IsOrdering(order + [agent], targets - (remaining - {agent}))
  {}

  lemma RetryKeepsCount(b: BrokerState, agent: AgentId, n: nat, drained: nat)
    requires WellFormed(b) && n < |b.pubs| && agent in b.boxes
    ensures var c := Refused(b, n);
            && WellFormed(c) && agent in c.boxes && |c.retries| == |b.retries|
            && n < |c.pubs| && PutAgain(c, agent, n, drained).retries == c.retries
  {}

  lemma PutAgainInPieces(b: BrokerState, agent: AgentId, n: nat, drained: nat)
    requires WellFormed(b) && n < |b.pubs| && agent in b.boxes
    ensures var c := Take(b, agent, Min(drained, |b.boxes[agent].queue|));
            && agent in c.boxes
            && PutAgain(b, agent, n, drained) == if FullFor(c, agent) then c else Counted(Queued(c, agent, n), true)
  {}

  lemma TakeInTwo(b: BrokerState, agent: AgentId, k: nat)
    requires agent in b.boxes && k <= |b.boxes[agent].queue|
    ensures var box := b.boxes[agent];
            var now := box.(queue := box.queue[k..]);
            var c := WithBox(b, agent, now);
            && agent in c.boxes && c.boxes[agent] == now
            && WithBox(c, agent, now.(taken := box.taken + box.queue[..k], received := box.received))
               == Take(b, agent, k)
  {
    WithBoxTwice(b, agent, b.boxes[agent].(queue := b.boxes[agent].queue[k..]), TakeFrom(b.boxes[agent], k));
  }

  /** What the broker does not remember: every envelope ever published, the objects it ever
      reached, and the histories of BrokerState. */
  datatype Past = Past(
    history: seq<MessageEnvelope>,
    envelopes: set<MessageEnvelope>,
    agents: set<Agent>,
    traces: map<AgentId, Trace>,
    lost: nat,
    resent: nat)

  ghost predicate SameObjects(p: Past, q: Past) {
    p.history == q.history && p.envelopes == q.envelopes && p.agents == q.agents
  }

  class MessageBroker {
    const maxQueue: int
    var agentQueues: map<AgentId, seq<MessageEnvelope>>
    var subscriptions: map<Topic, set<AgentId>>
    var agentRefs: map<AgentId, Agent>
    var envelopeLog: seq<MessageEnvelope>
    var dlq: seq<MessageEnvelope>
    var totalPublished: nat
    var totalDelivered: nat
    var totalAcked: nat
    var totalDlq: nat

    ghost var past: Past

    ghost predicate Valid()
      reads this
    {
      && Linked(agentQueues, agentRefs, past.agents)
      && past.traces.Keys <= agentQueues.Keys
      && (forall i :: 0 <= i < |past.history| ==> past.history[i] in past.envelopes && past.history[i].number == i)
      && QueuesKnown(agentQueues, past.history)
      && AllKnown(envelopeLog, past.history)
      && AllKnown(dlq, past.history)
    }

    ghost function View(): (b: BrokerState)
      requires Valid()
      reads this, past.envelopes, past.agents
      ensures WellFormed(b) && LogInRange(b) && |b.pubs| == |past.history| && b.boxes.Keys == agentQueues.Keys
    {
      BrokerState(maxQueue, PublicationsOf(past.history), AcksOf(past.history, past.envelopes),
                  RetriesOf(past.history, past.envelopes), BoxesOf(agentQueues, agentRefs, past.agents, past.traces),
                  subscriptions, NumbersOf(envelopeLog), NumbersOf(dlq),
                  totalPublished, totalDelivered, totalAcked, totalDlq, past.lost, past.resent)
    }

    constructor (maxQueue: int)
      ensures Valid() && View() == NewBroker(maxQueue) && past.envelopes == {} && past.agents == {}
    {
      this.maxQueue := maxQueue;
      agentQueues, subscriptions, agentRefs := map[], map[], map[];
      envelopeLog, dlq := [], [];
      totalPublished, totalDelivered, totalAcked, totalDlq := 0, 0, 0, 0;
      past := Past([], {}, {}, map[], 0, 0);
    }

    method Register(agent: Agent, extraTopics: set<Topic>)
      requires Valid()
      modifies this
      ensures Valid() && agentRefs == old(agentRefs)[agent.id := agent]
      ensures past.agents == old(past.agents) + {agent} && past.envelopes == old(past.envelopes)
      ensures View() == Registered(old(View()), agent.id, extraTopics, agent.inbox)
    {
      hide NumbersOf, PublicationsOf, AcksOf, RetriesOf, WithSubscriptions, DefaultTopics, BoxesOf, AllKnown, Linked;
      var aid := agent.id;
      BoxRegistered(agentQueues, agentRefs, past.agents, past.traces, agent);
      NoneNumbered();
      if aid in agentQueues { BoxOf(agentQueues, agentRefs, past.agents, past.traces, aid); }
      past := past.(lost := past.lost + (if aid in agentQueues then |agentQueues[aid]| else 0),
                    agents := past.agents + {agent});
      agentQueues := agentQueues[aid := []];
      agentRefs := agentRefs[aid := agent];
      subscriptions := WithSubscriptions(subscriptions, aid, DefaultTopics(aid) + extraTopics);
    }

    method Subscribe(agentId: AgentId, topic: Topic)
      requires Valid()
      modifies this`subscriptions
      ensures View() == Subscribed(old(View()), agentId, topic)
    {
      var subscribers := if topic in subscriptions then subscriptions[topic] else {};
      subscriptions := subscriptions[topic := subscribers + {agentId}];
    }

    method Unsubscribe(agentId: AgentId, topic: Topic)
      requires Valid()
      modifies this`subscriptions
      ensures View() == Unsubscribed(old(View()), agentId, topic)
    {
      var subscribers := if topic in subscriptions then subscriptions[topic] else {};
      subscriptions := subscriptions[topic := subscribers - {agentId}];
    }

    // ---- queues: put_nowait, get, and a consumer in another thread ---------------------------

    lemma ViewOfQueue(agentId: AgentId)
      requires Valid() && agentId in agentQueues
      ensures View().boxes.Keys == agentQueues.Keys
      ensures View().boxes[agentId].queue == NumbersOf(agentQueues[agentId])
      ensures View().boxes[agentId].taken == TraceOf(past.traces, agentId).taken
      ensures View().boxes[agentId].received == TraceOf(past.traces, agentId).received
      ensures View().maxQueue == maxQueue
      ensures AllKnown(agentQueues[agentId], past.history)
    {}

    method SetQueue(agentId: AgentId, queue: seq<MessageEnvelope>)
      requires Valid() && agentId in agentQueues && AllKnown(queue, past.history)
      modifies this`agentQueues
      ensures Valid() && agentQueues == old(agentQueues)[agentId := queue]
      ensures var b := old(View());
              View() == WithBox(b, agentId, b.boxes[agentId].(queue := NumbersOf(queue)))
    {
      hide NumbersOf, PublicationsOf, AcksOf, RetriesOf, BoxesOf, AllKnown, Linked;
      BoxWithQueue(agentQueues, agentRefs, past.agents, past.traces, agentId, queue);
      agentQueues := agentQueues[agentId := queue];
    }

    ghost method RecordTrace(agentId: AgentId, trace: Trace)
      requires Valid() && agentId in agentQueues
      modifies this`past
      ensures Valid() && SameObjects(past, old(past)) && past.traces == old(past).traces[agentId := trace]
      ensures var b := old(View());
              View() == WithBox(b, agentId, b.boxes[agentId].(taken := trace.taken, received := trace.received))
    {
      hide NumbersOf, PublicationsOf, AcksOf, RetriesOf, BoxesOf, AllKnown, QueuesKnown, Linked;
      BoxWithTrace(agentQueues, agentRefs, past.agents, past.traces, agentId, trace);
      past := past.(traces := past.traces[agentId := trace]);
    }

    method PutNowait(agentId: AgentId, envelope: MessageEnvelope) returns (ok: bool)
      requires Valid() && Known(envelope, past.history) && agentId in agentQueues
      modifies this`agentQueues
      ensures Valid() && agentId in agentQueues
      ensures var b := old(View());
              && ok == !FullFor(b, agentId)
              && View() == if ok then Queued(b, agentId, envelope.number) else b
    {
      ViewOfQueue(agentId);
      hide View, NumbersOf, AllKnown;
      var queue := agentQueues[agentId];
      ok := !IsFull(maxQueue, |queue|);
      if ok {
        NumbersAppend(queue, envelope);
        KnownAppend(queue, envelope, past.history);
        SetQueue(agentId, queue + [envelope]);
      }
    }

    /** The agent's own thread takes the first `count` envelopes. */
    method TakeFirst(agentId: AgentId, count: nat) returns (envelopesTaken: seq<MessageEnvelope>)
      requires Valid() && agentId in agentQueues && count <= |agentQueues[agentId]|
      modifies this`agentQueues, this`past
      ensures Valid() && SameObjects(past, old(past))
      ensures agentId in agentQueues && agentQueues[agentId] == old(agentQueues)[agentId][count..]
      ensures envelopesTaken == old(agentQueues)[agentId][..count]
      ensures View() == Take(old(View()), agentId, count)
    {
      ViewOfQueue(agentId);
      ghost var b := View();
      TakeInTwo(b, agentId, count);
      hide View, NumbersOf, AllKnown, TraceOf, Take, Known, QueuesKnown, Linked, WithBox;
      var queue := agentQueues[agentId];
      envelopesTaken := queue[..count];
      NumbersSplit(queue, count);
      KnownSplit(queue, count, past.history);
      SetQueue(agentId, queue[count..]);
      ghost var trace := TraceOf(past.traces, agentId);
      RecordTrace(agentId, Trace(trace.taken + NumbersOf(envelopesTaken), trace.received));
    }

    method Consume(agentId: AgentId) returns (envelope: Option<MessageEnvelope>)
      requires Valid()
      modifies this`agentQueues, this`past
      ensures Valid() && View() == Consumed(old(View()), agentId)
      ensures envelope == if agentId in old(agentQueues) && old(agentQueues)[agentId] != []
                          then Some(old(agentQueues)[agentId][0]) else None
    {
      if agentId in agentQueues { ViewOfQueue(agentId); }
      if agentId !in agentQueues || agentQueues[agentId] == [] {
        return None;
      }
      hide View, Take, NumbersOf;
      var first := TakeFirst(agentId, 1);
      envelope := Some(first[0]);
    }

    method ConsumeAll(agentId: AgentId) returns (result: seq<MessageEnvelope>)
      requires Valid()
      modifies this`agentQueues, this`past
      ensures Valid() && View() == ConsumedAll(old(View()), agentId)
      ensures result == if agentId in old(agentQueues) then old(agentQueues)[agentId] else []
    {
      if agentId !in agentQueues {
        return [];
      }
      ViewOfQueue(agentId);
      TakenIsConsumed(View(), agentId);
      hide View, ConsumedAll, Take, NumbersOf;
      result := DrainQueue(agentId);
    }

    /** `result` is what has been taken so far from a queue that held `queue`. */
    ghost predicate Draining(agentId: AgentId, b: BrokerState, queue: seq<MessageEnvelope>,
                             result: seq<MessageEnvelope>)
      reads this, past.envelopes, past.agents
    {
      && Valid() && agentId in agentQueues
      && agentId in b.boxes && |b.boxes[agentId].queue| == |queue|
      && result <= queue && agentQueues[agentId] == queue[|result|..]
      && View() == Take(b, agentId, |result|)
    }

    method GetNowait(agentId: AgentId, result: seq<MessageEnvelope>, ghost b: BrokerState,
                     ghost queue: seq<MessageEnvelope>)
      returns (longer: seq<MessageEnvelope>)
      requires Draining(agentId, b, queue, result) && agentQueues[agentId] != []
      modifies this`agentQueues, this`past
      ensures Draining(agentId, b, queue, longer) && |longer| == |result| + 1
    {
      hide View, Take, TakeFrom, NumbersOf, Linked, Known, AllKnown, QueuesKnown, Valid;
      TakeTwice(b, agentId, |result|, 1);
      var first := TakeFirst(agentId, 1);
      longer := result + first;
    }

    /** The loop of `ConsumeAll`. */
    method DrainQueue(agentId: AgentId) returns (result: seq<MessageEnvelope>)
      requires Valid() && agentId in agentQueues
      modifies this`agentQueues, this`past
      ensures Valid() && result == old(agentQueues)[agentId]
      ensures View() == Take(old(View()), agentId, |old(View()).boxes[agentId].queue|)
    {
      ViewOfQueue(agentId);
      ghost var queue, b := agentQueues[agentId], View();
      TakeNothing(b, agentId);
      hide View, Take, TakeFrom, NumbersOf, Linked, Known, AllKnown, QueuesKnown, Valid;
      result := [];
      while agentQueues[agentId] != []
        invariant Draining(agentId, b, queue, result)
        decreases |queue| - |result|
      {
        result := GetNowait(agentId, result, b, queue);
      }
    }

    // ---- publish ------------------------------------------------------------------------------

    method CountDelivery(ghost retried: bool)
      requires Valid()
      modifies this`totalDelivered, this`past
      ensures Valid() && SameObjects(past, old(past))
      ensures View() == Counted(old(View()), retried)
    {
      hide NumbersOf, PublicationsOf, AcksOf, RetriesOf, BoxesOf, AllKnown, QueuesKnown, Linked;
      totalDelivered := totalDelivered + 1;
      past := past.(resent := past.resent + if retried then 1 else 0);
    }

    method DeadLetter(envelope: MessageEnvelope)
      requires Valid() && Known(envelope, past.history)
      modifies this`dlq, this`totalDlq
      ensures Valid()
      ensures View() == DeadLettered(old(View()), envelope.number)
    {
      hide PublicationsOf, AcksOf, RetriesOf, BoxesOf, QueuesKnown, Linked;
      NumbersAppend(dlq, envelope);
      dlq := dlq + [envelope];
      totalDlq := totalDlq + 1;
    }

    method CountRefusal(envelope: MessageEnvelope)
      requires Valid() && Known(envelope, past.history)
      modifies envelope`retryCount
      ensures envelope.retryCount == View().retries[envelope.number]
      ensures View() == Refused(old(View()), envelope.number)
    {
      hide NumbersOf, PublicationsOf, BoxesOf, QueuesKnown, Linked, AllKnown;
      envelope.retryCount := envelope.retryCount + 1;
      ghost var was := old(RetriesOf(past.history, past.envelopes));
      assert RetriesOf(past.history, past.envelopes) == was[envelope.number := was[envelope.number] + 1];
      assert AcksOf(past.history, past.envelopes) == old(AcksOf(past.history, past.envelopes));
    }

    method HandOver(agentId: AgentId, message: Message)
      requires Valid() && agentId in agentQueues
      modifies this`past, past.agents
      ensures Valid() && SameObjects(past, old(past)) && agentId in agentQueues
      ensures View() == Handed(old(View()), agentId, message)
    {
      ViewOfQueue(agentId);
      ghost var b, trace := View(), TraceOf(past.traces, agentId);
      ghost var box := b.boxes[agentId];
      ghost var told := box.(inbox := box.inbox + [message]);
      WithBoxTwice(b, agentId, told, told.(taken := trace.taken, received := trace.received + [message]));
      hide View, TraceOf, Linked, WithBox, AllKnown, Known, QueuesKnown;
      TellInbox(agentId, message);
      RecordTrace(agentId, Trace(trace.taken, trace.received + [message]));
    }

    method TellInbox(agentId: AgentId, message: Message)
      requires Valid() && agentId in agentQueues
      modifies past.agents
      ensures var b := old(View());
              View() == WithBox(b, agentId, b.boxes[agentId].(inbox := b.boxes[agentId].inbox + [message]))
    {
      hide NumbersOf, PublicationsOf, AcksOf, RetriesOf, QueuesKnown, AllKnown;
      var agent := agentRefs[agentId];
      agent.ReceiveMessage(message);
      ghost var was := old(BoxesOf(agentQueues, agentRefs, past.agents, past.traces));
      assert BoxesOf(agentQueues, agentRefs, past.agents, past.traces)
          == was[agentId := was[agentId].(inbox := was[agentId].inbox + [message])];
    }

    /** The agent reads its inbox (`BaseAgent.pop_inbox`), seen from the broker. */
    method PopInboxOf(agentId: AgentId) returns (messages: seq<Message>)
      requires Valid() && agentId in agentQueues
      modifies past.agents
      ensures View() == InboxPopped(old(View()), agentId)
      ensures messages == old(View()).boxes[agentId].inbox
    {
      hide NumbersOf, PublicationsOf, AcksOf, RetriesOf, QueuesKnown, AllKnown;
      var agent := agentRefs[agentId];
      messages := agent.PopInbox();
      ghost var was := old(BoxesOf(agentQueues, agentRefs, past.agents, past.traces));
      assert BoxesOf(agentQueues, agentRefs, past.agents, past.traces) == was[agentId := was[agentId].(inbox := [])];
    }

    /** `drained` envelopes are consumed by the agent's own thread while a refused put waits. */
    method Enqueue(agentId: AgentId, envelope: MessageEnvelope, drained: nat)
      requires Valid() && Known(envelope, past.history)
      modifies this`agentQueues, this`totalDelivered, this`dlq, this`totalDlq, this`past
      modifies past.agents, envelope`retryCount
      ensures Valid() && SameObjects(past, old(past))
      ensures View() == Deliver(old(View()), agentId, envelope.number, drained)
    {
      if agentId !in agentQueues {
        return;
      }
      DeliverInPieces(View(), agentId, envelope.number, drained);
      PutInThree(View(), agentId, envelope.number);
      assert envelope.message == View().pubs[envelope.number].message;
      hide *;
      var ok := PutNowait(agentId, envelope);
      if ok {
        Accept(agentId, envelope);
      } else {
        Refuse(agentId, envelope, drained);
      }
    }

    /** The rest of a put that succeeded at once. */
    method Accept(agentId: AgentId, envelope: MessageEnvelope)
      requires Valid() && agentId in agentQueues
      modifies this`totalDelivered, this`past, past.agents
      ensures Valid() && SameObjects(past, old(past))
      ensures agentId in View().boxes
      ensures View() == Handed(Counted(old(View()), false), agentId, envelope.message)
    {
      ViewOfQueue(agentId);
      hide View, Valid, NumbersOf, Linked, Known, QueuesKnown, AllKnown, TraceOf, WithBox;
      CountDelivery(false);
      HandOver(agentId, envelope.message);
    }

    /** The `except Full` branch. */
    method Refuse(agentId: AgentId, envelope: MessageEnvelope, drained: nat)
      requires Valid() && Known(envelope, past.history) && agentId in agentQueues
      modifies this`agentQueues, this`totalDelivered, this`dlq, this`totalDlq, this`past, envelope`retryCount
      ensures Valid() && SameObjects(past, old(past))
      ensures var c := Refused(old(View()), envelope.number);
              View() == if c.retries[envelope.number] < MAX_RETRIES
                        then PutAgain(c, agentId, envelope.number, drained)
                        else DeadLettered(c, envelope.number)
    {
      ViewOfQueue(agentId);
      RetryKeepsCount(View(), agentId, envelope.number, drained);
      CountRefusal(envelope);
      if envelope.retryCount < MAX_RETRIES {
        Retry(agentId, envelope, drained);
      }
      if envelope.retryCount >= MAX_RETRIES {
        DeadLetter(envelope);
      }
    }

    /** The second put, after the consumer had time to take `drained` envelopes. */
    method Retry(agentId: AgentId, envelope: MessageEnvelope, drained: nat)
      requires Valid() && Known(envelope, past.history) && agentId in agentQueues
      modifies this`agentQueues, this`totalDelivered, this`past
      ensures Valid() && SameObjects(past, old(past))
      ensures View() == PutAgain(old(View()), agentId, envelope.number, drained)
    {
      ViewOfQueue(agentId);
      PutAgainInPieces(View(), agentId, envelope.number, drained);
      hide View, Valid, NumbersOf, Linked, QueuesKnown, AllKnown, TraceOf;
      hide Take, PutAgain, Counted, Queued, FullFor, DeliveryFrame;
      var _ := TakeFirst(agentId, Min(drained, |agentQueues[agentId]|));
      PutAndCount(agentId, envelope);
    }

    method PutAndCount(agentId: AgentId, envelope: MessageEnvelope)
      requires Valid() && Known(envelope, past.history) && agentId in agentQueues
      modifies this`agentQueues, this`totalDelivered, this`past
      ensures Valid() && SameObjects(past, old(past))
      ensures agentId in old(View()).boxes
      ensures View() == if FullFor(old(View()), agentId) then old(View())
                        else Counted(Queued(old(View()), agentId, envelope.number), true)
    {
      ViewOfQueue(agentId);
      hide View, Valid, NumbersOf, Linked, QueuesKnown, AllKnown, TraceOf, Counted, Queued, FullFor;
      var ok := PutNowait(agentId, envelope);
      if ok {
        CountDelivery(true);
      }
    }

    /** A new envelope: it is numbered by its place in the history of publications. */
    method NewEnvelope(message: Message, topic: Topic) returns (envelope: MessageEnvelope)
      requires Valid()
      modifies this`past
      ensures Valid() && fresh(envelope) && Known(envelope, past.history) && envelope.message == message
      ensures envelope.number == |old(past).history| && past.agents == old(past).agents
      ensures past.envelopes == old(past).envelopes + {envelope}
      ensures View() == Admitted(old(View()), message, topic)
    {
      hide NumbersOf, BoxesOf, Linked;
      envelope := new MessageEnvelope(message, topic, |past.history|);
      past := past.(history := past.history + [envelope], envelopes := past.envelopes + {envelope});
    }

    method LogEnvelope(envelope: MessageEnvelope)
      requires Valid() && Known(envelope, past.history)
      modifies this`envelopeLog, this`totalPublished
      ensures Valid()
      ensures View() == Recorded(old(View()), envelope.number)
    {
      hide PublicationsOf, AcksOf, RetriesOf, BoxesOf, Linked, QueuesKnown;
      NumbersAppend(envelopeLog, envelope);
      envelopeLog := envelopeLog + [envelope];
      if |envelopeLog| > MAX_ENVELOPE_LOG {
        NumbersSplit(envelopeLog, |envelopeLog| - MAX_ENVELOPE_LOG / 2);
        envelopeLog := envelopeLog[|envelopeLog| - MAX_ENVELOPE_LOG / 2..];
      }
      totalPublished := totalPublished + 1;
    }

    /** The dead-letter append of `publish`, which trims. */
    method DeadLetterTrimming(envelope: MessageEnvelope)
      requires Valid() && Known(envelope, past.history)
      modifies this`dlq, this`totalDlq
      ensures Valid()
      ensures View() == Buried(old(View()), envelope.number)
    {
      hide PublicationsOf, AcksOf, RetriesOf, BoxesOf, Linked, QueuesKnown;
      NumbersAppend(dlq, envelope);
      dlq := dlq + [envelope];
      if |dlq| > MAX_DLQ {
        NumbersSplit(dlq, |dlq| - MAX_DLQ / 2);
        dlq := dlq[|dlq| - MAX_DLQ / 2..];
      }
      totalDlq := totalDlq + 1;
    }

    /** A broadcast walks the subscriber set in some order, which is reported. */
    method Broadcast(targets: set<AgentId>, envelope: MessageEnvelope, drained: AgentId -> nat)
      returns (ghost order: seq<AgentId>)
      requires Valid() && Known(envelope, past.history)
      modifies this`agentQueues, this`totalDelivered, this`dlq, this`totalDlq, this`past
      modifies past.agents, envelope`retryCount
      ensures Valid() && SameObjects(past, old(past))
      ensures IsOrdering(order, targets)
      ensures View() == DeliverAll(old(View()), order, envelope.number, drained)
    {
      ghost var b := View();
      hide View, Valid, DeliverAll, Deliver, Linked, QueuesKnown, AllKnown, Known;
      order := [];
      var remaining := targets;
      DeliverNone(b, envelope.number, drained);
      while remaining != {}
        invariant Valid() && SameObjects(past, old(past)) && Known(envelope, past.history)
        invariant remaining <= targets && IsOrdering(order, targets - remaining)
        invariant View() == DeliverAll(b, order, envelope.number, drained)
        decreases remaining
      {
        var aid :| aid in remaining;
        DeliverOneMore(b, order, aid, envelope.number, drained);
        OrderOneMore(order, targets, remaining, aid);
        Enqueue(aid, envelope, drained(aid));
        order := order + [aid];
        remaining := remaining - {aid};
      }
      assert targets - {} == targets;
    }

    method Publish(message: Message, topic: Option<Topic>, drained: AgentId -> nat)
      returns (envelope: MessageEnvelope, ghost order: seq<AgentId>)
      requires Valid()
      modifies this, past.agents
      ensures Valid() && fresh(envelope) && envelope.message == message
      ensures past.agents == old(past).agents && past.envelopes == old(past).envelopes + {envelope}
      ensures IsOrdering(order, Targets(old(View()), message, ChosenTopic(message, topic)))
      ensures View() == Published(old(View()), message, topic, order, drained)
    {
      var t := if topic.Some? then topic.value else TopicOf(message.intent);
      ghost var b := View();
      assert (message.receiver in agentQueues) == (message.receiver in b.boxes);
      assert subscriptions == b.subs;
      PublishedInPieces(b, message, topic, drained);
      DeliverNone(Logged(b, message, t), |b.pubs|, drained);
      hide View, Valid, Linked, QueuesKnown, AllKnown, Known, DeliverAll, Logged, Published, Admitted, Recorded, Buried;
      envelope := NewEnvelope(message, t);
      LogEnvelope(envelope);
      if message.receiver == ALL {
        order := Broadcast((if t in subscriptions then subscriptions[t] else {}) - {message.sender}, envelope, drained);
      } else if message.receiver in agentQueues {
        order := Broadcast({message.receiver}, envelope, drained);
      } else {
        order := [];
        DeadLetterTrimming(envelope);
      }
    }

    // ---- acknowledgement --------------------------------------------------------------------------

    method MarkAcked(envelope: MessageEnvelope)
      requires Valid() && Known(envelope, past.history)
      modifies envelope`acked
      ensures var b := old(View()); View() == b.(acked := b.acked[envelope.number := true])
    {
      hide NumbersOf, PublicationsOf, BoxesOf, QueuesKnown, Linked, AllKnown;
      envelope.acked := true;
      assert AcksOf(past.history, past.envelopes) == old(AcksOf(past.history, past.envelopes))[envelope.number := true];
      assert RetriesOf(past.history, past.envelopes) == old(RetriesOf(past.history, past.envelopes));
    }

    method CountAck()
      requires Valid()
      modifies this`totalAcked
      ensures Valid()
      ensures var b := old(View()); View() == b.(totalAcked := b.totalAcked + 1)
    {
      totalAcked := totalAcked + 1;
    }

    /** The reverse scan of the last 200 log entries. */
    method FindUnacked(envelopeId: string) returns (found: Option<MessageEnvelope>)
      requires Valid()
      ensures var target := AckTarget(View(), Last(View().log, ACK_WINDOW), envelopeId);
              && found.Some? == target.Some?
              && (found.Some? ==>
                    && Known(found.value, past.history) && found.value in past.envelopes
                    && found.value.number == target.value)
    {
      var window := if |envelopeLog| <= ACK_WINDOW then envelopeLog else envelopeLog[|envelopeLog| - ACK_WINDOW..];
      ghost var b := View();
      assert NumbersOf(window) == Last(b.log, ACK_WINDOW) by {
        if |envelopeLog| > ACK_WINDOW { NumbersSplit(envelopeLog, |envelopeLog| - ACK_WINDOW); }
      }
      var i := |window|;
      assert NumbersOf(window)[..i] == NumbersOf(window);
      while i > 0
        invariant i <= |window|
        invariant AckTarget(b, NumbersOf(window)[..i], envelopeId) == AckTarget(b, Last(b.log, ACK_WINDOW), envelopeId)
      {
        i := i - 1;
        ghost var longer := NumbersOf(window)[..i + 1];
        assert longer[..i] == NumbersOf(window)[..i] && longer[i] == window[i].number;
        assert b.pubs[longer[i]].message == window[i].message && b.acked[longer[i]] == window[i].acked;
        if window[i].message.id == envelopeId && !window[i].acked {
          return Some(window[i]);
        }
      }
      return None;
    }

    method Acknowledge(agentId: AgentId, envelopeId: string) returns (ok: bool)
      requires Valid()
      modifies this`totalAcked, past.envelopes
      ensures Valid()
      ensures View() == Acknowledged(old(View()), envelopeId)
      ensures ok == AckTarget(old(View()), Last(old(View()).log, ACK_WINDOW), envelopeId).Some?
    {
      var found := FindUnacked(envelopeId);
      ok := found.Some?;
      if ok {
        MarkAcked(found.value);
      }
      CountAck();
    }
  }

  lemma TakenIsConsumed(b: BrokerState, agent: AgentId)
    requires WellFormed(b) && agent in b.boxes
    ensures Take(b, agent, |b.boxes[agent].queue|) == ConsumedAll(b, agent)
  {}
}
