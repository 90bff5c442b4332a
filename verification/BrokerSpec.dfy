/** The message broker as a value: envelopes are named by their publication number, so that two
    envelopes with the same message id stay different. */
module BrokerSpec {
  import opened Numbers
  import opened Options
  import opened Messages

  const MAX_ENVELOPE_LOG := 2000
  const MAX_DLQ := 500
  const MAX_RETRIES := 3
  const ACK_WINDOW := 200

  datatype Publication = Publication(message: Message, topic: Topic)

  /** What belongs to one registered agent. The code keeps the queue and the inbox; `taken`
      (everything its consumer took from the queue) and `received` (everything its inbox was
      given) are history. */
  datatype Box = Box(queue: seq<nat>, inbox: seq<Message>, taken: seq<nat>, received: seq<Message>)

  /** The broker and the agents' inboxes. `pubs` (every publication so far), `lost` (envelopes
      thrown away with a replaced queue) and `resent` (deliveries made by the retry) are history
      the code does not keep. */
  datatype BrokerState = BrokerState(
    maxQueue: int,
    pubs: seq<Publication>,
    acked: seq<bool>,
    retries: seq<nat>,
    boxes: map<AgentId, Box>,
    subs: map<Topic, set<AgentId>>,
    log: seq<nat>,
    dlq: seq<nat>,
    published: nat,
    delivered: nat,
    totalAcked: nat,
    totalDlq: nat,
    lost: nat,
    resent: nat)

  function NewBroker(maxQueue: int): BrokerState {
    BrokerState(maxQueue, [], [], [], map[], map[], [], [], 0, 0, 0, 0, 0, 0)
  }

  predicate WellFormed(b: BrokerState) { |b.acked| == |b.retries| == |b.pubs| }

  // ---- operations ------------------------------------------------------------------------

  function Subscribers(b: BrokerState, topic: Topic): set<AgentId> {
    if topic in b.subs then b.subs[topic] else {}
  }

  function WithSubscriptions(subs: map<Topic, set<AgentId>>, agent: AgentId, topics: set<Topic>)
    : map<Topic, set<AgentId>>
  {
    map t | t in subs.Keys + topics ::
      (if t in subs then subs[t] else {}) + (if t in topics then {agent} else {})
  }

  /** Registering gives the agent a new empty queue; an envelope left in an old one is gone. */
  function Registered(b: BrokerState, agent: AgentId, extra: set<Topic>, inbox: seq<Message>): BrokerState {
    var box := if agent in b.boxes then b.boxes[agent] else Box([], [], [], []);
    b.(boxes := b.boxes[agent := box.(queue := [], inbox := inbox)],
       subs := WithSubscriptions(b.subs, agent, DefaultTopics(agent) + extra),
       lost := b.lost + |box.queue|)
  }

  function Subscribed(b: BrokerState, agent: AgentId, topic: Topic): BrokerState {
    b.(subs := b.subs[topic := Subscribers(b, topic) + {agent}])
  }

  function Unsubscribed(b: BrokerState, agent: AgentId, topic: Topic): BrokerState {
    b.(subs := b.subs[topic := Subscribers(b, topic) - {agent}])
  }

  /** `Queue(maxsize)` is unbounded when maxsize is zero or negative. */
  predicate IsFull(maxQueue: int, depth: nat) { maxQueue > 0 && depth >= maxQueue }

  predicate FullFor(b: BrokerState, agent: AgentId) {
    agent in b.boxes && IsFull(b.maxQueue, |b.boxes[agent].queue|)
  }

  /** An append that cuts the list to its newer half when it passes `limit`. */
  function AppendHalving<T>(s: seq<T>, x: T, limit: nat): seq<T> {
    var t := s + [x];
    if |t| > limit then Last(t, limit / 2) else t
  }

  function Logged(b: BrokerState, message: Message, topic: Topic): BrokerState {
    b.(pubs := b.pubs + [Publication(message, topic)],
       acked := b.acked + [false],
       retries := b.retries + [0],
       log := AppendHalving(b.log, |b.pubs|, MAX_ENVELOPE_LOG),
       published := b.published + 1)
  }

  /** What no delivery changes. */
  predicate DeliveryFrame(b: BrokerState, r: BrokerState) {
    && WellFormed(r) && r.pubs == b.pubs && r.acked == b.acked && r.boxes.Keys == b.boxes.Keys
    && r.log == b.log && r.published == b.published && r.subs == b.subs && r.maxQueue == b.maxQueue
    && r.lost == b.lost && r.totalAcked == b.totalAcked
  }

  function WithBox(b: BrokerState, agent: AgentId, box: Box): BrokerState { b.(boxes := b.boxes[agent := box]) }

  lemma WithBoxTwice(b: BrokerState, agent: AgentId, box: Box, now: Box)
    ensures WithBox(WithBox(b, agent, box), agent, now) == WithBox(b, agent, now)
    ensures agent in WithBox(b, agent, box).boxes && WithBox(b, agent, box).boxes[agent] == box
  {
    assert b.boxes[agent := box][agent := now] == b.boxes[agent := now];
  }

  function Put(box: Box, n: nat, message: Message): Box {
    box.(queue := box.queue + [n], inbox := box.inbox + [message], received := box.received + [message])
  }

  /** A put that succeeds at once: queue, metric and inbox. */
  function PutNow(b: BrokerState, agent: AgentId, n: nat): BrokerState
    requires n < |b.pubs| && agent in b.boxes
  {
    WithBox(b, agent, Put(b.boxes[agent], n, b.pubs[n].message)).(delivered := b.delivered + 1)
  }

  function TakeFrom(box: Box, k: nat): Box
    requires k <= |box.queue|
  {
    box.(queue := box.queue[k..], taken := box.taken + box.queue[..k])
  }

  function Take(b: BrokerState, agent: AgentId, k: nat): BrokerState
    requires agent in b.boxes && k <= |b.boxes[agent].queue|
  {
    WithBox(b, agent, TakeFrom(b.boxes[agent], k))
  }

  lemma TakeNothing(b: BrokerState, agent: AgentId)
    requires agent in b.boxes
    ensures Take(b, agent, 0) == b
  {
    assert TakeFrom(b.boxes[agent], 0) == b.boxes[agent];
    assert b.boxes[agent := b.boxes[agent]] == b.boxes;
  }

  lemma TakeTwice(b: BrokerState, agent: AgentId, j: nat, k: nat)
    requires agent in b.boxes && j + k <= |b.boxes[agent].queue|
    ensures Take(Take(b, agent, j), agent, k) == Take(b, agent, j + k)
  {
    var box := b.boxes[agent];
    assert TakeFrom(TakeFrom(box, j), k) == TakeFrom(box, j + k) by {
      assert box.queue[j..][k..] == box.queue[j + k..];
      assert box.taken + box.queue[..j] + box.queue[j..][..k] == box.taken + box.queue[..j + k];
    }
    assert b.boxes[agent := TakeFrom(box, j)][agent := TakeFrom(box, j + k)] == b.boxes[agent := TakeFrom(box, j + k)];
  }

  /** The retry's put, after the consumer took `drained` envelopes: the inbox is not told. */
  function PutAgain(b: BrokerState, agent: AgentId, n: nat, drained: nat): (r: BrokerState)
    requires WellFormed(b) && n < |b.pubs| && agent in b.boxes
    ensures DeliveryFrame(b, r) && r.retries == b.retries
  {
    var c := Take(b, agent, Min(drained, |b.boxes[agent].queue|));
    if FullFor(c, agent) then c
    else WithBox(c, agent, c.boxes[agent].(queue := c.boxes[agent].queue + [n])).(
           delivered := c.delivered + 1, resent := c.resent + 1)
  }

  function DeadLettered(b: BrokerState, n: nat): BrokerState {
    b.(dlq := b.dlq + [n], totalDlq := b.totalDlq + 1)
  }

  /** `_enqueue`; `drained` is what the agent's own thread consumes while the retry sleeps. */
  function Deliver(b: BrokerState, agent: AgentId, n: nat, drained: nat): (r: BrokerState)
    requires WellFormed(b) && n < |b.pubs|
    ensures DeliveryFrame(b, r)
  {
    if agent !in b.boxes then b
    else if !FullFor(b, agent) then PutNow(b, agent, n)
    else
      var c := b.(retries := b.retries[n := b.retries[n] + 1]);
      var d := if c.retries[n] < MAX_RETRIES then PutAgain(c, agent, n, drained) else c;
      if d.retries[n] >= MAX_RETRIES then DeadLettered(d, n) else d
  }

  function DeliverAll(b: BrokerState, order: seq<AgentId>, n: nat, drained: AgentId -> nat): (r: BrokerState)
    requires WellFormed(b) && n < |b.pubs|
    ensures DeliveryFrame(b, r)
    decreases |order|
  {
    if order == [] then b
    else DeliverAll(Deliver(b, order[0], n, drained(order[0])), order[1..], n, drained)
  }

  /** Whom a message goes to. */
  function Targets(b: BrokerState, message: Message, topic: Topic): set<AgentId> {
    if message.receiver == ALL then Subscribers(b, topic) - {message.sender}
    else if message.receiver in b.boxes then {message.receiver}
    else {}
  }

  predicate Undeliverable(b: BrokerState, message: Message) {
    message.receiver != ALL && message.receiver !in b.boxes
  }

  /** An iteration order of a set. */
  predicate IsOrdering(order: seq<AgentId>, targets: set<AgentId>) {
    && (forall i, j :: 0 <= i < j < |order| ==> order[i] != order[j])
    && (forall i :: 0 <= i < |order| ==> order[i] in targets)
    && (forall a :: a in targets ==> a in order)
  }

  function ChosenTopic(message: Message, topic: Option<Topic>): Topic {
    if topic.Some? then topic.value else TopicOf(message.intent)
  }

  /** `publish`, visiting the targets in the given order. */
  function Published(b: BrokerState, message: Message, topic: Option<Topic>, order: seq<AgentId>,
                     drained: AgentId -> nat): (r: BrokerState)
    requires WellFormed(b)
    ensures WellFormed(r)
  {
    var n := |b.pubs|;
    var c := Logged(b, message, ChosenTopic(message, topic));
    if Undeliverable(b, message)
    then c.(dlq := AppendHalving(c.dlq, n, MAX_DLQ), totalDlq := c.totalDlq + 1)
    else DeliverAll(c, order, n, drained)
  }

  function Consumed(b: BrokerState, agent: AgentId): BrokerState
    requires WellFormed(b)
  {
    if agent !in b.boxes || b.boxes[agent].queue == [] then b else Take(b, agent, 1)
  }

  function ConsumedAll(b: BrokerState, agent: AgentId): BrokerState
    requires WellFormed(b)
  {
    if agent !in b.boxes then b else Take(b, agent, |b.boxes[agent].queue|)
  }

  /** The last position of `window` that names an unacknowledged envelope with this id. */
  function AckTarget(b: BrokerState, window: seq<nat>, id: string): (r: Option<nat>)
    requires WellFormed(b) && forall i :: 0 <= i < |window| ==> window[i] < |b.pubs|
    ensures r.Some? ==> r.value in window && b.pubs[r.value].message.id == id && !b.acked[r.value]
  {
    if window == [] then None
    else
      var n := window[|window| - 1];
      if b.pubs[n].message.id == id && !b.acked[n] then Some(n)
      else AckTarget(b, window[..|window| - 1], id)
  }

  predicate LogInRange(b: BrokerState) { forall i :: 0 <= i < |b.log| ==> b.log[i] < |b.pubs| }

  function Acknowledged(b: BrokerState, id: string): BrokerState
    requires WellFormed(b) && LogInRange(b)
  {
    var target := AckTarget(b, Last(b.log, ACK_WINDOW), id);
    var c := b.(totalAcked := b.totalAcked + 1);
    if target.Some? then c.(acked := c.acked[target.value := true]) else c
  }

  function InboxPopped(b: BrokerState, agent: AgentId): BrokerState {
    if agent in b.boxes then WithBox(b, agent, b.boxes[agent].(inbox := [])) else b
  }
}
