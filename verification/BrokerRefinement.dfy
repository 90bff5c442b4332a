/** The broker as a publish/subscribe service: the bounded broker refines an unbounded one whose routing is
    stated on its own, exactly as long as nothing disturbs the run. */
module BrokerRefinement {
  import opened Numbers
  import opened Options
  import opened Messages
  import opened BrokerSpec
  import opened BrokerTheorems

  // ---- the routing rules -------------------------------------------------------------------------

  /** Each of the six agents has a topic of its own. */
  predicate RoleTopic(agent: AgentId, topic: Topic) {
    || (agent == "EA" && topic == EQUIPMENT) || (agent == "QA" && topic == QUALITY)
    || (agent == "SA" && topic == SUPPLY) || (agent == "DA" && topic == Topic.DEMAND)
    || (agent == "IA" && topic == INVENTORY) || (agent == "PA" && topic == PLANNING)
  }

  /** What an agent subscribes to by registering. */
  predicate Joins(agent: AgentId, extra: set<Topic>, topic: Topic) {
    topic == BROADCAST || topic == ALERTS || topic == CNP || topic in extra || RoleTopic(agent, topic)
  }

  /** The intents a topic carries when the publisher names no topic. */
  predicate Carries(topic: Topic, intent: Intent) {
    match topic
    case CNP => intent in {CFP, PROPOSE, ACCEPT_PROPOSAL, REJECT_PROPOSAL, ACCEPT_JOB, REJECT_JOB}
    case ALERTS => intent == ALERT
    case DEMAND => intent == DEMAND_CHANGE
    case INVENTORY => intent == STOCK_ALERT
    case PLANNING => intent == PLAN_UPDATE
    case BROADCAST =>
      intent in {INFORM, REQUEST, ACKNOWLEDGE, CONFIRM, TOOL_CALL, TOOL_RESULT, STATUS_REPORT}
    case _ => false
  }

  predicate TravelsOn(message: Message, chosen: Option<Topic>, topic: Topic) {
    if chosen.Some? then topic == chosen.value else Carries(topic, message.intent)
  }

  /** A message travels on one topic: the broker's. */
  lemma TravelsOnOneTopic(message: Message, chosen: Option<Topic>, topic: Topic)
    ensures TravelsOn(message, chosen, topic) <==> topic == ChosenTopic(message, chosen)
  {}

  /** Registering subscribes the agent to its topics and changes no other subscription. */
  lemma RegisteringSubscribes(b: BrokerState, agent: AgentId, extra: set<Topic>, inbox: seq<Message>, topic: Topic)
    ensures Subscribers(Registered(b, agent, extra, inbox), topic)
         == Subscribers(b, topic) + if Joins(agent, extra, topic) then {agent} else {}
  {
    assert topic in DefaultTopics(agent) + extra <==> Joins(agent, extra, topic);
    hide DefaultTopics, Joins;
  }

  // ---- the service ----------------------------------------------------------------------------------

  /** All the mail of one agent, how much of it the agent's consumer took, and how much it had seen when it
      last emptied its inbox. */
  datatype Mailbox = Mailbox(mail: seq<Message>, read: nat, seen: nat)

  /** An unbounded publish/subscribe service: who subscribes to what, everyone's mailbox, and the messages
      nobody could be sent. */
  datatype PubSub = PubSub(subscribed: set<(AgentId, Topic)>, boxes: map<AgentId, Mailbox>, dead: seq<Message>)

  predicate AddressedTo(p: PubSub, agent: AgentId, message: Message, chosen: Option<Topic>) {
    if message.receiver == ALL
    then agent != message.sender && exists topic :: TravelsOn(message, chosen, topic) && (agent, topic) in p.subscribed
    else agent == message.receiver
  }

  function Posted(p: PubSub, message: Message, chosen: Option<Topic>): map<AgentId, Mailbox> {
    map a | a in p.boxes ::
      if AddressedTo(p, a, message, chosen) then p.boxes[a].(mail := p.boxes[a].mail + [message]) else p.boxes[a]
  }

  function Served(p: PubSub, op: Op): PubSub {
    match op
    case RegisterOp(agent, extra, _) =>
      p.(subscribed := p.subscribed + (set topic | Joins(agent, extra, topic) :: (agent, topic)),
         boxes := p.boxes[agent := Mailbox([], 0, 0)])
    case SubscribeOp(agent, topic) => p.(subscribed := p.subscribed + {(agent, topic)})
    case UnsubscribeOp(agent, topic) => p.(subscribed := p.subscribed - {(agent, topic)})
    case PublishOp(message, chosen, _, _) =>
      if message.receiver != ALL && message.receiver !in p.boxes
      then p.(dead := p.dead + [message])
      else p.(boxes := Posted(p, message, chosen))
    case ConsumeOp(agent) =>
      if agent in p.boxes && p.boxes[agent].read < |p.boxes[agent].mail|
      then p.(boxes := p.boxes[agent := p.boxes[agent].(read := p.boxes[agent].read + 1)])
      else p
    case ConsumeAllOp(agent) =>
      if agent in p.boxes then p.(boxes := p.boxes[agent := p.boxes[agent].(read := |p.boxes[agent].mail|)]) else p
    case AcknowledgeOp(_) => p
    case PopInboxOp(agent) =>
      if agent in p.boxes then p.(boxes := p.boxes[agent := p.boxes[agent].(seen := |p.boxes[agent].mail|)]) else p
  }

  function Service(ops: seq<Op>): PubSub
    decreases |ops|
  {
    if ops == [] then PubSub({}, map[], []) else Served(Service(ops[..|ops| - 1]), ops[|ops| - 1])
  }

  /** Each publication walks its targets in some order: what `publish` does. */
  predicate Walks(b: BrokerState, op: Op) {
    op.PublishOp? ==> IsOrdering(op.order, Targets(b, op.message, ChosenTopic(op.message, op.chosen)))
  }

  /** No agent registers with an unread inbox or after it was sent anything, and no publication meets a
      full queue. */
  predicate Undisturbed(b: BrokerState, op: Op) {
    match op
    case RegisterOp(agent, _, inbox) => inbox == [] && (agent in b.boxes ==> b.boxes[agent].received == [])
    case PublishOp(message, chosen, _, _) => FullTargets(b, Targets(b, message, ChosenTopic(message, chosen))) == {}
    case _ => true
  }

  predicate WalkingRun(b: BrokerState, ops: seq<Op>)
    requires Sound(b)
    decreases |ops|
  {
    ops == [] || (WalkingRun(b, ops[..|ops| - 1]) && Walks(Run(b, ops[..|ops| - 1]), ops[|ops| - 1]))
  }

  predicate UndisturbedRun(b: BrokerState, ops: seq<Op>)
    requires Sound(b)
    decreases |ops|
  {
    ops == [] || (UndisturbedRun(b, ops[..|ops| - 1]) && Undisturbed(Run(b, ops[..|ops| - 1]), ops[|ops| - 1]))
  }

  // ---- the refinement ---------------------------------------------------------------------------------

  function Contents(b: BrokerState, numbers: seq<nat>): seq<Message> {
    seq(|numbers|, i requires 0 <= i < |numbers| =>
      if numbers[i] < |b.pubs| then b.pubs[numbers[i]].message else Message("", "", "", INFORM))
  }

  predicate IsSuffix<T(==)>(s: seq<T>, t: seq<T>) { |s| <= |t| && s == t[|t| - |s|..] }

  predicate InRange(b: BrokerState, numbers: seq<nat>) { forall i :: 0 <= i < |numbers| ==> numbers[i] < |b.pubs| }

  /** The queue history of one agent and the history of its inbox are both its mail; its consumer took
      the first `read` messages, and its inbox holds what came after the first `seen`. */
  predicate HasMail(b: BrokerState, box: Box, m: Mailbox) {
    && InRange(b, box.taken + box.queue)
    && Contents(b, box.taken + box.queue) == m.mail
    && |box.taken| == m.read
    && box.received == m.mail
    && m.seen <= |m.mail| && box.inbox == m.mail[m.seen..]
  }

  /** The length of a dead-letter queue that took `n` undeliverable messages: it grows to 500 and is then
      cut to 250 by every 251st. */
  function DeadLength(n: nat): nat { if n <= 500 then n else 250 + (n - 501) % 251 }

  predicate HasDead(b: BrokerState, dead: seq<Message>) {
    && b.totalDlq == |dead|
    && InRange(b, b.dlq)
    && |b.dlq| == DeadLength(|dead|)
    && IsSuffix(Contents(b, b.dlq), dead)
  }

  ghost predicate SameSubscriptions(b: BrokerState, p: PubSub) {
    forall a, t :: a in Subscribers(b, t) <==> (a, t) in p.subscribed
  }

  ghost predicate Refines(b: BrokerState, p: PubSub) {
    && WellFormed(b)
    && p.boxes.Keys == b.boxes.Keys
    && SameSubscriptions(b, p)
    && (forall a :: a in p.boxes ==> HasMail(b, b.boxes[a], p.boxes[a]))
    && HasDead(b, p.dead)
  }

  lemma ContentsKept(b: BrokerState, c: BrokerState, numbers: seq<nat>)
    requires InRange(b, numbers) && b.pubs <= c.pubs
    ensures InRange(c, numbers) && Contents(c, numbers) == Contents(b, numbers)
  {}

  lemma DeadKept(b: BrokerState, c: BrokerState, dead: seq<Message>)
    requires HasDead(b, dead) && b.pubs <= c.pubs && c.dlq == b.dlq && c.totalDlq == b.totalDlq
    ensures HasDead(c, dead)
  {
    ContentsKept(b, c, b.dlq);
  }

  lemma MailKept(b: BrokerState, c: BrokerState, box: Box, m: Mailbox)
    requires HasMail(b, box, m) && b.pubs <= c.pubs
    ensures HasMail(c, box, m)
  {
    ContentsKept(b, c, box.taken + box.queue);
  }

  lemma MailDelivered(b: BrokerState, c: BrokerState, box: Box, m: Mailbox)
    requires HasMail(b, box, m) && b.pubs <= c.pubs && |b.pubs| < |c.pubs|
    ensures var message := c.pubs[|b.pubs|].message;
            HasMail(c, Put(box, |b.pubs|, message), m.(mail := m.mail + [message]))
  {
    var history, n, message := box.taken + box.queue, |b.pubs|, c.pubs[|b.pubs|].message;
    ContentsKept(b, c, history);
    var now := Put(box, n, message);
    assert now.taken + now.queue == history + [n];
    assert Contents(c, history + [n]) == Contents(c, history) + [message];
  }

  lemma TargetsAreAddressees(b: BrokerState, p: PubSub, message: Message, chosen: Option<Topic>)
    requires SameSubscriptions(b, p)
    ensures forall a :: a in b.boxes ==>
              (a in Targets(b, message, ChosenTopic(message, chosen)) <==> AddressedTo(p, a, message, chosen))
  {
    var topic := ChosenTopic(message, chosen);
    forall t ensures TravelsOn(message, chosen, t) <==> t == topic {
      TravelsOnOneTopic(message, chosen, t);
    }
    assert TravelsOn(message, chosen, topic);
    hide TravelsOn, ChosenTopic, Subscribers;
  }

  /** An undisturbed publication: what each queue, history and inbox is afterwards. */
  lemma UndisturbedPublication(b: BrokerState, message: Message, chosen: Option<Topic>, order: seq<AgentId>,
                               drained: AgentId -> nat)
    requires Sound(b) && !Undeliverable(b, message)
    requires Walks(b, PublishOp(message, chosen, order, drained))
    requires Undisturbed(b, PublishOp(message, chosen, order, drained))
    ensures var topic := ChosenTopic(message, chosen);
            var r, n, targets := Published(b, message, chosen, order, drained), |b.pubs|, Targets(b, message, topic);
            && r.pubs == b.pubs + [Publication(message, topic)]
            && r.subs == b.subs && r.dlq == b.dlq && r.totalDlq == b.totalDlq
            && r.boxes == PutInto(b.boxes, targets, n, message)
  {
    var topic := ChosenTopic(message, chosen);
    var targets := Targets(b, message, topic);
    var c := Logged(b, message, topic);
    OrderingElements(order, targets);
    assert FullTargets(c, targets) == FullTargets(b, targets) == {};
    assert Quiet(c, order, drained) by {
      forall a | a in order ensures !FullFor(c, a) {
        assert a !in FullTargets(c, targets);
      }
    }
    hide DeliverAll;
    DeliverAllIsFanout(c, order, |b.pubs|, drained);
    SpreadToOpen(c, targets, |b.pubs|);
  }

  lemma SpreadToOpen(c: BrokerState, targets: set<AgentId>, n: nat)
    requires WellFormed(c) && n < |c.pubs| && FullTargets(c, targets) == {}
    ensures var f, message := Fanout(c, targets, n), c.pubs[n].message;
            && f.pubs == c.pubs && f.subs == c.subs && f.dlq == c.dlq && f.totalDlq == c.totalDlq
            && f.boxes == PutInto(c.boxes, targets, n, message)
  {
    var open, message := OpenTargets(c, targets), c.pubs[n].message;
    forall a | a in c.boxes ensures a in open <==> a in targets {
      assert a in targets ==> a !in FullTargets(c, targets);
    }
    assert PutInto(c.boxes, open, n, message) == PutInto(c.boxes, targets, n, message);
    assert c.dlq + Repeat(n, 0) == c.dlq;
  }

  lemma PublicationRefines(b: BrokerState, p: PubSub, message: Message, chosen: Option<Topic>, order: seq<AgentId>,
                           drained: AgentId -> nat)
    requires Sound(b) && Refines(b, p) && !Undeliverable(b, message)
    requires Walks(b, PublishOp(message, chosen, order, drained))
    requires Undisturbed(b, PublishOp(message, chosen, order, drained))
    ensures Refines(Published(b, message, chosen, order, drained),
                    Served(p, PublishOp(message, chosen, order, drained)))
  {
    hide Published, HasMail, HasDead, AddressedTo, Targets, Undisturbed, Walks;
    var r := Published(b, message, chosen, order, drained);
    var q := Served(p, PublishOp(message, chosen, order, drained));
    UndisturbedPublication(b, message, chosen, order, drained);
    TargetsAreAddressees(b, p, message, chosen);
    DeadKept(b, r, p.dead);
    assert q == p.(boxes := Posted(p, message, chosen));
    forall a | a in q.boxes ensures HasMail(r, r.boxes[a], q.boxes[a]) {
      if a in Targets(b, message, ChosenTopic(message, chosen)) {
        MailDelivered(b, r, b.boxes[a], p.boxes[a]);
      } else {
        MailKept(b, r, b.boxes[a], p.boxes[a]);
      }
    }
  }

  lemma SuffixGrows<T>(s: seq<T>, t: seq<T>, x: T, limit: nat)
    requires IsSuffix(s, t)
    ensures IsSuffix(AppendHalving(s, x, limit), t + [x])
  {
    assert (t + [x])[|t| - |s|..] == s + [x];
  }

  lemma ContentsHalved(b: BrokerState, numbers: seq<nat>, n: nat, limit: nat)
    requires InRange(b, numbers) && n < |b.pubs|
    ensures InRange(b, AppendHalving(numbers, n, limit))
    ensures Contents(b, AppendHalving(numbers, n, limit))
         == AppendHalving(Contents(b, numbers), b.pubs[n].message, limit)
  {
    assert Contents(b, numbers + [n]) == Contents(b, numbers) + [b.pubs[n].message];
  }

  lemma DeadLengthGrows(n: nat)
    ensures DeadLength(n + 1) == if DeadLength(n) == 500 then 250 else DeadLength(n) + 1
    ensures DeadLength(n) <= 500
  {
    if n > 500 {
      var q, r := (n - 501) / 251, (n - 501) % 251;
      assert n + 1 - 501 == 251 * q + (r + 1);
      if r == 250 {
        assert (n + 1 - 501) % 251 == 0;
      } else {
        assert (n + 1 - 501) % 251 == r + 1;
      }
    }
  }

  lemma DeadLetterState(b: BrokerState, message: Message, chosen: Option<Topic>, order: seq<AgentId>,
                        drained: AgentId -> nat)
    requires WellFormed(b) && Undeliverable(b, message)
    ensures var n, r := |b.pubs|, Published(b, message, chosen, order, drained);
            && r.pubs == b.pubs + [Publication(message, ChosenTopic(message, chosen))]
            && r.boxes == b.boxes && r.subs == b.subs
            && r.dlq == AppendHalving(b.dlq, n, MAX_DLQ) && r.totalDlq == b.totalDlq + 1
  {
    hide AppendHalving;
  }

  lemma DeadGrows(b: BrokerState, r: BrokerState, dead: seq<Message>)
    requires HasDead(b, dead) && b.pubs <= r.pubs && |b.pubs| < |r.pubs|
    requires r.dlq == AppendHalving(b.dlq, |b.pubs|, MAX_DLQ) && r.totalDlq == b.totalDlq + 1
    ensures HasDead(r, dead + [r.pubs[|b.pubs|].message])
  {
    var n := |b.pubs|;
    DeadLengthGrows(|dead|);
    assert |r.dlq| == DeadLength(|dead| + 1);
    hide AppendHalving, Contents, IsSuffix, InRange, DeadLength;
    ContentsKept(b, r, b.dlq);
    ContentsHalved(r, b.dlq, n, MAX_DLQ);
    SuffixGrows(Contents(b, b.dlq), dead, r.pubs[n].message, MAX_DLQ);
  }

  lemma SubscriptionsKept(b: BrokerState, c: BrokerState, p: PubSub, q: PubSub)
    requires SameSubscriptions(b, p) && c.subs == b.subs && q.subscribed == p.subscribed
    ensures SameSubscriptions(c, q)
  {
    forall a, t ensures a in Subscribers(c, t) <==> (a, t) in q.subscribed {
      assert a in Subscribers(b, t) <==> (a, t) in p.subscribed;
    }
  }

  lemma DeadLetterRefines(b: BrokerState, p: PubSub, message: Message, chosen: Option<Topic>, order: seq<AgentId>,
                          drained: AgentId -> nat)
    requires Sound(b) && Refines(b, p) && Undeliverable(b, message)
    ensures Refines(Published(b, message, chosen, order, drained),
                    Served(p, PublishOp(message, chosen, order, drained)))
  {
    var r, q := Published(b, message, chosen, order, drained), Served(p, PublishOp(message, chosen, order, drained));
    DeadLetterState(b, message, chosen, order, drained);
    assert q == p.(dead := p.dead + [message]);
    assert WellFormed(r);
    hide HasMail, HasDead, SameSubscriptions, AppendHalving, Published, Undeliverable, Served;
    forall a | a in p.boxes ensures HasMail(r, r.boxes[a], p.boxes[a]) {
      MailKept(b, r, b.boxes[a], p.boxes[a]);
    }
    SubscriptionsKept(b, r, p, q);
    DeadGrows(b, r, p.dead);
  }

  /** The service after one agent's mailbox moved. */
  lemma BoxRefines(b: BrokerState, p: PubSub, agent: AgentId, box: Box, m: Mailbox)
    requires Refines(b, p) && agent in b.boxes && HasMail(b, box, m)
    ensures Refines(WithBox(b, agent, box), p.(boxes := p.boxes[agent := m]))
  {
    hide HasMail;
    var r := WithBox(b, agent, box);
    forall a | a in p.boxes[agent := m] ensures HasMail(r, r.boxes[a], p.boxes[agent := m][a]) {
      MailKept(b, r, r.boxes[a], p.boxes[agent := m][a]);
    }
    SubscriptionsKept(b, r, p, p.(boxes := p.boxes[agent := m]));
    DeadKept(b, r, p.dead);
  }

  /** Taking the first `k` messages of the queue is reading `k` messages of the mail. */
  lemma ConsumptionRefines(b: BrokerState, p: PubSub, agent: AgentId, k: nat)
    requires Refines(b, p) && agent in b.boxes && k <= |b.boxes[agent].queue|
    ensures var m := p.boxes[agent];
            && m.read + |b.boxes[agent].queue| == |m.mail|
            && Refines(Take(b, agent, k), p.(boxes := p.boxes[agent := m.(read := m.read + k)]))
  {
    var box, m := b.boxes[agent], p.boxes[agent];
    var now := TakeFrom(box, k);
    assert HasMail(b, box, m);
    assert |Contents(b, box.taken + box.queue)| == |box.taken| + |box.queue|;
    assert now.taken + now.queue == box.taken + box.queue;
    assert HasMail(b, now, m.(read := m.read + k));
    hide HasMail, Refines;
    BoxRefines(b, p, agent, now, m.(read := m.read + k));
  }

  lemma InboxRefines(b: BrokerState, p: PubSub, agent: AgentId)
    requires Refines(b, p)
    ensures Refines(InboxPopped(b, agent), Served(p, PopInboxOp(agent)))
  {
    if agent in b.boxes {
      var m := p.boxes[agent];
      assert HasMail(b, b.boxes[agent], m);
      assert HasMail(b, b.boxes[agent].(inbox := []), m.(seen := |m.mail|));
      hide HasMail, Refines;
      BoxRefines(b, p, agent, b.boxes[agent].(inbox := []), m.(seen := |m.mail|));
    }
  }

  lemma RegistrationSubscribes(b: BrokerState, p: PubSub, agent: AgentId, extra: set<Topic>, inbox: seq<Message>)
    requires SameSubscriptions(b, p)
    ensures SameSubscriptions(Registered(b, agent, extra, inbox), Served(p, RegisterOp(agent, extra, inbox)))
  {
    var r, q := Registered(b, agent, extra, inbox), Served(p, RegisterOp(agent, extra, inbox));
    forall a, t ensures a in Subscribers(r, t) <==> (a, t) in q.subscribed {
      RegisteringSubscribes(b, agent, extra, inbox, t);
      hide Subscribers, Joins;
      assert (a, t) in q.subscribed <==> (a, t) in p.subscribed || (a == agent && Joins(agent, extra, t));
    }
  }

  /** A registration is that of the service exactly when the inbox is empty and the agent was never sent
      anything. */
  lemma RegistrationRefines(b: BrokerState, p: PubSub, agent: AgentId, extra: set<Topic>, inbox: seq<Message>)
    requires Refines(b, p)
    ensures Refines(Registered(b, agent, extra, inbox), Served(p, RegisterOp(agent, extra, inbox)))
       <==> Undisturbed(b, RegisterOp(agent, extra, inbox))
  {
    var r, q := Registered(b, agent, extra, inbox), Served(p, RegisterOp(agent, extra, inbox));
    if agent in b.boxes {
      NoMail(b, b.boxes[agent], p.boxes[agent]);
    }
    EmptyMail(r, r.boxes[agent]);
    RegistrationSubscribes(b, p, agent, extra, inbox);
    hide WithSubscriptions, HasMail, HasDead, DefaultTopics, SameSubscriptions, Joins;
    forall a | a in p.boxes && a != agent ensures HasMail(r, r.boxes[a], q.boxes[a]) {
      MailKept(b, r, b.boxes[a], p.boxes[a]);
    }
    DeadKept(b, r, p.dead);
  }

  lemma NoMail(b: BrokerState, box: Box, m: Mailbox)
    requires HasMail(b, box, m)
    ensures box.received == [] <==> box.taken == [] && box.queue == []
  {
    assert |box.taken + box.queue| == |Contents(b, box.taken + box.queue)| == |box.received|;
  }

  lemma EmptyMail(b: BrokerState, box: Box)
    ensures HasMail(b, box, Mailbox([], 0, 0)) <==> box == Box([], [], [], [])
  {
    if HasMail(b, box, Mailbox([], 0, 0)) {
      assert |Contents(b, box.taken + box.queue)| == |box.taken| + |box.queue|;
    }
  }

  lemma SubscriptionRefines(b: BrokerState, p: PubSub, op: Op)
    requires Sound(b) && Refines(b, p) && (op.SubscribeOp? || op.UnsubscribeOp?)
    ensures Refines(Apply(b, op), Served(p, op))
  {
    var r, q := Apply(b, op), Served(p, op);
    hide HasMail, HasDead, LogLength;
    forall a, t ensures a in Subscribers(r, t) <==> (a, t) in q.subscribed {
      assert a in Subscribers(b, t) <==> (a, t) in p.subscribed;
    }
    forall a | a in p.boxes ensures HasMail(r, r.boxes[a], p.boxes[a]) {
      MailKept(b, r, b.boxes[a], p.boxes[a]);
    }
    DeadKept(b, r, p.dead);
  }

  lemma AcknowledgementRefines(b: BrokerState, p: PubSub, id: string)
    requires Sound(b) && Refines(b, p)
    ensures Refines(Apply(b, AcknowledgeOp(id)), p)
  {
    var r := Apply(b, AcknowledgeOp(id));
    assert r.boxes == b.boxes && r.subs == b.subs && r.pubs == b.pubs && r.dlq == b.dlq && r.totalDlq == b.totalDlq by {
      hide Refines, AckTarget, LogLength;
    }
    hide HasMail, HasDead, AckTarget, LogLength, Apply;
    forall a | a in p.boxes ensures HasMail(r, r.boxes[a], p.boxes[a]) {
      MailKept(b, r, b.boxes[a], p.boxes[a]);
    }
    DeadKept(b, r, p.dead);
  }

  /** A publication that meets a full queue breaks the refinement, whatever is consumed meanwhile: the
      retry tells no inbox. */
  lemma FullQueueBreaksRefinement(b: BrokerState, p: PubSub, message: Message, chosen: Option<Topic>,
                                  order: seq<AgentId>, drained: AgentId -> nat)
    requires Sound(b) && Refines(b, p) && !Undeliverable(b, message)
    requires Walks(b, PublishOp(message, chosen, order, drained))
    requires !Undisturbed(b, PublishOp(message, chosen, order, drained))
    ensures !Refines(Published(b, message, chosen, order, drained),
                     Served(p, PublishOp(message, chosen, order, drained)))
  {
    var topic := ChosenTopic(message, chosen);
    var a :| a in FullTargets(b, Targets(b, message, topic));
    var r, q := Published(b, message, chosen, order, drained), Served(p, PublishOp(message, chosen, order, drained));
    FullQueueAccounting(b, message, chosen, order, drained);
    TargetsAreAddressees(b, p, message, chosen);
    hide Published, Targets, AddressedTo;
    assert q.boxes[a].mail == p.boxes[a].mail + [message];
    assert r.boxes[a].received == b.boxes[a].received == p.boxes[a].mail;
    assert |r.boxes[a].received| != |q.boxes[a].mail|;
    assert !HasMail(r, r.boxes[a], q.boxes[a]);
  }

  /** Each operation of the broker is that of the service exactly when it is undisturbed. */
  lemma StepRefines(b: BrokerState, p: PubSub, op: Op)
    requires Sound(b) && Refines(b, p) && Walks(b, op)
    ensures Refines(Apply(b, op), Served(p, op)) <==> Undisturbed(b, op)
  {
    match op
    case RegisterOp(agent, extra, inbox) =>
      hide Published, Registered, Take, Refines, Undisturbed, Served;
      RegistrationRefines(b, p, agent, extra, inbox);
    case PublishOp(message, chosen, order, drained) =>
      NothingFullWhenUndeliverable(b, message, ChosenTopic(message, chosen));
      hide Published, Registered, Take, Refines, FullTargets, Targets, Served;
      if Undeliverable(b, message) {
        DeadLetterRefines(b, p, message, chosen, order, drained);
      } else if Undisturbed(b, op) {
        PublicationRefines(b, p, message, chosen, order, drained);
      } else {
        FullQueueBreaksRefinement(b, p, message, chosen, order, drained);
      }
    case ConsumeOp(agent) =>
      hide Take, HasMail, HasDead, SameSubscriptions;
      if agent in b.boxes {
        ConsumptionRefines(b, p, agent, if b.boxes[agent].queue == [] then 0 else 1);
      }
    case ConsumeAllOp(agent) =>
      hide Take, HasMail, HasDead, SameSubscriptions;
      if agent in b.boxes { ConsumptionRefines(b, p, agent, |b.boxes[agent].queue|); }
    case AcknowledgeOp(id) => hide Apply, Refines; AcknowledgementRefines(b, p, id);
    case PopInboxOp(agent) => hide InboxPopped, Refines, Served; InboxRefines(b, p, agent);
    case _ =>
      hide Apply, Refines, Served;
      SubscriptionRefines(b, p, op);
  }

  lemma NothingFullWhenUndeliverable(b: BrokerState, message: Message, topic: Topic)
    ensures Undeliverable(b, message) ==> FullTargets(b, Targets(b, message, topic)) == {}
  {}

  /** The broker is the service after every prefix of the run. */
  ghost predicate RefinesThroughout(maxQueue: int, ops: seq<Op>)
    decreases |ops|
  {
    && Refines(Run(NewBroker(maxQueue), ops), Service(ops))
    && (ops != [] ==> RefinesThroughout(maxQueue, ops[..|ops| - 1]))
  }

  /** The bounded broker is the unbounded service throughout a run exactly when nothing disturbs the run:
      no put meets a full queue, and no agent registers after it was sent anything or with an unread
      inbox. Then what an agent took from its queue followed by what is still in it, and what its inbox
      received, are both exactly the messages addressed to it, in publication order. */
  lemma {:induction false} BrokerRefinesPubSub(maxQueue: int, ops: seq<Op>)
    requires WalkingRun(NewBroker(maxQueue), ops)
    ensures RefinesThroughout(maxQueue, ops) <==> UndisturbedRun(NewBroker(maxQueue), ops)
    decreases |ops|
  {
    if ops != [] {
      var before := ops[..|ops| - 1];
      BrokerRefinesPubSub(maxQueue, before);
      hide Refines, Apply, Served, Undisturbed;
      if UndisturbedRun(NewBroker(maxQueue), before) {
        assert RefinesThroughout(maxQueue, before);
        StepRefines(Run(NewBroker(maxQueue), before), Service(before), ops[|ops| - 1]);
      }
    }
  }

  // ---- a call for proposals reaches everyone ---------------------------------------------------------

  /** From operation `k` on, no operation of the run takes the agent off the topic. */
  predicate StaysOn(ops: seq<Op>, agent: AgentId, topic: Topic, k: nat) {
    forall i :: k <= i < |ops| ==> ops[i] != UnsubscribeOp(agent, topic)
  }

  /** An agent that registered stays on the topics it joined until it unsubscribes. */
  lemma {:induction false} StaysSubscribed(ops: seq<Op>, agent: AgentId, topic: Topic, k: nat)
    requires k < |ops| && ops[k].RegisterOp? && ops[k].agent == agent && Joins(agent, ops[k].extra, topic)
    requires StaysOn(ops, agent, topic, k)
    ensures agent in Service(ops).boxes && (agent, topic) in Service(ops).subscribed
    decreases |ops|
  {
    hide Joins, AddressedTo;
    if k < |ops| - 1 {
      StaysSubscribed(ops[..|ops| - 1], agent, topic, k);
    } else {
      assert (agent, topic) in (set t | Joins(agent, ops[k].extra, t) :: (agent, t));
    }
  }

  predicate IsCallFor(op: Op, agent: AgentId) {
    && op.PublishOp? && op.message.intent == CFP && op.chosen == None
    && op.message.receiver == ALL && op.message.sender != agent
  }

  /** Mail stays in the mailbox: no undisturbed operation throws a mailbox with mail away. */
  lemma MailStays(b: BrokerState, p: PubSub, op: Op, agent: AgentId, message: Message)
    requires Sound(b) && Refines(b, p) && Undisturbed(b, op)
    requires agent in p.boxes && message in p.boxes[agent].mail
    ensures agent in Served(p, op).boxes && message in Served(p, op).boxes[agent].mail
  {
    hide AddressedTo, Joins, SameSubscriptions, HasDead;
    assert HasMail(b, b.boxes[agent], p.boxes[agent]);
  }

  lemma {:induction false} EveryCallIsMail(maxQueue: int, ops: seq<Op>, agent: AgentId, k: nat, j: nat)
    requires WalkingRun(NewBroker(maxQueue), ops) && UndisturbedRun(NewBroker(maxQueue), ops)
    requires k < j < |ops| && ops[k].RegisterOp? && ops[k].agent == agent
    requires StaysOn(ops[..j], agent, CNP, k) && IsCallFor(ops[j], agent)
    ensures agent in Service(ops).boxes && ops[j].message in Service(ops).boxes[agent].mail
    decreases |ops|
  {
    var before, last := ops[..|ops| - 1], ops[|ops| - 1];
    if j < |ops| - 1 {
      assert before[..j] == ops[..j];
      EveryCallIsMail(maxQueue, before, agent, k, j);
      BrokerRefinesPubSub(maxQueue, before);
      hide Refines, Served, Undisturbed;
      MailStays(Run(NewBroker(maxQueue), before), Service(before), last, agent, ops[j].message);
    } else {
      assert Joins(agent, ops[k].extra, CNP);
      StaysSubscribed(before, agent, CNP, k);
      assert TravelsOn(last.message, None, CNP);
      assert AddressedTo(Service(before), agent, last.message, None);
      hide Service, AddressedTo, Joins;
    }
  }

  /** While no put meets a full queue, an agent that registered and has not unsubscribed from CNP gets every
      call for proposals that somebody else sends to ALL: its inbox was given it, and its queue has or had
      it. */
  lemma EveryCallArrives(maxQueue: int, ops: seq<Op>, agent: AgentId, k: nat, j: nat)
    requires WalkingRun(NewBroker(maxQueue), ops) && UndisturbedRun(NewBroker(maxQueue), ops)
    requires k < j < |ops| && ops[k].RegisterOp? && ops[k].agent == agent
    requires StaysOn(ops[..j], agent, CNP, k) && IsCallFor(ops[j], agent)
    ensures var r := Run(NewBroker(maxQueue), ops);
            && agent in r.boxes
            && ops[j].message in r.boxes[agent].received
            && ops[j].message in Contents(r, r.boxes[agent].taken + r.boxes[agent].queue)
  {
    EveryCallIsMail(maxQueue, ops, agent, k, j);
    BrokerRefinesPubSub(maxQueue, ops);
    var r := Run(NewBroker(maxQueue), ops);
    hide Run, Service, WalkingRun, UndisturbedRun;
    assert HasMail(r, r.boxes[agent], Service(ops).boxes[agent]);
  }

  // ---- at-least-once fails --------------------------------------------------------------------------------

  const REGISTER_EA := RegisterOp("EA", {}, [])

  function Unicast(message: Message, drained: AgentId -> nat): Op { PublishOp(message, None, ["EA"], drained) }

  lemma RunOneMore(b: BrokerState, ops: seq<Op>, op: Op)
    requires Sound(b)
    ensures Run(b, ops + [op]) == Apply(Run(b, ops), op)
  {
    assert (ops + [op])[..|ops|] == ops;
  }

  /** A broker of queue size one that took one message for its only agent. */
  predicate HoldsOne(b: BrokerState, message: Message) {
    && b.maxQueue == 1 && |b.pubs| == 1 && b.published == 1 && b.delivered == 1
    && b.boxes == map["EA" := Box([0], [message], [], [message])]
    && b.dlq == [] && b.totalDlq == 0
  }

  /** A broker of queue size one with one idle agent. */
  predicate Idle(b: BrokerState) {
    && WellFormed(b) && b.maxQueue == 1 && b.pubs == [] && b.published == 0 && b.delivered == 0
    && b.boxes == map["EA" := Box([], [], [], [])]
    && b.dlq == [] && b.totalDlq == 0
  }

  lemma RegisteredIsIdle()
    ensures Idle(Registered(NewBroker(1), "EA", {}, []))
  {
    hide WithSubscriptions, DefaultTopics;
  }

  lemma FirstMessageIsHeld(b: BrokerState, message: Message, drained: AgentId -> nat)
    requires Idle(b) && message.receiver == "EA"
    ensures HoldsOne(Published(b, message, None, ["EA"], drained), message)
  {
    var c := Logged(b, message, ChosenTopic(message, None));
    assert c.boxes == b.boxes && c.pubs[0].message == message && c.delivered == 0;
    assert ["EA"][1..] == [];
    assert DeliverAll(c, ["EA"], 0, drained) == Deliver(c, "EA", 0, drained("EA"));
    hide AppendHalving, DeliverAll;
    assert Put(Box([], [], [], []), 0, message) == Box([0], [message], [], [message]);
    assert PutNow(c, "EA", 0).boxes == map["EA" := Box([0], [message], [], [message])];
  }

  lemma SecondMessageIsDropped(b: BrokerState, first: Message, second: Message)
    requires WellFormed(b) && HoldsOne(b, first) && second.receiver == "EA"
    ensures var r := Published(b, second, None, ["EA"], NoDrain());
            && r.published == 2 && r.delivered == 1 && r.dlq == [] && r.totalDlq == 0
            && r.boxes == map["EA" := Box([0], [first], [], [first])]
  {
    var targets := Targets(b, second, ChosenTopic(second, None));
    assert targets == {"EA"} && OpenTargets(b, targets) == {};
    FullUnicastVanishes(b, second, None, NoDrain());
    FullQueuesStayFull(b, second, None, ["EA"], NoDrain());
    assert Logged(b, second, ChosenTopic(second, None)).published == 2;
    hide Logged, Targets, OpenTargets;
    assert PutInto(b.boxes, {}, 1, second) == b.boxes;
  }

  /** At-least-once delivery fails on a run of three operations: the second message to an agent whose
      queue holds one is in no queue, no inbox and no dead-letter queue, and nobody has taken it. */
  lemma SecondMessageIsLost(first: Message, second: Message)
    requires first.receiver == "EA" && second.receiver == "EA"
    ensures var r := Run(NewBroker(1), [REGISTER_EA, Unicast(first, NoDrain()), Unicast(second, NoDrain())]);
            && r.published == 2 && r.delivered == 1 && r.dlq == [] && r.totalDlq == 0
            && "EA" in r.boxes && r.boxes["EA"] == Box([0], [first], [], [first])
  {
    var b := NewBroker(1);
    var one, two := Unicast(first, NoDrain()), Unicast(second, NoDrain());
    hide Idle, HoldsOne, Registered, Published;
    RunOneMore(b, [], REGISTER_EA);
    RunOneMore(b, [REGISTER_EA], one);
    RunOneMore(b, [REGISTER_EA, one], two);
    assert [] + [REGISTER_EA] == [REGISTER_EA] && [REGISTER_EA] + [one] == [REGISTER_EA, one];
    assert [REGISTER_EA, one] + [two] == [REGISTER_EA, one, two];
    RegisteredIsIdle();
    FirstMessageIsHeld(Run(b, [REGISTER_EA]), first, NoDrain());
    SecondMessageIsDropped(Run(b, [REGISTER_EA, one]), first, second);
    hide Run;
  }
}
