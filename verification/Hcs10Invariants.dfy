/**
 * What every round of the HCS-10 polling agent keeps, whatever the topics hold and whichever requests fail, provided the inbound
 * topic is never offered as a connection topic.
 *
 * The three collections agree on their keys; what was attempted and what was dispatched is exactly what the first looks at
 * well-formed messages called for; and a message has had its first look exactly if its number is in the processed set of its
 * topic, since the topic was last adopted.
 *
 * One lemma for every step of a round, and in the end one for all rounds of a run.
 */
module Hcs10Invariants {
  import opened Common
  import opened Hcs10

  /** Nobody offers the inbound topic as a connection topic. */
  predicate Sane(me: Identity, r: Round) {
    && (r.refill.Some? ==> forall c <- r.refill.value :: c.connectionTopicId != me.inboundTopicId)
    && (r.inbound.Some? ==> forall step <- r.inbound.value :: step.outcome != Some(me.inboundTopicId))
  }

  // ---------------------------------------------------------------- the collections agree

  predicate Distinct<T(==)>(s: seq<T>) {
    forall i, j :: 0 <= i < j < |s| ==> s[i] != s[j]
  }

  ghost predicate KeysInv(me: Identity, s: State) {
    && Distinct(s.connectionTopics)
    && me.inboundTopicId !in s.connectionTopics
    && (forall t :: t in s.processedMessages <==> t == me.inboundTopicId || t in s.connectionTopics)
    && (forall t :: t in s.adoption <==> t in s.connectionTopics)
    && (forall t <- s.adoption :: s.adoption[t] < s.adoptions)
  }

  ghost predicate ConnectionsMonitored(s: State) {
    forall t <- s.connections :: t in s.connectionTopics
  }

  lemma {:induction false} WithoutDistinct(topics: seq<string>, t: string)
    requires Distinct(topics)
    ensures Distinct(Without(topics, t))
  {
    if topics != [] {
      WithoutDistinct(topics[..|topics| - 1], t);
      var init := Without(topics[..|topics| - 1], t);
      assert forall x <- init :: x in topics[..|topics| - 1];
      assert topics[|topics| - 1] !in topics[..|topics| - 1];
      assert forall i :: 0 <= i < |init| ==> init[i] in init;
    }
  }

  lemma KeysRemove(me: Identity, s: State, t: string)
    requires KeysInv(me, s) && t != me.inboundTopicId
    ensures KeysInv(me, Remove(s, t))
  {
    WithoutDistinct(s.connectionTopics, t);
  }

  // ---------------------------------------------------------------- first looks and what follows from them

  /** The sequence numbers whose first look led to an attempt. */
  function Attempted(me: Identity, looks: seq<InboundRead>): seq<int> {
    if looks == [] then []
    else
      var r := looks[|looks| - 1];
      Attempted(me, looks[..|looks| - 1]) + (if Attemptable(me, r) then [r.message.sequenceNumber.value] else [])
  }

  predicate InboundSeen(looks: seq<InboundRead>, n: int) {
    exists i :: 0 <= i < |looks| && looks[i].message.sequenceNumber == Some(n)
  }

  ghost predicate InboundInv(me: Identity, s: State) {
    && me.inboundTopicId in s.processedMessages
    && (forall i, j :: 0 <= i < j < |s.inboundReads| ==>
          s.inboundReads[i].message.sequenceNumber != s.inboundReads[j].message.sequenceNumber)
    && (forall i :: 0 <= i < |s.inboundReads| ==> WellFormed(s.inboundReads[i].message))
    && (forall n :: n in s.processedMessages[me.inboundTopicId] <==> InboundSeen(s.inboundReads, n))
    && s.attempts == Attempted(me, s.inboundReads)
  }

  predicate Dispatchable(me: Identity, m: HcsMessage) {
    m.op.Message? && !IsOwn(me, m)
  }

  /** The first looks at a standard message that is not the agent's own. */
  function Dispatches(me: Identity, looks: seq<TopicRead>): seq<TopicRead> {
    if looks == [] then []
    else Dispatches(me, looks[..|looks| - 1]) + (if Dispatchable(me, looks[|looks| - 1].message) then [looks[|looks| - 1]] else [])
  }

  predicate SameMessage(x: TopicRead, y: TopicRead) {
    x.topicId == y.topicId && x.adoption == y.adoption && x.message.sequenceNumber == y.message.sequenceNumber
  }

  predicate TopicSeen(looks: seq<TopicRead>, t: string, adoption: nat, n: int) {
    exists i :: 0 <= i < |looks| && looks[i].topicId == t && looks[i].adoption == adoption && looks[i].message.sequenceNumber == Some(n)
  }

  ghost predicate TopicInv(me: Identity, s: State) {
    && (forall i, j :: 0 <= i < j < |s.topicReads| ==> !SameMessage(s.topicReads[i], s.topicReads[j]))
    && (forall i :: 0 <= i < |s.topicReads| ==> s.topicReads[i].adoption < s.adoptions)
    && (forall t <- s.adoption ::
          && t in s.processedMessages
          && forall n :: n in s.processedMessages[t] <==> TopicSeen(s.topicReads, t, s.adoption[t], n))
    && s.dispatched == Dispatches(me, s.topicReads)
  }

  ghost predicate Inv(me: Identity, s: State) {
    KeysInv(me, s) && InboundInv(me, s) && TopicInv(me, s)
  }

  lemma KeysAdopt(me: Identity, s: State, t: string)
    requires KeysInv(me, s) && t !in s.connectionTopics && t != me.inboundTopicId
    ensures KeysInv(me, Adopt(s, t))
  {
  }

  lemma InvAdopt(me: Identity, s: State, t: string)
    requires Inv(me, s) && t !in s.connectionTopics && t != me.inboundTopicId
    ensures Inv(me, Adopt(s, t))
  {
    KeysAdopt(me, s, t);
  }

  lemma InvRemove(me: Identity, s: State, t: string)
    requires Inv(me, s) && t != me.inboundTopicId
    ensures Inv(me, Remove(s, t))
  {
    KeysRemove(me, s, t);
  }

  lemma InvConnections(me: Identity, s: State, connections: map<string, Connection>)
    requires Inv(me, s)
    ensures Inv(me, s.(connections := connections))
  {
  }

  // ---------------------------------------------------------------- refill

  lemma RefillOneKeeps(me: Identity, s: State, c: Connection)
    requires Inv(me, s) && ConnectionsMonitored(s) && c.connectionTopicId != me.inboundTopicId
    ensures Inv(me, RefillOne(s, c)) && ConnectionsMonitored(RefillOne(s, c))
    ensures forall t :: t in RefillOne(s, c).connections <==> t in s.connections || (t == c.connectionTopicId && ValidTopicId(t))
  {
    var id := c.connectionTopicId;
    if ValidTopicId(id) {
      var u := if id in s.connectionTopics then s else Adopt(s, id);
      if id !in s.connectionTopics { InvAdopt(me, s, id); }
      InvConnections(me, u, s.connections[id := c]);
    }
  }

  lemma {:induction false} InvRefill(me: Identity, s: State, updated: seq<Connection>)
    requires Inv(me, s) && forall c <- updated :: c.connectionTopicId != me.inboundTopicId
    ensures Inv(me, Refill(s, updated)) && ConnectionsMonitored(Refill(s, updated))
    ensures forall t :: t in Refill(s, updated).connections <==> Offered(updated, t)
  {
    InvConnections(me, s, map[]);
    if updated != [] {
      var init, c := updated[..|updated| - 1], updated[|updated| - 1];
      assert updated == init + [c];
      InvRefill(me, s, init);
      RefillOneKeeps(me, Refill(s, init), c);
      forall t ensures Offered(updated, t) <==> Offered(init, t) || (t == c.connectionTopicId && ValidTopicId(t)) {
        OfferedMore(init, c, t);
      }
    }
  }

  /** The manager offers a usable connection on the topic. */
  predicate Offered(updated: seq<Connection>, t: string) {
    ValidTopicId(t) && exists i :: 0 <= i < |updated| && updated[i].connectionTopicId == t
  }

  lemma OfferedMore(init: seq<Connection>, c: Connection, t: string)
    ensures Offered(init + [c], t) <==> Offered(init, t) || (t == c.connectionTopicId && ValidTopicId(t))
  {
    var all := init + [c];
    assert all[|init|] == c;
    if Offered(init, t) {
      var i :| 0 <= i < |init| && init[i].connectionTopicId == t;
      assert all[i].connectionTopicId == t;
    }
  }

  // ---------------------------------------------------------------- inbound

  lemma InboundSeenMore(looks: seq<InboundRead>, r: InboundRead, k: int)
    ensures InboundSeen(looks + [r], k) <==> InboundSeen(looks, k) || r.message.sequenceNumber == Some(k)
  {
    var more := looks + [r];
    assert more[|looks|] == r;
    if InboundSeen(looks, k) {
      var i :| 0 <= i < |looks| && looks[i].message.sequenceNumber == Some(k);
      assert more[i] == looks[i];
    }
  }

  /** The state after a first look at an inbound message. */
  function InboundLook(me: Identity, s: State, r: InboundRead): State
    requires me.inboundTopicId in s.processedMessages && WellFormed(r.message)
  {
    var n := r.message.sequenceNumber.value;
    s.(processedMessages := s.processedMessages[me.inboundTopicId := s.processedMessages[me.inboundTopicId] + {n}],
       inboundReads := s.inboundReads + [r],
       attempts := if Attemptable(me, r) then s.attempts + [n] else s.attempts)
  }

  lemma InboundKept(me: Identity, s: State, r: InboundRead)
    requires InboundInv(me, s) && WellFormed(r.message) && r.message.sequenceNumber.value !in s.processedMessages[me.inboundTopicId]
    ensures InboundInv(me, InboundLook(me, s, r))
  {
    var n, looks := r.message.sequenceNumber.value, s.inboundReads + [r];
    assert looks[..|looks| - 1] == s.inboundReads;
    forall k ensures InboundSeen(looks, k) <==> InboundSeen(s.inboundReads, k) || k == n { InboundSeenMore(s.inboundReads, r, k); }
    forall i | 0 <= i < |s.inboundReads| ensures s.inboundReads[i].message.sequenceNumber != r.message.sequenceNumber {
      assert s.inboundReads[i].message.sequenceNumber == Some(n) ==> InboundSeen(s.inboundReads, n);
    }
  }

  lemma InvRead(me: Identity, s: State, r: InboundRead)
    requires Inv(me, s) && WellFormed(r.message) && r.message.sequenceNumber.value !in s.processedMessages[me.inboundTopicId]
    ensures Inv(me, InboundLook(me, s, r))
  {
    InboundKept(me, s, r);
  }

  lemma InvInboundOne(me: Identity, s: State, step: InboundStep)
    requires Inv(me, s) && step.outcome != Some(me.inboundTopicId)
    ensures Inv(me, InboundOne(me, s, step))
  {
    var m, read := step.message, InboundRead(step.message, step.known);
    if WellFormed(m) && m.sequenceNumber.value !in s.processedMessages[me.inboundTopicId] {
      InvRead(me, s, read);
      if Attemptable(me, read) && step.outcome.Some? && step.outcome.value != "" && step.outcome.value !in s.connectionTopics {
        InvAdopt(me, InboundLook(me, s, read), step.outcome.value);
      }
    }
  }

  lemma {:induction false} InvInbound(me: Identity, s: State, steps: seq<InboundStep>)
    requires Inv(me, s) && forall step <- steps :: step.outcome != Some(me.inboundTopicId)
    ensures Inv(me, InboundAll(me, s, steps))
  {
    if steps != [] {
      InvInbound(me, s, steps[..|steps| - 1]);
      InvInboundOne(me, InboundAll(me, s, steps[..|steps| - 1]), steps[|steps| - 1]);
    }
  }

  /** The inbound phase adopts topics, looks at messages for the first time and leaves the rest alone. */
  lemma {:induction false} InboundFrame(me: Identity, s: State, steps: seq<InboundStep>)
    requires me.inboundTopicId in s.processedMessages
    ensures var n := InboundAll(me, s, steps);
            && n.connections == s.connections && n.topicReads == s.topicReads && s.inboundReads <= n.inboundReads
            && n.dispatched == s.dispatched
            && forall t <- s.connectionTopics :: t in n.connectionTopics
  {
    if steps != [] { InboundFrame(me, s, steps[..|steps| - 1]); }
  }

  // ---------------------------------------------------------------- connection topics

  /** A first look at a message, together with the dispatch it leads to. */
  function Look(me: Identity, s: State, t: string, m: HcsMessage): State
    requires t in s.processedMessages && WellFormed(m)
  {
    if Dispatchable(me, m) then Dispatch(See(s, t, m), t, m) else See(s, t, m)
  }

  lemma TopicSeenMore(looks: seq<TopicRead>, r: TopicRead, x: string, a: nat, k: int)
    ensures TopicSeen(looks + [r], x, a, k) <==>
              TopicSeen(looks, x, a, k) || (x == r.topicId && a == r.adoption && r.message.sequenceNumber == Some(k))
  {
    var more := looks + [r];
    if TopicSeen(looks, x, a, k) {
      var i :| 0 <= i < |looks| && looks[i].topicId == x && looks[i].adoption == a && looks[i].message.sequenceNumber == Some(k);
      assert more[i] == looks[i];
    }
    assert more[|looks|] == r;
  }

  lemma LookSeen(s: State, t: string, m: HcsMessage, x: string, k: int, looks: seq<TopicRead>)
    requires t in s.adoption && x in s.adoption && x in s.processedMessages && t in s.processedMessages && WellFormed(m)
    requires k in s.processedMessages[x] <==> TopicSeen(s.topicReads, x, s.adoption[x], k)
    requires looks == s.topicReads + [TopicRead(t, s.adoption[t], m)]
    ensures k in See(s, t, m).processedMessages[x] <==> TopicSeen(looks, x, s.adoption[x], k)
  {
    TopicSeenMore(s.topicReads, TopicRead(t, s.adoption[t], m), x, s.adoption[x], k);
  }

  lemma TopicLook(me: Identity, s: State, t: string, m: HcsMessage)
    requires Inv(me, s) && t in s.connectionTopics && WellFormed(m) && m.sequenceNumber.value !in s.processedMessages[t]
    ensures TopicInv(me, Look(me, s, t, m))
  {
    var n, r, u := m.sequenceNumber.value, TopicRead(t, s.adoption[t], m), Look(me, s, t, m);
    assert (s.topicReads + [r])[..|s.topicReads|] == s.topicReads;
    forall x, k | x in u.adoption
      ensures k in u.processedMessages[x] <==> TopicSeen(u.topicReads, x, u.adoption[x], k)
    {
      LookSeen(s, t, m, x, k, u.topicReads);
    }
    forall i | 0 <= i < |s.topicReads| ensures !SameMessage(s.topicReads[i], r) {
      assert SameMessage(s.topicReads[i], r) ==> TopicSeen(s.topicReads, t, s.adoption[t], n);
    }
  }

  lemma InvLook(me: Identity, s: State, t: string, m: HcsMessage)
    requires Inv(me, s) && t in s.connectionTopics && WellFormed(m) && m.sequenceNumber.value !in s.processedMessages[t]
    ensures Inv(me, Look(me, s, t, m))
  {
    TopicLook(me, s, t, m);
  }

  /** What processing one topic leaves alone. */
  ghost predicate OnlyTopic(s: State, n: State, t: string) {
    && n.inboundReads == s.inboundReads && n.attempts == s.attempts
    && (forall x :: x != t ==> (x in n.connections <==> x in s.connections) && (x in n.connectionTopics <==> x in s.connectionTopics))
    && (t in n.connectionTopics ==> t in n.connections)
    && (t in n.connections ==> t in n.connectionTopics)
  }

  lemma {:induction false} InvTopicMessages(me: Identity, s: State, t: string, messages: seq<HcsMessage>)
    requires Inv(me, s) && t in s.connectionTopics && t in s.connections
    ensures Inv(me, TopicMessages(me, s, t, messages))
    ensures OnlyTopic(s, TopicMessages(me, s, t, messages), t)
    decreases |messages|
  {
    if messages != [] {
      var m := messages[0];
      if !WellFormed(m) || m.sequenceNumber.value in s.processedMessages[t] {
        InvTopicMessages(me, s, t, messages[1..]);
      } else {
        InvLook(me, s, t, m);
        var seen := Look(me, s, t, m);
        if !IsOwn(me, m) && m.op.CloseConnection? {
          InvRemove(me, seen, t);
        } else if !Stops(me, m) {
          InvTopicMessages(me, seen, t, messages[1..]);
        }
      }
    }
  }

  lemma InvTopicOne(me: Identity, s: State, t: string, streams: map<string, Stream>)
    requires Inv(me, s) && t in s.connectionTopics
    ensures Inv(me, TopicOne(me, s, t, streams))
    ensures OnlyTopic(s, TopicOne(me, s, t, streams), t)
    ensures t !in s.connections ==> t !in TopicOne(me, s, t, streams).connectionTopics && TopicOne(me, s, t, streams).topicReads == s.topicReads
  {
    if t !in s.connections {
      InvRemove(me, s, t);
    } else {
      match StreamOf(streams, t) {
        case Failed(gone) => if gone { InvRemove(me, s, t); }
        case Messages(messages) => InvTopicMessages(me, s, t, messages);
      }
    }
  }

  /** The topics that were visited are monitored exactly if they are connected; the others are as before. */
  ghost predicate Visited(s: State, n: State, topics: seq<string>) {
    && (forall t <- topics :: t in n.connectionTopics <==> t in n.connections)
    && (forall t <- topics :: t !in s.connections ==> t !in n.connectionTopics)
    && (forall t :: t !in topics ==> (t in n.connectionTopics <==> t in s.connectionTopics) && (t in n.connections <==> t in s.connections))
  }

  lemma VisitedMore(s: State, b: State, n: State, init: seq<string>, t: string)
    requires Visited(s, b, init) && OnlyTopic(b, n, t) && t !in init && (t !in b.connections ==> t !in n.connectionTopics)
    ensures Visited(s, n, init + [t])
  {
  }

  lemma {:induction false} InvTopics(me: Identity, s: State, topics: seq<string>, streams: map<string, Stream>)
    requires Inv(me, s) && Distinct(topics) && forall t <- topics :: t in s.connectionTopics
    ensures Inv(me, TopicAll(me, s, topics, streams)) && Visited(s, TopicAll(me, s, topics, streams), topics)
  {
    if topics != [] {
      var init, t := topics[..|topics| - 1], topics[|topics| - 1];
      assert topics == init + [t] && t !in init;
      InvTopics(me, s, init, streams);
      InvTopicOne(me, TopicAll(me, s, init, streams), t, streams);
      VisitedMore(s, TopicAll(me, s, init, streams), TopicAll(me, s, topics, streams), init, t);
    }
  }

  // ---------------------------------------------------------------- every round

  lemma {:induction false} InvStart(me: Identity, loaded: seq<Connection>)
    requires forall c <- loaded :: c.connectionTopicId != me.inboundTopicId
    ensures Inv(me, Start(me, loaded))
  {
    if loaded != [] {
      var init, c := loaded[..|loaded| - 1], loaded[|loaded| - 1];
      assert loaded == init + [c];
      InvStart(me, init);
      var s := Start(me, init);
      if ValidTopicId(c.connectionTopicId) && c.connectionTopicId !in s.connectionTopics {
        InvAdopt(me, s, c.connectionTopicId);
        InvConnections(me, Adopt(s, c.connectionTopicId), s.connections[c.connectionTopicId := c]);
      } else {
        InvConnections(me, s, s.connections[c.connectionTopicId := c]);
      }
    }
  }

  lemma InvAfterInbound(me: Identity, s: State, r: Round)
    requires Inv(me, s) && Sane(me, r)
    ensures Inv(me, AfterRefill(s, r)) && Inv(me, AfterInbound(me, s, r))
  {
    if r.refill.Some? { InvRefill(me, s, r.refill.value); }
    if Continues(me, s, r) { InvInbound(me, AfterRefill(s, r), r.inbound.value); }
  }

  lemma InvRound(me: Identity, s: State, r: Round)
    requires Inv(me, s) && Sane(me, r)
    ensures Inv(me, AfterRound(me, s, r))
  {
    InvAfterInbound(me, s, r);
    var t := AfterInbound(me, s, r);
    if Continues(me, s, r) { InvTopics(me, t, t.connectionTopics, r.streams); }
  }

  ghost predicate SaneRun(me: Identity, loaded: seq<Connection>, rounds: seq<Round>) {
    (forall c <- loaded :: c.connectionTopicId != me.inboundTopicId) && forall r <- rounds :: Sane(me, r)
  }

  function Run(me: Identity, loaded: seq<Connection>, rounds: seq<Round>): State {
    AfterRounds(me, Start(me, loaded), rounds)
  }

  lemma {:induction false} InvRun(me: Identity, loaded: seq<Connection>, rounds: seq<Round>)
    requires SaneRun(me, loaded, rounds)
    ensures Inv(me, Run(me, loaded, rounds))
  {
    if rounds == [] {
      InvStart(me, loaded);
    } else {
      var init, r := rounds[..|rounds| - 1], rounds[|rounds| - 1];
      assert rounds == init + [r];
      InvRun(me, loaded, init);
      InvRound(me, Run(me, loaded, init), r);
    }
  }
}
