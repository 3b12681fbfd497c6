/** The loop of monitorTopics, with its three collections as fields. */
module Hcs10Poller {
  import opened Common
  import opened Hcs10

  class Poller {
    const me: Identity
    var connections: map<string, Connection>
    var connectionTopics: seq<string>
    var processedMessages: map<string, set<int>>
    ghost var adoption: map<string, nat>
    ghost var adoptions: nat
    ghost var inboundReads: seq<InboundRead>
    ghost var attempts: seq<int>
    ghost var topicReads: seq<TopicRead>
    ghost var dispatched: seq<TopicRead>

    ghost function View(): State
      reads this
    {
      State(connections, connectionTopics, processedMessages, adoption, adoptions, inboundReads, attempts, topicReads, dispatched)
    }

    /** Lines 305 to 320. */
    constructor (me: Identity, loaded: seq<Connection>)
      ensures this.me == me && View() == Start(me, loaded)
    {
      this.me := me;
      connections, connectionTopics, processedMessages := map[], [], map[me.inboundTopicId := {}];
      adoption, adoptions, inboundReads, attempts, topicReads, dispatched := map[], 0, [], [], [], [];
      new;
      for i := 0 to |loaded|
        invariant View() == Start(me, loaded[..i])
      {
        var c := loaded[i];
        if ValidTopicId(c.connectionTopicId) && c.connectionTopicId !in connectionTopics {
          AdoptTopic(c.connectionTopicId);
        }
        connections := connections[c.connectionTopicId := c];
        assert loaded[..i + 1][..i] == loaded[..i];
      }
      assert loaded[..|loaded|] == loaded;
    }

    method AdoptTopic(topicId: string)
      requires topicId !in connectionTopics
      modifies this
      ensures View() == Adopt(old(View()), topicId)
    {
      connectionTopics := connectionTopics + [topicId];
      processedMessages := processedMessages[topicId := {}];
      adoption, adoptions := adoption[topicId := adoptions], adoptions + 1;
    }

    method RemoveTopic(topicId: string)
      modifies this
      ensures View() == Remove(old(View()), topicId)
    {
      connections := connections - {topicId};
      connectionTopics := Without(connectionTopics, topicId);
      processedMessages := processedMessages - {topicId};
      adoption := adoption - {topicId};
    }

    method RefillConnections(updated: seq<Connection>)
      modifies this
      ensures View() == Refill(old(View()), updated)
    {
      connections := map[];
      assert updated[..0] == [];
      for i := 0 to |updated|
        invariant View() == Refill(old(View()), updated[..i])
      {
        var id := updated[i].connectionTopicId;
        if ValidTopicId(id) {
          if id !in connectionTopics {
            AdoptTopic(id);
          }
          connections := connections[id := updated[i]];
        }
        assert updated[..i + 1][..i] == updated[..i];
      }
      assert updated[..|updated|] == updated;
    }

    method HandleInbound(step: InboundStep)
      requires me.inboundTopicId in processedMessages
      modifies this
      ensures View() == InboundOne(me, old(View()), step)
    {
      var m := step.message;
      if !WellFormed(m) {
        return;
      }
      var n, inboundProcessed := m.sequenceNumber.value, processedMessages[me.inboundTopicId];
      if n in inboundProcessed {
        return;
      }
      processedMessages := processedMessages[me.inboundTopicId := inboundProcessed + {n}];
      inboundReads := inboundReads + [InboundRead(m, step.known)];
      if IsOwn(me, m) || !m.op.ConnectionRequest? || HandledAlready(step.known, n) {
        return;
      }
      var newTopicId := HandleConnectionRequest(m, step);
      if newTopicId.Some? && newTopicId.value != "" && newTopicId.value !in connectionTopics {
        AdoptTopic(newTopicId.value);
      }
    }

    /** handleConnectionRequest: the checks that remain, and one call of the SDK. */
    method HandleConnectionRequest(m: HcsMessage, step: InboundStep) returns (topicId: Option<string>)
      requires WellFormed(m) && step.message == m
      modifies this`attempts
      ensures var requester := ExtractAccountId(m.operatorId);
              var valid := requester.Some? && requester.value != "" && !HandledAlready(step.known, m.sequenceNumber.value);
              attempts == if valid then old(attempts) + [m.sequenceNumber.value] else old(attempts)
      ensures !HandledAlready(step.known, m.sequenceNumber.value) ==>
                topicId == if attempts == old(attempts) then None else step.outcome
    {
      var requester := ExtractAccountId(m.operatorId);
      if m.operatorId == "" || requester.None? || requester.value == "" {
        return None;
      }
      var existing := Existing(step.known, m.sequenceNumber.value);
      if existing.Some? && ValidTopicId(existing.value.connectionTopicId) {
        return Some(existing.value.connectionTopicId);
      }
      attempts := attempts + [m.sequenceNumber.value];
      return step.outcome;
    }

    /** Lines 353 to 413. */
    method ProcessInbound(steps: seq<InboundStep>)
      requires me.inboundTopicId in processedMessages
      modifies this
      ensures View() == InboundAll(me, old(View()), steps)
    {
      ghost var before := View();
      for i := 0 to |steps|
        invariant me.inboundTopicId in processedMessages
        invariant View() == InboundAll(me, before, steps[..i])
      {
        HandleInbound(steps[i]);
        InboundMore(me, before, steps, i);
      }
      assert steps[..|steps|] == steps;
    }

    /** Lines 431 to 467; the loop stops at a close_connection. */
    method ProcessTopicMessages(topicId: string, messages: seq<HcsMessage>)
      requires topicId in processedMessages
      modifies this
      ensures View() == TopicMessages(me, old(View()), topicId, messages)
    {
      var i := 0;
      while i < |messages|
        invariant i <= |messages|
        invariant topicId in processedMessages
        invariant TopicMessages(me, View(), topicId, messages[i..]) == TopicMessages(me, old(View()), topicId, messages)
      {
        var m := messages[i];
        ghost var before := View();
        assert messages[i..][0] == m && messages[i..][1..] == messages[i + 1..];
        if WellFormed(m) && m.sequenceNumber.value !in processedMessages[topicId] {
          processedMessages := processedMessages[topicId := processedMessages[topicId] + {m.sequenceNumber.value}];
          topicReads := topicReads + [TopicRead(topicId, Adoption(View(), topicId), m)];
          assert View() == See(before, topicId, m);
          if !IsOwn(me, m) {
            if m.op.Message? {
              dispatched := dispatched + [TopicRead(topicId, Adoption(View(), topicId), m)];
              if !m.dataIsText {
                return;
              }
            } else if m.op.CloseConnection? {
              RemoveTopic(topicId);
              return;
            }
          }
        }
        i := i + 1;
      }
    }

    /** The body of the loop over connection topics. */
    method ProcessTopic(topicId: string, streams: map<string, Stream>)
      modifies this
      ensures View() == TopicOne(me, old(View()), topicId, streams)
    {
      if topicId !in connections {
        RemoveTopic(topicId);
        return;
      }
      match StreamOf(streams, topicId) {
        case Failed(gone) =>
          if gone { RemoveTopic(topicId); }
        case Messages(messages) =>
          if topicId in processedMessages {
            ProcessTopicMessages(topicId, messages);
          }
      }
    }

    /** Lines 329 to 490, once. */
    method Poll(round: Round)
      modifies this
      ensures View() == AfterRound(me, old(View()), round)
    {
      if round.refill.None? {
        return;
      }
      RefillConnections(round.refill.value);
      if round.inbound.None? {
        return;
      }
      if me.inboundTopicId in processedMessages {
        ProcessInbound(round.inbound.value);
      } else if exists step <- round.inbound.value :: WellFormed(step.message) {
        return;
      }
      var topics := connectionTopics;
      ghost var before := View();
      for i := 0 to |topics|
        invariant View() == TopicAll(me, before, topics[..i], round.streams)
      {
        ProcessTopic(topics[i], round.streams);
        assert topics[..i + 1][..i] == topics[..i];
      }
      assert topics[..|topics|] == topics;
    }
  }
}
