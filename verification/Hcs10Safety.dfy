/** What every run of the polling agent keeps, provided the inbound topic is never offered as a connection topic. */
module Hcs10Safety {
  import opened Common
  import opened Hcs10
  import opened Hcs10Invariants
  import Text

  // ---------------------------------------------------------------- the collections stay in step

  /**
   * In every state between rounds the messages processed are kept for the inbound topic and the monitored topics, for
   * no others, and so neither lookup that the code asserts to be non-null can fail.
   */
  lemma ProcessedIsKeptForMonitored(me: Identity, loaded: seq<Connection>, rounds: seq<Round>)
    requires SaneRun(me, loaded, rounds)
    ensures var s := Run(me, loaded, rounds);
            && (forall t :: t in s.processedMessages <==> t == me.inboundTopicId || t in s.connectionTopics)
            && Distinct(s.connectionTopics) && me.inboundTopicId !in s.connectionTopics
  {
    InvRun(me, loaded, rounds);
  }

  /** The lookup of the inbound set succeeds in every round of every run. */
  lemma InboundLookupSucceeds(me: Identity, loaded: seq<Connection>, rounds: seq<Round>, r: Round)
    requires SaneRun(me, loaded, rounds) && Sane(me, r)
    ensures me.inboundTopicId in AfterRefill(Run(me, loaded, rounds), r).processedMessages
  {
    InvRun(me, loaded, rounds);
    InvAfterInbound(me, Run(me, loaded, rounds), r);
  }

  /**
   * The lookup of the set of a connection topic succeeds: in every round of every run, after any number of topics has been
   * visited, every connected topic that is still to be visited has its set.
   */
  lemma TopicLookupSucceeds(me: Identity, loaded: seq<Connection>, rounds: seq<Round>, r: Round, n: nat, i: nat)
    requires SaneRun(me, loaded, rounds) && Sane(me, r) && Continues(me, Run(me, loaded, rounds), r)
    requires var topics := AfterInbound(me, Run(me, loaded, rounds), r).connectionTopics; n <= i < |topics|
    ensures var t := AfterInbound(me, Run(me, loaded, rounds), r);
            var u := TopicAll(me, t, t.connectionTopics[..n], r.streams);
            t.connectionTopics[i] in u.connections ==> t.connectionTopics[i] in u.processedMessages
  {
    var s := Run(me, loaded, rounds);
    InvRun(me, loaded, rounds);
    InvAfterInbound(me, s, r);
    var t := AfterInbound(me, s, r);
    var visited := t.connectionTopics[..n];
    InvTopics(me, t, visited, r.streams);
    assert t.connectionTopics[i] !in visited;
  }

  lemma MonitoredAfterRound(me: Identity, s: State, r: Round)
    requires Inv(me, s) && Sane(me, r) && (r.refill.Some? || ConnectionsMonitored(s))
    ensures ConnectionsMonitored(AfterRound(me, s, r))
  {
    InvAfterInbound(me, s, r);
    if r.refill.Some? { InvRefill(me, s, r.refill.value); }
    if Continues(me, s, r) {
      InboundFrame(me, AfterRefill(s, r), r.inbound.value);
      var t := AfterInbound(me, s, r);
      InvTopics(me, t, t.connectionTopics, r.streams);
    }
  }

  /** From the first successful refill on, every connection is on a monitored topic. */
  lemma {:induction false} ConnectionsAreMonitored(me: Identity, loaded: seq<Connection>, rounds: seq<Round>)
    requires SaneRun(me, loaded, rounds) && exists r :: r in rounds && r.refill.Some?
    ensures ConnectionsMonitored(Run(me, loaded, rounds))
  {
    var init, r := rounds[..|rounds| - 1], rounds[|rounds| - 1];
    assert rounds == init + [r];
    InvRun(me, loaded, init);
    if r.refill.None? { ConnectionsAreMonitored(me, loaded, init); }
    MonitoredAfterRound(me, Run(me, loaded, init), r);
  }

  /**
   * A round that gets through leaves exactly the connected topics monitored, and every one of them was offered by the
   * manager in that round: a topic comes back after a close or a drop only if the manager offers it.
   */
  lemma MonitoredIffConnected(me: Identity, s: State, r: Round)
    requires Inv(me, s) && Sane(me, r) && r.refill.Some? && r.inbound.Some?
    ensures var n := AfterRound(me, s, r);
            forall t :: (t in n.connectionTopics <==> t in n.connections) && (t in n.connectionTopics ==> Offered(r.refill.value, t))
  {
    InvAfterInbound(me, s, r);
    InvRefill(me, s, r.refill.value);
    InboundFrame(me, AfterRefill(s, r), r.inbound.value);
    var t := AfterInbound(me, s, r);
    InvTopics(me, t, t.connectionTopics, r.streams);
  }

  lemma {:induction false} UnconnectedNotLooked(me: Identity, s: State, topics: seq<string>, streams: map<string, Stream>, x: string)
    requires Inv(me, s) && Distinct(topics) && (forall t <- topics :: t in s.connectionTopics) && x !in s.connections
    ensures forall r <- TopicAll(me, s, topics, streams).topicReads :: r.topicId == x ==> r in s.topicReads
  {
    if topics != [] {
      var init, t := topics[..|topics| - 1], topics[|topics| - 1];
      assert topics == init + [t] && t !in init;
      UnconnectedNotLooked(me, s, init, streams, x);
      InvTopics(me, s, init, streams);
      var n := TopicAll(me, s, init, streams);
      assert x !in n.connections by { if x in init { assert x in n.connectionTopics <==> x in n.connections; } }
      InvTopicOne(me, n, t, streams);
      if t in n.connections && StreamOf(streams, t).Messages? { LooksOnlyAt(me, n, t, StreamOf(streams, t).messages); }
    }
  }

  lemma {:induction false} LooksOnlyAt(me: Identity, s: State, t: string, messages: seq<HcsMessage>)
    requires t in s.processedMessages
    ensures forall r <- TopicMessages(me, s, t, messages).topicReads :: r in s.topicReads || r.topicId == t
    decreases |messages|
  {
    if messages != [] {
      var m := messages[0];
      if !WellFormed(m) || m.sequenceNumber.value in s.processedMessages[t] {
        LooksOnlyAt(me, s, t, messages[1..]);
      } else if !Stops(me, m) {
        LooksOnlyAt(me, Look(me, s, t, m), t, messages[1..]);
      }
    }
  }

  /**
   * The topic that a connection request creates is not among the connections of the round that creates it, so the
   * same round drops it again without looking at any of its messages.
   */
  lemma AdoptedIsDroppedAtOnce(me: Identity, s: State, r: Round, x: string)
    requires Inv(me, s) && Sane(me, r) && r.refill.Some? && r.inbound.Some?
    requires x !in AfterRefill(s, r).connectionTopics && x in AfterInbound(me, s, r).connectionTopics
    ensures var n := AfterRound(me, s, r);
            && x !in n.connectionTopics && x !in n.connections && x !in n.processedMessages
            && forall k <- n.topicReads :: k.topicId == x ==> k in s.topicReads
  {
    InvAfterInbound(me, s, r);
    InvRefill(me, s, r.refill.value);
    var t := AfterInbound(me, s, r);
    InboundFrame(me, AfterRefill(s, r), r.inbound.value);
    RefillFrame(s, r.refill.value);
    InvTopics(me, t, t.connectionTopics, r.streams);
    UnconnectedNotLooked(me, t, t.connectionTopics, r.streams, x);
  }

  lemma {:induction false} RefillFrame(s: State, updated: seq<Connection>)
    ensures var n := Refill(s, updated);
            n.topicReads == s.topicReads && n.inboundReads == s.inboundReads && n.dispatched == s.dispatched
  {
    if updated != [] { RefillFrame(s, updated[..|updated| - 1]); }
  }

  // ---------------------------------------------------------------- exactly once

  /** The first entry the manager has for a request, if it has one. */
  predicate FirstEntry(known: seq<Connection>, n: int, i: nat) {
    i < |known| && known[i].inboundRequestId == Some(n) && forall j :: 0 <= j < i ==> known[j].inboundRequestId != Some(n)
  }

  /** Looking for an existing connection finds the first entry with the number of the request, and none exactly if no entry has it. */
  lemma {:induction false} ExistingIff(known: seq<Connection>, n: int)
    ensures forall c :: Existing(known, n) == Some(c) <==> exists i: nat :: FirstEntry(known, n, i) && known[i] == c
    ensures Existing(known, n) == None <==> forall i :: 0 <= i < |known| ==> known[i].inboundRequestId != Some(n)
  {
    if known == [] {
    } else if known[0].inboundRequestId == Some(n) {
      assert FirstEntry(known, n, 0);
    } else {
      ExistingIff(known[1..], n);
      forall i: nat | i < |known[1..]| ensures FirstEntry(known[1..], n, i) <==> FirstEntry(known, n, i + 1) { TailEntry(known, n, i); }
      forall i: nat | FirstEntry(known, n, i) ensures i > 0 && FirstEntry(known[1..], n, i - 1) && known[1..][i - 1] == known[i] {
        TailEntry(known, n, i - 1);
      }
    }
  }

  lemma TailEntry(known: seq<Connection>, n: int, i: nat)
    requires known != [] && known[0].inboundRequestId != Some(n) && i < |known[1..]|
    ensures FirstEntry(known[1..], n, i) <==> FirstEntry(known, n, i + 1)
    ensures known[1..][i] == known[i + 1]
  {
    if FirstEntry(known[1..], n, i) {
      forall j | 0 <= j < i + 1 ensures known[j].inboundRequestId != Some(n) { if j > 0 { assert known[1..][j - 1] == known[j]; } }
    }
    if FirstEntry(known, n, i + 1) {
      forall j | 0 <= j < i ensures known[1..][j].inboundRequestId != Some(n) { assert known[1..][j] == known[j + 1]; }
    }
  }

  /** The first entry the manager has for the request is a connection with a topic. */
  predicate Served(known: seq<Connection>, n: int) {
    exists i: nat :: i < |known| && FirstEntry(known, n, i) && ValidTopicId(known[i].connectionTopicId)
  }

  /** The operator id names one account, which is not the agent's own. */
  predicate NamesOther(me: Identity, operatorId: string) {
    && !(|me.accountId| + 1 <= |operatorId| && operatorId[|operatorId| - |me.accountId| - 1..] == "@" + me.accountId)
    && exists k :: 0 <= k < |operatorId| - 1 && operatorId[k] == '@' && '@' !in operatorId[..k] && '@' !in operatorId[k + 1..]
  }

  /** A first look at the request n that leads to an attempt to connect. */
  predicate AttemptedAt(me: Identity, r: InboundRead, n: int) {
    && r.message.created && r.message.sequenceNumber == Some(n) && n > 0 && r.message.op.ConnectionRequest?
    && NamesOther(me, r.message.operatorId) && !Served(r.known, n)
  }

  lemma OneAt(operatorId: string, k: nat)
    requires k < |operatorId| && operatorId[k] == '@' && '@' !in operatorId[..k] && '@' !in operatorId[k + 1..]
    ensures ExtractAccountId(operatorId) == Some(operatorId[k + 1..])
  {
    assert operatorId == operatorId[..k] + ['@'] + operatorId[k + 1..];
    var parts := [operatorId[..k], operatorId[k + 1..]];
    assert parts[1..] == [parts[1]] && Text.Join([parts[1]], '@') == parts[1];
    assert Text.Join(parts, '@') == operatorId;
    Text.SplitJoin(parts, '@');
  }

  lemma ExtractIsOneAt(operatorId: string)
    requires ExtractAccountId(operatorId).Some?
    ensures exists k :: 0 <= k < |operatorId| && operatorId[k] == '@' && '@' !in operatorId[..k] && '@' !in operatorId[k + 1..]
                        && operatorId[k + 1..] == ExtractAccountId(operatorId).value
  {
    var parts := Text.Split(operatorId, '@');
    Text.JoinSplit(operatorId, '@');
    assert Text.Join(parts[1..], '@') == parts[1];
    var k := |parts[0]|;
    assert operatorId == parts[0] + ['@'] + parts[1];
    assert operatorId[..k] == parts[0] && operatorId[k + 1..] == parts[1];
  }

  lemma NamesOtherIff(me: Identity, m: HcsMessage)
    ensures NamesOther(me, m.operatorId)
            <==> !IsOwn(me, m) && ExtractAccountId(m.operatorId).Some? && ExtractAccountId(m.operatorId).value != ""
  {
    if ExtractAccountId(m.operatorId).Some? { ExtractIsOneAt(m.operatorId); }
    if k :| 0 <= k < |m.operatorId| - 1 && m.operatorId[k] == '@' && '@' !in m.operatorId[..k] && '@' !in m.operatorId[k + 1..] {
      OneAt(m.operatorId, k);
    }
  }

  /** The branches of the loop let exactly such requests through. */
  lemma AttemptableIff(me: Identity, r: InboundRead, n: int)
    ensures AttemptedAt(me, r, n) <==> Attemptable(me, r) && r.message.sequenceNumber == Some(n)
  {
    NamesOtherIff(me, r.message);
    ExistingIff(r.known, n);
    var x := Existing(r.known, n);
    if x.Some? {
      var i: nat :| FirstEntry(r.known, n, i) && r.known[i] == x.value;
      forall j: nat | FirstEntry(r.known, n, j) ensures j == i { }
    }
  }

  lemma {:induction false} AttemptedMembers(me: Identity, looks: seq<InboundRead>, n: int)
    ensures n in Attempted(me, looks) <==> exists i :: 0 <= i < |looks| && AttemptedAt(me, looks[i], n)
  {
    if looks != [] {
      var init, r := looks[..|looks| - 1], looks[|looks| - 1];
      AttemptedMembers(me, init, n);
      AttemptableIff(me, r, n);
      if n in Attempted(me, init) {
        var i :| 0 <= i < |init| && AttemptedAt(me, init[i], n);
        assert looks[i] == init[i];
      }
      if AttemptedAt(me, r, n) { assert looks[|looks| - 1] == r; }
      if i :| 0 <= i < |looks| && AttemptedAt(me, looks[i], n) {
        if i < |init| { assert init[i] == looks[i]; }
      }
    }
  }

  lemma {:induction false} AttemptedDistinct(me: Identity, looks: seq<InboundRead>)
    requires forall i, j :: 0 <= i < j < |looks| ==> looks[i].message.sequenceNumber != looks[j].message.sequenceNumber
    ensures Distinct(Attempted(me, looks))
  {
    if looks != [] {
      var init, r := looks[..|looks| - 1], looks[|looks| - 1];
      AttemptedDistinct(me, init);
      if Attemptable(me, r) {
        AttemptedMembers(me, init, r.message.sequenceNumber.value);
        assert r.message.sequenceNumber.value !in Attempted(me, init);
      }
    }
  }

  /**
   * Each request number is attempted at most once in the whole run, and exactly if the first look at it found a request that
   * names one account, not the own one, and that the manager did not know by its number as a connection with a topic.
   */
  lemma RequestsAttemptedOnce(me: Identity, loaded: seq<Connection>, rounds: seq<Round>)
    requires SaneRun(me, loaded, rounds)
    ensures var s := Run(me, loaded, rounds);
            && Distinct(s.attempts)
            && (forall i, j :: 0 <= i < j < |s.inboundReads| ==>
                  s.inboundReads[i].message.sequenceNumber != s.inboundReads[j].message.sequenceNumber)
            && (forall n :: n in s.attempts <==> exists i :: 0 <= i < |s.inboundReads| && AttemptedAt(me, s.inboundReads[i], n))
  {
    InvRun(me, loaded, rounds);
    var looks := Run(me, loaded, rounds).inboundReads;
    AttemptedDistinct(me, looks);
    forall n ensures n in Attempted(me, looks) <==> exists i :: 0 <= i < |looks| && AttemptedAt(me, looks[i], n) {
      AttemptedMembers(me, looks, n);
    }
  }

  lemma InboundMarks(me: Identity, s: State, step: InboundStep, k: int)
    requires me.inboundTopicId in s.processedMessages && step.outcome != Some(me.inboundTopicId)
    requires k in s.processedMessages[me.inboundTopicId] || (WellFormed(step.message) && step.message.sequenceNumber.value == k)
    ensures k in InboundOne(me, s, step).processedMessages[me.inboundTopicId]
  {
  }

  lemma {:induction false} InboundProcessed(me: Identity, s: State, steps: seq<InboundStep>, i: nat)
    requires me.inboundTopicId in s.processedMessages && (forall step <- steps :: step.outcome != Some(me.inboundTopicId))
    requires i < |steps| && WellFormed(steps[i].message)
    ensures steps[i].message.sequenceNumber.value in InboundAll(me, s, steps).processedMessages[me.inboundTopicId]
  {
    var init, last := steps[..|steps| - 1], steps[|steps| - 1];
    if i < |init| { InboundProcessed(me, s, init, i); }
    InboundMarks(me, InboundAll(me, s, init), last, steps[i].message.sequenceNumber.value);
  }

  lemma InboundLooked(me: Identity, s: State, steps: seq<InboundStep>, i: nat)
    requires Inv(me, s) && (forall step <- steps :: step.outcome != Some(me.inboundTopicId))
    requires i < |steps| && WellFormed(steps[i].message)
    ensures InboundSeen(InboundAll(me, s, steps).inboundReads, steps[i].message.sequenceNumber.value)
  {
    InvInbound(me, s, steps);
    InboundProcessed(me, s, steps, i);
  }

  /** Every well-formed message a round reads from the inbound topic has had its first look by the end of the round. */
  lemma RequestsLookedAt(me: Identity, s: State, r: Round, i: nat)
    requires Inv(me, s) && Sane(me, r) && r.refill.Some? && r.inbound.Some? && i < |r.inbound.value| && WellFormed(r.inbound.value[i].message)
    ensures InboundSeen(AfterRound(me, s, r).inboundReads, r.inbound.value[i].message.sequenceNumber.value)
  {
    InvAfterInbound(me, s, r);
    InboundLooked(me, AfterRefill(s, r), r.inbound.value, i);
    var t := AfterInbound(me, s, r);
    TopicsKeepInbound(me, t, t.connectionTopics, r.streams);
  }

  lemma {:induction false} TopicsKeepInbound(me: Identity, s: State, topics: seq<string>, streams: map<string, Stream>)
    requires Inv(me, s) && Distinct(topics) && forall t <- topics :: t in s.connectionTopics
    ensures TopicAll(me, s, topics, streams).inboundReads == s.inboundReads
  {
    if topics != [] {
      var init, t := topics[..|topics| - 1], topics[|topics| - 1];
      assert topics == init + [t] && t !in init;
      TopicsKeepInbound(me, s, init, streams);
      InvTopics(me, s, init, streams);
      InvTopicOne(me, TopicAll(me, s, init, streams), t, streams);
    }
  }

  lemma {:induction false} DispatchesDistinct(me: Identity, looks: seq<TopicRead>)
    requires forall i, j :: 0 <= i < j < |looks| ==> !SameMessage(looks[i], looks[j])
    ensures var d := Dispatches(me, looks);
            && (forall i, j :: 0 <= i < j < |d| ==> !SameMessage(d[i], d[j]))
            && (forall r :: r in d <==> r in looks && Dispatchable(me, r.message))
  {
    if looks != [] {
      var init, r := looks[..|looks| - 1], looks[|looks| - 1];
      assert looks == init + [r];
      DispatchesDistinct(me, init);
      var d := Dispatches(me, init);
      forall i | 0 <= i < |d| ensures !SameMessage(d[i], r) {
        assert d[i] in init;
        var k :| 0 <= k < |init| && init[k] == d[i];
        assert !SameMessage(looks[k], looks[|looks| - 1]);
      }
    }
  }

  /**
   * Between the adoption of a topic and its removal a sequence number is dispatched at most once, what is dispatched
   * are exactly the first looks at a standard message of somebody else, and so never a message of the agent itself.
   */
  lemma MessagesDispatchedOnce(me: Identity, loaded: seq<Connection>, rounds: seq<Round>)
    requires SaneRun(me, loaded, rounds)
    ensures var s := Run(me, loaded, rounds);
            && (forall i, j :: 0 <= i < j < |s.dispatched| ==> !SameMessage(s.dispatched[i], s.dispatched[j]))
            && (forall r :: r in s.dispatched <==> r in s.topicReads && r.message.op.Message? && !IsOwn(me, r.message))
  {
    InvRun(me, loaded, rounds);
    DispatchesDistinct(me, Run(me, loaded, rounds).topicReads);
  }

  // ---------------------------------------------------------------- what is looked at, and what is forgotten

  /** The numbers that have had their first look on a topic since it was adopted; none if it is not monitored. */
  function Memory(s: State, t: string): set<int> {
    if t in s.connectionTopics && t in s.processedMessages then s.processedMessages[t] else {}
  }

  /** How a topic stands after a refill that began in s. */
  predicate Remembered(s: State, n: State, t: string) {
    && t in n.processedMessages && t in n.adoption && t in n.connectionTopics && s.adoptions <= n.adoptions
    && (if t in s.connectionTopics
        then t in s.processedMessages && t in s.adoption
             && n.processedMessages[t] == s.processedMessages[t] && n.adoption[t] == s.adoption[t]
        else n.processedMessages[t] == {} && n.adoption[t] >= s.adoptions)
  }

  lemma RefillOneRemembers(s: State, n: State, c: Connection, t: string)
    requires s.adoptions <= n.adoptions
    requires Remembered(s, n, t)
             || (t !in s.connectionTopics && t !in n.connectionTopics && t == c.connectionTopicId && ValidTopicId(t))
    ensures Remembered(s, RefillOne(n, c), t)
  {
  }

  /**
   * A refill remembers what was processed on the topics that are monitored, and starts an adoption without memory for
   * every other topic it is offered.
   */
  lemma {:induction false} RefillRemembers(me: Identity, s: State, updated: seq<Connection>, t: string)
    requires Inv(me, s) && (forall c <- updated :: c.connectionTopicId != me.inboundTopicId)
    requires t in s.connectionTopics || Offered(updated, t)
    ensures Remembered(s, Refill(s, updated), t)
  {
    if updated != [] {
      var init, c := updated[..|updated| - 1], updated[|updated| - 1];
      assert updated == init + [c];
      RefillAdoptsNew(me, s, init, t);
      OfferedMore(init, c, t);
      if t in s.connectionTopics || Offered(init, t) { RefillRemembers(me, s, init, t); }
      RefillOneRemembers(s, Refill(s, init), c, t);
    }
  }

  /** Topics that are not offered are not adopted. */
  lemma {:induction false} RefillAdoptsNew(me: Identity, s: State, updated: seq<Connection>, t: string)
    requires Inv(me, s)
    ensures var n := Refill(s, updated);
            s.adoptions <= n.adoptions && (t in n.connectionTopics ==> t in s.connectionTopics || Offered(updated, t))
  {
    if updated != [] {
      var init, c := updated[..|updated| - 1], updated[|updated| - 1];
      assert updated == init + [c];
      RefillAdoptsNew(me, s, init, t);
      if Offered(init, t) {
        var i :| 0 <= i < |init| && init[i].connectionTopicId == t;
        assert updated[i].connectionTopicId == t;
      }
      assert updated[|init|] == c;
    }
  }

  predicate Numbered(m: HcsMessage, n: int) {
    WellFormed(m) && m.sequenceNumber == Some(n)
  }

  /** None of the messages ends the processing of the topic when the numbers in done have had their first look. */
  predicate Open(me: Identity, done: set<int>, messages: seq<HcsMessage>) {
    forall j :: 0 <= j < |messages| && WellFormed(messages[j]) && Stops(me, messages[j]) ==>
      messages[j].sequenceNumber.value in done || exists k :: 0 <= k < j && Numbered(messages[k], messages[j].sequenceNumber.value)
  }

  lemma OpenTail(me: Identity, done: set<int>, messages: seq<HcsMessage>)
    requires messages != [] && Open(me, done, messages)
    ensures var m := messages[0];
            Open(me, if WellFormed(m) then done + {m.sequenceNumber.value} else done, messages[1..])
    ensures WellFormed(messages[0]) && messages[0].sequenceNumber.value !in done ==> !Stops(me, messages[0])
  {
    var rest := messages[1..];
    forall j | 0 <= j < |rest| && WellFormed(rest[j]) && Stops(me, rest[j]) && rest[j].sequenceNumber.value !in done
      ensures Numbered(messages[0], rest[j].sequenceNumber.value)
              || exists k :: 0 <= k < j && Numbered(rest[k], rest[j].sequenceNumber.value)
    {
      assert rest[j] == messages[j + 1];
      var k :| 0 <= k < j + 1 && Numbered(messages[k], messages[j + 1].sequenceNumber.value);
      if k > 0 { assert rest[k - 1] == messages[k]; }
    }
  }

  lemma {:induction false} StreamLooked(me: Identity, s: State, t: string, messages: seq<HcsMessage>, i: nat)
    requires Inv(me, s) && t in s.connectionTopics && t in s.connections
    requires i < |messages| && WellFormed(messages[i]) && Open(me, s.processedMessages[t], messages[..i])
    ensures TopicSeen(TopicMessages(me, s, t, messages).topicReads, t, s.adoption[t], messages[i].sequenceNumber.value)
    decreases |messages|
  {
    var m, n := messages[0], messages[i].sequenceNumber.value;
    if i == 0 {
      HeadLooked(me, s, t, messages);
    } else {
      assert messages[1..][..i - 1] == messages[..i][1..] && messages[..i][0] == m;
      OpenTail(me, s.processedMessages[t], messages[..i]);
      if WellFormed(m) && m.sequenceNumber.value in s.processedMessages[t] {
        assert s.processedMessages[t] + {m.sequenceNumber.value} == s.processedMessages[t];
      }
      if !WellFormed(m) || m.sequenceNumber.value in s.processedMessages[t] {
        StreamLooked(me, s, t, messages[1..], i - 1);
      } else {
        InvLook(me, s, t, m);
        StreamLooked(me, Look(me, s, t, m), t, messages[1..], i - 1);
      }
    }
  }

  lemma HeadLooked(me: Identity, s: State, t: string, messages: seq<HcsMessage>)
    requires Inv(me, s) && t in s.connectionTopics && t in s.connections && messages != [] && WellFormed(messages[0])
    ensures TopicSeen(TopicMessages(me, s, t, messages).topicReads, t, s.adoption[t], messages[0].sequenceNumber.value)
  {
    var m := messages[0];
    var n := m.sequenceNumber.value;
    if n in s.processedMessages[t] {
      ReadsGrow(me, s, t, messages);
      SeenStays(s.topicReads, TopicMessages(me, s, t, messages).topicReads, t, s.adoption[t], n);
    } else {
      TopicSeenMore(s.topicReads, TopicRead(t, s.adoption[t], m), t, s.adoption[t], n);
      if !Stops(me, m) {
        ReadsGrow(me, Look(me, s, t, m), t, messages[1..]);
        SeenStays(See(s, t, m).topicReads, TopicMessages(me, s, t, messages).topicReads, t, s.adoption[t], n);
      }
    }
  }

  lemma SeenStays(a: seq<TopicRead>, b: seq<TopicRead>, t: string, adoption: nat, n: int)
    requires a <= b && TopicSeen(a, t, adoption, n)
    ensures TopicSeen(b, t, adoption, n)
  {
  }

  lemma {:induction false} ReadsGrow(me: Identity, s: State, t: string, messages: seq<HcsMessage>)
    requires t in s.processedMessages
    ensures s.topicReads <= TopicMessages(me, s, t, messages).topicReads
    decreases |messages|
  {
    if messages != [] {
      var m := messages[0];
      if !WellFormed(m) || m.sequenceNumber.value in s.processedMessages[t] {
        ReadsGrow(me, s, t, messages[1..]);
      } else if !Stops(me, m) {
        ReadsGrow(me, Look(me, s, t, m), t, messages[1..]);
      }
    }
  }

  /** The topic stands in the same adoption, with the same numbers processed. */
  predicate SameMemory(s: State, n: State, t: string) {
    && (t in n.adoption <==> t in s.adoption) && (t in s.adoption ==> n.adoption[t] == s.adoption[t])
    && (t in n.processedMessages <==> t in s.processedMessages)
    && (t in s.processedMessages ==> n.processedMessages[t] == s.processedMessages[t])
  }

  lemma {:induction false} MemoryStays(me: Identity, s: State, x: string, messages: seq<HcsMessage>, t: string)
    requires x in s.processedMessages && t != x
    ensures var n := TopicMessages(me, s, x, messages);
            SameMemory(s, n, t)
    decreases |messages|
  {
    if messages != [] {
      var m := messages[0];
      if !WellFormed(m) || m.sequenceNumber.value in s.processedMessages[x] {
        MemoryStays(me, s, x, messages[1..], t);
      } else if !Stops(me, m) {
        MemoryStays(me, Look(me, s, x, m), x, messages[1..], t);
      }
    }
  }

  lemma TopicOneElsewhere(me: Identity, s: State, x: string, streams: map<string, Stream>, t: string)
    requires Inv(me, s) && x in s.connectionTopics && t != x
    ensures var n := TopicOne(me, s, x, streams);
            && s.topicReads <= n.topicReads
            && SameMemory(s, n, t)
  {
    if x in s.connections && StreamOf(streams, x).Messages? {
      ReadsGrow(me, s, x, StreamOf(streams, x).messages);
      MemoryStays(me, s, x, StreamOf(streams, x).messages, t);
    }
  }

  lemma {:induction false} TopicsElsewhere(me: Identity, s: State, topics: seq<string>, streams: map<string, Stream>, t: string)
    requires Inv(me, s) && Distinct(topics) && (forall x <- topics :: x in s.connectionTopics) && t !in topics
    ensures var n := TopicAll(me, s, topics, streams);
            && s.topicReads <= n.topicReads
            && SameMemory(s, n, t)
  {
    if topics != [] {
      var init, x := topics[..|topics| - 1], topics[|topics| - 1];
      assert topics == init + [x] && x !in init;
      TopicsElsewhere(me, s, init, streams, t);
      InvTopics(me, s, init, streams);
      TopicOneElsewhere(me, TopicAll(me, s, init, streams), x, streams, t);
    }
  }

  lemma {:induction false} TopicsLooked(me: Identity, s: State, topics: seq<string>, streams: map<string, Stream>, t: string, i: nat)
    requires Inv(me, s) && Distinct(topics) && (forall x <- topics :: x in s.connectionTopics) && t in topics && t in s.connections
    requires StreamOf(streams, t).Messages?
    requires var messages := StreamOf(streams, t).messages;
             i < |messages| && WellFormed(messages[i]) && Open(me, s.processedMessages[t], messages[..i])
    ensures TopicSeen(TopicAll(me, s, topics, streams).topicReads, t, s.adoption[t], StreamOf(streams, t).messages[i].sequenceNumber.value)
  {
    var init, x := topics[..|topics| - 1], topics[|topics| - 1];
    var messages := StreamOf(streams, t).messages;
    assert topics == init + [x] && x !in init;
    var b := TopicAll(me, s, init, streams);
    InvTopics(me, s, init, streams);
    if x == t {
      TopicsElsewhere(me, s, init, streams, t);
      StreamLooked(me, b, t, messages, i);
    } else {
      TopicsLooked(me, s, init, streams, t, i);
      TopicOneElsewhere(me, b, x, streams, t);
      SeenStays(b.topicReads, TopicAll(me, s, topics, streams).topicReads, t, s.adoption[t], messages[i].sequenceNumber.value);
    }
  }

  lemma InboundKeepsTopic(me: Identity, s: State, step: InboundStep, t: string)
    requires me.inboundTopicId in s.processedMessages && t in s.connectionTopics && t != me.inboundTopicId
    ensures t in InboundOne(me, s, step).connectionTopics && SameMemory(s, InboundOne(me, s, step), t)
  {
  }

  lemma {:induction false} InboundAdoptions(me: Identity, s: State, steps: seq<InboundStep>, t: string)
    requires me.inboundTopicId in s.processedMessages && t in s.connectionTopics && t != me.inboundTopicId
    ensures t in InboundAll(me, s, steps).connectionTopics && SameMemory(s, InboundAll(me, s, steps), t)
  {
    if steps != [] {
      InboundAdoptions(me, s, steps[..|steps| - 1], t);
      InboundKeepsTopic(me, InboundAll(me, s, steps[..|steps| - 1]), steps[|steps| - 1], t);
    }
  }

  /**
   * Every well-formed message that a round reads on an offered topic, before a message ends the processing of the topic, has
   * had its first look by the end of the round; a standard message of somebody else has then been dispatched.
   */
  lemma MessagesLookedAt(me: Identity, s: State, r: Round, t: string, i: nat)
    requires Inv(me, s) && Sane(me, r) && r.refill.Some? && r.inbound.Some? && Offered(r.refill.value, t) && StreamOf(r.streams, t).Messages?
    requires var messages := StreamOf(r.streams, t).messages;
             i < |messages| && WellFormed(messages[i]) && Open(me, Memory(s, t), messages[..i])
    ensures t in AfterRefill(s, r).adoption
    ensures TopicSeen(AfterRound(me, s, r).topicReads, t, AfterRefill(s, r).adoption[t], StreamOf(r.streams, t).messages[i].sequenceNumber.value)
  {
    InvAfterInbound(me, s, r);
    InvRefill(me, s, r.refill.value);
    RefillRemembers(me, s, r.refill.value, t);
    InboundFrame(me, AfterRefill(s, r), r.inbound.value);
    InboundAdoptions(me, AfterRefill(s, r), r.inbound.value, t);
    var u := AfterInbound(me, s, r);
    TopicsLooked(me, u, u.connectionTopics, r.streams, t, i);
  }

  // ---------------------------------------------------------------- operator ids

  /** For an operator id with one '@', ending in the account of the agent is the same as naming it. */
  lemma OwnMeansOwnAccount(operatorId: string, account: string)
    requires ExtractAccountId(operatorId).Some? && '@' !in account
    ensures EndsWith(operatorId, "@" + account) <==> ExtractAccountId(operatorId).value == account
  {
    var parts := Text.Split(operatorId, '@');
    Text.JoinSplit(operatorId, '@');
    assert Text.Join(parts[1..], '@') == parts[1];
    assert operatorId == parts[0] + ['@'] + parts[1];
    if EndsWith(operatorId, "@" + account) {
      var k := |operatorId| - |account| - 1;
      assert operatorId[k..] == "@" + account;
      assert operatorId[k] == '@';
      assert k == |parts[0]|;
      assert operatorId[k + 1..] == parts[1];
    }
  }
}
