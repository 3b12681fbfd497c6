/** How often the polling agent dispatches a message: a topic that leaves the collections is forgotten. */
module Hcs10Repeats {
  import opened Common
  import opened Hcs10
  import opened Hcs10Invariants
  import opened Hcs10Safety

  /** How often a number of a topic was dispatched. */
  function Times(history: seq<TopicRead>, t: string, n: int): nat {
    if history == [] then 0
    else
      var r := history[|history| - 1];
      Times(history[..|history| - 1], t, n) + if r.topicId == t && r.message.sequenceNumber == Some(n) then 1 else 0
  }

  lemma TimesMore(history: seq<TopicRead>, r: TopicRead, t: string, n: int)
    ensures Times(history + [r], t, n) == Times(history, t, n) + if r.topicId == t && r.message.sequenceNumber == Some(n) then 1 else 0
  {
    assert (history + [r])[..|history|] == history;
  }

  // ---------------------------------------------------------------- one stream

  /** No earlier message of the stream has the number. */
  predicate IsFirst(messages: seq<HcsMessage>, i: nat, n: int)
    requires i <= |messages|
  {
    forall j :: 0 <= j < i ==> !Numbered(messages[j], n)
  }

  /** The loop comes to a message of somebody else with the number, the first one in the stream. */
  predicate Reads(me: Identity, done: set<int>, messages: seq<HcsMessage>, i: nat, n: int) {
    && i < |messages| && Numbered(messages[i], n) && Dispatchable(me, messages[i])
    && IsFirst(messages, i, n) && Open(me, done, messages[..i])
  }

  /** The stream has such a message. */
  predicate Readable(me: Identity, done: set<int>, messages: seq<HcsMessage>, n: int) {
    exists i: nat :: i < |messages| && Reads(me, done, messages, i, n)
  }

  /** What the numbers processed are after a message. */
  function Done(done: set<int>, m: HcsMessage): set<int> {
    if WellFormed(m) then done + {m.sequenceNumber.value} else done
  }

  lemma OpenCons(me: Identity, done: set<int>, m: HcsMessage, rest: seq<HcsMessage>)
    requires Open(me, Done(done, m), rest) && (WellFormed(m) && m.sequenceNumber.value !in done ==> !Stops(me, m))
    ensures Open(me, done, [m] + rest)
  {
    var messages := [m] + rest;
    forall j | 0 <= j < |messages| && WellFormed(messages[j]) && Stops(me, messages[j]) && messages[j].sequenceNumber.value !in done
      ensures exists k :: 0 <= k < j && Numbered(messages[k], messages[j].sequenceNumber.value)
    {
      var n := messages[j].sequenceNumber.value;
      assert j > 0 && rest[j - 1] == messages[j];
      if n in Done(done, m) {
        assert Numbered(messages[0], n);
      } else {
        var k :| 0 <= k < j - 1 && Numbered(rest[k], n);
        assert messages[k + 1] == rest[k];
      }
    }
  }

  lemma ReadsTail(me: Identity, done: set<int>, messages: seq<HcsMessage>, i: nat, n: int)
    requires i > 0 && Reads(me, done, messages, i, n)
    ensures Reads(me, Done(done, messages[0]), messages[1..], i - 1, n)
    ensures !Numbered(messages[0], n) && (WellFormed(messages[0]) && messages[0].sequenceNumber.value !in done ==> !Stops(me, messages[0]))
  {
    assert messages[..i][0] == messages[0] && messages[..i][1..] == messages[1..][..i - 1];
    OpenTail(me, done, messages[..i]);
    forall j | 0 <= j < i - 1 ensures !Numbered(messages[1..][j], n) { assert messages[1..][j] == messages[j + 1]; }
  }

  lemma ReadsCons(me: Identity, done: set<int>, messages: seq<HcsMessage>, i: nat, n: int)
    requires messages != [] && Reads(me, Done(done, messages[0]), messages[1..], i, n)
    requires !Numbered(messages[0], n) && (WellFormed(messages[0]) && messages[0].sequenceNumber.value !in done ==> !Stops(me, messages[0]))
    ensures Reads(me, done, messages, i + 1, n)
  {
    OpenCons(me, done, messages[0], messages[1..][..i]);
    assert [messages[0]] + messages[1..][..i] == messages[..i + 1];
    forall j | 0 <= j < i + 1 ensures !Numbered(messages[j], n) { if j > 0 { assert messages[1..][j - 1] == messages[j]; } }
  }

  /** The first message of the stream decides, or it is passed and the rest does. */
  lemma ReadableCons(me: Identity, done: set<int>, messages: seq<HcsMessage>, n: int)
    requires messages != []
    ensures var m := messages[0];
            Readable(me, done, messages, n) <==>
              if Numbered(m, n) then Dispatchable(me, m)
              else (WellFormed(m) && m.sequenceNumber.value !in done ==> !Stops(me, m))
                   && Readable(me, Done(done, m), messages[1..], n)
  {
    var m := messages[0];
    if i: nat :| i < |messages| && Reads(me, done, messages, i, n) {
      if i > 0 { ReadsTail(me, done, messages, i, n); }
    }
    if Numbered(m, n) {
      if Dispatchable(me, m) { assert Reads(me, done, messages, 0, n); }
    } else if (WellFormed(m) && m.sequenceNumber.value !in done ==> !Stops(me, m)) && Readable(me, Done(done, m), messages[1..], n) {
      var i: nat :| i < |messages[1..]| && Reads(me, Done(done, m), messages[1..], i, n);
      ReadsCons(me, done, messages, i, n);
    }
  }

  /** The stream leads to a dispatch of the number. */
  predicate Calls(me: Identity, done: set<int>, messages: seq<HcsMessage>, n: int) {
    n !in done && Readable(me, done, messages, n)
  }

  /** A first look at a message dispatches it if it is somebody else's standard message. */
  lemma LookTimes(me: Identity, s: State, t: string, m: HcsMessage, n: int)
    requires t in s.processedMessages && WellFormed(m)
    ensures Times(Look(me, s, t, m).dispatched, t, n) == Times(s.dispatched, t, n) + if Numbered(m, n) && Dispatchable(me, m) then 1 else 0
  {
    TimesMore(s.dispatched, TopicRead(t, Adoption(s, t), m), t, n);
  }

  /** Processing the messages of a topic dispatches a number once, or not at all. */
  lemma {:induction false} StreamTimes(me: Identity, s: State, t: string, messages: seq<HcsMessage>, n: int)
    requires t in s.processedMessages
    ensures Times(TopicMessages(me, s, t, messages).dispatched, t, n)
            == Times(s.dispatched, t, n) + if Calls(me, s.processedMessages[t], messages, n) then 1 else 0
    decreases |messages|
  {
    if messages == [] {
    } else {
      var m, done := messages[0], s.processedMessages[t];
      ReadableCons(me, done, messages, n);
      if !WellFormed(m) || m.sequenceNumber.value in done {
        assert Done(done, m) == done;
        StreamTimes(me, s, t, messages[1..], n);
      } else {
        LookTimes(me, s, t, m, n);
        if !Stops(me, m) {
          assert Look(me, s, t, m).processedMessages[t] == Done(done, m);
          StreamTimes(me, Look(me, s, t, m), t, messages[1..], n);
        }
      }
    }
  }

  /** What the processing of one topic does to its set: it grows, and numbers enter it by being dispatched if they can be. */
  lemma {:induction false} StreamMemory(me: Identity, s: State, t: string, messages: seq<HcsMessage>, n: int)
    requires Inv(me, s) && t in s.connectionTopics && t in s.connections
    ensures var u := TopicMessages(me, s, t, messages);
            t in u.processedMessages ==>
              && s.processedMessages[t] <= u.processedMessages[t]
              && (Calls(me, s.processedMessages[t], messages, n) ==> n in u.processedMessages[t])
              && (n in u.processedMessages[t] && n !in s.processedMessages[t] && AllDispatchable(me, messages, n) ==>
                    Calls(me, s.processedMessages[t], messages, n))
    decreases |messages|
  {
    if messages == [] {
    } else {
      var m, done := messages[0], s.processedMessages[t];
      ReadableCons(me, done, messages, n);
      if !WellFormed(m) || m.sequenceNumber.value in done {
        assert Done(done, m) == done;
        StreamMemory(me, s, t, messages[1..], n);
      } else if !Stops(me, m) {
        InvLook(me, s, t, m);
        assert Look(me, s, t, m).processedMessages[t] == Done(done, m);
        StreamMemory(me, Look(me, s, t, m), t, messages[1..], n);
      }
    }
  }

  /** Whatever has the number is a standard message of somebody else. */
  predicate AllDispatchable(me: Identity, messages: seq<HcsMessage>, n: int) {
    forall j :: 0 <= j < |messages| && Numbered(messages[j], n) ==> Dispatchable(me, messages[j])
  }

  // ---------------------------------------------------------------- all topics of a round

  /** Processing a topic dispatches nothing of another one. */
  lemma {:induction false} TimesElsewhere(me: Identity, s: State, x: string, messages: seq<HcsMessage>, t: string, n: int)
    requires x in s.processedMessages && t != x
    ensures Times(TopicMessages(me, s, x, messages).dispatched, t, n) == Times(s.dispatched, t, n)
    decreases |messages|
  {
    if messages != [] {
      var m := messages[0];
      if !WellFormed(m) || m.sequenceNumber.value in s.processedMessages[x] {
        TimesElsewhere(me, s, x, messages[1..], t, n);
      } else {
        TimesMore(s.dispatched, TopicRead(x, Adoption(s, x), m), t, n);
        if !Stops(me, m) { TimesElsewhere(me, Look(me, s, x, m), x, messages[1..], t, n); }
      }
    }
  }

  /** The topic is connected, and the stream read leads to a dispatch of the number. */
  predicate TopicCalls(me: Identity, s: State, streams: map<string, Stream>, t: string, n: int) {
    && t in s.connectionTopics && t in s.connections && StreamOf(streams, t).Messages?
    && Calls(me, Memory(s, t), StreamOf(streams, t).messages, n)
  }

  lemma OneTimes(me: Identity, s: State, x: string, streams: map<string, Stream>, t: string, n: int)
    requires Inv(me, s) && x in s.connectionTopics
    ensures Times(TopicOne(me, s, x, streams).dispatched, t, n)
            == Times(s.dispatched, t, n) + if x == t && TopicCalls(me, s, streams, t, n) then 1 else 0
  {
    if x in s.connections && StreamOf(streams, x).Messages? {
      if x == t {
        StreamTimes(me, s, t, StreamOf(streams, t).messages, n);
      } else {
        TimesElsewhere(me, s, x, StreamOf(streams, x).messages, t, n);
      }
    }
  }

  /** A topic that is still to be visited stands as before. */
  lemma Unvisited(me: Identity, s: State, topics: seq<string>, streams: map<string, Stream>, t: string, n: int)
    requires Inv(me, s) && Distinct(topics) && (forall x <- topics :: x in s.connectionTopics) && t !in topics
    ensures var u := TopicAll(me, s, topics, streams);
            && (t in u.connectionTopics <==> t in s.connectionTopics) && (t in u.connections <==> t in s.connections)
            && Memory(u, t) == Memory(s, t) && (TopicCalls(me, u, streams, t, n) <==> TopicCalls(me, s, streams, t, n))
  {
    InvTopics(me, s, topics, streams);
    TopicsElsewhere(me, s, topics, streams, t);
  }

  lemma {:induction false} TopicsTimes(me: Identity, s: State, topics: seq<string>, streams: map<string, Stream>, t: string, n: int)
    requires Inv(me, s) && Distinct(topics) && (forall x <- topics :: x in s.connectionTopics)
    ensures Times(TopicAll(me, s, topics, streams).dispatched, t, n)
            == Times(s.dispatched, t, n) + if t in topics && TopicCalls(me, s, streams, t, n) then 1 else 0
  {
    if topics != [] {
      var init, x := topics[..|topics| - 1], topics[|topics| - 1];
      assert topics == init + [x] && x !in init;
      TopicsTimes(me, s, init, streams, t, n);
      InvTopics(me, s, init, streams);
      OneTimes(me, TopicAll(me, s, init, streams), x, streams, t, n);
      if x == t { Unvisited(me, s, init, streams, t, n); }
    }
  }

  /** What becomes of the numbers processed on a topic, if it stays. */
  predicate Grows(me: Identity, before: set<int>, after: set<int>, called: bool, stream: Stream, n: int) {
    && before <= after && (called ==> n in after)
    && (n in after && n !in before && (stream.Messages? ==> AllDispatchable(me, stream.messages, n)) ==> called)
  }

  lemma OneMemory(me: Identity, s: State, t: string, streams: map<string, Stream>, n: int)
    requires Inv(me, s) && t in s.connectionTopics && t in TopicOne(me, s, t, streams).connectionTopics
    ensures Grows(me, Memory(s, t), Memory(TopicOne(me, s, t, streams), t), TopicCalls(me, s, streams, t, n), StreamOf(streams, t), n)
  {
    InvTopicOne(me, s, t, streams);
    if t in s.connections && StreamOf(streams, t).Messages? { StreamMemory(me, s, t, StreamOf(streams, t).messages, n); }
  }

  lemma OtherMemory(me: Identity, s: State, x: string, streams: map<string, Stream>, t: string)
    requires Inv(me, s) && x in s.connectionTopics && t != x
    ensures Memory(TopicOne(me, s, x, streams), t) == Memory(s, t)
    ensures t in TopicOne(me, s, x, streams).connectionTopics <==> t in s.connectionTopics
  {
    InvTopicOne(me, s, x, streams);
    TopicOneElsewhere(me, s, x, streams, t);
  }

  lemma {:induction false} TopicsMemory(me: Identity, s: State, topics: seq<string>, streams: map<string, Stream>, t: string, n: int)
    requires Inv(me, s) && Distinct(topics) && (forall x <- topics :: x in s.connectionTopics) && t in topics
    requires t in TopicAll(me, s, topics, streams).connectionTopics
    ensures t in s.connections
    ensures Grows(me, Memory(s, t), Memory(TopicAll(me, s, topics, streams), t), TopicCalls(me, s, streams, t, n), StreamOf(streams, t), n)
  {
    var init, x := topics[..|topics| - 1], topics[|topics| - 1];
    assert topics == init + [x] && x !in init;
    var b := TopicAll(me, s, init, streams);
    InvTopics(me, s, init, streams);
    if x == t {
      Unvisited(me, s, init, streams, t, n);
      InvTopicOne(me, b, t, streams);
      OneMemory(me, b, t, streams, n);
    } else {
      OtherMemory(me, b, x, streams, t);
      TopicsMemory(me, s, init, streams, t, n);
    }
  }

  // ---------------------------------------------------------------- one round

  /** The round gets to the topic, which is offered, and reads a standard message of somebody else with the number. */
  predicate RoundReads(me: Identity, s: State, r: Round, t: string, n: int) {
    && r.refill.Some? && r.inbound.Some? && Offered(r.refill.value, t) && StreamOf(r.streams, t).Messages?
    && Readable(me, Memory(s, t), StreamOf(r.streams, t).messages, n)
  }

  /** When the topics are visited, exactly the offered ones are connected, and what was processed on them is as before the round. */
  lemma BeforeTopics(me: Identity, s: State, r: Round, t: string, n: int)
    requires Inv(me, s) && Sane(me, r) && r.refill.Some? && r.inbound.Some?
    ensures var u := AfterInbound(me, s, r);
            && Inv(me, u) && u.dispatched == s.dispatched && Continues(me, s, r)
            && (t in u.connections <==> Offered(r.refill.value, t))
            && (t in u.connections ==> t in u.connectionTopics && Memory(u, t) == Memory(s, t))
            && (TopicCalls(me, u, r.streams, t, n) <==> RoundReads(me, s, r, t, n) && n !in Memory(s, t))
  {
    InvAfterInbound(me, s, r);
    InvRefill(me, s, r.refill.value);
    RefillFrame(s, r.refill.value);
    InboundFrame(me, AfterRefill(s, r), r.inbound.value);
    if Offered(r.refill.value, t) {
      RefillRemembers(me, s, r.refill.value, t);
      InboundAdoptions(me, AfterRefill(s, r), r.inbound.value, t);
    }
  }

  /**
   * A round dispatches a number of a topic at most once, and exactly if it gets to the topic, which is offered, comes in its
   * stream to a standard message of somebody else with that number, and does not have the number among those processed
   * since the topic was adopted; a topic that is not monitored when the round begins has none.
   */
  lemma RoundDispatchesIff(me: Identity, s: State, r: Round, t: string, n: int)
    requires Inv(me, s) && Sane(me, r)
    ensures Times(AfterRound(me, s, r).dispatched, t, n)
            == Times(s.dispatched, t, n) + if RoundReads(me, s, r, t, n) && n !in Memory(s, t) then 1 else 0
  {
    if r.refill.Some? && r.inbound.Some? {
      BeforeTopics(me, s, r, t, n);
      var u := AfterInbound(me, s, r);
      TopicsTimes(me, u, u.connectionTopics, r.streams, t, n);
    } else if r.refill.Some? {
      RefillFrame(s, r.refill.value);
    }
  }

  lemma RefillMemory(me: Identity, s: State, updated: seq<Connection>, t: string)
    requires Inv(me, s) && (forall c <- updated :: c.connectionTopicId != me.inboundTopicId) && t in Refill(s, updated).connectionTopics
    ensures Memory(Refill(s, updated), t) == Memory(s, t)
  {
    RefillAdoptsNew(me, s, updated, t);
    RefillRemembers(me, s, updated, t);
  }

  /** What a round does to the numbers processed on a topic that is monitored after it. */
  lemma RoundMemory(me: Identity, s: State, r: Round, t: string, n: int)
    requires Inv(me, s) && Sane(me, r) && t in AfterRound(me, s, r).connectionTopics
    ensures Grows(me, Memory(s, t), Memory(AfterRound(me, s, r), t), RoundReads(me, s, r, t, n) && n !in Memory(s, t), StreamOf(r.streams, t), n)
  {
    if r.refill.Some? && r.inbound.Some? {
      BeforeTopics(me, s, r, t, n);
      var u := AfterInbound(me, s, r);
      InvTopics(me, u, u.connectionTopics, r.streams);
      TopicsMemory(me, u, u.connectionTopics, r.streams, t, n);
    } else if r.refill.Some? {
      RefillMemory(me, s, r.refill.value, t);
    }
  }

  // ---------------------------------------------------------------- every run

  /** The state after the first k rounds. */
  function At(me: Identity, loaded: seq<Connection>, rounds: seq<Round>, k: nat): State
    requires k <= |rounds|
  {
    Run(me, loaded, rounds[..k])
  }

  function TimesAt(me: Identity, loaded: seq<Connection>, rounds: seq<Round>, k: nat, t: string, n: int): nat
    requires k <= |rounds|
  {
    Times(At(me, loaded, rounds, k).dispatched, t, n)
  }

  lemma RunStep(me: Identity, loaded: seq<Connection>, rounds: seq<Round>, k: nat)
    requires SaneRun(me, loaded, rounds) && k < |rounds|
    ensures Inv(me, At(me, loaded, rounds, k)) && Sane(me, rounds[k])
    ensures At(me, loaded, rounds, k + 1) == AfterRound(me, At(me, loaded, rounds, k), rounds[k])
  {
    InvRun(me, loaded, rounds[..k]);
    assert rounds[..k + 1][..k] == rounds[..k] && rounds[..k + 1][k] == rounds[k];
  }

  lemma {:induction false} StartDispatchesNothing(me: Identity, loaded: seq<Connection>)
    ensures Start(me, loaded).dispatched == []
  {
    if loaded != [] { StartDispatchesNothing(me, loaded[..|loaded| - 1]); }
  }

  lemma NothingAtFirst(me: Identity, loaded: seq<Connection>, rounds: seq<Round>, t: string, n: int)
    ensures TimesAt(me, loaded, rounds, 0, t, n) == 0
  {
    StartDispatchesNothing(me, loaded);
    assert rounds[..0] == [];
  }

  /** The round dispatches the number. */
  predicate RoundCalls(me: Identity, s: State, r: Round, t: string, n: int) {
    RoundReads(me, s, r, t, n) && n !in Memory(s, t)
  }

  lemma TimesStep(me: Identity, loaded: seq<Connection>, rounds: seq<Round>, k: nat, t: string, n: int)
    requires SaneRun(me, loaded, rounds) && k < |rounds|
    ensures TimesAt(me, loaded, rounds, k + 1, t, n)
            == TimesAt(me, loaded, rounds, k, t, n) + if RoundCalls(me, At(me, loaded, rounds, k), rounds[k], t, n) then 1 else 0
  {
    RunStep(me, loaded, rounds, k);
    RoundDispatchesIff(me, At(me, loaded, rounds, k), rounds[k], t, n);
  }

  lemma {:induction false} TimesGrow(me: Identity, loaded: seq<Connection>, rounds: seq<Round>, m: nat, k: nat, t: string, n: int)
    requires SaneRun(me, loaded, rounds) && m <= k <= |rounds|
    ensures TimesAt(me, loaded, rounds, m, t, n) <= TimesAt(me, loaded, rounds, k, t, n)
    decreases k
  {
    if m < k {
      TimesGrow(me, loaded, rounds, m, k - 1, t, n);
      TimesStep(me, loaded, rounds, k - 1, t, n);
    }
  }

  lemma MemoryStep(me: Identity, loaded: seq<Connection>, rounds: seq<Round>, k: nat, t: string, n: int)
    requires SaneRun(me, loaded, rounds) && k < |rounds| && t in At(me, loaded, rounds, k + 1).connectionTopics
    ensures Grows(me, Memory(At(me, loaded, rounds, k), t), Memory(At(me, loaded, rounds, k + 1), t),
                  RoundCalls(me, At(me, loaded, rounds, k), rounds[k], t, n), StreamOf(rounds[k].streams, t), n)
  {
    RunStep(me, loaded, rounds, k);
    RoundMemory(me, At(me, loaded, rounds, k), rounds[k], t, n);
  }

  /** After m rounds the number was dispatched, and its topic is not monitored. */
  predicate LeftAfter(me: Identity, loaded: seq<Connection>, rounds: seq<Round>, m: nat, t: string, n: int)
    requires m <= |rounds|
  {
    t !in At(me, loaded, rounds, m).connectionTopics && TimesAt(me, loaded, rounds, m, t, n) >= 1
  }

  /** A number that was dispatched is forgotten only because its topic has left. */
  lemma {:induction false} ForgottenHasLeft(me: Identity, loaded: seq<Connection>, rounds: seq<Round>, k: nat, t: string, n: int)
    requires SaneRun(me, loaded, rounds) && k <= |rounds|
    requires TimesAt(me, loaded, rounds, k, t, n) >= 1 && n !in Memory(At(me, loaded, rounds, k), t)
    ensures exists m: nat :: m <= k && LeftAfter(me, loaded, rounds, m, t, n)
    decreases k
  {
    if t !in At(me, loaded, rounds, k).connectionTopics {
      assert LeftAfter(me, loaded, rounds, k, t, n);
    } else if k == 0 {
      NothingAtFirst(me, loaded, rounds, t, n);
    } else {
      TimesStep(me, loaded, rounds, k - 1, t, n);
      MemoryStep(me, loaded, rounds, k - 1, t, n);
      ForgottenHasLeft(me, loaded, rounds, k - 1, t, n);
    }
  }

  /** In the streams of the topic the number is that of a standard message of somebody else. */
  predicate AlwaysDispatchable(me: Identity, rounds: seq<Round>, t: string, n: int) {
    forall r <- rounds :: StreamOf(r.streams, t).Messages? ==> AllDispatchable(me, StreamOf(r.streams, t).messages, n)
  }

  /** Such a number is processed, after its topic has left, only by being dispatched again. */
  lemma {:induction false} ProcessedMeansDispatched(me: Identity, loaded: seq<Connection>, rounds: seq<Round>, m: nat, k: nat, t: string, n: int)
    requires SaneRun(me, loaded, rounds) && m <= k <= |rounds| && AlwaysDispatchable(me, rounds, t, n)
    requires t !in At(me, loaded, rounds, m).connectionTopics && n in Memory(At(me, loaded, rounds, k), t)
    ensures TimesAt(me, loaded, rounds, k, t, n) > TimesAt(me, loaded, rounds, m, t, n)
    decreases k
  {
    if m < k {
      assert rounds[k - 1] in rounds;
      TimesStep(me, loaded, rounds, k - 1, t, n);
      MemoryStep(me, loaded, rounds, k - 1, t, n);
      if n in Memory(At(me, loaded, rounds, k - 1), t) {
        ProcessedMeansDispatched(me, loaded, rounds, m, k - 1, t, n);
      } else {
        TimesGrow(me, loaded, rounds, m, k - 1, t, n);
      }
    }
  }

  /** A round after the topic left, with the number dispatched before, reads it again. */
  predicate ComesBack(me: Identity, loaded: seq<Connection>, rounds: seq<Round>, m: nat, k: nat, t: string, n: int)
    requires m <= k < |rounds|
  {
    LeftAfter(me, loaded, rounds, m, t, n) && RoundReads(me, At(me, loaded, rounds, k), rounds[k], t, n)
  }

  /**
   * Over every run: a number of a topic is dispatched more than once exactly if, after it was dispatched, the topic left the
   * collections, and a later round in which the manager offers the topic again reads the message. So each time a closed or
   * dropped topic comes back its log is answered again.
   */
  lemma DispatchedAgainIff(me: Identity, loaded: seq<Connection>, rounds: seq<Round>, t: string, n: int)
    requires SaneRun(me, loaded, rounds) && AlwaysDispatchable(me, rounds, t, n)
    ensures Times(Run(me, loaded, rounds).dispatched, t, n) > 1
            <==> exists m: nat, k: nat :: m <= k < |rounds| && ComesBack(me, loaded, rounds, m, k, t, n)
  {
    assert rounds[..|rounds|] == rounds;
    if Times(Run(me, loaded, rounds).dispatched, t, n) > 1 {
      var m, k := SecondDispatch(me, loaded, rounds, |rounds|, t, n);
    }
    if m: nat, k: nat :| m <= k < |rounds| && ComesBack(me, loaded, rounds, m, k, t, n) {
      DispatchedSince(me, loaded, rounds, m, k, t, n);
      TimesGrow(me, loaded, rounds, k + 1, |rounds|, t, n);
    }
  }

  lemma DispatchedSince(me: Identity, loaded: seq<Connection>, rounds: seq<Round>, m: nat, k: nat, t: string, n: int)
    requires SaneRun(me, loaded, rounds) && AlwaysDispatchable(me, rounds, t, n)
    requires m <= k < |rounds| && ComesBack(me, loaded, rounds, m, k, t, n)
    ensures TimesAt(me, loaded, rounds, k + 1, t, n) > 1
  {
    TimesStep(me, loaded, rounds, k, t, n);
    TimesGrow(me, loaded, rounds, m, k, t, n);
    if n in Memory(At(me, loaded, rounds, k), t) { ProcessedMeansDispatched(me, loaded, rounds, m, k, t, n); }
  }

  lemma {:induction false} SecondDispatch(me: Identity, loaded: seq<Connection>, rounds: seq<Round>, j: nat, t: string, n: int)
    returns (m: nat, k: nat)
    requires SaneRun(me, loaded, rounds) && j <= |rounds| && TimesAt(me, loaded, rounds, j, t, n) > 1
    ensures m <= k < |rounds| && ComesBack(me, loaded, rounds, m, k, t, n)
    decreases j
  {
    if j == 0 {
      NothingAtFirst(me, loaded, rounds, t, n);
      assert false;
    } else {
      TimesStep(me, loaded, rounds, j - 1, t, n);
      if TimesAt(me, loaded, rounds, j - 1, t, n) > 1 {
        m, k := SecondDispatch(me, loaded, rounds, j - 1, t, n);
      } else {
        ForgottenHasLeft(me, loaded, rounds, j - 1, t, n);
        m :| m <= j - 1 && LeftAfter(me, loaded, rounds, m, t, n);
        k := j - 1;
      }
    }
  }

  // ---------------------------------------------------------------- a closed topic

  /** The loop comes to a close of somebody else whose number was not processed. */
  predicate Closes(me: Identity, done: set<int>, messages: seq<HcsMessage>, c: nat) {
    && c < |messages| && WellFormed(messages[c]) && !IsOwn(me, messages[c]) && messages[c].op.CloseConnection?
    && messages[c].sequenceNumber.value !in done && IsFirst(messages, c, messages[c].sequenceNumber.value) && Open(me, done, messages[..c])
  }

  lemma {:induction false} CloseRemoves(me: Identity, s: State, t: string, messages: seq<HcsMessage>, c: nat)
    requires t in s.processedMessages && Closes(me, s.processedMessages[t], messages, c)
    ensures t !in TopicMessages(me, s, t, messages).connectionTopics
    decreases |messages|
  {
    if c > 0 {
      var m, done := messages[0], s.processedMessages[t];
      assert messages[..c][0] == m && messages[..c][1..] == messages[1..][..c - 1];
      OpenTail(me, done, messages[..c]);
      forall j | 0 <= j < c - 1 ensures !Numbered(messages[1..][j], messages[c].sequenceNumber.value) {
        assert messages[1..][j] == messages[j + 1];
      }
      assert !Numbered(m, messages[c].sequenceNumber.value);
      if !WellFormed(m) || m.sequenceNumber.value in done {
        assert Done(done, m) == done;
        CloseRemoves(me, s, t, messages[1..], c - 1);
      } else {
        assert Look(me, s, t, m).processedMessages[t] == Done(done, m);
        CloseRemoves(me, Look(me, s, t, m), t, messages[1..], c - 1);
      }
    }
  }

  lemma {:induction false} TopicsRemove(me: Identity, s: State, topics: seq<string>, streams: map<string, Stream>, t: string, c: nat)
    requires Inv(me, s) && Distinct(topics) && (forall x <- topics :: x in s.connectionTopics) && t in topics && t in s.connections
    requires StreamOf(streams, t).Messages? && Closes(me, Memory(s, t), StreamOf(streams, t).messages, c)
    ensures t !in TopicAll(me, s, topics, streams).connectionTopics
  {
    var init, x := topics[..|topics| - 1], topics[|topics| - 1];
    assert topics == init + [x] && x !in init;
    var b := TopicAll(me, s, init, streams);
    InvTopics(me, s, init, streams);
    if x == t {
      Unvisited(me, s, init, streams, t, 0);
      CloseRemoves(me, b, t, StreamOf(streams, t).messages, c);
    } else {
      TopicsRemove(me, s, init, streams, t, c);
      OtherMemory(me, b, x, streams, t);
    }
  }

  /** A round that reads a close on an offered topic does not monitor the topic afterwards. */
  lemma RoundCloses(me: Identity, s: State, r: Round, t: string, c: nat)
    requires Inv(me, s) && Sane(me, r) && r.refill.Some? && r.inbound.Some? && Offered(r.refill.value, t)
    requires StreamOf(r.streams, t).Messages? && Closes(me, Memory(s, t), StreamOf(r.streams, t).messages, c)
    ensures t !in AfterRound(me, s, r).connectionTopics
  {
    BeforeTopics(me, s, r, t, 0);
    var u := AfterInbound(me, s, r);
    TopicsRemove(me, u, u.connectionTopics, r.streams, t, c);
  }

  /** The round gets to the topic, which is offered although its log ends in a close. */
  predicate OffersClosed(me: Identity, r: Round, t: string, c: nat) {
    && r.refill.Some? && r.inbound.Some? && Offered(r.refill.value, t) && StreamOf(r.streams, t).Messages?
    && Closes(me, {}, StreamOf(r.streams, t).messages, c)
  }

  /**
   * As long as the manager offers a closed topic, every round adopts it, answers everything before the close, and drops it
   * again: after k rounds each message before the close was dispatched k times.
   */
  lemma {:induction false} ClosedAnsweredEveryRound(me: Identity, s: State, rounds: seq<Round>, t: string, n: int)
    requires Inv(me, s) && t !in s.connectionTopics
    requires forall r <- rounds :: Sane(me, r) && (exists c: nat :: OffersClosed(me, r, t, c)) && Readable(me, {}, StreamOf(r.streams, t).messages, n)
    ensures var u := AfterRounds(me, s, rounds);
            Inv(me, u) && t !in u.connectionTopics && Times(u.dispatched, t, n) == Times(s.dispatched, t, n) + |rounds|
  {
    if rounds != [] {
      var init, r := rounds[..|rounds| - 1], rounds[|rounds| - 1];
      assert rounds == init + [r];
      ClosedAnsweredEveryRound(me, s, init, t, n);
      var b := AfterRounds(me, s, init);
      var c: nat :| OffersClosed(me, r, t, c);
      InvRound(me, b, r);
      RoundCloses(me, b, r, t, c);
      RoundDispatchesIff(me, b, r, t, n);
    }
  }

  /** A question, and somebody else's close. */
  function Question(): HcsMessage {
    HcsMessage(Message, Some(1), true, "", true)
  }

  function Close(): HcsMessage {
    HcsMessage(CloseConnection, Some(2), true, "", true)
  }

  function ClosedRound(): Round {
    Round(Some([Connection("0.0.1", None)]), Some([]), map["0.0.1" := Messages([Question(), Close()])])
  }

  lemma QuestionRead(me: Identity)
    ensures Readable(me, {}, [Question(), Close()], 1) && Closes(me, {}, [Question(), Close()], 1)
  {
    assert Reads(me, {}, [Question(), Close()], 0, 1);
  }

  lemma TopicIdValid()
    ensures ValidTopicId("0.0.1")
  {
    var id := "0.0.1";
    assert id[..1] == "0" && id[2..3] == "0" && id[4..] == "1";
    assert id[1] == '.' && id[3] == '.' && Digits(id[..1]) && Digits(id[1 + 1..3]) && Digits(id[3 + 1..]);
  }

  lemma ClosedRoundOffers(me: Identity)
    requires me.inboundTopicId != "0.0.1"
    ensures Sane(me, ClosedRound()) && OffersClosed(me, ClosedRound(), "0.0.1", 1)
    ensures Readable(me, {}, StreamOf(ClosedRound().streams, "0.0.1").messages, 1)
  {
    TopicIdValid();
    QuestionRead(me);
    assert ClosedRound().refill.value[0].connectionTopicId == "0.0.1";
  }

  /** Two equal rounds, in which a question is followed by a close: it is answered in both. */
  lemma ClosedTopicAnsweredTwice(me: Identity)
    requires me.inboundTopicId != "0.0.1"
    ensures var rounds := [ClosedRound(), ClosedRound()];
            SaneRun(me, [], rounds) && Times(Run(me, [], rounds).dispatched, "0.0.1", 1) == 2
  {
    ClosedRoundOffers(me);
    InvStart(me, []);
    ClosedAnsweredEveryRound(me, Start(me, []), [ClosedRound(), ClosedRound()], "0.0.1", 1);
  }
}
