/**
 * What the start and one round make of the collections of the polling agent, said without its loops: which topics are
 * monitored, in which order, and with which connections.
 */
module Hcs10Rounds {
  import opened Common
  import opened Hcs10
  import opened Hcs10Invariants
  import opened Hcs10Safety

  // ---------------------------------------------------------------- topic ids

  predicate Number(text: string) {
    text != "" && forall c <- text :: c in "0123456789"
  }

  /** A topic id is three numbers with dots between them. */
  predicate ThreeNumbers(id: string, a: string, b: string, c: string) {
    id == a + "." + b + "." + c && Number(a) && Number(b) && Number(c)
  }

  lemma NumberIff(text: string)
    ensures Number(text) <==> Digits(text)
  {
    if Digits(text) {
      forall c | c in text ensures c in "0123456789" { DigitSpelled(c); }
    }
    if Number(text) {
      forall i | 0 <= i < |text| ensures '0' <= text[i] <= '9' { DigitSpelled(text[i]); }
    }
  }

  lemma DigitSpelled(c: char)
    ensures c in "0123456789" <==> '0' <= c <= '9'
  {
    if '0' <= c <= '9' { assert "0123456789"[(c - '0') as int] == c; }
  }

  lemma Joined(id: string, i: nat, j: nat)
    requires i < j < |id| && id[i] == '.' && id[j] == '.'
    ensures id == id[..i] + "." + id[i + 1..j] + "." + id[j + 1..]
  {
  }

  lemma Parted(id: string, a: string, b: string, c: string)
    requires id == a + "." + b + "." + c
    ensures var i, j := |a|, |a| + 1 + |b|;
            j < |id| && id[i] == '.' && id[j] == '.' && id[..i] == a && id[i + 1..j] == b && id[j + 1..] == c
  {
  }

  /** Two dots with digits before, between and behind them. */
  predicate DotsAt(id: string, i: nat, j: nat) {
    i < j < |id| && id[i] == '.' && id[j] == '.' && Digits(id[..i]) && Digits(id[i + 1..j]) && Digits(id[j + 1..])
  }

  lemma ThreeNumbersAre(id: string, a: string, b: string, c: string)
    requires ThreeNumbers(id, a, b, c)
    ensures DotsAt(id, |a|, |a| + 1 + |b|)
  {
    Parted(id, a, b, c);
    NumberIff(a);
    NumberIff(b);
    NumberIff(c);
  }

  lemma DotsPart(id: string, i: nat, j: nat)
    requires DotsAt(id, i, j)
    ensures ThreeNumbers(id, id[..i], id[i + 1..j], id[j + 1..])
  {
    Joined(id, i, j);
    NumberIff(id[..i]);
    NumberIff(id[i + 1..j]);
    NumberIff(id[j + 1..]);
  }

  lemma DotsIn(id: string) returns (i: nat, j: nat)
    requires ValidTopicId(id)
    ensures DotsAt(id, i, j)
  {
    i, j :| 0 <= i < j < |id| && id[i] == '.' && id[j] == '.' && Digits(id[..i]) && Digits(id[i + 1..j]) && Digits(id[j + 1..]);
  }

  lemma DotsValid(id: string, i: nat, j: nat)
    requires DotsAt(id, i, j)
    ensures ValidTopicId(id)
  {
  }

  lemma TopicIdIff(id: string)
    ensures ValidTopicId(id) <==> exists a, b, c :: ThreeNumbers(id, a, b, c)
  {
    if a, b, c :| ThreeNumbers(id, a, b, c) {
      ThreeNumbersAre(id, a, b, c);
      DotsValid(id, |a|, |a| + 1 + |b|);
    } else if ValidTopicId(id) {
      var i, j := DotsIn(id);
      DotsPart(id, i, j);
    }
  }

  // ---------------------------------------------------------------- start and refill

  function Lookup<K, V>(m: map<K, V>, key: K): Option<V> {
    if key in m then Some(m[key]) else None
  }

  /** The last connection of a list with a topic. */
  function Latest(list: seq<Connection>, t: string): Option<Connection> {
    if list == [] then None
    else if list[|list| - 1].connectionTopicId == t then Some(list[|list| - 1])
    else Latest(list[..|list| - 1], t)
  }

  /** The topics, and behind them those of a list that are new and have a topic id, in the order in which they first appear. */
  function WithNew(topics: seq<string>, list: seq<Connection>): seq<string> {
    if list == [] then topics
    else
      var before, t := WithNew(topics, list[..|list| - 1]), list[|list| - 1].connectionTopicId;
      if t !in before && ValidTopicId(t) then before + [t] else before
  }

  predicate NothingProcessed(me: Identity, s: State, t: string) {
    if t == me.inboundTopicId || t in s.connectionTopics then t in s.processedMessages && s.processedMessages[t] == {}
    else t !in s.processedMessages
  }

  /** The agent starts with all connections loaded, and monitors those with a topic id, of which nothing was processed. */
  lemma {:induction false} StartHas(me: Identity, loaded: seq<Connection>)
    ensures var s := Start(me, loaded);
            && (forall t :: Lookup(s.connections, t) == Latest(loaded, t))
            && s.connectionTopics == WithNew([], loaded)
            && (forall t :: NothingProcessed(me, s, t))
  {
    if loaded != [] {
      var init := loaded[..|loaded| - 1];
      StartHas(me, init);
      forall t ensures NothingProcessed(me, Start(me, loaded), t) { assert NothingProcessed(me, Start(me, init), t); }
    }
  }

  /** A refill leaves the offered connections with a topic id, and monitors their topics besides those it had. */
  lemma {:induction false} RefillHas(s: State, updated: seq<Connection>)
    ensures var n := Refill(s, updated);
            && (forall t :: Lookup(n.connections, t) == if ValidTopicId(t) then Latest(updated, t) else None)
            && n.connectionTopics == WithNew(s.connectionTopics, updated)
  {
    if updated != [] { RefillHas(s, updated[..|updated| - 1]); }
  }

  // ---------------------------------------------------------------- inbound messages

  /** The steps with the first look at a number, those already processed left out. */
  function FirstLooks(steps: seq<InboundStep>, done: set<int>): seq<InboundStep> {
    if steps == [] then []
    else
      var init, step := steps[..|steps| - 1], steps[|steps| - 1];
      FirstLooks(init, done)
        + if WellFormed(step.message) && step.message.sequenceNumber.value !in done && !Occurs(init, step.message.sequenceNumber.value)
          then [step] else []
  }

  predicate Occurs(steps: seq<InboundStep>, n: int) {
    exists j :: 0 <= j < |steps| && Numbered(steps[j].message, n)
  }

  function ReadsOf(looks: seq<InboundStep>): seq<InboundRead> {
    if looks == [] then []
    else ReadsOf(looks[..|looks| - 1]) + [InboundRead(looks[|looks| - 1].message, looks[|looks| - 1].known)]
  }

  /** The topics, and behind them those that the attempts led to. */
  function WithOpened(me: Identity, topics: seq<string>, looks: seq<InboundStep>): seq<string> {
    if looks == [] then topics
    else
      var before, step := WithOpened(me, topics, looks[..|looks| - 1]), looks[|looks| - 1];
      if step.message.sequenceNumber.Some? && AttemptedAt(me, InboundRead(step.message, step.known), step.message.sequenceNumber.value)
         && step.outcome != None && step.outcome != Some("") && step.outcome.value !in before
      then before + [step.outcome.value] else before
  }

  lemma OccursMore(init: seq<InboundStep>, step: InboundStep, n: int)
    ensures Occurs(init + [step], n) <==> Occurs(init, n) || Numbered(step.message, n)
  {
    var all := init + [step];
    if j :| 0 <= j < |init| && Numbered(init[j].message, n) { assert all[j] == init[j]; }
    assert all[|init|] == step;
  }

  lemma LooksMore(me: Identity, topics: seq<string>, looks: seq<InboundStep>, step: InboundStep)
    ensures ReadsOf(looks + [step]) == ReadsOf(looks) + [InboundRead(step.message, step.known)]
    ensures WithOpened(me, topics, looks + [step])
            == var before := WithOpened(me, topics, looks);
               if step.message.sequenceNumber.Some? && AttemptedAt(me, InboundRead(step.message, step.known), step.message.sequenceNumber.value)
                  && step.outcome != None && step.outcome != Some("") && step.outcome.value !in before
               then before + [step.outcome.value] else before
  {
    assert (looks + [step])[..|looks|] == looks;
  }

  /** How the inbound phase stands. */
  ghost predicate InboundStands(me: Identity, s: State, n: State, steps: seq<InboundStep>, looks: seq<InboundStep>)
    requires me.inboundTopicId in s.processedMessages && me.inboundTopicId in n.processedMessages
  {
    && n.connections == s.connections
    && (forall k :: k in n.processedMessages[me.inboundTopicId] <==> k in s.processedMessages[me.inboundTopicId] || Occurs(steps, k))
    && n.inboundReads == s.inboundReads + ReadsOf(looks)
    && n.connectionTopics == WithOpened(me, s.connectionTopics, looks)
  }

  lemma SkippedStands(me: Identity, s: State, n: State, init: seq<InboundStep>, step: InboundStep, looks: seq<InboundStep>)
    requires me.inboundTopicId in s.processedMessages && me.inboundTopicId in n.processedMessages
    requires InboundStands(me, s, n, init, looks)
    requires !WellFormed(step.message) || step.message.sequenceNumber.value in n.processedMessages[me.inboundTopicId]
    ensures InboundStands(me, s, n, init + [step], looks)
  {
    OccursAlways(init, step);
  }

  lemma LookedOne(me: Identity, n: State, step: InboundStep)
    requires me.inboundTopicId in n.processedMessages && step.outcome != Some(me.inboundTopicId)
    requires WellFormed(step.message) && step.message.sequenceNumber.value !in n.processedMessages[me.inboundTopicId]
    ensures var u, k := InboundOne(me, n, step), step.message.sequenceNumber.value;
            && u.connections == n.connections && u.inboundReads == n.inboundReads + [InboundRead(step.message, step.known)]
            && me.inboundTopicId in u.processedMessages
            && u.processedMessages[me.inboundTopicId] == n.processedMessages[me.inboundTopicId] + {k}
            && u.connectionTopics == if AttemptedAt(me, InboundRead(step.message, step.known), k) && step.outcome != None
                                        && step.outcome != Some("") && step.outcome.value !in n.connectionTopics
                                     then n.connectionTopics + [step.outcome.value] else n.connectionTopics
  {
    AttemptableIff(me, InboundRead(step.message, step.known), step.message.sequenceNumber.value);
  }

  lemma LookedStands(me: Identity, s: State, n: State, init: seq<InboundStep>, step: InboundStep, looks: seq<InboundStep>)
    requires me.inboundTopicId in s.processedMessages && me.inboundTopicId in n.processedMessages
    requires InboundStands(me, s, n, init, looks) && step.outcome != Some(me.inboundTopicId)
    requires WellFormed(step.message) && step.message.sequenceNumber.value !in n.processedMessages[me.inboundTopicId]
    ensures InboundStands(me, s, InboundOne(me, n, step), init + [step], looks + [step])
  {
    LookedOne(me, n, step);
    LooksMore(me, s.connectionTopics, looks, step);
    OccursAlways(init, step);
    ReadsAppended(s.inboundReads, ReadsOf(looks), InboundRead(step.message, step.known));
  }

  lemma OccursAlways(init: seq<InboundStep>, step: InboundStep)
    ensures forall k :: Occurs(init + [step], k) <==> Occurs(init, k) || Numbered(step.message, k)
  {
    forall k ensures Occurs(init + [step], k) <==> Occurs(init, k) || Numbered(step.message, k) { OccursMore(init, step, k); }
  }

  lemma ReadsAppended(before: seq<InboundRead>, more: seq<InboundRead>, r: InboundRead)
    ensures before + more + [r] == before + (more + [r])
  {
  }

  /** The inbound messages are looked at once for each number, and the topics that attempts led to are monitored from then on. */
  lemma {:induction false} InboundHas(me: Identity, s: State, steps: seq<InboundStep>)
    requires me.inboundTopicId in s.processedMessages && forall step <- steps :: step.outcome != Some(me.inboundTopicId)
    ensures InboundStands(me, s, InboundAll(me, s, steps), steps, FirstLooks(steps, s.processedMessages[me.inboundTopicId]))
  {
    var done := s.processedMessages[me.inboundTopicId];
    if steps == [] {
      assert s.inboundReads + [] == s.inboundReads;
    } else {
      var init, step := steps[..|steps| - 1], steps[|steps| - 1];
      assert steps == init + [step];
      InboundHas(me, s, init);
      var n := InboundAll(me, s, init);
      if !WellFormed(step.message) || step.message.sequenceNumber.value in n.processedMessages[me.inboundTopicId] {
        SkippedStands(me, s, n, init, step, FirstLooks(init, done));
        assert FirstLooks(init, done) + [] == FirstLooks(init, done);
      } else {
        LookedStands(me, s, n, init, step, FirstLooks(init, done));
      }
    }
  }

  // ---------------------------------------------------------------- connection topics

  /** The loop comes to somebody else closing the connection, before anything it throws on. */
  predicate Closes(me: Identity, done: set<int>, messages: seq<HcsMessage>)
    decreases |messages|
  {
    if messages == [] then false
    else
      var m := messages[0];
      if !WellFormed(m) || m.sequenceNumber.value in done then Closes(me, done, messages[1..])
      else
        (m.op == CloseConnection && !IsOwn(me, m))
        || ((m.op != Message || m.dataIsText || IsOwn(me, m)) && Closes(me, done + {m.sequenceNumber.value}, messages[1..]))
  }

  /** A topic is kept if it is connected, not gone, and nobody else closes the connection. */
  predicate Kept(me: Identity, s: State, streams: map<string, Stream>, t: string) {
    && t in s.connections
    && (t in streams ==>
          match streams[t]
          case Failed(gone) => !gone
          case Messages(messages) => !Closes(me, Memory(s, t), messages))
  }

  function KeptOf(me: Identity, s: State, streams: map<string, Stream>, topics: seq<string>): seq<string> {
    if topics == [] then []
    else
      var t := topics[|topics| - 1];
      KeptOf(me, s, streams, topics[..|topics| - 1]) + if Kept(me, s, streams, t) then [t] else []
  }

  /** Only the topic may leave, from all collections at once. */
  ghost predicate LeavesIf(s: State, n: State, t: string, closes: bool) {
    && n.connectionTopics == (if closes then Without(s.connectionTopics, t) else s.connectionTopics)
    && n.connections == (if closes then s.connections - {t} else s.connections)
  }

  lemma {:induction false} StreamLeaves(me: Identity, s: State, t: string, messages: seq<HcsMessage>)
    requires t in s.processedMessages
    ensures LeavesIf(s, TopicMessages(me, s, t, messages), t, Closes(me, s.processedMessages[t], messages))
    decreases |messages|
  {
    if messages != [] {
      var m := messages[0];
      if !WellFormed(m) || m.sequenceNumber.value in s.processedMessages[t] {
        StreamLeaves(me, s, t, messages[1..]);
      } else if !Stops(me, m) {
        StreamLeaves(me, Look(me, s, t, m), t, messages[1..]);
      }
    }
  }

  lemma TopicLeaves(me: Identity, s: State, t: string, streams: map<string, Stream>)
    requires Inv(me, s) && t in s.connectionTopics
    ensures LeavesIf(s, TopicOne(me, s, t, streams), t, !Kept(me, s, streams, t))
  {
    if t in s.connections && t in streams && streams[t].Messages? {
      StreamLeaves(me, s, t, streams[t].messages);
    }
  }

  lemma {:induction false} WithoutIs(front: seq<string>, t: string, back: seq<string>)
    requires t !in front && t !in back
    ensures Without(front + [t] + back, t) == front + back
  {
    if back == [] {
      WithoutAbsent(front, t);
      assert (front + [t] + back)[..|front|] == front && front + back == front;
    } else {
      var all := front + [t] + back;
      WithoutIs(front, t, back[..|back| - 1]);
      assert all[..|all| - 1] == front + [t] + back[..|back| - 1];
      assert front + back == front + back[..|back| - 1] + [back[|back| - 1]];
    }
  }

  lemma {:induction false} WithoutAbsent(topics: seq<string>, t: string)
    requires t !in topics
    ensures Without(topics, t) == topics
  {
    if topics != [] { WithoutAbsent(topics[..|topics| - 1], t); }
  }

  lemma {:induction false} KeptMembers(me: Identity, s: State, streams: map<string, Stream>, topics: seq<string>)
    ensures forall t :: t in KeptOf(me, s, streams, topics) <==> t in topics && Kept(me, s, streams, t)
  {
    if topics != [] { KeptMembers(me, s, streams, topics[..|topics| - 1]); }
  }

  /** How the collections stand when some of the topics have been visited. */
  ghost predicate TopicsStand(me: Identity, s: State, n: State, visited: seq<string>, rest: seq<string>, streams: map<string, Stream>) {
    && n.connectionTopics == KeptOf(me, s, streams, visited) + rest
    && (forall t :: Lookup(n.connections, t) == if t in visited && !Kept(me, s, streams, t) then None else Lookup(s.connections, t))
  }

  /** Visiting a topic keeps it where it is, or takes it out. */
  lemma TopicsLeft(kept: seq<string>, t: string, rest: seq<string>, closes: bool)
    requires t !in kept && t !in rest
    ensures (if closes then Without(kept + ([t] + rest), t) else kept + ([t] + rest)) == kept + (if closes then [] else [t]) + rest
  {
    assert kept + ([t] + rest) == kept + [t] + rest && kept + [] == kept;
    if closes { WithoutIs(kept, t, rest); }
  }

  lemma KeptMore(me: Identity, s: State, streams: map<string, Stream>, visited: seq<string>, t: string)
    ensures KeptOf(me, s, streams, visited + [t]) == KeptOf(me, s, streams, visited) + if Kept(me, s, streams, t) then [t] else []
  {
    assert (visited + [t])[..|visited|] == visited;
  }

  lemma ConnectionsLeft(s: State, n: State, u: State, visited: seq<string>, t: string, keeps: string -> bool, closes: bool)
    requires forall x :: Lookup(n.connections, x) == if x in visited && !keeps(x) then None else Lookup(s.connections, x)
    requires LeavesIf(n, u, t, closes) && closes == !keeps(t)
    ensures forall x :: Lookup(u.connections, x) == if x in visited + [t] && !keeps(x) then None else Lookup(s.connections, x)
  {
  }

  lemma VisitedTopics(me: Identity, s: State, all: seq<string>, visited: seq<string>, t: string, rest: seq<string>,
                      streams: map<string, Stream>)
    requires all == KeptOf(me, s, streams, visited) + ([t] + rest) && t !in visited && t !in rest
    ensures (if Kept(me, s, streams, t) then all else Without(all, t)) == KeptOf(me, s, streams, visited + [t]) + rest
  {
    KeptMembers(me, s, streams, visited);
    KeptMore(me, s, streams, visited, t);
    TopicsLeft(KeptOf(me, s, streams, visited), t, rest, !Kept(me, s, streams, t));
  }

  lemma VisitStands(me: Identity, s: State, n: State, u: State, visited: seq<string>, t: string, rest: seq<string>,
                    streams: map<string, Stream>)
    requires TopicsStand(me, s, n, visited, [t] + rest, streams) && t !in visited && t !in rest
    requires LeavesIf(n, u, t, !Kept(me, s, streams, t))
    ensures TopicsStand(me, s, u, visited + [t], rest, streams)
  {
    VisitedTopics(me, s, n.connectionTopics, visited, t, rest, streams);
    ConnectionsLeft(s, n, u, visited, t, x => Kept(me, s, streams, x), !Kept(me, s, streams, t));
  }

  lemma StillKept(me: Identity, s: State, n: State, streams: map<string, Stream>, t: string)
    requires Lookup(n.connections, t) == Lookup(s.connections, t) && Memory(n, t) == Memory(s, t)
    ensures Kept(me, n, streams, t) <==> Kept(me, s, streams, t)
  {
  }

  lemma StillThere(me: Identity, s: State, n: State, visited: seq<string>, t: string, rest: seq<string>, streams: map<string, Stream>)
    requires TopicsStand(me, s, n, visited, [t] + rest, streams) && t !in visited
    ensures t in n.connectionTopics && Lookup(n.connections, t) == Lookup(s.connections, t)
  {
    assert n.connectionTopics[|KeptOf(me, s, streams, visited)|] == t;
  }

  lemma {:induction false} TopicsHave(me: Identity, s: State, visited: seq<string>, rest: seq<string>, streams: map<string, Stream>)
    requires Inv(me, s) && s.connectionTopics == visited + rest
    ensures Inv(me, TopicAll(me, s, visited, streams))
    ensures TopicsStand(me, s, TopicAll(me, s, visited, streams), visited, rest, streams)
    decreases |visited|
  {
    if visited != [] {
      var init, t := visited[..|visited| - 1], visited[|visited| - 1];
      assert visited == init + [t] && visited + rest == init + ([t] + rest);
      TopicsHave(me, s, init, [t] + rest, streams);
      DistinctParts(s.connectionTopics, init, t, rest);
      TopicsElsewhere(me, s, init, streams, t);
      var n := TopicAll(me, s, init, streams);
      StillThere(me, s, n, init, t, rest, streams);
      StillKept(me, s, n, streams, t);
      TopicLeaves(me, n, t, streams);
      VisitStands(me, s, n, TopicOne(me, n, t, streams), init, t, rest, streams);
      InvTopicOne(me, n, t, streams);
    }
  }

  lemma DistinctParts(all: seq<string>, init: seq<string>, t: string, rest: seq<string>)
    requires Distinct(all) && all == init + ([t] + rest)
    ensures t !in init && t !in rest && Distinct(init) && forall x <- init :: x in all
  {
    assert all[|init|] == t;
    forall i | 0 <= i < |rest| ensures rest[i] != t { assert all[|init| + 1 + i] == rest[i]; }
    forall i | 0 <= i < |init| ensures init[i] != t { assert all[i] == init[i]; }
    forall i, j | 0 <= i < j < |init| ensures init[i] != init[j] { assert all[i] == init[i] && all[j] == init[j]; }
  }

  // ---------------------------------------------------------------- one round

  /** What the round makes of the collections up to the connection topics. */
  lemma InboundPhaseHas(me: Identity, s: State, r: Round)
    requires Inv(me, s) && Sane(me, r) && r.refill.Some? && r.inbound.Some?
    ensures var t := AfterInbound(me, s, r);
            && t.connectionTopics == WithOpened(me, WithNew(s.connectionTopics, r.refill.value),
                                                FirstLooks(r.inbound.value, s.processedMessages[me.inboundTopicId]))
            && (forall x :: Lookup(t.connections, x) == if ValidTopicId(x) then Latest(r.refill.value, x) else None)
  {
    InvAfterInbound(me, s, r);
    RefillHas(s, r.refill.value);
    InboundMemory(me, s, r.refill.value);
    InboundHas(me, AfterRefill(s, r), r.inbound.value);
  }

  lemma TopicPhaseHas(me: Identity, s: State, streams: map<string, Stream>)
    requires Inv(me, s) && ConnectionsMonitored(s)
    ensures var n := TopicAll(me, s, s.connectionTopics, streams);
            && n.connectionTopics == KeptOf(me, s, streams, s.connectionTopics)
            && (forall x :: Lookup(n.connections, x) == if x in n.connectionTopics then Lookup(s.connections, x) else None)
  {
    TopicsHave(me, s, s.connectionTopics, [], streams);
    KeptMembers(me, s, streams, s.connectionTopics);
    assert KeptOf(me, s, streams, s.connectionTopics) + [] == KeptOf(me, s, streams, s.connectionTopics);
    assert forall x :: x !in s.connections ==> Lookup(s.connections, x) == None;
  }

  lemma InboundMonitored(me: Identity, s: State, r: Round)
    requires Inv(me, s) && Sane(me, r) && r.refill.Some? && r.inbound.Some?
    ensures Continues(me, s, r) && Inv(me, AfterInbound(me, s, r)) && ConnectionsMonitored(AfterInbound(me, s, r))
  {
    InvAfterInbound(me, s, r);
    InvRefill(me, s, r.refill.value);
    InboundFrame(me, AfterRefill(s, r), r.inbound.value);
  }

  lemma OfferedHasId(updated: seq<Connection>, kept: seq<string>, topics: map<string, Connection>)
    requires forall x :: Lookup(topics, x) == if ValidTopicId(x) then Latest(updated, x) else None
    requires forall x <- kept :: x in topics
    ensures forall x <- kept :: Lookup(topics, x) == Latest(updated, x)
  {
  }

  /**
   * A round that gets through leaves these topics monitored, in this order: those it had, those newly offered and those its
   * attempts led to, as far as they are offered, not gone and not closed by somebody else; each with the connection offered last.
   */
  lemma RoundHas(me: Identity, s: State, r: Round)
    requires Inv(me, s) && Sane(me, r) && r.refill.Some? && r.inbound.Some?
    ensures var t, n := AfterInbound(me, s, r), AfterRound(me, s, r);
            && t.connectionTopics == WithOpened(me, WithNew(s.connectionTopics, r.refill.value),
                                                FirstLooks(r.inbound.value, s.processedMessages[me.inboundTopicId]))
            && n.connectionTopics == KeptOf(me, t, r.streams, t.connectionTopics)
            && (forall x :: Lookup(t.connections, x) == if ValidTopicId(x) then Latest(r.refill.value, x) else None)
            && (forall x :: Lookup(n.connections, x) == if x in n.connectionTopics then Latest(r.refill.value, x) else None)
  {
    InboundPhaseHas(me, s, r);
    InboundMonitored(me, s, r);
    var t := AfterInbound(me, s, r);
    TopicPhaseHas(me, t, r.streams);
    KeptMembers(me, t, r.streams, t.connectionTopics);
    OfferedHasId(r.refill.value, AfterRound(me, s, r).connectionTopics, t.connections);
  }

  /** A refill leaves the set of the inbound topic alone. */
  lemma {:induction false} InboundMemory(me: Identity, s: State, updated: seq<Connection>)
    requires me.inboundTopicId in s.processedMessages && forall c <- updated :: c.connectionTopicId != me.inboundTopicId
    ensures var n := Refill(s, updated);
            me.inboundTopicId in n.processedMessages && n.processedMessages[me.inboundTopicId] == s.processedMessages[me.inboundTopicId]
  {
    if updated != [] { InboundMemory(me, s, updated[..|updated| - 1]); }
  }

  /** A round whose refill fails changes nothing, and one that cannot read the inbound topic only refills. */
  lemma FailedRound(me: Identity, s: State, r: Round)
    requires r.refill.None? || r.inbound.None?
    ensures AfterRound(me, s, r) == if r.refill.None? then s else Refill(s, r.refill.value)
  {
  }
}
