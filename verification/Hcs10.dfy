/**
 * The HCS-10 polling agent of agent-framework/routes/character-mcp-api.ts: three collections that are refilled,
 * extended, closed and dropped in rounds, against logs and a connection manager that answer as they like.
 */
module Hcs10 {
  import opened Common
  import Text

  datatype Operation = ConnectionRequest | ConnectionCreated | Message | CloseConnection | Other

  /**
   * A message of a topic; fields the source checks for presence are optional, an absent operator id is empty. dataIsText
   * is false for data of another type, on which handleStandardMessage throws.
   */
  datatype HcsMessage = HcsMessage(op: Operation, sequenceNumber: Option<int>, created: bool, operatorId: string, dataIsText: bool)

  datatype Connection = Connection(connectionTopicId: string, inboundRequestId: Option<int>)

  /** Who the agent is. */
  datatype Identity = Identity(accountId: string, inboundTopicId: string)

  /** A message of the inbound topic, what the manager knows when it is handled, and what the SDK makes of it. */
  datatype InboundStep = InboundStep(message: HcsMessage, known: seq<Connection>, outcome: Option<string>)

  /** The messages of a connection topic, or an error that may say that the topic is gone. */
  datatype Stream = Messages(messages: seq<HcsMessage>) | Failed(gone: bool)

  /** What one round of the loop gets from outside; None is an error thrown by the request. */
  datatype Round = Round(refill: Option<seq<Connection>>, inbound: Option<seq<InboundStep>>, streams: map<string, Stream>)

  /** The first look at a message: on the inbound topic, or on a connection topic in one of its adoptions. */
  datatype InboundRead = InboundRead(message: HcsMessage, known: seq<Connection>)
  datatype TopicRead = TopicRead(topicId: string, adoption: nat, message: HcsMessage)

  /** adoption numbers the topics as they are adopted; it, the reads, the attempts and the dispatches are history. */
  datatype State = State(
    connections: map<string, Connection>,
    connectionTopics: seq<string>,
    processedMessages: map<string, set<int>>,
    adoption: map<string, nat>,
    adoptions: nat,
    inboundReads: seq<InboundRead>,
    attempts: seq<int>,
    topicReads: seq<TopicRead>,
    dispatched: seq<TopicRead>)

  // ---------------------------------------------------------------- identifiers

  predicate Digits(text: string) {
    text != "" && forall i :: 0 <= i < |text| ==> '0' <= text[i] <= '9'
  }

  /** /^[0-9]+\.[0-9]+\.[0-9]+$/ */
  predicate ValidTopicId(id: string) {
    exists i, j :: 0 <= i < j < |id| && id[i] == '.' && id[j] == '.' && Digits(id[..i]) && Digits(id[i + 1..j]) && Digits(id[j + 1..])
  }

  /** extractAccountId: what follows the only '@'. */
  function ExtractAccountId(operatorId: string): Option<string> {
    if operatorId == "" then None
    else
      var parts := Text.Split(operatorId, '@');
      if |parts| == 2 then Some(parts[1]) else None
  }

  predicate EndsWith(text: string, suffix: string) {
    |suffix| <= |text| && text[|text| - |suffix|..] == suffix
  }

  predicate IsOwn(me: Identity, m: HcsMessage) {
    m.operatorId != "" && EndsWith(m.operatorId, "@" + me.accountId)
  }

  predicate WellFormed(m: HcsMessage) {
    m.created && m.sequenceNumber.Some? && m.sequenceNumber.value > 0
  }

  // ---------------------------------------------------------------- the collections

  function Adopt(s: State, topicId: string): State
    requires topicId !in s.connectionTopics
  {
    s.(connectionTopics := s.connectionTopics + [topicId],
       processedMessages := s.processedMessages[topicId := {}],
       adoption := s.adoption[topicId := s.adoptions],
       adoptions := s.adoptions + 1)
  }

  /** The number of the current adoption of a monitored topic. */
  function Adoption(s: State, topicId: string): nat {
    if topicId in s.adoption then s.adoption[topicId] else 0
  }

  function Without(topics: seq<string>, topicId: string): (rest: seq<string>)
    ensures forall t :: t in rest <==> t in topics && t != topicId
  {
    if topics == [] then []
    else Without(topics[..|topics| - 1], topicId) + (if topics[|topics| - 1] == topicId then [] else [topics[|topics| - 1]])
  }

  /** The topic leaves all three collections. */
  function Remove(s: State, topicId: string): State {
    s.(connections := s.connections - {topicId},
       connectionTopics := Without(s.connectionTopics, topicId),
       processedMessages := s.processedMessages - {topicId},
       adoption := s.adoption - {topicId})
  }

  // ---------------------------------------------------------------- start

  /** The state before the first round, from the connections the manager had loaded. */
  function Start(me: Identity, loaded: seq<Connection>): State {
    if loaded == [] then State(map[], [], map[me.inboundTopicId := {}], map[], 0, [], [], [], [])
    else
      var s, c := Start(me, loaded[..|loaded| - 1]), loaded[|loaded| - 1];
      var t := if ValidTopicId(c.connectionTopicId) && c.connectionTopicId !in s.connectionTopics
               then Adopt(s, c.connectionTopicId) else s;
      t.(connections := s.connections[c.connectionTopicId := c])
  }

  // ---------------------------------------------------------------- refill, lines 331 to 347

  function Refill(s: State, updated: seq<Connection>): State {
    if updated == [] then s.(connections := map[])
    else RefillOne(Refill(s, updated[..|updated| - 1]), updated[|updated| - 1])
  }

  function RefillOne(s: State, c: Connection): State {
    var id := c.connectionTopicId;
    if !ValidTopicId(id) then s
    else (if id in s.connectionTopics then s else Adopt(s, id)).(connections := s.connections[id := c])
  }

  // ---------------------------------------------------------------- inbound messages, lines 350 to 413

  /** The first connection the manager has for a request. */
  function Existing(known: seq<Connection>, request: int): Option<Connection> {
    if known == [] then None
    else if known[0].inboundRequestId == Some(request) then Some(known[0])
    else Existing(known[1..], request)
  }

  predicate HandledAlready(known: seq<Connection>, request: int) {
    Existing(known, request).Some? && ValidTopicId(Existing(known, request).value.connectionTopicId)
  }

  /** A request that leads to an attempt to create a connection. */
  predicate Attemptable(me: Identity, r: InboundRead) {
    && WellFormed(r.message)
    && !IsOwn(me, r.message)
    && r.message.op.ConnectionRequest?
    && !HandledAlready(r.known, r.message.sequenceNumber.value)
    && ExtractAccountId(r.message.operatorId).Some?
    && ExtractAccountId(r.message.operatorId).value != ""
  }

  function InboundOne(me: Identity, s: State, step: InboundStep): State
    requires me.inboundTopicId in s.processedMessages
  {
    var m, read := step.message, InboundRead(step.message, step.known);
    if !WellFormed(m) || m.sequenceNumber.value in s.processedMessages[me.inboundTopicId] then s
    else
      var n := m.sequenceNumber.value;
      var seen := s.(
        processedMessages := s.processedMessages[me.inboundTopicId := s.processedMessages[me.inboundTopicId] + {n}],
        inboundReads := s.inboundReads + [read]);
      if !Attemptable(me, read) then seen
      else
        var tried := seen.(attempts := s.attempts + [n]);
        if step.outcome.Some? && step.outcome.value != "" && step.outcome.value !in s.connectionTopics
        then Adopt(tried, step.outcome.value) else tried
  }

  function InboundAll(me: Identity, s: State, steps: seq<InboundStep>): (r: State)
    requires me.inboundTopicId in s.processedMessages
    ensures me.inboundTopicId in r.processedMessages
  {
    if steps == [] then s else InboundOne(me, InboundAll(me, s, steps[..|steps| - 1]), steps[|steps| - 1])
  }

  lemma InboundMore(me: Identity, s: State, steps: seq<InboundStep>, i: nat)
    requires me.inboundTopicId in s.processedMessages && i < |steps|
    ensures InboundAll(me, s, steps[..i + 1]) == InboundOne(me, InboundAll(me, s, steps[..i]), steps[i])
  {
    assert steps[..i + 1][..i] == steps[..i];
  }

  // ---------------------------------------------------------------- connection topics, lines 416 to 486

  function TopicMessages(me: Identity, s: State, topicId: string, messages: seq<HcsMessage>): State
    requires topicId in s.processedMessages
    decreases |messages|
  {
    if messages == [] then s
    else
      var m, rest := messages[0], messages[1..];
      if !WellFormed(m) || m.sequenceNumber.value in s.processedMessages[topicId] then TopicMessages(me, s, topicId, rest)
      else
        var seen := See(s, topicId, m);
        if IsOwn(me, m) then TopicMessages(me, seen, topicId, rest)
        else if m.op.Message? && m.dataIsText then TopicMessages(me, Dispatch(seen, topicId, m), topicId, rest)
        else if m.op.Message? then Dispatch(seen, topicId, m)
        else if m.op.CloseConnection? then Remove(seen, topicId)
        else TopicMessages(me, seen, topicId, rest)
  }

  /** A first look at the message ends the processing of its topic: somebody else closes it, or handling the message throws. */
  predicate Stops(me: Identity, m: HcsMessage) {
    !IsOwn(me, m) && (m.op.CloseConnection? || (m.op.Message? && !m.dataIsText))
  }

  function See(s: State, topicId: string, m: HcsMessage): State
    requires topicId in s.processedMessages && WellFormed(m)
  {
    s.(processedMessages := s.processedMessages[topicId := s.processedMessages[topicId] + {m.sequenceNumber.value}],
       topicReads := s.topicReads + [TopicRead(topicId, Adoption(s, topicId), m)])
  }

  function Dispatch(s: State, topicId: string, m: HcsMessage): State {
    s.(dispatched := s.dispatched + [TopicRead(topicId, Adoption(s, topicId), m)])
  }

  function TopicOne(me: Identity, s: State, topicId: string, streams: map<string, Stream>): State {
    if topicId !in s.connections then Remove(s, topicId)
    else match StreamOf(streams, topicId)
      case Failed(gone) => if gone then Remove(s, topicId) else s
      case Messages(messages) =>
        if topicId in s.processedMessages then TopicMessages(me, s, topicId, messages) else s
  }

  function StreamOf(streams: map<string, Stream>, topicId: string): Stream {
    if topicId in streams then streams[topicId] else Failed(false)
  }

  function TopicAll(me: Identity, s: State, topics: seq<string>, streams: map<string, Stream>): State {
    if topics == [] then s else TopicOne(me, TopicAll(me, s, topics[..|topics| - 1], streams), topics[|topics| - 1], streams)
  }

  // ---------------------------------------------------------------- one round, lines 329 to 490

  function AfterRefill(s: State, r: Round): State {
    if r.refill.None? then s else Refill(s, r.refill.value)
  }

  /** The inbound messages arrive, and looking up what was processed does not fail. */
  predicate Continues(me: Identity, s: State, r: Round) {
    && r.refill.Some? && r.inbound.Some?
    && (me.inboundTopicId in AfterRefill(s, r).processedMessages || forall step <- r.inbound.value :: !WellFormed(step.message))
  }

  function AfterInbound(me: Identity, s: State, r: Round): State {
    var t := AfterRefill(s, r);
    if Continues(me, s, r) && me.inboundTopicId in t.processedMessages then InboundAll(me, t, r.inbound.value) else t
  }

  /** An error in a phase ends the round with what the phases before it did. */
  function AfterRound(me: Identity, s: State, r: Round): State {
    var t := AfterInbound(me, s, r);
    if Continues(me, s, r) then TopicAll(me, t, t.connectionTopics, r.streams) else t
  }

  function AfterRounds(me: Identity, s: State, rounds: seq<Round>): State {
    if rounds == [] then s else AfterRound(me, AfterRounds(me, s, rounds[..|rounds| - 1]), rounds[|rounds| - 1])
  }
}
