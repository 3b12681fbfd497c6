/**
 * The topic monitor of agent-framework/src/services/monitorService.ts as a state machine: consumption above a mark, one
 * connection request per batch, and the two records that keep a connection request from being attempted again. Its
 * callbacks suspend at every await, so a callback in progress is a task, and one event runs one task from a suspension
 * point to the next. Polls of all topics, and of one topic, overlap freely.
 */
module Monitor {
  import opened Common

  datatype Operation = ConnectionRequest | ConnectionCreated | Message | CloseConnection | Other

  /** The fields of the JSON text in a connection request; absent ones are empty and zero. */
  datatype Payload = Payload(userId: string, timestamp: nat)

  /** payload is None when data is not JSON. */
  datatype HcsMessage = HcsMessage(
    sequenceNumber: nat,
    op: Operation,
    isHcs10: bool,
    operatorId: string,
    data: string,
    payload: Option<Payload>)

  datatype Kind = Inbound | Outbound | Connection

  datatype TopicInfo = TopicInfo(kind: Kind, characterId: string)

  datatype Attempt = Attempt(topicId: string, request: (nat, string), timestamp: nat)

  /**
   * A callback at an await: startMonitoringTopic reading what the topic holds; a poll reading its topic, about to take the
   * next message of its queue, or handling one: looking up the agent (line 343), connecting through the SDK, starting to
   * monitor or registering the topic it opened, or about to tell the listeners.
   */
  datatype Task =
    | Starting(topicId: string)
    | Fetching(topicId: string, from: nat)
    | Taking(topicId: string, queue: seq<HcsMessage>)
    | Looking(topicId: string, queue: seq<HcsMessage>, message: HcsMessage, attempt: Attempt, characterId: string)
    | Connecting(topicId: string, queue: seq<HcsMessage>, message: HcsMessage, characterId: string)
    | Opening(topicId: string, queue: seq<HcsMessage>, message: HcsMessage, characterId: string, connection: string)
    | Registering(topicId: string, queue: seq<HcsMessage>, message: HcsMessage, characterId: string, connection: string)
    | Emitting(topicId: string, queue: seq<HcsMessage>, message: HcsMessage)
  {
    /** The messages the poll still has to take. */
    function Queue(): seq<HcsMessage> {
      if Starting? || Fetching? then [] else queue
    }

    /** The message the poll is handling. */
    function Held(): seq<HcsMessage> {
      if Starting? || Fetching? || Taking? then [] else [message]
    }

    predicate Polls(t: string) {
      !Starting? && topicId == t
    }
  }

  /** The maps of topics, with the intervals that are running; pollingIntervals holds the last one of each topic. */
  datatype Topics = Topics(
    marks: map<string, nat>,
    monitored: set<string>,
    info: map<string, TopicInfo>,
    pollingIntervals: map<string, nat>,
    intervals: map<nat, string>,
    nextInterval: nat)

  /** The two records of attempts; attempted is history. */
  datatype Records = Records(lastRequestTime: map<string, nat>, processedRequests: set<(nat, string)>, attempted: seq<Attempt>)

  /** planned (the messages polls set out to handle) and delivered (to the listeners) are history. */
  datatype State = State(
    topics: Topics,
    records: Records,
    tasks: map<nat, Task>,
    nextTask: nat,
    planned: seq<(string, HcsMessage)>,
    delivered: seq<(string, HcsMessage)>)

  const INITIAL := State(Topics(map[], {}, map[], map[], map[], 0), Records(map[], {}, []), map[], 0, [], [])

  datatype Event =
    | StartRequested(topicId: string)
    | Started(task: nat, initial: Option<seq<HcsMessage>>)
    | Stopped(topicId: string)
    | TopicRegistered(topicId: string, info: TopicInfo)
    | PollTick(interval: nat)
    | Fetched(task: nat, batch: seq<HcsMessage>)
    | FetchFailed(task: nat)
    | Taken(task: nat, now: nat, account: string)
    | AgentFound(task: nat, credentials: bool)
    | TopicOpened(task: nat, connection: string)
    | MonitoringStarted(task: nat, initial: Option<seq<HcsMessage>>)
    | ConnectionRegistered(task: nat)
    | Connected(task: nat)
    | Emitted(task: nat)

  /** What a topic holds, the clock, what the SDK answers and when anything arrives are free. */
  predicate Enabled(s: State, e: Event) {
    match e
    case Started(k, _) => k in s.tasks && s.tasks[k].Starting?
    case PollTick(i) => i in s.topics.intervals
    case Fetched(k, _) => k in s.tasks && s.tasks[k].Fetching?
    case FetchFailed(k) => k in s.tasks && s.tasks[k].Fetching?
    case Taken(k, _, _) => k in s.tasks && s.tasks[k].Taking? && s.tasks[k].queue != []
    case AgentFound(k, _) => k in s.tasks && s.tasks[k].Looking?
    case TopicOpened(k, _) => k in s.tasks && s.tasks[k].Connecting?
    case MonitoringStarted(k, _) => k in s.tasks && s.tasks[k].Opening?
    case ConnectionRegistered(k) => k in s.tasks && s.tasks[k].Registering?
    case Connected(k) => k in s.tasks && s.tasks[k].Connecting?
    case Emitted(k) => k in s.tasks && s.tasks[k].Emitting?
    case _ => true
  }

  function Next(s: State, e: Event): State
    requires Enabled(s, e)
  {
    State(
      NextTopics(s, e),
      NextRecords(s, e),
      NextTasks(s, e),
      if Spawns(s, e) then s.nextTask + 1 else s.nextTask,
      s.planned + Tagged(Planned(s, e), Topic(s, e)),
      s.delivered + Tagged(Delivered(s, e), Topic(s, e)))
  }

  // ---------------------------------------------------------------- which messages of a batch are handled

  function Above(batch: seq<HcsMessage>, mark: nat): (r: seq<HcsMessage>)
    ensures forall m :: m in r <==> m in batch && m.sequenceNumber > mark
  {
    if batch == [] then []
    else
      assert batch == batch[..|batch| - 1] + [batch[|batch| - 1]];
      Above(batch[..|batch| - 1], mark) + (if batch[|batch| - 1].sequenceNumber > mark then [batch[|batch| - 1]] else [])
  }

  function Insert(sorted: seq<HcsMessage>, m: HcsMessage): (r: seq<HcsMessage>)
    ensures forall x :: x in r <==> x in sorted || x == m
  {
    if sorted == [] || sorted[|sorted| - 1].sequenceNumber <= m.sequenceNumber then sorted + [m]
    else
      assert sorted == sorted[..|sorted| - 1] + [sorted[|sorted| - 1]];
      Insert(sorted[..|sorted| - 1], m) + [sorted[|sorted| - 1]]
  }

  /** .sort((a, b) => a.sequence_number - b.sequence_number) */
  function Sorted(batch: seq<HcsMessage>): (r: seq<HcsMessage>)
    ensures forall x :: x in r <==> x in batch
  {
    if batch == [] then []
    else
      assert batch == batch[..|batch| - 1] + [batch[|batch| - 1]];
      Insert(Sorted(batch[..|batch| - 1]), batch[|batch| - 1])
  }

  function Requests(batch: seq<HcsMessage>): (r: seq<HcsMessage>)
    ensures forall m :: m in r <==> m in batch && m.op.ConnectionRequest?
  {
    if batch == [] then []
    else
      assert batch == batch[..|batch| - 1] + [batch[|batch| - 1]];
      Requests(batch[..|batch| - 1]) + (if batch[|batch| - 1].op.ConnectionRequest? then [batch[|batch| - 1]] else [])
  }

  /** Lines 158 to 161: the request with the largest sequence number. */
  function Newest(requests: seq<HcsMessage>): (m: HcsMessage)
    requires requests != []
    ensures m in requests && forall x <- requests :: x.sequenceNumber <= m.sequenceNumber
  {
    if |requests| == 1 then requests[0]
    else
      assert requests == requests[..|requests| - 1] + [requests[|requests| - 1]];
      var newest, current := Newest(requests[..|requests| - 1]), requests[|requests| - 1];
      if current.sequenceNumber > newest.sequenceNumber then current else newest
  }

  function OnlyNewest(batch: seq<HcsMessage>, newest: nat): (r: seq<HcsMessage>)
    ensures forall m :: m in r <==> m in batch && (!m.op.ConnectionRequest? || m.sequenceNumber == newest)
  {
    if batch == [] then []
    else
      var last := batch[|batch| - 1];
      assert batch == batch[..|batch| - 1] + [last];
      OnlyNewest(batch[..|batch| - 1], newest)
        + (if !last.op.ConnectionRequest? || last.sequenceNumber == newest then [last] else [])
  }

  predicate IsInbound(info: map<string, TopicInfo>, topicId: string) {
    topicId in info && info[topicId].kind.Inbound?
  }

  /** Lines 139 to 171: from is the mark the poll has read. */
  function Plan(mark: nat, inbound: bool, batch: seq<HcsMessage>): seq<HcsMessage> {
    var news := Sorted(Above(batch, mark));
    var requests := Requests(news);
    if inbound && |requests| > 1 then OnlyNewest(news, Newest(requests).sequenceNumber) else news
  }

  // ---------------------------------------------------------------- topics

  function Mark(topics: Topics, topicId: string): nat {
    if topicId in topics.marks then topics.marks[topicId] else 0
  }

  function Highest(batch: seq<HcsMessage>): (n: nat)
    ensures forall m <- batch :: m.sequenceNumber <= n
    ensures batch == [] ==> n == 0
    ensures batch != [] ==> exists m :: m in batch && m.sequenceNumber == n
  {
    if batch == [] then 0
    else
      var last := batch[|batch| - 1];
      assert batch == batch[..|batch| - 1] + [last];
      var rest := Highest(batch[..|batch| - 1]);
      if rest > last.sequenceNumber then rest else last.sequenceNumber
  }

  /** The end of startMonitoringTopic; initial is None when the topic could not be read. */
  function Monitored(topics: Topics, t: string, initial: Option<seq<HcsMessage>>): Topics {
    topics.(marks := topics.marks[t := if initial.Some? then Highest(initial.value) else 0],
            intervals := topics.intervals[topics.nextInterval := t],
            pollingIntervals := topics.pollingIntervals[t := topics.nextInterval],
            nextInterval := topics.nextInterval + 1,
            monitored := topics.monitored + {t})
  }

  /** stopMonitoringTopic; polls in progress go on. */
  function Unmonitored(topics: Topics, t: string): Topics {
    if t !in topics.monitored then topics
    else topics.(intervals := if t in topics.pollingIntervals then topics.intervals - {topics.pollingIntervals[t]} else topics.intervals,
                 pollingIntervals := topics.pollingIntervals - {t},
                 monitored := topics.monitored - {t},
                 marks := topics.marks - {t},
                 info := topics.info - {t})
  }

  function NextTopics(s: State, e: Event): Topics
    requires Enabled(s, e)
  {
    match e
    case Started(k, initial) => Monitored(s.topics, s.tasks[k].topicId, initial)
    case Stopped(t) => Unmonitored(s.topics, t)
    case TopicRegistered(t, info) => s.topics.(info := s.topics.info[t := info])
    case Taken(k, _, _) => s.topics.(marks := s.topics.marks[s.tasks[k].topicId := s.tasks[k].queue[0].sequenceNumber])
    case MonitoringStarted(k, initial) => Monitored(s.topics, s.tasks[k].connection, initial)
    case ConnectionRegistered(k) =>
      s.topics.(info := s.topics.info[s.tasks[k].connection := TopicInfo(Connection, s.tasks[k].characterId)])
    case _ => s.topics
  }

  // ---------------------------------------------------------------- requests

  predicate ShouldProcess(info: map<string, TopicInfo>, topicId: string, m: HcsMessage) {
    topicId !in info
    || match info[topicId].kind
       case Inbound => m.op.ConnectionRequest?
       case Outbound => false
       case Connection => m.op.Message?
  }

  function UserId(m: HcsMessage): string {
    if m.payload.Some? then m.payload.value.userId else ""
  }

  function Request(m: HcsMessage): (nat, string) {
    (m.sequenceNumber, UserId(m))
  }

  function RequestTime(m: HcsMessage, now: nat): nat {
    if m.payload.Some? && m.payload.value.timestamp != 0 then m.payload.value.timestamp else now
  }

  function LastTime(r: Records, topicId: string): nat {
    if topicId in r.lastRequestTime then r.lastRequestTime[topicId] else 0
  }

  /** The two records a request is checked against. */
  predicate IsNew(r: Records, a: Attempt) {
    a.request !in r.processedRequests && a.timestamp > LastTime(r, a.topicId)
  }

  /** Lines 294 to 341: the attempt a message calls for, if it passes the checks before the agent is looked up. */
  function Check(s: State, topicId: string, m: HcsMessage, now: nat, account: string): Option<Attempt> {
    var a := Attempt(topicId, Request(m), RequestTime(m, now));
    if !(m.isHcs10 && m.op.ConnectionRequest? && m.sequenceNumber != 0) then None
    else if !IsNew(s.records, a) then None
    else if (if m.operatorId != "" then account else UserId(m)) == "" then None
    else if topicId !in s.topics.info || s.topics.info[topicId].characterId == "" then None
    else Some(a)
  }

  /** Lines 370 and 371, and the attempt they precede. */
  function Record(r: Records, a: Attempt): Records {
    Records(r.lastRequestTime[a.topicId := a.timestamp], r.processedRequests + {a.request}, r.attempted + [a])
  }

  function NextRecords(s: State, e: Event): Records
    requires Enabled(s, e)
  {
    if e.AgentFound? && e.credentials then Record(s.records, s.tasks[e.task].attempt) else s.records
  }

  // ---------------------------------------------------------------- tasks

  /** The task of a poll that takes its next message. */
  function Take(s: State, task: Task, now: nat, account: string): Task
    requires task.Taking? && task.queue != []
  {
    var t, m, rest := task.topicId, task.queue[0], task.queue[1..];
    if ShouldProcess(s.topics.info, t, m) && m.data != "" && IsInbound(s.topics.info, t) && Check(s, t, m, now, account).Some?
    then Looking(t, rest, m, Check(s, t, m, now, account).value, s.topics.info[t].characterId)
    else Emitting(t, rest, m)
  }

  function Idle(topicId: string, queue: seq<HcsMessage>, tasks: map<nat, Task>, k: nat): map<nat, Task> {
    if queue == [] then tasks - {k} else tasks[k := Taking(topicId, queue)]
  }

  /** What the event has a poll set out to handle. */
  function Planned(s: State, e: Event): seq<HcsMessage>
    requires Enabled(s, e)
  {
    if e.Fetched? then Plan(s.tasks[e.task].from, IsInbound(s.topics.info, s.tasks[e.task].topicId), e.batch) else []
  }

  function Delivered(s: State, e: Event): seq<HcsMessage>
    requires Enabled(s, e)
  {
    if e.Emitted? then [s.tasks[e.task].message] else []
  }

  function Topic(s: State, e: Event): string
    requires Enabled(s, e)
  {
    if e.Fetched? || e.Emitted? then s.tasks[e.task].topicId else ""
  }

  function Tagged(messages: seq<HcsMessage>, topicId: string): seq<(string, HcsMessage)> {
    if messages == [] then [] else Tagged(messages[..|messages| - 1], topicId) + [(topicId, messages[|messages| - 1])]
  }

  predicate Spawns(s: State, e: Event) {
    (e.StartRequested? && e.topicId !in s.topics.monitored) || e.PollTick?
  }

  function NextTasks(s: State, e: Event): map<nat, Task>
    requires Enabled(s, e)
  {
    match e
    case StartRequested(t) => if t in s.topics.monitored then s.tasks else s.tasks[s.nextTask := Starting(t)]
    case Started(k, _) => s.tasks - {k}
    case PollTick(i) => s.tasks[s.nextTask := Fetching(s.topics.intervals[i], Mark(s.topics, s.topics.intervals[i]))]
    case Fetched(k, _) => Idle(s.tasks[k].topicId, Planned(s, e), s.tasks, k)
    case FetchFailed(k) => s.tasks - {k}
    case Taken(k, now, account) => s.tasks[k := Take(s, s.tasks[k], now, account)]
    case AgentFound(k, credentials) =>
      var p := s.tasks[k];
      s.tasks[k := if credentials then Connecting(p.topicId, p.queue, p.message, p.characterId)
                   else Emitting(p.topicId, p.queue, p.message)]
    case TopicOpened(k, t) =>
      var p := s.tasks[k];
      s.tasks[k := if t in s.topics.monitored then Registering(p.topicId, p.queue, p.message, p.characterId, t)
                   else Opening(p.topicId, p.queue, p.message, p.characterId, t)]
    case MonitoringStarted(k, _) =>
      var p := s.tasks[k];
      s.tasks[k := Registering(p.topicId, p.queue, p.message, p.characterId, p.connection)]
    case ConnectionRegistered(k) =>
      var p := s.tasks[k];
      s.tasks[k := Connecting(p.topicId, p.queue, p.message, p.characterId)]
    case Connected(k) =>
      var p := s.tasks[k];
      s.tasks[k := Emitting(p.topicId, p.queue, p.message)]
    case Emitted(k) => Idle(s.tasks[k].topicId, s.tasks[k].queue, s.tasks, k)
    case _ => s.tasks
  }

  // ---------------------------------------------------------------- runs

  predicate ValidRun(s: State, run: seq<Event>)
    decreases |run|, 0
  {
    run == [] || (ValidRun(s, run[..|run| - 1]) && Enabled(After(s, run[..|run| - 1]), run[|run| - 1]))
  }

  function After(s: State, run: seq<Event>): State
    requires ValidRun(s, run)
    decreases |run|, 1
  {
    if run == [] then s else Next(After(s, run[..|run| - 1]), run[|run| - 1])
  }

  lemma OneMore(s: State, run: seq<Event>, e: Event)
    requires ValidRun(s, run) && Enabled(After(s, run), e)
    ensures ValidRun(s, run + [e]) && After(s, run + [e]) == Next(After(s, run), e)
  {
    assert (run + [e])[..|run|] == run;
  }
}
