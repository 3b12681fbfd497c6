/**
 * The HIP-991 agent runtime of agent-framework/src/utils/hip991-agent.ts as a state machine. Its callbacks suspend at
 * every await, so a callback in progress is a task, and one event runs one task from a suspension point to the next.
 */
module Hip991 {
  import opened Common

  const MESSAGE_CACHE_TTL: nat := 24 * 60 * 60 * 1000

  datatype TopicMessage = TopicMessage(
    id: string,
    prompt: Option<string>,
    response: Option<string>,
    promptId: Option<string>,
    responseId: Option<string>,
    timestamp: nat)

  /** A message as the mirror node returns it; content is None when its text is not a message. */
  datatype RawMessage = RawMessage(consensus: nat, content: Option<TopicMessage>)

  datatype CacheEntry = CacheEntry(value: TopicMessage, timestamp: nat)

  datatype Agent = Agent(userId: string, isActive: bool, lastMessage: nat)

  datatype Timer = Timer(responseId: string, deadline: nat)

  /** A callback suspended at an await. Every poll callback still has to handle the messages in its queue. */
  datatype Task =
    | Initializing(userId: string)
    | Fetching(agent: nat, from: nat)
    | Scanning(agent: nat, queue: seq<RawMessage>)
    | Generating(agent: nat, queue: seq<RawMessage>, message: TopicMessage)
    | Sending(agent: nat, queue: seq<RawMessage>, message: TopicMessage, reply: TopicMessage)
  {
    function Queue(): seq<RawMessage> {
      if Scanning? || Generating? || Sending? then queue else []
    }

    predicate IsAnswering() {
      Generating? || Sending?
    }
  }

  /** What happened to messages, in order: a message got through the guard, or its answer was sent and cached. */
  datatype Happening =
    | Passed(id: string, responseId: string, time: nat)
    | Answered(id: string, responseId: string, time: nat, text: string)

  datatype Outcome = Resolved(text: string) | Rejected | TimedOut

  datatype Settlement = Settlement(responseId: string, outcome: Outcome, time: nat)

  /** pendingResponses and the timers it refers to; registered and settled are history no code reads. */
  datatype Waiters = Waiters(
    pending: map<string, nat>,
    timers: map<nat, Timer>,
    nextTimer: nat,
    registered: map<string, nat>,
    settled: seq<Settlement>)

  /** The agents, their topics and pollers; visited is history. */
  datatype Pollers = Pollers(
    agents: map<nat, Agent>,
    activeAgents: map<string, nat>,
    logs: map<nat, seq<RawMessage>>,
    marks: map<nat, nat>,
    tasks: map<nat, Task>,
    nextTask: nat,
    visited: set<(nat, nat)>)

  datatype State = State(
    now: nat,
    cache: map<string, CacheEntry>,
    waiters: Waiters,
    pollers: Pollers,
    happened: seq<Happening>)

  const INITIAL := State(0, map[], Waiters(map[], map[], 0, map[], []), Pollers(map[], map[], map[], map[], map[], 0, {}), [])

  datatype Event =
    | Tick(to: nat)
    | CollectGarbage
    | BeginInitialize(userId: string)
    | FinishInitialize(task: nat, agent: nat)
    | AbandonInitialize(task: nat)
    | Destroy(userId: string)
    | Post(agent: nat, message: RawMessage)
    | SendUserMessage(responseId: string, timeout: nat)
    | TimeoutFires(timer: nat)
    | PollTick(agent: nat, from: nat)
    | Fetched(task: nat)
    | FetchFailed(task: nat)
    | NextMessage(task: nat)
    | Generated(task: nat, text: string)
    | Sent(task: nat)
    | ProcessingFailed(task: nat)

  /**
   * When an event may happen. The environment is free except that uuids are fresh, agents' topics are new and a topic's
   * consensus timestamps increase. A timer fires at its deadline or at any time after it. The lower bound of a fetch is
   * the mark or, as it is rounded on its way, anything below.
   */
  predicate Enabled(s: State, e: Event) {
    var tasks := s.pollers.tasks;
    match e
    case Tick(to) => s.now <= to
    case FinishInitialize(t, a) => t in tasks && tasks[t].Initializing? && a !in s.pollers.agents
    case AbandonInitialize(t) => t in tasks && tasks[t].Initializing?
    case Post(a, m) => a in s.pollers.logs && 0 < m.consensus && forall x <- s.pollers.logs[a] :: x.consensus < m.consensus
    case SendUserMessage(r, _) => r !in s.waiters.registered
    case TimeoutFires(h) => h in s.waiters.timers && s.waiters.timers[h].deadline <= s.now
    case PollTick(a, from) => a in s.pollers.marks && from <= s.pollers.marks[a]
    case Fetched(t) => t in tasks && tasks[t].Fetching? && tasks[t].agent in s.pollers.logs
    case FetchFailed(t) => t in tasks && tasks[t].Fetching?
    case NextMessage(t) =>
      t in tasks && tasks[t].Scanning? && tasks[t].agent in s.pollers.marks && tasks[t].agent in s.pollers.agents
    case Generated(t, _) => t in tasks && tasks[t].Generating? && tasks[t].message.responseId.Some?
    case Sent(t) => t in tasks && tasks[t].Sending? && tasks[t].message.responseId.Some? && tasks[t].reply.response.Some?
    case ProcessingFailed(t) => t in tasks && tasks[t].IsAnswering() && tasks[t].message.responseId.Some?
    case _ => true
  }

  function Next(s: State, e: Event): State
    requires Enabled(s, e)
  {
    State(
      NextNow(s, e),
      NextCache(s, e),
      NextWaiters(s, e),
      NextPollers(s, e),
      s.happened + Recorded(s, e))
  }

  function NextNow(s: State, e: Event): nat {
    if e.Tick? then e.to else s.now
  }

  predicate Filled(field: Option<string>) {
    field.Some? && field.value != ""
  }

  /** The guard of processUserMessage. */
  predicate Admits(cache: map<string, CacheEntry>, m: TopicMessage) {
    Filled(m.prompt) && Filled(m.responseId) && m.id !in cache && m.responseId.value !in cache
  }

  /** The message a poll callback is about to let through, if it is. */
  function Admitted(s: State, t: nat): (m: Option<TopicMessage>)
    requires Enabled(s, NextMessage(t))
    ensures m.Some? ==> Admits(s.cache, m.value)
  {
    var queue := s.pollers.tasks[t].queue;
    if queue != [] && queue[0].content.Some? && Admits(s.cache, queue[0].content.value) then queue[0].content else None
  }

  function Unexpired(cache: map<string, CacheEntry>, now: nat): map<string, CacheEntry> {
    map id | id in cache && now <= cache[id].timestamp + MESSAGE_CACHE_TTL :: cache[id]
  }

  function NextCache(s: State, e: Event): map<string, CacheEntry>
    requires Enabled(s, e)
  {
    match e
    case CollectGarbage => Unexpired(s.cache, s.now)
    case NextMessage(t) =>
      var m := Admitted(s, t);
      if m.Some? then s.cache[m.value.id := CacheEntry(m.value, s.now)] else s.cache
    case Sent(t) =>
      var task := s.pollers.tasks[t];
      s.cache[task.message.responseId.value := CacheEntry(task.reply, s.now)]
    case _ => s.cache
  }

  function Recorded(s: State, e: Event): seq<Happening>
    requires Enabled(s, e)
  {
    match e
    case NextMessage(t) =>
      var m := Admitted(s, t);
      if m.Some? then [Passed(m.value.id, m.value.responseId.value, s.now)] else []
    case Sent(t) =>
      var task := s.pollers.tasks[t];
      [Answered(task.message.id, task.message.responseId.value, s.now, task.reply.response.value)]
    case _ => []
  }

  function NextWaiters(s: State, e: Event): Waiters
    requires Enabled(s, e)
  {
    match e
    case SendUserMessage(r, timeout) => Register(s.waiters, r, s.now + timeout)
    case TimeoutFires(h) => TimeOut(s.waiters, h, s.now)
    case Sent(t) =>
      var task := s.pollers.tasks[t];
      Settle(s.waiters, task.message.responseId.value, Resolved(task.reply.response.value), s.now)
    case ProcessingFailed(t) => Settle(s.waiters, s.pollers.tasks[t].message.responseId.value, Rejected, s.now)
    case _ => s.waiters
  }

  function Register(w: Waiters, responseId: string, deadline: nat): Waiters {
    w.(timers := w.timers[w.nextTimer := Timer(responseId, deadline)],
       nextTimer := w.nextTimer + 1,
       pending := w.pending[responseId := w.nextTimer],
       registered := w.registered[responseId := deadline])
  }

  /** The callback of a timer, which deletes the entry without looking at it. */
  function TimeOut(w: Waiters, timer: nat, now: nat): Waiters
    requires timer in w.timers
  {
    var r := w.timers[timer].responseId;
    w.(timers := w.timers - {timer}, pending := w.pending - {r}, settled := w.settled + [Settlement(r, TimedOut, now)])
  }

  /** The waiter for a response, if there is one, loses its timer and is settled. */
  function Settle(w: Waiters, responseId: string, outcome: Outcome, now: nat): Waiters {
    if responseId !in w.pending then w
    else w.(timers := w.timers - {w.pending[responseId]},
            pending := w.pending - {responseId},
            settled := w.settled + [Settlement(responseId, outcome, now)])
  }

  function NextPollers(s: State, e: Event): Pollers
    requires Enabled(s, e)
  {
    var p := s.pollers;
    match e
    case BeginInitialize(u) => Spawn(Deactivate(p, u), Initializing(u))
    case FinishInitialize(t, a) =>
      p.(agents := p.agents[a := Agent(p.tasks[t].userId, true, s.now)],
         activeAgents := p.activeAgents[p.tasks[t].userId := a],
         logs := p.logs[a := []],
         marks := p.marks[a := 0],
         tasks := p.tasks - {t})
    case AbandonInitialize(t) => p.(tasks := p.tasks - {t})
    case Destroy(u) => Deactivate(p, u)
    case Post(a, m) => p.(logs := p.logs[a := p.logs[a] + [m]])
    case PollTick(a, from) => Spawn(p, Fetching(a, from))
    case Fetched(t) =>
      var a := p.tasks[t].agent;
      var batch := Since(p.logs[a], p.tasks[t].from);
      if batch == [] then p.(tasks := p.tasks - {t}) else p.(tasks := p.tasks[t := Scanning(a, batch)])
    case FetchFailed(t) => p.(tasks := p.tasks - {t})
    case NextMessage(t) => Visit(s, t)
    case Generated(t, text) =>
      var task := p.tasks[t];
      var reply := TopicMessage(task.message.responseId.value, None, Some(text), Some(task.message.id), None, s.now);
      p.(tasks := p.tasks[t := Sending(task.agent, task.queue, task.message, reply)])
    case Sent(t) => Resume(p, t)
    case ProcessingFailed(t) => Resume(p, t)
    case _ => p
  }

  function Spawn(p: Pollers, task: Task): Pollers {
    p.(tasks := p.tasks[p.nextTask := task], nextTask := p.nextTask + 1)
  }

  /** The callback goes on with the rest of its batch. */
  function Resume(p: Pollers, t: nat): Pollers
    requires t in p.tasks && p.tasks[t].IsAnswering()
  {
    p.(tasks := p.tasks[t := Scanning(p.tasks[t].agent, p.tasks[t].queue)])
  }

  /** destroyAgent: the agent is marked inactive and forgotten; its poller keeps running. */
  function Deactivate(p: Pollers, userId: string): Pollers {
    if userId !in p.activeAgents then p
    else
      var a := p.activeAgents[userId];
      p.(agents := if a in p.agents then p.agents[a := p.agents[a].(isActive := false)] else p.agents,
         activeAgents := p.activeAgents - {userId})
  }

  /** The messages from a consensus timestamp on, which is included (the query filters with gte). */
  function Since(log: seq<RawMessage>, from: nat): seq<RawMessage> {
    if log == [] then []
    else Since(log[..|log| - 1], from) + (if from <= log[|log| - 1].consensus then [log[|log| - 1]] else [])
  }

  /** One round of the loop over a batch, up to the next await; the callback ends when nothing is left. */
  function Visit(s: State, t: nat): Pollers
    requires Enabled(s, NextMessage(t))
  {
    var p, task := s.pollers, s.pollers.tasks[t];
    if task.queue == [] then p.(tasks := p.tasks - {t})
    else
      var a, raw, rest, m := task.agent, task.queue[0], task.queue[1..], Admitted(s, t);
      p.(marks := p.marks[a := if raw.consensus > p.marks[a] then raw.consensus else p.marks[a]],
         visited := p.visited + {(a, raw.consensus)},
         agents := if m.Some? then p.agents[a := p.agents[a].(lastMessage := s.now)] else p.agents,
         tasks := p.tasks[t := if m.Some? then Generating(a, rest, m.value) else Scanning(a, rest)])
  }

  predicate HasActiveAgent(p: Pollers, userId: string) {
    && userId in p.activeAgents
    && p.activeAgents[userId] in p.agents
    && p.agents[p.activeAgents[userId]].isActive
  }

  // ---------------------------------------------------------------- runs

  predicate ValidRun(s: State, run: seq<Event>)
    decreases |run|
  {
    run == [] || (Enabled(s, run[0]) && ValidRun(Next(s, run[0]), run[1..]))
  }

  /** The state after a run. */
  function After(s: State, run: seq<Event>): State
    requires ValidRun(s, run)
    decreases |run|
  {
    if run == [] then s else After(Next(s, run[0]), run[1..])
  }
}
