/**
 * The maps of the HIP-991 runtime, told from the events of a run alone: where a callback is, what is cached, who is whose
 * agent. Nothing here looks at a state except to compare it.
 */
module Hip991Histories {
  import opened Common
  import opened Hip991
  import opened Hip991Invariants
  import opened Hip991Outcomes

  function Lookup<K, V>(m: map<K, V>, key: K): Option<V> {
    if key in m then Some(m[key]) else None
  }

  // ---------------------------------------------------------------- the topics and the clock

  /** The last time the clock was set to. */
  function Clock(run: seq<Event>): nat {
    if run == [] then 0
    else match run[|run| - 1] case Tick(to) => to case _ => Clock(run[..|run| - 1])
  }

  /** What has been posted on the topic of an agent, once the agent exists. */
  function Posted(run: seq<Event>, a: nat): Option<seq<RawMessage>> {
    if run == [] then None
    else
      var before := Posted(run[..|run| - 1], a);
      match run[|run| - 1]
      case FinishInitialize(_, b) => if b == a then Some([]) else before
      case Post(b, m) => if b == a && before.Some? then Some(before.value + [m]) else before
      case _ => before
  }

  /** The messages of a topic whose timestamps are below a bound come first. */
  function Below(log: seq<RawMessage>, bound: nat): (n: nat)
    ensures n <= |log|
  {
    if log == [] || bound <= log[0].consensus then 0 else 1 + Below(log[1..], bound)
  }

  // ---------------------------------------------------------------- one callback

  /** How many callbacks have been started. */
  function Starts(run: seq<Event>): nat {
    if run == [] then 0
    else Starts(run[..|run| - 1]) + if run[|run| - 1].BeginInitialize? || run[|run| - 1].PollTick? then 1 else 0
  }

  /** The event that started a callback: they are numbered as they start. */
  function Starter(run: seq<Event>, t: nat): (r: Option<Event>)
    ensures r.Some? <==> t < Starts(run)
  {
    if run == [] then None
    else
      var init, e := run[..|run| - 1], run[|run| - 1];
      if (e.BeginInitialize? || e.PollTick?) && Starts(init) == t then Some(e) else Starter(init, t)
  }

  /** What the callback got when its topic was fetched: the end of the topic, from the bound on. */
  function Batch(run: seq<Event>, t: nat): (r: Option<seq<RawMessage>>)
    ensures r.Some? ==> Starter(run, t).Some?
  {
    if run == [] then None
    else
      var init, e := run[..|run| - 1], run[|run| - 1];
      if e != Fetched(t) then Batch(init, t)
      else
        match Starter(init, t)
        case Some(PollTick(a, from)) =>
          if Posted(init, a).Some? then Some(Posted(init, a).value[Below(Posted(init, a).value, from)..]) else None
        case _ => None
  }

  /** How many messages of its batch the callback has looked at. */
  function Looks(run: seq<Event>, t: nat): nat {
    if run == [] then 0 else Looks(run[..|run| - 1], t) + if run[|run| - 1] == NextMessage(t) then 1 else 0
  }

  /** The message the callback looks at next, and the one it looked at last. */
  function Ahead(run: seq<Event>, t: nat): Option<RawMessage> {
    if Batch(run, t).Some? && Looks(run, t) < |Batch(run, t).value| then Some(Batch(run, t).value[Looks(run, t)]) else None
  }

  function Current(run: seq<Event>, t: nat): Option<TopicMessage> {
    if Batch(run, t).Some? && 0 < Looks(run, t) <= |Batch(run, t).value| then Batch(run, t).value[Looks(run, t) - 1].content else None
  }

  /** The text generated last in the callback, with the time, as the reply to the message it looked at last. */
  function Reply(run: seq<Event>, t: nat): Option<TopicMessage> {
    if run == [] then None
    else
      var init, e := run[..|run| - 1], run[|run| - 1];
      if e.Generated? && e.task == t && Current(init, t).Some? && Current(init, t).value.responseId.Some?
      then var m := Current(init, t).value;
           Some(TopicMessage(m.responseId.value, None, Some(e.text), Some(m.id), None, Clock(init)))
      else Reply(init, t)
  }

  /** The next message is a question with an id for its answer, and neither its id nor that one is cached. */
  predicate Passes(run: seq<Event>, t: nat)
    decreases |run|, 1
  {
    && Ahead(run, t).Some? && Ahead(run, t).value.content.Some?
    && var m := Ahead(run, t).value.content.value;
       m.prompt != None && m.prompt != Some("") && m.responseId.Some? && m.responseId.value != ""
       && Cached(run, m.id).None? && Cached(run, m.responseId.value).None?
  }

  /** What was cached under an id last: a question that passed or a reply that was sent, unless a collection since then found
      it older than a day. */
  function Cached(run: seq<Event>, id: string): Option<CacheEntry>
    decreases |run|, 0
  {
    if run == [] then None
    else
      var init := run[..|run| - 1];
      var before := Cached(init, id);
      match run[|run| - 1]
      case NextMessage(t) =>
        if Passes(init, t) && Ahead(init, t).value.content.value.id == id
        then Some(CacheEntry(Ahead(init, t).value.content.value, Clock(init))) else before
      case Sent(t) =>
        if Current(init, t).Some? && Current(init, t).value.responseId == Some(id) && Reply(init, t).Some?
        then Some(CacheEntry(Reply(init, t).value, Clock(init))) else before
      case CollectGarbage => if before.Some? && Clock(init) - before.value.timestamp > 24 * 60 * 60 * 1000 then None else before
      case _ => before
  }

  datatype Stage = Reading | Asking | Replying

  function StageOf(run: seq<Event>, t: nat): Stage {
    if run == [] then Reading
    else
      var init := run[..|run| - 1];
      match run[|run| - 1]
      case NextMessage(k) => if k != t then StageOf(init, t) else if Passes(init, t) then Asking else Reading
      case Generated(k, _) => if k == t then Replying else StageOf(init, t)
      case Sent(k) => if k == t then Reading else StageOf(init, t)
      case ProcessingFailed(k) => if k == t then Reading else StageOf(init, t)
      case _ => StageOf(init, t)
  }

  /** The callback has ended: its agent exists or was given up, nothing was fetched, or it has looked at everything. */
  predicate Ended(run: seq<Event>, t: nat) {
    run != [] &&
    var init := run[..|run| - 1];
    Ended(init, t) ||
    match run[|run| - 1]
    case FinishInitialize(k, _) => k == t
    case AbandonInitialize(k) => k == t
    case FetchFailed(k) => k == t
    case Fetched(k) => k == t && Batch(run, t) == Some([])
    case NextMessage(k) => k == t && Ahead(init, t).None?
    case _ => false
  }

  /** Where a callback is. */
  function Callback(run: seq<Event>, t: nat): Option<Task> {
    if Ended(run, t) then None
    else
      match Starter(run, t)
      case Some(BeginInitialize(u)) => Some(Initializing(u))
      case Some(PollTick(a, from)) =>
        if Batch(run, t).None? then Some(Fetching(a, from))
        else if Looks(run, t) > |Batch(run, t).value| then None
        else
          var rest := Batch(run, t).value[Looks(run, t)..];
          (match StageOf(run, t)
           case Reading => Some(Scanning(a, rest))
           case Asking => if Current(run, t).Some? then Some(Generating(a, rest, Current(run, t).value)) else None
           case Replying =>
             if Current(run, t).Some? && Reply(run, t).Some?
             then Some(Sending(a, rest, Current(run, t).value, Reply(run, t).value)) else None)
      case _ => None
  }

  // ---------------------------------------------------------------- users and agents

  /** The agent of the user's last initialisation that finished, unless the user was destroyed or began another one since. */
  function AgentOf(run: seq<Event>, u: string): Option<nat> {
    if run == [] then None
    else
      var init := run[..|run| - 1];
      match run[|run| - 1]
      case FinishInitialize(t, a) => if Starter(init, t) == Some(Event.BeginInitialize(u)) then Some(a) else AgentOf(init, u)
      case Destroy(v) => if v == u then None else AgentOf(init, u)
      case BeginInitialize(v) => if v == u then None else AgentOf(init, u)
      case _ => AgentOf(init, u)
  }

  /** Who an agent was initialised for; it is active until that is undone while it is the user's agent, and was heard last
      when it was initialised or when a question on its topic passed. */
  function AgentAfter(run: seq<Event>, a: nat): Option<Agent> {
    if run == [] then None
    else
      var init := run[..|run| - 1];
      var before := AgentAfter(init, a);
      match run[|run| - 1]
      case FinishInitialize(t, b) =>
        (match Starter(init, t)
         case Some(BeginInitialize(u)) => if a == b then Some(Agent(u, true, Clock(init))) else before
         case _ => before)
      case Destroy(u) =>
        if before.Some? && AgentOf(init, u) == Some(a) then Some(before.value.(isActive := false)) else before
      case BeginInitialize(u) =>
        if before.Some? && AgentOf(init, u) == Some(a) then Some(before.value.(isActive := false)) else before
      case NextMessage(t) =>
        (match Starter(init, t)
         case Some(PollTick(b, _)) =>
           if before.Some? && a == b && Passes(init, t) then Some(before.value.(lastMessage := Clock(init))) else before
         case _ => before)
      case _ => before
  }

  /** The largest timestamp that callbacks of the agent have looked at. */
  function MarkAfter(run: seq<Event>, a: nat): Option<nat> {
    if run == [] then None
    else
      var init := run[..|run| - 1];
      var before := MarkAfter(init, a);
      match run[|run| - 1]
      case FinishInitialize(_, b) => if a == b then Some(0) else before
      case NextMessage(t) =>
        (match Starter(init, t)
         case Some(PollTick(b, _)) =>
           if before.Some? && a == b && Ahead(init, t).Some? && Ahead(init, t).value.consensus > before.value
           then Some(Ahead(init, t).value.consensus) else before
         case _ => before)
      case _ => before
  }

  // ---------------------------------------------------------------- a state is what its run tells

  ghost predicate TasksTold(s: State, run: seq<Event>) {
    && s.pollers.nextTask == Starts(run)
    && (forall t: nat :: Lookup(s.pollers.tasks, t) == Callback(run, t))
    && (forall t: nat :: Starts(run) <= t ==> !Ended(run, t))
    && (forall t: nat :: Batch(run, t).None? ==> Looks(run, t) == 0 && StageOf(run, t) == Reading)
  }

  ghost predicate CacheTold(s: State, run: seq<Event>) {
    s.now == Clock(run) && forall id :: Lookup(s.cache, id) == Cached(run, id)
  }

  predicate InOrder(log: seq<RawMessage>) {
    forall i, j :: 0 <= i < j < |log| ==> log[i].consensus < log[j].consensus
  }

  ghost predicate LogsTold(p: Pollers, run: seq<Event>) {
    forall a: nat :: Lookup(p.logs, a) == Posted(run, a) && (a in p.logs ==> InOrder(p.logs[a]))
  }

  ghost predicate AgentsTold(p: Pollers, run: seq<Event>) {
    && (forall u :: Lookup(p.activeAgents, u) == AgentOf(run, u))
    && (forall a: nat :: Lookup(p.agents, a) == AgentAfter(run, a))
    && (forall a: nat :: Lookup(p.marks, a) == MarkAfter(run, a))
  }

  lemma {:induction false} SinceIsEnd(log: seq<RawMessage>, from: nat)
    requires InOrder(log)
    ensures Since(log, from) == log[Below(log, from)..]
  {
    if log != [] {
      SinceIsEnd(log[..|log| - 1], from);
      EndGrows(log[..|log| - 1], log[|log| - 1], log, from);
    }
  }

  lemma EndGrows(init: seq<RawMessage>, last: RawMessage, log: seq<RawMessage>, from: nat)
    requires InOrder(log) && log == init + [last]
    ensures log[Below(log, from)..] == init[Below(init, from)..] + (if from <= last.consensus then [last] else [])
  {
    BelowMore(init, last, from);
    if Below(init, from) < |init| {
      assert log[Below(init, from)] == init[Below(init, from)] && log[|init|] == last;
    }
  }

  lemma {:induction false} BelowMore(init: seq<RawMessage>, last: RawMessage, from: nat)
    ensures var n := Below(init, from);
            Below(init + [last], from) == if n < |init| || from <= last.consensus then n else n + 1
    ensures Below(init, from) < |init| ==> from <= init[Below(init, from)].consensus
  {
    if init != [] {
      BelowMore(init[1..], last, from);
      assert (init + [last])[1..] == init[1..] + [last];
    }
  }

  // ---------------------------------------------------------------- one event

  lemma ClockStep(s: State, init: seq<Event>, e: Event, run: seq<Event>)
    requires OneMore(init, e, run) && s.now == Clock(init)
    ensures NextNow(s, e) == Clock(run)
  {
  }

  /** The run is one event longer. */
  predicate OneMore(init: seq<Event>, e: Event, run: seq<Event>) {
    run == init + [e] && run[..|run| - 1] == init
  }

  lemma LogStep(s: State, init: seq<Event>, e: Event, run: seq<Event>, a: nat)
    requires OneMore(init, e, run) && Enabled(s, e) && LogsTold(s.pollers, init)
    ensures var n := NextPollers(s, e);
            Lookup(n.logs, a) == Posted(run, a) && (a in n.logs ==> InOrder(n.logs[a]))
  {
  }

  /** The callback an event runs. */
  function Runs(e: Event): Option<nat> {
    match e
    case FinishInitialize(t, _) => Some(t)
    case AbandonInitialize(t) => Some(t)
    case Fetched(t) => Some(t)
    case FetchFailed(t) => Some(t)
    case NextMessage(t) => Some(t)
    case Generated(t, _) => Some(t)
    case Sent(t) => Some(t)
    case ProcessingFailed(t) => Some(t)
    case _ => None
  }

  predicate Begins(e: Event) {
    e.BeginInitialize? || e.PollTick?
  }

  lemma OtherTask(s: State, e: Event, t: nat)
    requires Enabled(s, e) && Runs(e) != Some(t) && (Begins(e) ==> t != s.pollers.nextTask)
    ensures Lookup(NextPollers(s, e).tasks, t) == Lookup(s.pollers.tasks, t)
  {
  }

  lemma OtherParts(init: seq<Event>, e: Event, run: seq<Event>, t: nat)
    requires OneMore(init, e, run) && Runs(e) != Some(t) && (Begins(e) ==> t != Starts(init))
    ensures Starter(run, t) == Starter(init, t) && Batch(run, t) == Batch(init, t) && Looks(run, t) == Looks(init, t)
    ensures StageOf(run, t) == StageOf(init, t) && Reply(run, t) == Reply(init, t) && Ended(run, t) == Ended(init, t)
  {
  }

  /** Nothing has happened in a callback that has not been started. */
  lemma BeforeStart(s: State, init: seq<Event>, t: nat)
    requires TasksTold(s, init) && Starts(init) <= t
    ensures Starter(init, t).None? && Batch(init, t).None? && Looks(init, t) == 0 && StageOf(init, t) == Reading && !Ended(init, t)
  {
  }

  lemma StartedParts(init: seq<Event>, e: Event, run: seq<Event>, t: nat)
    requires OneMore(init, e, run) && Begins(e) && t == Starts(init)
    ensures Starter(run, t) == Some(e) && Batch(run, t) == Batch(init, t) && Looks(run, t) == Looks(init, t)
    ensures StageOf(run, t) == StageOf(init, t) && Ended(run, t) == Ended(init, t)
  {
  }

  lemma NewTask(s: State, init: seq<Event>, e: Event, run: seq<Event>, t: nat)
    requires OneMore(init, e, run) && Enabled(s, e) && TasksTold(s, init) && Begins(e) && t == Starts(init)
    ensures Lookup(NextPollers(s, e).tasks, t) == Callback(run, t) && !Ended(run, t)
    ensures Batch(run, t).None? && Looks(run, t) == 0 && StageOf(run, t) == Reading
  {
    BeforeStart(s, init, t);
    StartedParts(init, e, run, t);
  }

  lemma EndedTask(s: State, init: seq<Event>, e: Event, run: seq<Event>, t: nat)
    requires OneMore(init, e, run) && Enabled(s, e) && Runs(e) == Some(t)
    requires e.FinishInitialize? || e.AbandonInitialize? || e.FetchFailed?
    ensures Lookup(NextPollers(s, e).tasks, t) == Callback(run, t)
  {
  }

  lemma FetchedTask(s: State, init: seq<Event>, e: Event, run: seq<Event>, t: nat)
    requires OneMore(init, e, run) && Enabled(s, e) && TasksTold(s, init) && LogsTold(s.pollers, init) && e == Fetched(t)
    ensures Lookup(NextPollers(s, e).tasks, t) == Callback(run, t) && Batch(run, t).Some?
  {
    var task := s.pollers.tasks[t];
    assert Callback(init, t) == Some(task);
    SinceIsEnd(s.pollers.logs[task.agent], task.from);
    assert Posted(init, task.agent) == Some(s.pollers.logs[task.agent]);
  }

  lemma AheadIsHead(s: State, init: seq<Event>, t: nat)
    requires Enabled(s, NextMessage(t)) && Lookup(s.pollers.tasks, t) == Callback(init, t)
    ensures var queue := s.pollers.tasks[t].queue;
            Ahead(init, t) == if queue == [] then None else Some(queue[0])
  {
  }

  lemma PassesIsAdmitted(s: State, init: seq<Event>, t: nat)
    requires Enabled(s, NextMessage(t)) && Lookup(s.pollers.tasks, t) == Callback(init, t) && CacheTold(s, init)
    ensures Admitted(s, t).Some? <==> Passes(init, t)
    ensures Passes(init, t) ==> Admitted(s, t) == Ahead(init, t).value.content
  {
    AheadIsHead(s, init, t);
    var queue := s.pollers.tasks[t].queue;
    if queue != [] && queue[0].content.Some? {
      var m := queue[0].content.value;
      assert Lookup(s.cache, m.id) == Cached(init, m.id);
      if m.responseId.Some? {
        assert Lookup(s.cache, m.responseId.value) == Cached(init, m.responseId.value);
      }
    }
  }

  lemma NextMessageTask(s: State, init: seq<Event>, e: Event, run: seq<Event>, t: nat)
    requires OneMore(init, e, run) && Enabled(s, e) && TasksTold(s, init) && CacheTold(s, init) && e == NextMessage(t)
    ensures Lookup(NextPollers(s, e).tasks, t) == Callback(run, t) && Batch(run, t).Some?
  {
    var task := s.pollers.tasks[t];
    assert Callback(init, t) == Some(task);
    AheadIsHead(s, init, t);
    PassesIsAdmitted(s, init, t);
    if task.queue != [] {
      assert Batch(run, t).value[Looks(run, t)..] == task.queue[1..];
    }
  }

  lemma AnsweringTask(s: State, init: seq<Event>, e: Event, run: seq<Event>, t: nat)
    requires OneMore(init, e, run) && Enabled(s, e) && TasksTold(s, init) && CacheTold(s, init) && Runs(e) == Some(t)
    requires e.Generated? || e.Sent? || e.ProcessingFailed?
    ensures Lookup(NextPollers(s, e).tasks, t) == Callback(run, t) && Batch(run, t).Some?
  {
    assert Callback(init, t) == Some(s.pollers.tasks[t]);
  }

  lemma TaskStep(s: State, init: seq<Event>, e: Event, run: seq<Event>, t: nat)
    requires OneMore(init, e, run) && Enabled(s, e) && TasksTold(s, init) && CacheTold(s, init) && LogsTold(s.pollers, init)
    ensures Lookup(NextPollers(s, e).tasks, t) == Callback(run, t)
    ensures Starts(run) <= t ==> !Ended(run, t)
    ensures Batch(run, t).None? ==> Looks(run, t) == 0 && StageOf(run, t) == Reading
  {
    if Begins(e) && t == Starts(init) {
      NewTask(s, init, e, run, t);
    } else if Runs(e) != Some(t) {
      OtherTask(s, e, t);
      OtherParts(init, e, run, t);
    } else {
      Unstarted(s, init, t);
      if e.FinishInitialize? || e.AbandonInitialize? || e.FetchFailed? {
        EndedTask(s, init, e, run, t);
        OnlyEnded(init, e, run, t);
      } else if e.Fetched? {
        FetchedTask(s, init, e, run, t);
      } else if e.NextMessage? {
        NextMessageTask(s, init, e, run, t);
      } else {
        AnsweringTask(s, init, e, run, t);
      }
    }
  }

  lemma Unstarted(s: State, init: seq<Event>, t: nat)
    requires TasksTold(s, init) && t in s.pollers.tasks
    ensures t < Starts(init)
  {
    assert Callback(init, t) == Some(s.pollers.tasks[t]);
  }

  lemma OnlyEnded(init: seq<Event>, e: Event, run: seq<Event>, t: nat)
    requires OneMore(init, e, run) && (e.FinishInitialize? || e.AbandonInitialize? || e.FetchFailed?)
    ensures Batch(run, t) == Batch(init, t) && Looks(run, t) == Looks(init, t) && StageOf(run, t) == StageOf(init, t)
    ensures Starts(run) == Starts(init)
  {
  }

  lemma TasksStep(s: State, init: seq<Event>, e: Event, run: seq<Event>)
    requires OneMore(init, e, run) && Enabled(s, e) && TasksTold(s, init) && CacheTold(s, init) && LogsTold(s.pollers, init)
    ensures TasksTold(Next(s, e), run)
  {
    assert NextPollers(s, e).nextTask == Starts(run);
    forall t: nat
      ensures Lookup(NextPollers(s, e).tasks, t) == Callback(run, t)
      ensures Starts(run) <= t ==> !Ended(run, t)
      ensures Batch(run, t).None? ==> Looks(run, t) == 0 && StageOf(run, t) == Reading
    {
      TaskStep(s, init, e, run, t);
    }
  }

  lemma SentIsReply(s: State, init: seq<Event>, t: nat)
    requires Enabled(s, Sent(t)) && Lookup(s.pollers.tasks, t) == Callback(init, t)
    ensures Current(init, t) == Some(s.pollers.tasks[t].message) && Reply(init, t) == Some(s.pollers.tasks[t].reply)
  {
  }

  lemma EntryStep(s: State, init: seq<Event>, e: Event, run: seq<Event>, id: string)
    requires OneMore(init, e, run) && Enabled(s, e) && TasksTold(s, init) && CacheTold(s, init)
    ensures Lookup(NextCache(s, e), id) == Cached(run, id)
  {
    assert Lookup(s.cache, id) == Cached(init, id);
    if e.NextMessage? {
      PassesIsAdmitted(s, init, e.task);
    } else if e.Sent? {
      SentIsReply(s, init, e.task);
    }
  }

  lemma CacheStep(s: State, init: seq<Event>, e: Event, run: seq<Event>)
    requires OneMore(init, e, run) && Enabled(s, e) && TasksTold(s, init) && CacheTold(s, init)
    ensures CacheTold(Next(s, e), run)
  {
    ClockStep(s, init, e, run);
    forall id ensures Lookup(NextCache(s, e), id) == Cached(run, id) { EntryStep(s, init, e, run, id); }
  }

  lemma LogsStep(s: State, init: seq<Event>, e: Event, run: seq<Event>)
    requires OneMore(init, e, run) && Enabled(s, e) && LogsTold(s.pollers, init)
    ensures LogsTold(NextPollers(s, e), run)
  {
    forall a: nat
      ensures var n := NextPollers(s, e);
              Lookup(n.logs, a) == Posted(run, a) && (a in n.logs ==> InOrder(n.logs[a]))
    {
      LogStep(s, init, e, run, a);
    }
  }

  /** The user an initialisation is for, and the agent a poll is of. */
  lemma StarterIs(s: State, init: seq<Event>, t: nat)
    requires TasksTold(s, init) && t in s.pollers.tasks
    ensures match s.pollers.tasks[t]
            case Initializing(u) => Starter(init, t) == Some(Event.BeginInitialize(u))
            case Fetching(a, from) => Starter(init, t) == Some(Event.PollTick(a, from))
            case _ => exists from :: Starter(init, t) == Some(Event.PollTick(s.pollers.tasks[t].agent, from))
  {
    assert Callback(init, t) == Some(s.pollers.tasks[t]);
    var starter := Starter(init, t).value;
    if starter.PollTick? {
      assert Starter(init, t) == Some(Event.PollTick(starter.agent, starter.from));
    }
  }

  lemma UserStep(s: State, init: seq<Event>, e: Event, run: seq<Event>, u: string)
    requires OneMore(init, e, run) && Enabled(s, e) && TasksTold(s, init) && AgentsTold(s.pollers, init)
    ensures Lookup(NextPollers(s, e).activeAgents, u) == AgentOf(run, u)
  {
    assert Lookup(s.pollers.activeAgents, u) == AgentOf(init, u);
    if e.FinishInitialize? {
      StarterIs(s, init, e.task);
    }
  }

  lemma MarkStep(s: State, init: seq<Event>, e: Event, run: seq<Event>, a: nat)
    requires OneMore(init, e, run) && Enabled(s, e) && TasksTold(s, init) && AgentsTold(s.pollers, init)
    ensures Lookup(NextPollers(s, e).marks, a) == MarkAfter(run, a)
  {
    assert Lookup(s.pollers.marks, a) == MarkAfter(init, a);
    if e.NextMessage? {
      StarterIs(s, init, e.task);
      AheadIsHead(s, init, e.task);
    }
  }

  lemma AgentStep(s: State, init: seq<Event>, e: Event, run: seq<Event>, a: nat)
    requires OneMore(init, e, run) && Enabled(s, e) && TasksTold(s, init) && CacheTold(s, init) && AgentsTold(s.pollers, init)
    ensures Lookup(NextPollers(s, e).agents, a) == AgentAfter(run, a)
  {
    assert Lookup(s.pollers.agents, a) == AgentAfter(init, a);
    if e.NextMessage? {
      StarterIs(s, init, e.task);
      PassesIsAdmitted(s, init, e.task);
    } else if e.FinishInitialize? {
      StarterIs(s, init, e.task);
    } else if e.Destroy? || e.BeginInitialize? {
      assert Lookup(s.pollers.activeAgents, e.userId) == AgentOf(init, e.userId);
    }
  }

  lemma AgentsStep(s: State, init: seq<Event>, e: Event, run: seq<Event>)
    requires OneMore(init, e, run) && Enabled(s, e) && TasksTold(s, init) && CacheTold(s, init) && AgentsTold(s.pollers, init)
    ensures AgentsTold(NextPollers(s, e), run)
  {
    forall u ensures Lookup(NextPollers(s, e).activeAgents, u) == AgentOf(run, u) { UserStep(s, init, e, run, u); }
    forall a: nat ensures Lookup(NextPollers(s, e).agents, a) == AgentAfter(run, a) { AgentStep(s, init, e, run, a); }
    forall a: nat ensures Lookup(NextPollers(s, e).marks, a) == MarkAfter(run, a) { MarkStep(s, init, e, run, a); }
  }

  // ---------------------------------------------------------------- every run

  ghost predicate Told(s: State, run: seq<Event>) {
    TasksTold(s, run) && CacheTold(s, run) && LogsTold(s.pollers, run) && AgentsTold(s.pollers, run)
  }

  lemma NothingTold()
    ensures Told(INITIAL, [])
  {
  }

  lemma ToldStep(s: State, init: seq<Event>, e: Event, run: seq<Event>)
    requires OneMore(init, e, run) && Enabled(s, e) && Told(s, init)
    ensures Told(Next(s, e), run)
  {
    TasksStep(s, init, e, run);
    CacheStep(s, init, e, run);
    LogsStep(s, init, e, run);
    AgentsStep(s, init, e, run);
  }

  lemma {:induction false} ToldAlways(run: seq<Event>)
    requires ValidRun(INITIAL, run)
    ensures Told(After(INITIAL, run), run)
    decreases |run|
  {
    if run == [] {
      NothingTold();
    } else {
      var init, e := run[..|run| - 1], run[|run| - 1];
      LastStep(INITIAL, run);
      ToldAlways(init);
      assert run == init + [e];
      ToldStep(After(INITIAL, init), init, e, run);
    }
  }

  /** In every run the cache holds exactly what was cached last and not yet collected as older than a day. */
  lemma CacheIsLastCached(run: seq<Event>, id: string)
    requires ValidRun(INITIAL, run)
    ensures Lookup(After(INITIAL, run).cache, id) == Cached(run, id)
  {
    ToldAlways(run);
  }

  /** In every run a callback is where its own events have taken it: it holds the end of the topic it fetched, without the
      messages it has looked at, and answers the one it looked at last exactly if that passed and was not answered yet. */
  lemma CallbackIsWhereItGot(run: seq<Event>, t: nat)
    requires ValidRun(INITIAL, run)
    ensures Lookup(After(INITIAL, run).pollers.tasks, t) == Callback(run, t)
  {
    ToldAlways(run);
  }

  /** In every run a user has the agent initialised last, unless that was undone; an agent is active until then, and was
      heard when a question on its topic passed; its mark is the largest timestamp looked at. */
  lemma AgentsAreLastInitialised(run: seq<Event>, u: string, a: nat)
    requires ValidRun(INITIAL, run)
    ensures var p := After(INITIAL, run).pollers;
            && Lookup(p.activeAgents, u) == AgentOf(run, u)
            && Lookup(p.agents, a) == AgentAfter(run, a)
            && Lookup(p.marks, a) == MarkAfter(run, a)
            && (HasActiveAgent(p, u) <==> AgentOf(run, u).Some?)
  {
    ToldAlways(run);
    InvAlways(run);
  }

  /** A message gets through exactly if it is a question that names an id for its answer, and neither its own id nor that one
      is cached; nothing else is put into the history of passes. */
  lemma PassesIff(run: seq<Event>, t: nat)
    requires ValidRun(INITIAL, run) && Enabled(After(INITIAL, run), NextMessage(t))
    ensures var s := After(INITIAL, run);
            var n := Next(s, NextMessage(t));
            if Passes(run, t)
            then var m := Ahead(run, t).value.content.value;
                 n.happened == s.happened + [Passed(m.id, m.responseId.value, Clock(run))]
            else n.happened == s.happened
  {
    ToldAlways(run);
    PassesIsAdmitted(After(INITIAL, run), run, t);
  }
}
