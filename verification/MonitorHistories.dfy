/**
 * The maps of the topic monitor, told from the events of a run alone: which topics are monitored and as what, where each
 * poll is, what is attempted and what the listeners are told. Nothing here looks at a state except to compare it.
 */
module MonitorHistories {
  import opened Common
  import opened Monitor

  function Lookup<K, V>(m: map<K, V>, key: K): Option<V> {
    if key in m then Some(m[key]) else None
  }

  /** What a callback was started for: to begin monitoring a topic, or to poll one for what is above a mark. */
  datatype Origin = ToStart(topicId: string) | ToPoll(topicId: string, from: nat)

  /** What a poll is doing with the message it took last. */
  datatype Stage =
    | Between
    | Asking(attempt: Attempt, characterId: string)
    | Setting(characterId: string)
    | Beginning(characterId: string, connection: string)
    | Typing(characterId: string, connection: string)
    | Telling

  // ---------------------------------------------------------------- topics

  /** The topic whose start an event ends. */
  function Begun(init: seq<Event>, e: Event): Option<string>
    decreases |init|, 1
  {
    match e
    case Started(k, _) => (match OriginOf(init, k) case Some(ToStart(t)) => Some(t) case _ => None)
    case MonitoringStarted(k, _) => (match StageOf(init, k) case Beginning(_, t) => Some(t) case _ => None)
    case _ => None
  }

  function Held(e: Event): Option<seq<HcsMessage>> {
    match e case Started(_, initial) => initial case MonitoringStarted(_, initial) => initial case _ => None
  }

  /** A topic is monitored from the end of a start of it until it is stopped. */
  predicate IsMonitored(run: seq<Event>, t: string)
    decreases |run|, 0
  {
    run != [] &&
    var init, e := run[..|run| - 1], run[|run| - 1];
    Begun(init, e) == Some(t) || (e != Stopped(t) && IsMonitored(init, t))
  }

  /** The event gives the topic up. */
  predicate GivesUp(init: seq<Event>, e: Event, t: string)
    decreases |init|, 1
  {
    e == Stopped(t) && IsMonitored(init, t)
  }

  /** The mark is at what the topic held when it was started, or at the message taken last since. */
  function MarkAfter(run: seq<Event>, t: string): Option<nat>
    decreases |run|, 0
  {
    if run == [] then None
    else
      var init, e := run[..|run| - 1], run[|run| - 1];
      if Begun(init, e) == Some(t) then Some(if Held(e).Some? then Highest(Held(e).value) else 0)
      else if GivesUp(init, e, t) then None
      else
        match e
        case Taken(k, _, _) =>
          if OnTopic(init, k, t) && Ahead(init, k).Some? then Some(Ahead(init, k).value.sequenceNumber) else MarkAfter(init, t)
        case _ => MarkAfter(init, t)
  }

  /** A topic is what it was registered as last, by a caller or as a connection of the character that answered for it. */
  function InfoAfter(run: seq<Event>, t: string): Option<TopicInfo>
    decreases |run|, 0
  {
    if run == [] then None
    else
      var init, e := run[..|run| - 1], run[|run| - 1];
      if GivesUp(init, e, t) then None
      else
        match e
        case TopicRegistered(x, info) => if x == t then Some(info) else InfoAfter(init, t)
        case ConnectionRegistered(k) =>
          (match StageOf(init, k)
           case Typing(character, x) => if x == t then Some(TopicInfo(Connection, character)) else InfoAfter(init, t)
           case _ => InfoAfter(init, t))
        case _ => InfoAfter(init, t)
  }

  /** How many starts have ended; each sets up an interval. */
  function Begins(run: seq<Event>): nat
    decreases |run|, 0
  {
    if run == [] then 0 else Begins(run[..|run| - 1]) + if Begun(run[..|run| - 1], run[|run| - 1]).Some? then 1 else 0
  }

  /** The interval of the topic's last start, until it is given up. */
  function LastInterval(run: seq<Event>, t: string): Option<nat>
    decreases |run|, 0
  {
    if run == [] then None
    else
      var init, e := run[..|run| - 1], run[|run| - 1];
      if Begun(init, e) == Some(t) then Some(Begins(init))
      else if GivesUp(init, e, t) then None
      else LastInterval(init, t)
  }

  /** The topic an interval polls, until giving up the topic clears it, being its last one. */
  function IntervalAfter(run: seq<Event>, i: nat): Option<string>
    decreases |run|, 0
  {
    if run == [] then None
    else
      var init, e := run[..|run| - 1], run[|run| - 1];
      if Begun(init, e).Some? && Begins(init) == i then Begun(init, e)
      else if e.Stopped? && GivesUp(init, e, e.topicId) && LastInterval(init, e.topicId) == Some(i) then None
      else IntervalAfter(init, i)
  }

  // ---------------------------------------------------------------- one callback

  /** How many callbacks have begun: polls, and starts of topics that were not monitored. */
  function Spawned(run: seq<Event>): nat
    decreases |run|, 0
  {
    if run == [] then 0
    else
      var init, e := run[..|run| - 1], run[|run| - 1];
      Spawned(init) + if e.PollTick? || (e.StartRequested? && !IsMonitored(init, e.topicId)) then 1 else 0
  }

  function OriginOf(run: seq<Event>, k: nat): Option<Origin>
    decreases |run|, 0
  {
    if run == [] then None
    else
      var init, e := run[..|run| - 1], run[|run| - 1];
      if Spawned(init) != k then OriginOf(init, k)
      else
        match e
        case StartRequested(t) => if IsMonitored(init, t) then OriginOf(init, k) else Some(ToStart(t))
        case PollTick(i) =>
          (match IntervalAfter(init, i)
           case Some(t) => Some(ToPoll(t, if MarkAfter(init, t).Some? then MarkAfter(init, t).value else 0))
           case None => OriginOf(init, k))
        case _ => OriginOf(init, k)
  }

  predicate OnTopic(run: seq<Event>, k: nat, t: string)
    decreases |run|, 1
  {
    match OriginOf(run, k) case Some(ToPoll(x, _)) => x == t case _ => false
  }

  predicate IsInboundAfter(run: seq<Event>, t: string)
    decreases |run|, 1
  {
    InfoAfter(run, t).Some? && InfoAfter(run, t).value.kind == Inbound
  }

  /** What the poll set out to handle when its batch arrived. */
  function Chosen(run: seq<Event>, k: nat): Option<seq<HcsMessage>>
    decreases |run|, 0
  {
    if run == [] then None
    else
      var init, e := run[..|run| - 1], run[|run| - 1];
      match e
      case Fetched(j, batch) =>
        if j != k then Chosen(init, k)
        else (match OriginOf(init, k)
              case Some(ToPoll(t, from)) => Some(Plan(from, IsInboundAfter(init, t), batch))
              case _ => None)
      case _ => Chosen(init, k)
  }

  /** How many messages of it the poll has taken. */
  function Takes(run: seq<Event>, k: nat): nat {
    if run == [] then 0
    else Takes(run[..|run| - 1], k) + if run[|run| - 1].Taken? && run[|run| - 1].task == k then 1 else 0
  }

  function Ahead(run: seq<Event>, k: nat): Option<HcsMessage>
    decreases |run|, 1
  {
    if Chosen(run, k).Some? && Takes(run, k) < |Chosen(run, k).value| then Some(Chosen(run, k).value[Takes(run, k)]) else None
  }

  function Current(run: seq<Event>, k: nat): Option<HcsMessage>
    decreases |run|, 1
  {
    if Chosen(run, k).Some? && 0 < Takes(run, k) <= |Chosen(run, k).value| then Some(Chosen(run, k).value[Takes(run, k) - 1]) else None
  }

  function User(m: HcsMessage): string {
    if m.payload == None then "" else m.payload.value.userId
  }

  /** The time a request gives, and the time at which it is handled if it gives none. */
  function Time(m: HcsMessage, now: nat): nat {
    if m.payload == None || m.payload.value.timestamp == 0 then now else m.payload.value.timestamp
  }

  /** The attempts made so far: requests whose agent was found with its credentials. */
  function Attempts(run: seq<Event>): seq<Attempt>
    decreases |run|, 0
  {
    if run == [] then []
    else
      var init, e := run[..|run| - 1], run[|run| - 1];
      match e
      case AgentFound(k, credentials) =>
        (match StageOf(init, k)
         case Asking(a, _) => if credentials then Attempts(init) + [a] else Attempts(init)
         case _ => Attempts(init))
      case _ => Attempts(init)
  }

  /**
   * The message calls for an attempt: it is a connection request of the standard with a number and data, on an inbound topic
   * of a character; somebody asks, by account or by name; the same request was not attempted before on any topic; and it is
   * later than the last attempt on this one.
   */
  predicate CallsFor(run: seq<Event>, t: string, m: HcsMessage, now: nat, account: string): (calls: bool)
    ensures calls ==> InfoAfter(run, t).Some?
    decreases |run|, 2
  {
    && IsInboundAfter(run, t) && InfoAfter(run, t).value.characterId != ""
    && m.op == ConnectionRequest && m.isHcs10 && m.sequenceNumber != 0 && m.data != ""
    && (if m.operatorId == "" then User(m) != "" else account != "")
    && (forall a <- Attempts(run) :: a.request != (m.sequenceNumber, User(m)))
    && Time(m, now) > LastOn(Attempts(run), t)
  }

  /** The time of the last attempt on a topic. */
  function LastOn(attempts: seq<Attempt>, t: string): nat {
    if attempts == [] then 0
    else if attempts[|attempts| - 1].topicId == t then attempts[|attempts| - 1].timestamp
    else LastOn(attempts[..|attempts| - 1], t)
  }

  function StageOf(run: seq<Event>, k: nat): Stage
    decreases |run|, 0
  {
    if run == [] then Between
    else
      var init, e := run[..|run| - 1], run[|run| - 1];
      var before := StageOf(init, k);
      match e
      case Taken(j, now, account) =>
        if j != k then before
        else
          (match OriginOf(init, k)
           case Some(ToPoll(t, _)) =>
             if Ahead(init, k).Some? && CallsFor(init, t, Ahead(init, k).value, now, account)
             then var m := Ahead(init, k).value;
                  Asking(Attempt(t, (m.sequenceNumber, User(m)), Time(m, now)), InfoAfter(init, t).value.characterId)
             else Telling
           case _ => Telling)
      case AgentFound(j, credentials) =>
        if j == k && before.Asking? then if credentials then Setting(before.characterId) else Telling else before
      case TopicOpened(j, t) =>
        if j == k && before.Setting?
        then if IsMonitored(init, t) then Typing(before.characterId, t) else Beginning(before.characterId, t) else before
      case MonitoringStarted(j, _) => if j == k && before.Beginning? then Typing(before.characterId, before.connection) else before
      case ConnectionRegistered(j) => if j == k && before.Typing? then Setting(before.characterId) else before
      case Connected(j) => if j == k then Telling else before
      case Emitted(j) => if j == k then Between else before
      case _ => before
  }

  /** The callback has ended: its topic is monitored, nothing was read or chosen, or the listeners know of all of it. */
  predicate Ended(run: seq<Event>, k: nat) {
    run != [] &&
    var init, e := run[..|run| - 1], run[|run| - 1];
    Ended(init, k) ||
    match e
    case Started(j, _) => j == k
    case FetchFailed(j) => j == k
    case Fetched(j, _) => j == k && Chosen(run, k) == Some([])
    case Emitted(j) => j == k && Ahead(init, k).None?
    case _ => false
  }

  /** Where a callback is that began for something, chose messages, took so many of them, and is at a stage. */
  function Place(origin: Origin, chosen: Option<seq<HcsMessage>>, takes: nat, stage: Stage): Option<Task> {
    match origin
    case ToStart(t) => Some(Starting(t))
    case ToPoll(t, from) =>
      if chosen.None? then Some(Fetching(t, from))
      else if takes > |chosen.value| then None
      else if stage == Between then Some(Taking(t, chosen.value[takes..]))
      else if takes == 0 then None
      else
        var rest, m := chosen.value[takes..], chosen.value[takes - 1];
        match stage
        case Asking(a, character) => Some(Looking(t, rest, m, a, character))
        case Setting(character) => Some(Connecting(t, rest, m, character))
        case Beginning(character, x) => Some(Opening(t, rest, m, character, x))
        case Typing(character, x) => Some(Registering(t, rest, m, character, x))
        case _ => Some(Emitting(t, rest, m))
  }

  /** Where a callback is, if it is still there. */
  function Callback(run: seq<Event>, k: nat): Option<Task> {
    if Ended(run, k) || OriginOf(run, k).None? then None
    else Place(OriginOf(run, k).value, Chosen(run, k), Takes(run, k), StageOf(run, k))
  }

  /** What the listeners were told. */
  function Told(run: seq<Event>): seq<(string, HcsMessage)> {
    if run == [] then []
    else
      var init, e := run[..|run| - 1], run[|run| - 1];
      match e
      case Emitted(k) =>
        (match OriginOf(init, k)
         case Some(ToPoll(t, _)) => if Current(init, k).Some? then Told(init) + [(t, Current(init, k).value)] else Told(init)
         case _ => Told(init))
      case _ => Told(init)
  }

  // ---------------------------------------------------------------- a state is what its run tells

  ghost predicate TopicsTold(topics: Topics, run: seq<Event>) {
    && topics.nextInterval == Begins(run)
    && (forall t :: t in topics.monitored <==> IsMonitored(run, t))
    && (forall t :: Lookup(topics.marks, t) == MarkAfter(run, t))
    && (forall t :: Lookup(topics.info, t) == InfoAfter(run, t))
    && (forall t :: Lookup(topics.pollingIntervals, t) == LastInterval(run, t))
    && (forall i: nat :: Lookup(topics.intervals, i) == IntervalAfter(run, i))
  }

  ghost predicate RecordsTold(r: Records, run: seq<Event>) {
    && r.attempted == Attempts(run)
    && (forall q :: q in r.processedRequests <==> exists a :: a in r.attempted && a.request == q)
    && (forall t :: LastTime(r, t) == LastOn(r.attempted, t))
  }

  ghost predicate Unbegun(run: seq<Event>, k: nat) {
    OriginOf(run, k).None? && Chosen(run, k).None? && !Ended(run, k)
  }

  ghost predicate TasksTold(s: State, run: seq<Event>) {
    && s.nextTask == Spawned(run)
    && (forall k: nat :: Lookup(s.tasks, k) == Callback(run, k))
    && (forall k: nat :: Spawned(run) <= k ==> Unbegun(run, k))
    && (forall k: nat :: Chosen(run, k).None? ==> Takes(run, k) == 0 && StageOf(run, k) == Between)
  }

  // ---------------------------------------------------------------- one event

  /** The run is one event longer. */
  predicate IsLonger(init: seq<Event>, e: Event, run: seq<Event>) {
    run == init + [e] && run[..|run| - 1] == init
  }

  /** The callback an event runs. */
  function Runs(e: Event): Option<nat> {
    match e
    case Started(k, _) => Some(k)
    case Fetched(k, _) => Some(k)
    case FetchFailed(k) => Some(k)
    case Taken(k, _, _) => Some(k)
    case AgentFound(k, _) => Some(k)
    case TopicOpened(k, _) => Some(k)
    case MonitoringStarted(k, _) => Some(k)
    case ConnectionRegistered(k) => Some(k)
    case Connected(k) => Some(k)
    case Emitted(k) => Some(k)
    case _ => None
  }

  lemma TaskIs(s: State, run: seq<Event>, k: nat)
    requires TasksTold(s, run) && k in s.tasks
    ensures Callback(run, k) == Some(s.tasks[k]) && k < Spawned(run)
  {
    assert Lookup(s.tasks, k) == Callback(run, k);
    assert Spawned(run) <= k ==> Unbegun(run, k);
  }

  lemma BegunIs(s: State, init: seq<Event>, e: Event)
    requires Enabled(s, e) && TasksTold(s, init)
    ensures Begun(init, e) == match e
                              case Started(k, _) => Some(s.tasks[k].topicId)
                              case MonitoringStarted(k, _) => Some(s.tasks[k].connection)
                              case _ => None
  {
    if Runs(e).Some? { TaskIs(s, init, Runs(e).value); }
  }

  lemma TakenIs(s: State, init: seq<Event>, k: nat)
    requires TasksTold(s, init) && k in s.tasks && s.tasks[k].Taking? && s.tasks[k].queue != []
    ensures Ahead(init, k) == Some(s.tasks[k].queue[0]) && forall t :: OnTopic(init, k, t) <==> t == s.tasks[k].topicId
  {
    TaskIs(s, init, k);
    TakingMeans(OriginOf(init, k).value, Chosen(init, k), Takes(init, k), StageOf(init, k), s.tasks[k].topicId, s.tasks[k].queue);
  }

  lemma MarkStep(s: State, init: seq<Event>, e: Event, run: seq<Event>, t: string)
    requires IsLonger(init, e, run) && Enabled(s, e) && TasksTold(s, init) && TopicsTold(s.topics, init)
    ensures Lookup(NextTopics(s, e).marks, t) == MarkAfter(run, t)
  {
    assert Lookup(s.topics.marks, t) == MarkAfter(init, t);
    BegunIs(s, init, e);
    if e.Taken? { TakenIs(s, init, e.task); }
  }

  lemma InfoStep(s: State, init: seq<Event>, e: Event, run: seq<Event>, t: string)
    requires IsLonger(init, e, run) && Enabled(s, e) && TasksTold(s, init) && TopicsTold(s.topics, init)
    ensures Lookup(NextTopics(s, e).info, t) == InfoAfter(run, t)
  {
    assert Lookup(s.topics.info, t) == InfoAfter(init, t);
    if e.ConnectionRegistered? { TaskIs(s, init, e.task); }
  }

  lemma MonitoredStep(s: State, init: seq<Event>, e: Event, run: seq<Event>, t: string)
    requires IsLonger(init, e, run) && Enabled(s, e) && TasksTold(s, init) && TopicsTold(s.topics, init)
    ensures t in NextTopics(s, e).monitored <==> IsMonitored(run, t)
  {
    BegunIs(s, init, e);
  }

  lemma LastIntervalStep(s: State, init: seq<Event>, e: Event, run: seq<Event>, t: string)
    requires IsLonger(init, e, run) && Enabled(s, e) && TasksTold(s, init) && TopicsTold(s.topics, init)
    ensures Lookup(NextTopics(s, e).pollingIntervals, t) == LastInterval(run, t)
  {
    assert Lookup(s.topics.pollingIntervals, t) == LastInterval(init, t);
    BegunIs(s, init, e);
  }

  lemma IntervalStep(s: State, init: seq<Event>, e: Event, run: seq<Event>, i: nat)
    requires IsLonger(init, e, run) && Enabled(s, e) && TasksTold(s, init) && TopicsTold(s.topics, init)
    ensures Lookup(NextTopics(s, e).intervals, i) == IntervalAfter(run, i) && NextTopics(s, e).nextInterval == Begins(run)
  {
    assert Lookup(s.topics.intervals, i) == IntervalAfter(init, i);
    BegunIs(s, init, e);
    if e.Stopped? { assert Lookup(s.topics.pollingIntervals, e.topicId) == LastInterval(init, e.topicId); }
  }

  lemma TopicsStep(s: State, init: seq<Event>, e: Event, run: seq<Event>)
    requires IsLonger(init, e, run) && Enabled(s, e) && TasksTold(s, init) && TopicsTold(s.topics, init)
    ensures TopicsTold(NextTopics(s, e), run)
  {
    forall t ensures t in NextTopics(s, e).monitored <==> IsMonitored(run, t) { MonitoredStep(s, init, e, run, t); }
    forall t ensures Lookup(NextTopics(s, e).marks, t) == MarkAfter(run, t) { MarkStep(s, init, e, run, t); }
    forall t ensures Lookup(NextTopics(s, e).info, t) == InfoAfter(run, t) { InfoStep(s, init, e, run, t); }
    forall t ensures Lookup(NextTopics(s, e).pollingIntervals, t) == LastInterval(run, t) { LastIntervalStep(s, init, e, run, t); }
    forall i: nat ensures Lookup(NextTopics(s, e).intervals, i) == IntervalAfter(run, i) { IntervalStep(s, init, e, run, i); }
    IntervalStep(s, init, e, run, 0);
  }

  // ---------------------------------------------------------------- what is attempted

  lemma RequestsTold(before: seq<Attempt>, a: Attempt, q: (nat, string))
    ensures (exists x :: x in before + [a] && x.request == q) <==> (exists x :: x in before && x.request == q) || q == a.request
  {
    assert a in before + [a];
    if x :| x in before && x.request == q { assert x in before + [a]; }
  }

  lemma RecordTold(r: Records, a: Attempt, run: seq<Event>, longer: seq<Event>)
    requires RecordsTold(r, run) && Attempts(longer) == Attempts(run) + [a]
    ensures RecordsTold(Record(r, a), longer)
  {
    var n := Record(r, a);
    assert n.attempted[|r.attempted|] == a && n.attempted[..|r.attempted|] == r.attempted;
    forall q ensures q in n.processedRequests <==> exists x :: x in n.attempted && x.request == q { RequestsTold(r.attempted, a, q); }
  }

  lemma RecordsStep(s: State, init: seq<Event>, e: Event, run: seq<Event>)
    requires IsLonger(init, e, run) && Enabled(s, e) && TasksTold(s, init) && RecordsTold(s.records, init)
    ensures RecordsTold(NextRecords(s, e), run)
  {
    if e.AgentFound? {
      TaskIs(s, init, e.task);
      if e.credentials { RecordTold(s.records, s.tasks[e.task].attempt, init, run); }
    }
  }

  lemma RequestNewIff(r: Records, run: seq<Event>, q: (nat, string))
    requires RecordsTold(r, run)
    ensures q !in r.processedRequests <==> forall x <- Attempts(run) :: x.request != q
  {
  }

  lemma IsNewIff(r: Records, run: seq<Event>, a: Attempt)
    requires RecordsTold(r, run)
    ensures IsNew(r, a) <==> (forall x <- Attempts(run) :: x.request != a.request) && a.timestamp > LastOn(Attempts(run), a.topicId)
  {
    RequestNewIff(r, run, a.request);
  }

  /** What the source checks, one thing after the other, is what calls for an attempt. */
  lemma CallsForIff(s: State, run: seq<Event>, task: Task, now: nat, account: string)
    requires TopicsTold(s.topics, run) && RecordsTold(s.records, run) && task.Taking? && task.queue != []
    ensures var t, m := task.topicId, task.queue[0];
            Take(s, task, now, account)
            == if CallsFor(run, t, m, now, account)
               then Looking(t, task.queue[1..], m, Attempt(t, (m.sequenceNumber, User(m)), Time(m, now)), InfoAfter(run, t).value.characterId)
               else Emitting(t, task.queue[1..], m)
  {
    var t, m := task.topicId, task.queue[0];
    assert Lookup(s.topics.info, t) == InfoAfter(run, t);
    IsNewIff(s.records, run, Attempt(t, (m.sequenceNumber, User(m)), Time(m, now)));
  }

  // ---------------------------------------------------------------- callbacks

  predicate StartsCallback(init: seq<Event>, e: Event) {
    e.PollTick? || (e.StartRequested? && !IsMonitored(init, e.topicId))
  }

  lemma OtherTask(s: State, init: seq<Event>, e: Event, k: nat)
    requires Enabled(s, e) && TopicsTold(s.topics, init) && Runs(e) != Some(k) && (StartsCallback(init, e) ==> k != s.nextTask)
    ensures Lookup(NextTasks(s, e), k) == Lookup(s.tasks, k)
  {
  }

  lemma OtherParts(init: seq<Event>, e: Event, run: seq<Event>, k: nat)
    requires IsLonger(init, e, run) && Runs(e) != Some(k) && (StartsCallback(init, e) ==> k != Spawned(init))
    ensures OriginOf(run, k) == OriginOf(init, k) && Chosen(run, k) == Chosen(init, k) && Takes(run, k) == Takes(init, k)
    ensures StageOf(run, k) == StageOf(init, k) && Ended(run, k) == Ended(init, k)
  {
  }

  lemma StartedParts(s: State, init: seq<Event>, e: Event, run: seq<Event>, k: nat)
    requires IsLonger(init, e, run) && Enabled(s, e) && TopicsTold(s.topics, init) && StartsCallback(init, e) && k == Spawned(init)
    ensures OriginOf(run, k) == Some(if e.StartRequested? then ToStart(e.topicId)
                                     else ToPoll(s.topics.intervals[e.interval], Mark(s.topics, s.topics.intervals[e.interval])))
    ensures Chosen(run, k) == Chosen(init, k) && Takes(run, k) == Takes(init, k)
    ensures StageOf(run, k) == StageOf(init, k) && Ended(run, k) == Ended(init, k)
  {
    if e.PollTick? {
      assert Lookup(s.topics.intervals, e.interval) == IntervalAfter(init, e.interval);
      var t := s.topics.intervals[e.interval];
      assert Lookup(s.topics.marks, t) == MarkAfter(init, t);
    }
  }

  lemma NewTask(s: State, init: seq<Event>, e: Event, run: seq<Event>, k: nat)
    requires IsLonger(init, e, run) && Enabled(s, e) && TasksTold(s, init) && TopicsTold(s.topics, init)
    requires StartsCallback(init, e) && k == Spawned(init)
    ensures Lookup(NextTasks(s, e), k) == Callback(run, k) && !Ended(run, k)
    ensures Chosen(run, k).None? && Takes(run, k) == 0 && StageOf(run, k) == Between
  {
    assert Unbegun(init, k);
    StartedParts(s, init, e, run, k);
  }

  lemma EndedTask(s: State, init: seq<Event>, e: Event, run: seq<Event>, k: nat)
    requires IsLonger(init, e, run) && Enabled(s, e) && Runs(e) == Some(k) && (e.Started? || e.FetchFailed?)
    ensures Lookup(NextTasks(s, e), k) == Callback(run, k)
    ensures Chosen(run, k) == Chosen(init, k) && Takes(run, k) == Takes(init, k) && StageOf(run, k) == StageOf(init, k)
  {
  }

  lemma FetchingMeans(origin: Origin, chosen: Option<seq<HcsMessage>>, takes: nat, stage: Stage, t: string, from: nat)
    requires Place(origin, chosen, takes, stage) == Some(Fetching(t, from))
    ensures origin == ToPoll(t, from) && chosen.None?
  {
  }

  lemma InboundIs(topics: Topics, run: seq<Event>, t: string)
    requires TopicsTold(topics, run)
    ensures IsInbound(topics.info, t) <==> IsInboundAfter(run, t)
  {
    assert Lookup(topics.info, t) == InfoAfter(run, t);
  }

  lemma FetchedParts(init: seq<Event>, e: Event, run: seq<Event>, k: nat, t: string, from: nat)
    requires IsLonger(init, e, run) && e.Fetched? && e.task == k && OriginOf(init, k) == Some(ToPoll(t, from)) && !Ended(init, k)
    ensures Chosen(run, k) == Some(Plan(from, IsInboundAfter(init, t), e.batch)) && OriginOf(run, k) == Some(ToPoll(t, from))
    ensures Takes(run, k) == Takes(init, k) && StageOf(run, k) == StageOf(init, k) && (Ended(run, k) <==> Chosen(run, k) == Some([]))
  {
  }

  lemma FetchedTask(s: State, init: seq<Event>, e: Event, run: seq<Event>, k: nat)
    requires IsLonger(init, e, run) && Enabled(s, e) && TasksTold(s, init) && TopicsTold(s.topics, init) && e.Fetched? && e.task == k
    ensures Lookup(NextTasks(s, e), k) == Callback(run, k) && Chosen(run, k).Some?
  {
    TaskIs(s, init, k);
    var t, from := s.tasks[k].topicId, s.tasks[k].from;
    FetchingMeans(OriginOf(init, k).value, Chosen(init, k), Takes(init, k), StageOf(init, k), t, from);
    InboundIs(s.topics, init, t);
    FetchedParts(init, e, run, k, t, from);
    ChosenNext(run, k, t, from, Planned(s, e));
  }

  lemma ChosenNext(run: seq<Event>, k: nat, t: string, from: nat, plan: seq<HcsMessage>)
    requires OriginOf(run, k) == Some(ToPoll(t, from)) && (Ended(run, k) <==> plan == [])
    requires Chosen(run, k) == Some(plan) && Takes(run, k) == 0 && StageOf(run, k) == Between
    ensures Callback(run, k) == if plan == [] then None else Some(Taking(t, plan))
  {
  }

  lemma TakingMeans(origin: Origin, chosen: Option<seq<HcsMessage>>, takes: nat, stage: Stage, t: string, queue: seq<HcsMessage>)
    requires Place(origin, chosen, takes, stage) == Some(Taking(t, queue))
    ensures origin.ToPoll? && origin.topicId == t && chosen.Some? && takes <= |chosen.value| && queue == chosen.value[takes..]
    ensures queue != [] ==> takes < |chosen.value| && queue[0] == chosen.value[takes] && queue[1..] == chosen.value[takes + 1..]
  {
  }

  lemma TakenParts(init: seq<Event>, e: Event, run: seq<Event>, k: nat, t: string, m: HcsMessage)
    requires IsLonger(init, e, run) && e.Taken? && e.task == k && !Ended(init, k) && OnTopic(init, k, t) && Ahead(init, k) == Some(m)
    ensures OriginOf(run, k) == OriginOf(init, k) && Chosen(run, k) == Chosen(init, k) && Takes(run, k) == Takes(init, k) + 1
    ensures !Ended(run, k)
    ensures StageOf(run, k) == if CallsFor(init, t, m, e.now, e.account)
                               then Asking(Attempt(t, (m.sequenceNumber, User(m)), Time(m, e.now)), InfoAfter(init, t).value.characterId)
                               else Telling
  {
  }

  lemma TakenTask(s: State, init: seq<Event>, e: Event, run: seq<Event>, k: nat)
    requires IsLonger(init, e, run) && Enabled(s, e) && TasksTold(s, init) && TopicsTold(s.topics, init) && RecordsTold(s.records, init)
    requires e.Taken? && e.task == k
    ensures Lookup(NextTasks(s, e), k) == Callback(run, k) && Chosen(run, k).Some?
  {
    TaskIs(s, init, k);
    var t, queue := s.tasks[k].topicId, s.tasks[k].queue;
    TakingMeans(OriginOf(init, k).value, Chosen(init, k), Takes(init, k), StageOf(init, k), t, queue);
    TakenParts(init, e, run, k, t, queue[0]);
    CallsForIff(s, init, s.tasks[k], e.now, e.account);
  }

  predicate Handles(e: Event) {
    e.AgentFound? || e.TopicOpened? || e.MonitoringStarted? || e.ConnectionRegistered? || e.Connected?
  }

  lemma HandlingParts(init: seq<Event>, e: Event, run: seq<Event>, k: nat)
    requires IsLonger(init, e, run) && Runs(e) == Some(k) && Handles(e)
    ensures OriginOf(run, k) == OriginOf(init, k) && Chosen(run, k) == Chosen(init, k) && Takes(run, k) == Takes(init, k)
    ensures Ended(run, k) == Ended(init, k)
  {
  }

  lemma HandlingTask(s: State, init: seq<Event>, e: Event, run: seq<Event>, k: nat)
    requires IsLonger(init, e, run) && Enabled(s, e) && TasksTold(s, init) && TopicsTold(s.topics, init) && Runs(e) == Some(k) && Handles(e)
    ensures Lookup(NextTasks(s, e), k) == Callback(run, k) && Chosen(run, k).Some?
  {
    TaskIs(s, init, k);
    HandlingParts(init, e, run, k);
  }

  lemma EmittingMeans(origin: Origin, chosen: Option<seq<HcsMessage>>, takes: nat, stage: Stage, t: string, rest: seq<HcsMessage>,
                      m: HcsMessage)
    requires Place(origin, chosen, takes, stage) == Some(Emitting(t, rest, m))
    ensures origin.ToPoll? && origin.topicId == t && chosen.Some? && 0 < takes <= |chosen.value|
    ensures m == chosen.value[takes - 1] && rest == chosen.value[takes..] && (takes == |chosen.value| <==> rest == [])
  {
  }

  lemma EmittedParts(init: seq<Event>, e: Event, run: seq<Event>, k: nat)
    requires IsLonger(init, e, run) && e == Emitted(k) && !Ended(init, k)
    ensures OriginOf(run, k) == OriginOf(init, k) && Chosen(run, k) == Chosen(init, k) && Takes(run, k) == Takes(init, k)
    ensures StageOf(run, k) == Between && (Ended(run, k) <==> Ahead(init, k).None?)
  {
  }

  lemma EmittedTask(s: State, init: seq<Event>, e: Event, run: seq<Event>, k: nat)
    requires IsLonger(init, e, run) && Enabled(s, e) && TasksTold(s, init) && e == Emitted(k)
    ensures Lookup(NextTasks(s, e), k) == Callback(run, k) && Chosen(run, k).Some?
    ensures OnTopic(init, k, s.tasks[k].topicId) && Current(init, k) == Some(s.tasks[k].message)
  {
    TaskIs(s, init, k);
    var p := s.tasks[k];
    EmittingMeans(OriginOf(init, k).value, Chosen(init, k), Takes(init, k), StageOf(init, k), p.topicId, p.queue, p.message);
    EmittedParts(init, e, run, k);
  }

  lemma OwnStep(s: State, init: seq<Event>, e: Event, run: seq<Event>, k: nat)
    requires IsLonger(init, e, run) && Enabled(s, e) && TasksTold(s, init) && TopicsTold(s.topics, init) && RecordsTold(s.records, init)
    requires Runs(e) == Some(k) && !e.Started? && !e.FetchFailed?
    ensures Lookup(NextTasks(s, e), k) == Callback(run, k) && Chosen(run, k).Some?
  {
    if e.Fetched? {
      FetchedTask(s, init, e, run, k);
    } else if e.Taken? {
      TakenTask(s, init, e, run, k);
    } else if e.Emitted? {
      EmittedTask(s, init, e, run, k);
    } else {
      HandlingTask(s, init, e, run, k);
    }
  }

  lemma NotChosen(s: State, init: seq<Event>, k: nat)
    requires TasksTold(s, init)
    ensures Chosen(init, k).None? ==> Takes(init, k) == 0 && StageOf(init, k) == Between
  {
  }

  lemma TaskStays(s: State, init: seq<Event>, e: Event, run: seq<Event>, k: nat)
    requires IsLonger(init, e, run) && Enabled(s, e) && TasksTold(s, init) && TopicsTold(s.topics, init)
    requires Runs(e) != Some(k) && (StartsCallback(init, e) ==> k != Spawned(init))
    ensures Lookup(NextTasks(s, e), k) == Callback(run, k)
  {
    OtherTask(s, init, e, k);
    OtherParts(init, e, run, k);
    assert Lookup(s.tasks, k) == Callback(init, k);
  }

  lemma TaskStep(s: State, init: seq<Event>, e: Event, run: seq<Event>, k: nat)
    requires IsLonger(init, e, run) && Enabled(s, e) && TasksTold(s, init) && TopicsTold(s.topics, init) && RecordsTold(s.records, init)
    ensures Lookup(NextTasks(s, e), k) == Callback(run, k)
    ensures Chosen(run, k).None? ==> Takes(run, k) == 0 && StageOf(run, k) == Between
  {
    NotChosen(s, init, k);
    if StartsCallback(init, e) && k == Spawned(init) {
      NewTask(s, init, e, run, k);
    } else if Runs(e) != Some(k) {
      TaskStays(s, init, e, run, k);
      OtherParts(init, e, run, k);
    } else if e.Started? || e.FetchFailed? {
      EndedTask(s, init, e, run, k);
    } else {
      OwnStep(s, init, e, run, k);
    }
  }

  lemma UnbegunStep(s: State, init: seq<Event>, e: Event, run: seq<Event>, k: nat)
    requires IsLonger(init, e, run) && Enabled(s, e) && TasksTold(s, init) && TopicsTold(s.topics, init) && Spawned(run) <= k
    ensures Unbegun(run, k)
  {
    if Runs(e) == Some(k) { TaskIs(s, init, k); }
    OtherParts(init, e, run, k);
    assert Unbegun(init, k);
  }

  lemma TasksStep(s: State, init: seq<Event>, e: Event, run: seq<Event>)
    requires IsLonger(init, e, run) && Enabled(s, e) && TasksTold(s, init) && TopicsTold(s.topics, init) && RecordsTold(s.records, init)
    ensures TasksTold(Next(s, e), run)
  {
    forall k: nat
      ensures Lookup(NextTasks(s, e), k) == Callback(run, k)
      ensures Chosen(run, k).None? ==> Takes(run, k) == 0 && StageOf(run, k) == Between
    {
      TaskStep(s, init, e, run, k);
    }
    forall k: nat | Spawned(run) <= k ensures Unbegun(run, k) { UnbegunStep(s, init, e, run, k); }
  }

  lemma ToldStep(s: State, init: seq<Event>, e: Event, run: seq<Event>)
    requires IsLonger(init, e, run) && Enabled(s, e) && TasksTold(s, init) && s.delivered == Told(init)
    ensures Next(s, e).delivered == Told(run)
  {
    if e.Emitted? {
      EmittedTask(s, init, e, run, e.task);
      var m, t := s.tasks[e.task].message, s.tasks[e.task].topicId;
      assert [m][..0] == [] && Tagged([m], t) == [(t, m)];
    }
  }

  // ---------------------------------------------------------------- every run

  ghost predicate AllTold(s: State, run: seq<Event>) {
    TopicsTold(s.topics, run) && RecordsTold(s.records, run) && TasksTold(s, run) && s.delivered == Told(run)
  }

  lemma NothingTold()
    ensures AllTold(INITIAL, [])
  {
  }

  lemma AllStep(s: State, init: seq<Event>, e: Event, run: seq<Event>, n: State)
    requires IsLonger(init, e, run) && Enabled(s, e) && AllTold(s, init) && n == Next(s, e)
    ensures AllTold(n, run)
  {
    TopicsStep(s, init, e, run);
    RecordsStep(s, init, e, run);
    TasksStep(s, init, e, run);
    ToldStep(s, init, e, run);
  }

  lemma {:induction false} ToldAlways(run: seq<Event>)
    requires ValidRun(INITIAL, run)
    ensures AllTold(After(INITIAL, run), run)
    decreases |run|
  {
    if run == [] {
      NothingTold();
    } else {
      var init, e := run[..|run| - 1], run[|run| - 1];
      ToldAlways(init);
      assert run == init + [e];
      AllStep(After(INITIAL, init), init, e, run, After(INITIAL, run));
    }
  }

  /** In every run: what is monitored, with which mark, as what and by which interval. */
  lemma TopicsAreLastSaid(run: seq<Event>, t: string, i: nat)
    requires ValidRun(INITIAL, run)
    ensures var topics := After(INITIAL, run).topics;
            && (t in topics.monitored <==> IsMonitored(run, t))
            && Lookup(topics.marks, t) == MarkAfter(run, t) && Lookup(topics.info, t) == InfoAfter(run, t)
            && Lookup(topics.pollingIntervals, t) == LastInterval(run, t) && Lookup(topics.intervals, i) == IntervalAfter(run, i)
  {
    ToldAlways(run);
  }

  /** In every run: where each callback is with the messages it chose. */
  lemma PollIsWhereItGot(run: seq<Event>, k: nat)
    requires ValidRun(INITIAL, run)
    ensures Lookup(After(INITIAL, run).tasks, k) == Callback(run, k)
  {
    ToldAlways(run);
  }

  /** In every run: a message is taken as a request to attempt exactly if it calls for one, with its topic, number, user and time. */
  lemma AttemptIsCalledFor(run: seq<Event>, k: nat, now: nat, account: string)
    requires ValidRun(INITIAL, run) && Enabled(After(INITIAL, run), Taken(k, now, account))
    ensures var s := After(INITIAL, run);
            var t, m := s.tasks[k].topicId, s.tasks[k].queue[0];
            var after := Next(s, Taken(k, now, account)).tasks[k];
            && (after.Looking? <==> CallsFor(run, t, m, now, account))
            && (after.Looking? ==> after.attempt == Attempt(t, (m.sequenceNumber, User(m)), Time(m, now)))
            && (!after.Looking? ==> after == Emitting(t, s.tasks[k].queue[1..], m))
  {
    ToldAlways(run);
    CallsForIff(After(INITIAL, run), run, After(INITIAL, run).tasks[k], now, account);
  }

  /** In every run: the attempts are those whose agents were found, and the listeners were told of every message handled. */
  lemma AttemptsAndDeliveries(run: seq<Event>)
    requires ValidRun(INITIAL, run)
    ensures After(INITIAL, run).records.attempted == Attempts(run) && After(INITIAL, run).delivered == Told(run)
  {
    ToldAlways(run);
  }
}
