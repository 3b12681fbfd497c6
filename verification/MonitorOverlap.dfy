/**
 * Polls of one topic that overlap. Nothing is lost or made up, but messages can be delivered again and the mark can go back;
 * when exactly is said here.
 */
module MonitorOverlap {
  import opened Common
  import opened Monitor
  import opened MonitorSelection
  import opened MonitorSafety

  // ---------------------------------------------------------------- nothing is lost or made up

  /** How often a message is among some. */
  function Count(messages: seq<HcsMessage>, m: HcsMessage): nat {
    multiset(messages)[m]
  }

  lemma CountConcat(a: seq<HcsMessage>, b: seq<HcsMessage>, m: HcsMessage)
    ensures Count(a + b, m) == Count(a, m) + Count(b, m)
  {
    assert multiset(a + b) == multiset(a) + multiset(b);
  }

  /** How often a task still has to deliver a message on the topic. */
  function InHand(tasks: map<nat, Task>, k: nat, t: string, m: HcsMessage): nat {
    if k in tasks && tasks[k].Polls(t) then Count(tasks[k].Held() + tasks[k].Queue(), m) else 0
  }

  function Pending(tasks: map<nat, Task>, n: nat, t: string, m: HcsMessage): nat {
    if n == 0 then 0 else Pending(tasks, n - 1, t, m) + InHand(tasks, n - 1, t, m)
  }

  lemma {:induction false} PendingSame(before: map<nat, Task>, after: map<nat, Task>, n: nat, t: string, m: HcsMessage)
    requires forall k: nat :: k < n ==> InHand(before, k, t, m) == InHand(after, k, t, m)
    ensures Pending(before, n, t, m) == Pending(after, n, t, m)
  {
    if n > 0 { PendingSame(before, after, n - 1, t, m); }
  }

  lemma {:induction false} PendingChanges(before: map<nat, Task>, after: map<nat, Task>, n: nat, k: nat, t: string, m: HcsMessage)
    requires k < n && forall j: nat :: j < n && j != k ==> InHand(before, j, t, m) == InHand(after, j, t, m)
    ensures Pending(before, n, t, m) + InHand(after, k, t, m) == Pending(after, n, t, m) + InHand(before, k, t, m)
  {
    if k == n - 1 { PendingSame(before, after, n - 1, t, m); } else { PendingChanges(before, after, n - 1, k, t, m); }
  }

  lemma {:induction false} NothingPending(tasks: map<nat, Task>, n: nat, t: string, m: HcsMessage)
    requires NoPoll(tasks, t)
    ensures Pending(tasks, n, t, m) == 0
  {
    if n > 0 { NothingPending(tasks, n - 1, t, m); }
  }

  /** What polls of the topic set out to handle in one event, and in a run. */
  function PlannedOn(s: State, e: Event, t: string): seq<HcsMessage>
    requires Enabled(s, e)
  {
    if e.Fetched? && Own(s, e, t) then Planned(s, e) else []
  }

  function SetOut(s: State, run: seq<Event>, t: string): seq<HcsMessage>
    requires ValidRun(s, run)
  {
    if run == [] then []
    else SetOut(s, run[..|run| - 1], t) + PlannedOn(After(s, run[..|run| - 1]), run[|run| - 1], t)
  }

  /** The task an event runs or spawns. */
  function Touched(s: State, e: Event): nat {
    match e
    case Started(k, _) => k
    case Fetched(k, _) => k
    case FetchFailed(k) => k
    case Taken(k, _, _) => k
    case AgentFound(k, _) => k
    case TopicOpened(k, _) => k
    case MonitoringStarted(k, _) => k
    case ConnectionRegistered(k) => k
    case Connected(k) => k
    case Emitted(k) => k
    case _ => s.nextTask
  }

  lemma OthersAsBefore(s: State, e: Event, j: nat)
    requires Enabled(s, e) && j != Touched(s, e)
    ensures j in NextTasks(s, e) <==> j in s.tasks
    ensures j in s.tasks ==> NextTasks(s, e)[j] == s.tasks[j]
  {
  }

  /** What a task still has to deliver, whatever it is doing. */
  function Rest(task: Task): seq<HcsMessage> {
    task.Held() + task.Queue()
  }

  lemma RestOfTask(tasks: map<nat, Task>, k: nat, t: string, m: HcsMessage)
    requires k in tasks
    ensures InHand(tasks, k, t, m) == if tasks[k].Polls(t) then Count(Rest(tasks[k]), m) else 0
  {
  }

  /** Handling a message, from its checks up to the listeners, leaves the task what it has to deliver. */
  lemma HandlingKeepsRest(s: State, e: Event)
    requires Enabled(s, e)
    requires e.Taken? || e.AgentFound? || e.TopicOpened? || e.MonitoringStarted? || e.ConnectionRegistered? || e.Connected?
    ensures e.task in NextTasks(s, e) && Rest(NextTasks(s, e)[e.task]) == Rest(s.tasks[e.task])
    ensures !NextTasks(s, e)[e.task].Starting? && NextTasks(s, e)[e.task].topicId == s.tasks[e.task].topicId
  {
    if e.Taken? {
      var queue := s.tasks[e.task].queue;
      assert [queue[0]] + queue[1..] == [] + queue;
    }
  }

  lemma IdleInHand(tasks: map<nat, Task>, k: nat, topicId: string, queue: seq<HcsMessage>, t: string, m: HcsMessage)
    ensures InHand(Idle(topicId, queue, tasks, k), k, t, m) == if topicId == t then Count(queue, m) else 0
  {
    assert [] + queue == queue;
  }

  lemma FetchedInHand(s: State, k: nat, batch: seq<HcsMessage>, t: string, m: HcsMessage)
    requires Enabled(s, Fetched(k, batch))
    ensures var e := Fetched(k, batch);
            InHand(NextTasks(s, e), k, t, m) == InHand(s.tasks, k, t, m) + Count(PlannedOn(s, e, t), m)
  {
    IdleInHand(s.tasks, k, s.tasks[k].topicId, Planned(s, Fetched(k, batch)), t, m);
  }

  lemma EmittedInHand(s: State, k: nat, t: string, m: HcsMessage)
    requires Enabled(s, Emitted(k))
    ensures var e := Emitted(k);
            InHand(NextTasks(s, e), k, t, m) + Count(DeliveredOn(s, e, t), m) == InHand(s.tasks, k, t, m)
  {
    var task := s.tasks[k];
    RestOfTask(s.tasks, k, t, m);
    CountConcat([task.message], task.queue, m);
    IdleInHand(s.tasks, k, task.topicId, task.queue, t, m);
  }

  /** An event moves a message from the queue of its task to its hand, from its hand to the listeners, or plans a queue. */
  lemma TouchedInHand(s: State, e: Event, t: string, m: HcsMessage)
    requires Enabled(s, e) && TaskIds(s)
    ensures InHand(NextTasks(s, e), Touched(s, e), t, m) + Count(DeliveredOn(s, e, t), m)
            == InHand(s.tasks, Touched(s, e), t, m) + Count(PlannedOn(s, e, t), m)
  {
    if e.Fetched? {
      FetchedInHand(s, e.task, e.batch, t, m);
    } else if e.Emitted? {
      EmittedInHand(s, e.task, t, m);
    } else {
      SilentInHand(s, e, t, m);
    }
  }

  lemma SilentInHand(s: State, e: Event, t: string, m: HcsMessage)
    requires Enabled(s, e) && TaskIds(s) && !e.Fetched? && !e.Emitted?
    ensures InHand(NextTasks(s, e), Touched(s, e), t, m) == InHand(s.tasks, Touched(s, e), t, m)
  {
    var k := Touched(s, e);
    if e.Taken? || e.AgentFound? || e.TopicOpened? || e.MonitoringStarted? || e.ConnectionRegistered? || e.Connected? {
      HandlingKeepsRest(s, e);
      RestOfTask(s.tasks, k, t, m);
      RestOfTask(NextTasks(s, e), k, t, m);
    } else {
      IdleRest(s, e, k, t, m);
    }
  }

  /** Starting a topic, beginning a poll and a poll that cannot read its topic. */
  lemma IdleRest(s: State, e: Event, k: nat, t: string, m: HcsMessage)
    requires Enabled(s, e) && TaskIds(s) && k == Touched(s, e)
    requires !e.Fetched? && !e.Emitted? && !e.Taken?
    requires !e.AgentFound? && !e.TopicOpened? && !e.MonitoringStarted? && !e.ConnectionRegistered? && !e.Connected?
    ensures InHand(s.tasks, k, t, m) == 0 == InHand(NextTasks(s, e), k, t, m)
  {
  }

  lemma PendingStep(s: State, e: Event, t: string, m: HcsMessage)
    requires Enabled(s, e) && TaskIds(s)
    ensures Pending(NextTasks(s, e), Next(s, e).nextTask, t, m) + Count(DeliveredOn(s, e, t), m)
            == Pending(s.tasks, s.nextTask, t, m) + Count(PlannedOn(s, e, t), m)
  {
    var n, k := Next(s, e).nextTask, Touched(s, e);
    forall j: nat | j != k ensures InHand(NextTasks(s, e), j, t, m) == InHand(s.tasks, j, t, m) { OthersAsBefore(s, e, j); }
    TouchedInHand(s, e, t, m);
    assert Pending(s.tasks, n, t, m) == Pending(s.tasks, s.nextTask, t, m);
    PendingMoves(s.tasks, NextTasks(s, e), n, k, t, m);
  }

  lemma PendingMoves(before: map<nat, Task>, after: map<nat, Task>, n: nat, k: nat, t: string, m: HcsMessage)
    requires forall j: nat :: j != k ==> InHand(before, j, t, m) == InHand(after, j, t, m)
    requires k >= n ==> InHand(before, k, t, m) == InHand(after, k, t, m)
    ensures Pending(before, n, t, m) + InHand(after, k, t, m) == Pending(after, n, t, m) + InHand(before, k, t, m)
  {
    if k < n { PendingChanges(before, after, n, k, t, m); } else { PendingSame(before, after, n, t, m); }
  }

  /**
   * In every run, whatever overlaps: as often as polls of a topic set out to handle a message, its listeners got it or its
   * polls still have it in hand.
   */
  lemma {:induction false} NothingLostOrMadeUp(s: State, run: seq<Event>, t: string, m: HcsMessage)
    requires ValidRun(s, run) && TaskIds(s)
    ensures var n := After(s, run);
            && TaskIds(n)
            && Pending(s.tasks, s.nextTask, t, m) + Count(SetOut(s, run, t), m)
               == Count(Got(s, run, t), m) + Pending(n.tasks, n.nextTask, t, m)
  {
    if run != [] {
      var init, e := run[..|run| - 1], run[|run| - 1];
      NothingLostOrMadeUp(s, init, t, m);
      IdsStay(After(s, init), e);
      PendingStep(After(s, init), e, t, m);
      CountConcat(SetOut(s, init, t), PlannedOn(After(s, init), e, t), m);
      CountConcat(Got(s, init, t), DeliveredOn(After(s, init), e, t), m);
    }
  }

  // ---------------------------------------------------------------- delivered again

  predicate Distinct(messages: seq<HcsMessage>) {
    forall i, j :: 0 <= i < j < |messages| ==> messages[i] != messages[j]
  }

  lemma {:induction false} DistinctCounts(messages: seq<HcsMessage>)
    ensures Distinct(messages) <==> forall m :: Count(messages, m) <= 1
  {
    if messages != [] {
      var init, last := messages[..|messages| - 1], messages[|messages| - 1];
      DistinctCounts(init);
      assert messages == init + [last];
      DistinctMore(init, last);
      forall m ensures Count(messages, m) == Count(init, m) + Count([last], m) { CountConcat(init, [last], m); }
      assert Count([last], last) == 1 && (last in init <==> Count(init, last) > 0);
      assert forall m :: m != last ==> Count([last], m) == 0;
    }
  }

  lemma DistinctMore(init: seq<HcsMessage>, last: HcsMessage)
    ensures Distinct(init + [last]) <==> Distinct(init) && last !in init
  {
    var all := init + [last];
    assert forall i :: 0 <= i < |init| ==> all[i] == init[i];
    if last in init {
      var i :| 0 <= i < |init| && init[i] == last;
      assert all[i] == all[|init|];
    }
    if !Distinct(init) {
      var i, j :| 0 <= i < j < |init| && init[i] == init[j];
      assert all[i] == all[j];
    }
  }

  lemma {:induction false} DistinctConcat(planned: seq<HcsMessage>, plan: seq<HcsMessage>)
    requires Distinct(plan)
    ensures Distinct(planned + plan) <==> Distinct(planned) && !exists m :: m in plan && m in planned
  {
    if plan == [] {
      assert planned + plan == planned;
    } else {
      var init, last := plan[..|plan| - 1], plan[|plan| - 1];
      assert plan == init + [last];
      DistinctConcat(planned, init);
      DistinctMore(init, last);
      DistinctMore(planned + init, last);
      Assoc(planned, init, [last]);
    }
  }

  predicate SeenAgain(m: HcsMessage, from: nat, inbound: bool, batch: seq<HcsMessage>, top: nat, planned: seq<HcsMessage>) {
    if m.op.ConnectionRequest? then !Superseded(from, inbound, batch, m) && m in planned else m.sequenceNumber <= top
  }

  /**
   * A poll that read the mark `from` sees something again: a message of its batch above that mark that polls have seen, or,
   * if it handles only the newest connection request, a request that polls have already set out to handle.
   */
  predicate Again(from: nat, inbound: bool, batch: seq<HcsMessage>, top: nat, planned: seq<HcsMessage>) {
    exists m :: m in batch && m.sequenceNumber > from && SeenAgain(m, from, inbound, batch, top, planned)
  }

  /** What was set out on, when polls have seen the log up to top: everything but superseded connection requests. */
  ghost predicate Seen(log: seq<HcsMessage>, start: nat, top: nat, planned: seq<HcsMessage>) {
    && start <= top
    && (forall m <- planned :: m in log && start < m.sequenceNumber <= top)
    && (forall m <- log :: start < m.sequenceNumber <= top && !m.op.ConnectionRequest? ==> m in planned)
    && (top > start ==> exists m :: m in log && m.sequenceNumber == top)
  }

  lemma PlanSeesBatch(log: seq<HcsMessage>, top: nat, from: nat, inbound: bool, batch: seq<HcsMessage>, plan: seq<HcsMessage>, m: HcsMessage)
    requires Ascending(log) && Faithful(batch, log) && IsPlan(from, inbound, batch, plan) && m in log && from <= top
    requires top < m.sequenceNumber <= Highest(batch) && !Superseded(from, inbound, batch, m)
    ensures m in plan
  {
    UpToHighest(log, batch, m);
  }

  lemma SeenMembers(log: seq<HcsMessage>, start: nat, top: nat, planned: seq<HcsMessage>, from: nat, inbound: bool,
                    batch: seq<HcsMessage>, plan: seq<HcsMessage>)
    requires Faithful(batch, log) && Seen(log, start, top, planned) && IsPlan(from, inbound, batch, plan) && start <= from
    ensures forall m <- planned + plan :: m in log && start < m.sequenceNumber <= Max(Highest(batch), top)
  {
    FaithfulInLog(log, batch);
  }

  lemma SeenPoll(log: seq<HcsMessage>, start: nat, top: nat, planned: seq<HcsMessage>, from: nat, inbound: bool,
                 batch: seq<HcsMessage>, plan: seq<HcsMessage>)
    requires Ascending(log) && Faithful(batch, log) && Seen(log, start, top, planned)
    requires IsPlan(from, inbound, batch, plan) && start <= from <= top
    ensures Seen(log, start, Max(Highest(batch), top), planned + plan)
  {
    SeenMembers(log, start, top, planned, from, inbound, batch, plan);
    FaithfulInLog(log, batch);
    forall m | m in log && start < m.sequenceNumber <= Max(Highest(batch), top) && !m.op.ConnectionRequest?
      ensures m in planned + plan
    {
      if m.sequenceNumber > top { PlanSeesBatch(log, top, from, inbound, batch, plan, m); }
    }
  }

  /** The poll sets out on something polls have set out on before exactly if it sees something again. */
  lemma AgainIff(log: seq<HcsMessage>, start: nat, top: nat, planned: seq<HcsMessage>, from: nat, inbound: bool,
                 batch: seq<HcsMessage>, plan: seq<HcsMessage>)
    requires Faithful(batch, log) && Seen(log, start, top, planned) && IsPlan(from, inbound, batch, plan) && start <= from
    ensures (exists m :: m in plan && m in planned) <==> Again(from, inbound, batch, top, planned)
  {
    FaithfulInLog(log, batch);
    forall m | m in batch && m.sequenceNumber > from ensures SeenAgain(m, from, inbound, batch, top, planned) <==> m in plan && m in planned {
    }
    if m :| m in plan && m in planned {
      assert m in batch && m.sequenceNumber > from;
    }
  }

  // ---------------------------------------------------------------- marks and polls of a topic

  /** The mark, the marks its polls have read and what they still have to take are not below the mark it started from. */
  ghost predicate AboveStart(s: State, t: string, start: nat) {
    && Steady(s, t) && TaskIds(s) && start <= s.topics.marks[t]
    && forall k <- s.tasks :: s.tasks[k].Polls(t) ==>
         (s.tasks[k].Fetching? ==> start <= s.tasks[k].from) && forall m <- s.tasks[k].Queue() :: start < m.sequenceNumber
  }

  /** No mark is above what polls have seen. */
  ghost predicate BelowTop(s: State, t: string, top: nat) {
    && t in s.topics.marks && s.topics.marks[t] <= top
    && forall k <- s.tasks :: s.tasks[k].Polls(t) ==>
         (s.tasks[k].Fetching? ==> s.tasks[k].from <= top) && forall m <- s.tasks[k].Queue() :: m.sequenceNumber <= top
  }

  /** The queue of a poll after an event: what it planned, or what it had before. */
  lemma QueueAfter(s: State, e: Event, t: string, k: nat)
    requires Enabled(s, e) && k in NextTasks(s, e) && NextTasks(s, e)[k].Polls(t)
    ensures var task := NextTasks(s, e)[k];
            if e.PollTick? && k == s.nextTask then task == Fetching(t, Mark(s.topics, t))
            else k in s.tasks && s.tasks[k].Polls(t)
                 && (task.Fetching? ==> task == s.tasks[k])
                 && task.Queue() == if e.Fetched? && k == e.task then Planned(s, e)
                                    else if e.Taken? && k == e.task then s.tasks[k].queue[1..]
                                    else s.tasks[k].Queue()
  {
  }

  lemma MarkAfter(s: State, e: Event, t: string)
    requires Enabled(s, e) && Steady(s, t) && TaskIds(s) && !(e.Stopped? && e.topicId == t)
    ensures t in NextTopics(s, e).marks
    ensures NextTopics(s, e).marks[t] == if e.Taken? && Own(s, e, t) then s.tasks[e.task].queue[0].sequenceNumber else s.topics.marks[t]
  {
  }

  lemma PlanBetween(s: State, e: Event, t: string, log: seq<HcsMessage>, m: HcsMessage)
    requires Enabled(s, e) && e.Fetched? && Own(s, e, t) && Follows(s, e, t, log) && m in Planned(s, e)
    ensures s.tasks[e.task].from < m.sequenceNumber <= Highest(e.batch) && m in e.batch
  {
    PlanIsPlan(s.tasks[e.task].from, IsInbound(s.topics.info, t), e.batch);
  }

  lemma AboveStep(s: State, e: Event, t: string, start: nat, log: seq<HcsMessage>)
    requires Enabled(s, e) && AboveStart(s, t, start) && Follows(s, e, t, log)
    ensures AboveStart(Next(s, e), t, start)
  {
    SteadyStays(s, e, t);
    IdsStay(s, e);
    MarkAfter(s, e, t);
    forall k | k in NextTasks(s, e) && NextTasks(s, e)[k].Polls(t)
      ensures NextTasks(s, e)[k].Fetching? ==> start <= NextTasks(s, e)[k].from
      ensures forall m <- NextTasks(s, e)[k].Queue() :: start < m.sequenceNumber
    {
      QueueAfter(s, e, t, k);
      if e.Fetched? && k == e.task {
        forall m | m in Planned(s, e) ensures start < m.sequenceNumber { PlanBetween(s, e, t, log, m); }
      }
    }
  }

  lemma BelowStep(s: State, e: Event, t: string, top: nat, log: seq<HcsMessage>)
    requires Enabled(s, e) && Steady(s, t) && TaskIds(s) && BelowTop(s, t, top) && Follows(s, e, t, log)
    ensures BelowTop(Next(s, e), t, TopAfter(s, e, t, top))
  {
    MarkAfter(s, e, t);
    forall k | k in NextTasks(s, e) && NextTasks(s, e)[k].Polls(t)
      ensures NextTasks(s, e)[k].Fetching? ==> NextTasks(s, e)[k].from <= TopAfter(s, e, t, top)
      ensures forall m <- NextTasks(s, e)[k].Queue() :: m.sequenceNumber <= TopAfter(s, e, t, top)
    {
      QueueAfter(s, e, t, k);
      if e.Fetched? && k == e.task {
        forall m | m in Planned(s, e) ensures m.sequenceNumber <= Highest(e.batch) { PlanBetween(s, e, t, log, m); }
      }
    }
  }

  lemma SeenStep(s: State, e: Event, t: string, log: seq<HcsMessage>, start: nat, top: nat, planned: seq<HcsMessage>)
    requires Enabled(s, e) && Ascending(log) && Follows(s, e, t, log)
    requires AboveStart(s, t, start) && BelowTop(s, t, top) && Seen(log, start, top, planned)
    ensures Seen(log, start, TopAfter(s, e, t, top), planned + PlannedOn(s, e, t))
  {
    if e.Fetched? && Own(s, e, t) {
      var from, inbound := s.tasks[e.task].from, IsInbound(s.topics.info, t);
      PlanIsPlan(from, inbound, e.batch);
      SeenPoll(log, start, top, planned, from, inbound, e.batch, Planned(s, e));
    } else {
      assert planned + [] == planned;
    }
  }

  lemma {:induction false} SeenRun(s: State, run: seq<Event>, t: string, log: seq<HcsMessage>)
    requires ValidRun(s, run) && Quiet(s, t) && TaskIds(s) && Ascending(log) && FollowsRun(s, run, t, log)
    ensures var n, start := After(s, run), s.topics.marks[t];
            && AboveStart(n, t, start) && BelowTop(n, t, Top(s, run, t, start))
            && Seen(log, start, Top(s, run, t, start), SetOut(s, run, t))
  {
    if run != [] {
      var init, e, start := run[..|run| - 1], run[|run| - 1], s.topics.marks[t];
      SeenRun(s, init, t, log);
      AboveStep(After(s, init), e, t, start, log);
      BelowStep(After(s, init), e, t, Top(s, init, t, start), log);
      SeenStep(After(s, init), e, t, log, start, Top(s, init, t, start), SetOut(s, init, t));
    }
  }

  // ---------------------------------------------------------------- every run

  /** If the event is a poll of the topic reading its batch, it sees nothing again. */
  predicate Fresh(s: State, e: Event, t: string, top: nat, planned: seq<HcsMessage>)
    requires Enabled(s, e)
  {
    e.Fetched? && Own(s, e, t) ==> !Again(s.tasks[e.task].from, IsInbound(s.topics.info, t), e.batch, top, planned)
  }

  predicate FreshRun(s: State, run: seq<Event>, t: string, start: nat)
    requires ValidRun(s, run)
  {
    run == []
    || (FreshRun(s, run[..|run| - 1], t, start)
        && Fresh(After(s, run[..|run| - 1]), run[|run| - 1], t, Top(s, run[..|run| - 1], t, start), SetOut(s, run[..|run| - 1], t)))
  }

  lemma DistinctStep(s: State, e: Event, t: string, log: seq<HcsMessage>, start: nat, top: nat, planned: seq<HcsMessage>)
    requires Enabled(s, e) && Follows(s, e, t, log) && AboveStart(s, t, start) && Seen(log, start, top, planned)
    ensures Distinct(planned + PlannedOn(s, e, t)) <==> Distinct(planned) && Fresh(s, e, t, top, planned)
  {
    if e.Fetched? && Own(s, e, t) {
      var from, inbound := s.tasks[e.task].from, IsInbound(s.topics.info, t);
      PlanIsPlan(from, inbound, e.batch);
      AgainIff(log, start, top, planned, from, inbound, e.batch, Planned(s, e));
      DistinctConcat(planned, Planned(s, e));
    } else {
      assert planned + [] == planned;
    }
  }

  lemma {:induction false} SetOutOnceIff(s: State, run: seq<Event>, t: string, log: seq<HcsMessage>)
    requires ValidRun(s, run) && Quiet(s, t) && TaskIds(s) && Ascending(log) && FollowsRun(s, run, t, log)
    ensures Distinct(SetOut(s, run, t)) <==> FreshRun(s, run, t, s.topics.marks[t])
  {
    if run != [] {
      var init, start := run[..|run| - 1], s.topics.marks[t];
      SetOutOnceIff(s, init, t, log);
      SeenRun(s, init, t, log);
      DistinctStep(After(s, init), run[|run| - 1], t, log, start, Top(s, init, t, start), SetOut(s, init, t));
    }
  }

  /**
   * In every run from a moment without a poll of the topic, with polls overlapping in any way: if no poll sees anything again,
   * nothing is delivered twice; and once no poll is in flight, something was delivered twice exactly if some poll did.
   */
  lemma DeliveredOnceIff(s: State, run: seq<Event>, t: string, log: seq<HcsMessage>)
    requires ValidRun(s, run) && Quiet(s, t) && TaskIds(s) && Ascending(log) && FollowsRun(s, run, t, log)
    ensures On(After(s, run).delivered, t) == On(s.delivered, t) + Got(s, run, t)
    ensures FreshRun(s, run, t, s.topics.marks[t]) ==> Distinct(Got(s, run, t))
    ensures NoPoll(After(s, run).tasks, t) ==> (Distinct(Got(s, run, t)) <==> FreshRun(s, run, t, s.topics.marks[t]))
  {
    GotIsDelivered(s, run, t);
    SetOutOnceIff(s, run, t, log);
    forall m { CountsAgree(s, run, t, m); }
    DistinctByCounts(Got(s, run, t), SetOut(s, run, t));
  }

  lemma CountsAgree(s: State, run: seq<Event>, t: string, m: HcsMessage)
    requires ValidRun(s, run) && Quiet(s, t) && TaskIds(s)
    ensures Count(Got(s, run, t), m) <= Count(SetOut(s, run, t), m)
    ensures NoPoll(After(s, run).tasks, t) ==> Count(Got(s, run, t), m) == Count(SetOut(s, run, t), m)
  {
    var n := After(s, run);
    NothingLostOrMadeUp(s, run, t, m);
    NothingPending(s.tasks, s.nextTask, t, m);
    if NoPoll(n.tasks, t) { NothingPending(n.tasks, n.nextTask, t, m); }
  }

  lemma DistinctByCounts(got: seq<HcsMessage>, planned: seq<HcsMessage>)
    requires forall m :: Count(got, m) <= Count(planned, m)
    ensures Distinct(planned) ==> Distinct(got)
    ensures (forall m :: Count(got, m) == Count(planned, m)) ==> (Distinct(got) <==> Distinct(planned))
  {
    DistinctCounts(got);
    DistinctCounts(planned);
  }

  // ---------------------------------------------------------------- what it means to see something again

  /** On a topic that handles every message, a poll sees something again exactly if it read its mark too early. */
  lemma AgainWhenPlainIff(log: seq<HcsMessage>, start: nat, top: nat, planned: seq<HcsMessage>, from: nat, batch: seq<HcsMessage>)
    requires Ascending(log) && Faithful(batch, log) && Seen(log, start, top, planned) && start <= from
    requires forall m <- log :: start < m.sequenceNumber <= top ==> m in planned
    ensures Again(from, false, batch, top, planned) <==> from < top && from < Highest(batch)
  {
    FaithfulInLog(log, batch);
    if from < top && from < Highest(batch) {
      var m := MessageAt(log, start, top, planned, batch);
      assert SeenAgain(m, from, false, batch, top, planned);
    }
  }

  lemma MessageAt(log: seq<HcsMessage>, start: nat, top: nat, planned: seq<HcsMessage>, batch: seq<HcsMessage>) returns (m: HcsMessage)
    requires Ascending(log) && Faithful(batch, log) && Seen(log, start, top, planned) && start < top && start < Highest(batch)
    ensures m in batch && m.sequenceNumber == if top < Highest(batch) then top else Highest(batch)
    ensures m in log
  {
    FaithfulInLog(log, batch);
    if top < Highest(batch) {
      m :| m in log && m.sequenceNumber == top;
      UpToHighest(log, batch, m);
    } else {
      m :| m in batch && m.sequenceNumber == Highest(batch);
    }
  }

  /**
   * On an inbound topic it does exactly if it read its mark before a message other than a request, or if the newest request
   * it handles was already handled.
   */
  lemma AgainWhenInboundIff(from: nat, batch: seq<HcsMessage>, top: nat, planned: seq<HcsMessage>)
    requires Numbered(batch)
    ensures var requests := Requests(Above(batch, from));
            Again(from, true, batch, top, planned)
            <==> (exists m :: m in batch && !m.op.ConnectionRequest? && from < m.sequenceNumber <= top)
                 || (requests != [] && Newest(requests) in planned)
  {
    var requests := Requests(Above(batch, from));
    if m :| m in batch && !m.op.ConnectionRequest? && from < m.sequenceNumber <= top {
      assert SeenAgain(m, from, true, batch, top, planned);
    }
    if requests != [] {
      forall m | m in requests ensures Superseded(from, true, batch, m) || m == Newest(requests) {
        NewestSupersedes(from, batch, requests, m);
      }
      NewestSupersedes(from, batch, requests, Newest(requests));
      if Newest(requests) in planned { assert SeenAgain(Newest(requests), from, true, batch, top, planned); }
    }
    if m :| m in batch && m.sequenceNumber > from && SeenAgain(m, from, true, batch, top, planned) && m.op.ConnectionRequest? {
      assert m in requests;
    }
  }

  /** The topic is not inbound whenever one of its polls has read it. */
  predicate PlainRun(s: State, run: seq<Event>, t: string)
    requires ValidRun(s, run)
  {
    run == []
    || (PlainRun(s, run[..|run| - 1], t) && Plain(After(s, run[..|run| - 1]), run[|run| - 1], t))
  }

  predicate Plain(s: State, e: Event, t: string)
    requires Enabled(s, e)
  {
    e.Fetched? && Own(s, e, t) ==> !IsInbound(s.topics.info, t)
  }

  lemma PlainStep(s: State, e: Event, t: string, log: seq<HcsMessage>, top: nat, planned: seq<HcsMessage>, m: HcsMessage)
    requires Enabled(s, e) && Ascending(log) && Follows(s, e, t, log) && Plain(s, e, t) && BelowTop(s, t, top)
    requires m in log && m.sequenceNumber <= TopAfter(s, e, t, top) && (m.sequenceNumber <= top ==> m in planned)
    ensures m in planned + PlannedOn(s, e, t)
  {
    if m.sequenceNumber > top {
      PlanIsPlan(s.tasks[e.task].from, false, e.batch);
      PlanSeesBatch(log, top, s.tasks[e.task].from, false, e.batch, Planned(s, e), m);
    }
  }

  lemma {:induction false} PlainSetsOutOnAll(s: State, run: seq<Event>, t: string, log: seq<HcsMessage>)
    requires ValidRun(s, run) && Quiet(s, t) && TaskIds(s) && Ascending(log) && FollowsRun(s, run, t, log) && PlainRun(s, run, t)
    ensures var start := s.topics.marks[t];
            forall m <- log :: start < m.sequenceNumber <= Top(s, run, t, start) ==> m in SetOut(s, run, t)
  {
    if run != [] {
      var init, e, start := run[..|run| - 1], run[|run| - 1], s.topics.marks[t];
      PlainSetsOutOnAll(s, init, t, log);
      SeenRun(s, init, t, log);
      forall m | m in log && start < m.sequenceNumber <= Top(s, run, t, start) ensures m in SetOut(s, run, t) {
        PlainStep(After(s, init), e, t, log, Top(s, init, t, start), SetOut(s, init, t), m);
      }
    }
  }

  /**
   * So a poll of a topic that is not inbound delivers something again exactly if it read a mark below a message that another
   * poll has seen, and its own batch reaches above that mark.
   */
  lemma PollRepeatsIff(s: State, run: seq<Event>, k: nat, batch: seq<HcsMessage>, t: string, log: seq<HcsMessage>)
    requires ValidRun(s, run) && Quiet(s, t) && TaskIds(s) && Ascending(log) && FollowsRun(s, run, t, log) && PlainRun(s, run, t)
    requires var n, e := After(s, run), Fetched(k, batch);
             Enabled(n, e) && Own(n, e, t) && Faithful(batch, log) && !IsInbound(n.topics.info, t)
    ensures var n, top := After(s, run), Top(s, run, t, s.topics.marks[t]);
            (exists m :: m in Planned(n, Fetched(k, batch)) && m in SetOut(s, run, t))
            <==> n.tasks[k].from < top && n.tasks[k].from < Highest(batch)
  {
    var n, start, top, planned := After(s, run), s.topics.marks[t], Top(s, run, t, s.topics.marks[t]), SetOut(s, run, t);
    SeenRun(s, run, t, log);
    PlainSetsOutOnAll(s, run, t, log);
    PlanIsPlan(n.tasks[k].from, false, batch);
    AgainIff(log, start, top, planned, n.tasks[k].from, false, batch, Planned(n, Fetched(k, batch)));
    AgainWhenPlainIff(log, start, top, planned, n.tasks[k].from, batch);
  }

  // ---------------------------------------------------------------- when the mark goes back

  /** The poll that took a message of the topic last, and the number of that message. */
  function LastTaken(s: State, run: seq<Event>, t: string): Option<(nat, nat)>
    requires ValidRun(s, run)
  {
    if run == [] then None
    else TakenAfter(After(s, run[..|run| - 1]), run[|run| - 1], t, LastTaken(s, run[..|run| - 1], t))
  }

  function TakenAfter(s: State, e: Event, t: string, last: Option<(nat, nat)>): Option<(nat, nat)>
    requires Enabled(s, e)
  {
    if e.Taken? && Own(s, e, t) then Some((e.task, s.tasks[e.task].queue[0].sequenceNumber)) else last
  }

  /** A poll takes ascending numbers, and the mark is the last one taken. */
  ghost predicate InTurn(s: State, t: string, start: nat, last: Option<(nat, nat)>) {
    && t in s.topics.marks && s.topics.marks[t] == (if last.Some? then last.value.1 else start)
    && (last.Some? ==> last.value.0 < s.nextTask)
    && forall k <- s.tasks :: s.tasks[k].Polls(t) ==>
         Ascending(s.tasks[k].Queue())
         && (last.Some? && last.value.0 == k ==>
               !s.tasks[k].Fetching? && forall m <- s.tasks[k].Queue() :: last.value.1 < m.sequenceNumber)
  }

  lemma TailAscends(queue: seq<HcsMessage>)
    requires Ascending(queue) && queue != []
    ensures Ascending(queue[1..]) && forall m <- queue[1..] :: queue[0].sequenceNumber < m.sequenceNumber
  {
    forall m | m in queue[1..] ensures queue[0].sequenceNumber < m.sequenceNumber {
      var i :| 0 <= i < |queue[1..]| && queue[1..][i] == m;
      assert queue[i + 1] == m;
    }
  }

  lemma QueueInTurn(s: State, e: Event, t: string, start: nat, last: Option<(nat, nat)>, log: seq<HcsMessage>, k: nat)
    requires Enabled(s, e) && TaskIds(s) && InTurn(s, t, start, last) && Follows(s, e, t, log)
    requires k in NextTasks(s, e) && NextTasks(s, e)[k].Polls(t)
    ensures Ascending(NextTasks(s, e)[k].Queue())
    ensures var taken := TakenAfter(s, e, t, last);
            taken.Some? && taken.value.0 == k ==>
              !NextTasks(s, e)[k].Fetching? && forall m <- NextTasks(s, e)[k].Queue() :: taken.value.1 < m.sequenceNumber
  {
    QueueAfter(s, e, t, k);
    if e.Taken? && k == e.task {
      TailAscends(s.tasks[k].queue);
    } else if e.Fetched? && k == e.task {
      PlanIsPlan(s.tasks[k].from, IsInbound(s.topics.info, t), e.batch);
    }
  }

  lemma InTurnStep(s: State, e: Event, t: string, start: nat, last: Option<(nat, nat)>, log: seq<HcsMessage>)
    requires Enabled(s, e) && Steady(s, t) && TaskIds(s) && InTurn(s, t, start, last) && Follows(s, e, t, log)
    ensures InTurn(Next(s, e), t, start, TakenAfter(s, e, t, last))
  {
    MarkAfter(s, e, t);
    forall k | k in NextTasks(s, e) && NextTasks(s, e)[k].Polls(t)
      ensures Ascending(NextTasks(s, e)[k].Queue())
      ensures var taken := TakenAfter(s, e, t, last);
              taken.Some? && taken.value.0 == k ==>
                !NextTasks(s, e)[k].Fetching? && forall m <- NextTasks(s, e)[k].Queue() :: taken.value.1 < m.sequenceNumber
    {
      QueueInTurn(s, e, t, start, last, log, k);
    }
  }

  lemma {:induction false} InTurnRun(s: State, run: seq<Event>, t: string, log: seq<HcsMessage>)
    requires ValidRun(s, run) && Quiet(s, t) && TaskIds(s) && Ascending(log) && FollowsRun(s, run, t, log)
    ensures InTurn(After(s, run), t, s.topics.marks[t], LastTaken(s, run, t))
  {
    if run != [] {
      var init := run[..|run| - 1];
      InTurnRun(s, init, t, log);
      SeenRun(s, init, t, log);
      InTurnStep(After(s, init), run[|run| - 1], t, s.topics.marks[t], LastTaken(s, init, t), log);
    }
  }

  /**
   * The mark goes back exactly when a poll takes a message after another poll has taken a higher one, with nothing taken in
   * between; no other event moves it back.
   */
  lemma MarkGoesBackIff(s: State, run: seq<Event>, e: Event, t: string, log: seq<HcsMessage>)
    requires ValidRun(s, run) && Quiet(s, t) && TaskIds(s) && Ascending(log) && FollowsRun(s, run, t, log)
    requires Enabled(After(s, run), e) && Follows(After(s, run), e, t, log)
    ensures var b, n, last := After(s, run), Next(After(s, run), e), LastTaken(s, run, t);
            && t in b.topics.marks && t in n.topics.marks
            && (n.topics.marks[t] < b.topics.marks[t] <==>
                  e.Taken? && Own(b, e, t) && last.Some? && last.value.0 != e.task
                  && b.tasks[e.task].queue[0].sequenceNumber < last.value.1)
  {
    var b := After(s, run);
    InTurnRun(s, run, t, log);
    SeenRun(s, run, t, log);
    MarkAfter(b, e, t);
    if e.Taken? && Own(b, e, t) {
      assert b.tasks[e.task].queue[0] in b.tasks[e.task].Queue();
    }
  }
}
