/** What one topic's polls consume, in every interleaving with everything else the topic monitor does. */
module MonitorSafety {
  import opened Common
  import opened Monitor
  import opened MonitorSelection

  // ---------------------------------------------------------------- what was consumed

  /** What was planned on a topic, or what its listeners got. */
  function On(history: seq<(string, HcsMessage)>, t: string): seq<HcsMessage> {
    if history == [] then []
    else On(history[..|history| - 1], t) + (if history[|history| - 1].0 == t then [history[|history| - 1].1] else [])
  }

  lemma OnMore(history: seq<(string, HcsMessage)>, x: (string, HcsMessage), t: string)
    ensures On(history + [x], t) == On(history, t) + if x.0 == t then [x.1] else []
  {
    assert (history + [x])[..|history|] == history;
  }

  lemma Assoc<T>(a: seq<T>, b: seq<T>, c: seq<T>)
    ensures a + b + c == a + (b + c)
  {
  }

  lemma {:induction false} OnTagged(history: seq<(string, HcsMessage)>, messages: seq<HcsMessage>, topicId: string, t: string)
    ensures On(history + Tagged(messages, topicId), t) == On(history, t) + if topicId == t then messages else []
  {
    if messages == [] {
      assert history + [] == history && On(history, t) + [] == On(history, t);
    } else {
      var init, m := messages[..|messages| - 1], messages[|messages| - 1];
      OnTagged(history, init, topicId, t);
      Assoc(history, Tagged(init, topicId), [(topicId, m)]);
      OnMore(history + Tagged(init, topicId), (topicId, m), t);
      assert messages == init + [m];
      OneMoreOn(On(history, t), init, m, topicId == t);
    }
  }

  lemma OneMoreOn(got: seq<HcsMessage>, init: seq<HcsMessage>, m: HcsMessage, here: bool)
    ensures got + (if here then init else []) + (if here then [m] else []) == got + if here then init + [m] else []
  {
  }

  /** The messages of the topic a poll saw are a first part of its log, in any order. */
  ghost predicate Faithful(batch: seq<HcsMessage>, log: seq<HcsMessage>) {
    Numbered(batch) && exists k: nat :: k <= |log| && forall m :: m in batch <==> m in log[..k]
  }

  /** A connection request after a given number is there. */
  predicate NewerRequest(got: seq<HcsMessage>, n: nat) {
    exists x :: x in got && x.op.ConnectionRequest? && x.sequenceNumber > n
  }

  /** Every message of the log above start and up to the mark is there, or a newer connection request that replaced it. */
  ghost predicate Covers(log: seq<HcsMessage>, start: nat, mark: nat, got: seq<HcsMessage>) {
    forall m <- log :: start < m.sequenceNumber <= mark ==>
      m in got || (m.op.ConnectionRequest? && NewerRequest(got, m.sequenceNumber))
  }

  /** How far a log was consumed from start on: ascending, nothing foreign, up to the mark, and nothing left out. */
  ghost predicate Consumed(log: seq<HcsMessage>, start: nat, mark: nat, got: seq<HcsMessage>) {
    && start <= mark
    && Ascending(got)
    && (forall m <- got :: m in log && start < m.sequenceNumber <= mark)
    && (mark > start ==> got != [] && got[|got| - 1].sequenceNumber == mark)
    && Covers(log, start, mark, got)
  }

  lemma AscendingConcat(got: seq<HcsMessage>, plan: seq<HcsMessage>, mark: nat)
    requires Ascending(got) && Ascending(plan)
    requires (forall m <- got :: m.sequenceNumber <= mark) && forall m <- plan :: m.sequenceNumber > mark
    ensures Ascending(got + plan)
  {
  }

  lemma FaithfulInLog(log: seq<HcsMessage>, batch: seq<HcsMessage>)
    requires Faithful(batch, log)
    ensures forall m <- batch :: m in log
  {
    var k: nat :| k <= |log| && forall y :: y in batch <==> y in log[..k];
    forall m | m in batch ensures m in log { assert m in log[..k]; }
  }

  /** A batch has everything that precedes one of its messages in the log. */
  lemma PrefixBelow(log: seq<HcsMessage>, batch: seq<HcsMessage>, m: HcsMessage, x: HcsMessage)
    requires Ascending(log) && Faithful(batch, log) && m in batch && x in log && x.sequenceNumber <= m.sequenceNumber
    ensures x in batch
  {
    var k: nat :| k <= |log| && forall y :: y in batch <==> y in log[..k];
    var i :| 0 <= i < k && log[i] == m;
    var j :| 0 <= j < |log| && log[j] == x;
    assert j <= i;
    assert log[..k][j] == x;
  }

  lemma UpToHighest(log: seq<HcsMessage>, batch: seq<HcsMessage>, x: HcsMessage)
    requires Ascending(log) && Faithful(batch, log) && x in log
    ensures x.sequenceNumber <= Highest(batch) && batch != [] ==> x in batch
  {
    if x.sequenceNumber <= Highest(batch) && batch != [] {
      var m :| m in batch && m.sequenceNumber == Highest(batch);
      PrefixBelow(log, batch, m, x);
    }
  }

  lemma OldCovered(got: seq<HcsMessage>, plan: seq<HcsMessage>, m: HcsMessage)
    requires m in got || (m.op.ConnectionRequest? && NewerRequest(got, m.sequenceNumber))
    ensures m in got + plan || (m.op.ConnectionRequest? && NewerRequest(got + plan, m.sequenceNumber))
  {
    if m !in got {
      var x :| x in got && x.op.ConnectionRequest? && x.sequenceNumber > m.sequenceNumber;
      assert x in got + plan;
    }
  }

  /** A message of the batch above the mark is planned, or the newest request of the batch is, which replaces it. */
  lemma NewCovered(mark: nat, inbound: bool, batch: seq<HcsMessage>, got: seq<HcsMessage>, plan: seq<HcsMessage>, m: HcsMessage)
    requires m in batch && m.sequenceNumber > mark
    requires IsPlan(mark, inbound, batch, plan)
    ensures m in got + plan || (m.op.ConnectionRequest? && NewerRequest(got + plan, m.sequenceNumber))
  {
    if m !in plan {
      var newest := NewestAbove(batch, m);
      assert newest in got + plan;
    }
  }

  /** The newest request of the batch is at least as new as a given one. */
  lemma NewestAbove(batch: seq<HcsMessage>, m: HcsMessage) returns (newest: HcsMessage)
    requires exists x :: x in batch && x.op.ConnectionRequest? && x.sequenceNumber > m.sequenceNumber
    ensures newest in batch && newest.op.ConnectionRequest? && newest.sequenceNumber > m.sequenceNumber
    ensures forall x <- batch :: x.op.ConnectionRequest? ==> x.sequenceNumber <= newest.sequenceNumber
  {
    var x :| x in batch && x.op.ConnectionRequest? && x.sequenceNumber > m.sequenceNumber;
    assert x in Requests(batch);
    newest := Newest(Requests(batch));
  }

  lemma CoversPoll(log: seq<HcsMessage>, start: nat, mark: nat, got: seq<HcsMessage>, inbound: bool, batch: seq<HcsMessage>, plan: seq<HcsMessage>)
    requires Ascending(log) && Faithful(batch, log) && Covers(log, start, mark, got) && Highest(batch) > mark
    requires IsPlan(mark, inbound, batch, plan)
    ensures Covers(log, start, Highest(batch), got + plan)
  {
    forall m | m in log && start < m.sequenceNumber <= Highest(batch)
      ensures m in got + plan || (m.op.ConnectionRequest? && NewerRequest(got + plan, m.sequenceNumber))
    {
      if m.sequenceNumber <= mark {
        OldCovered(got, plan, m);
      } else {
        UpToHighest(log, batch, m);
        NewCovered(mark, inbound, batch, got, plan, m);
      }
    }
  }

  lemma MembersPoll(log: seq<HcsMessage>, start: nat, mark: nat, got: seq<HcsMessage>, inbound: bool, batch: seq<HcsMessage>, plan: seq<HcsMessage>)
    requires Faithful(batch, log) && Consumed(log, start, mark, got) && Highest(batch) > mark
    requires IsPlan(mark, inbound, batch, plan)
    ensures Ascending(got + plan) && forall m <- got + plan :: m in log && start < m.sequenceNumber <= Highest(batch)
  {
    FaithfulInLog(log, batch);
    AscendingConcat(got, plan, mark);
  }

  lemma LastOfConcat(got: seq<HcsMessage>, plan: seq<HcsMessage>)
    requires plan != []
    ensures (got + plan)[|got + plan| - 1] == plan[|plan| - 1]
  {
  }

  function Max(a: nat, b: nat): nat {
    if a > b then a else b
  }

  /** One poll takes the consumption from the old mark to the highest message it saw, if that is higher. */
  lemma ConsumedPoll(log: seq<HcsMessage>, start: nat, mark: nat, got: seq<HcsMessage>, inbound: bool, batch: seq<HcsMessage>, plan: seq<HcsMessage>)
    requires Ascending(log) && Faithful(batch, log) && Consumed(log, start, mark, got) && IsPlan(mark, inbound, batch, plan)
    ensures Consumed(log, start, Max(Highest(batch), mark), got + plan)
  {
    EndsAtHighest(mark, inbound, batch, plan);
    if Highest(batch) > mark {
      MembersPoll(log, start, mark, got, inbound, batch, plan);
      LastOfConcat(got, plan);
      CoversPoll(log, start, mark, got, inbound, batch, plan);
    } else {
      assert got + [] == got;
    }
  }

  // ---------------------------------------------------------------- the poll of a topic

  ghost predicate NoPoll(tasks: map<nat, Task>, t: string) {
    forall k <- tasks :: !tasks[k].Polls(t)
  }

  ghost predicate OnlyPoll(tasks: map<nat, Task>, t: string, k: nat) {
    k in tasks && tasks[k].Polls(t) && forall j <- tasks :: tasks[j].Polls(t) ==> j == k
  }

  function LastNumber(start: nat, got: seq<HcsMessage>): nat {
    if got == [] then start else got[|got| - 1].sequenceNumber
  }

  /** What the poll holds and will still take completes what was consumed, and the mark is at the last message it took. */
  ghost predicate InPhase(log: seq<HcsMessage>, start: nat, top: nat, got: seq<HcsMessage>, mark: nat, task: Task) {
    && Consumed(log, start, top, got + (task.Held() + task.Queue()))
    && mark == LastNumber(start, got + task.Held())
    && (task.Fetching? ==> task.from == mark)
    && (task.Taking? ==> task.queue != [])
  }

  /** Tasks are numbered as they are spawned. */
  ghost predicate TaskIds(s: State) {
    forall k <- s.tasks :: k < s.nextTask
  }

  /** The topic is monitored and nobody is about to start monitoring it again. */
  ghost predicate Steady(s: State, t: string) {
    && t in s.topics.monitored && t in s.topics.marks
    && forall k <- s.tasks :: (s.tasks[k].Starting? ==> s.tasks[k].topicId != t) && (s.tasks[k].Opening? ==> s.tasks[k].connection != t)
  }

  ghost predicate Quiet(s: State, t: string) {
    Steady(s, t) && NoPoll(s.tasks, t)
  }

  /** How far the topic is, at any moment: between polls, or in its only poll. */
  ghost predicate Progress(log: seq<HcsMessage>, t: string, start: nat, top: nat, got: seq<HcsMessage>, s: State) {
    && Steady(s, t) && TaskIds(s)
    && ((NoPoll(s.tasks, t) && Consumed(log, start, top, got) && s.topics.marks[t] == top)
        || exists k :: OnlyPoll(s.tasks, t, k) && InPhase(log, start, top, got, s.topics.marks[t], s.tasks[k]))
  }

  /** The event is a step of a poll of the topic, or begins one. */
  predicate Own(s: State, e: Event, t: string)
    requires Enabled(s, e)
  {
    match e
    case PollTick(i) => s.topics.intervals[i] == t
    case Fetched(k, _) => s.tasks[k].topicId == t
    case FetchFailed(k) => s.tasks[k].topicId == t
    case Taken(k, _, _) => s.tasks[k].topicId == t
    case AgentFound(k, _) => s.tasks[k].topicId == t
    case TopicOpened(k, _) => s.tasks[k].topicId == t
    case MonitoringStarted(k, _) => s.tasks[k].topicId == t
    case ConnectionRegistered(k) => s.tasks[k].topicId == t
    case Connected(k) => s.tasks[k].topicId == t
    case Emitted(k) => s.tasks[k].topicId == t
    case _ => false
  }

  /** The topic is not given up, and its polls see a first part of its log. */
  ghost predicate Follows(s: State, e: Event, t: string, log: seq<HcsMessage>)
    requires Enabled(s, e)
  {
    && !(e.Stopped? && e.topicId == t)
    && (e.Fetched? && Own(s, e, t) ==> Faithful(e.batch, log))
  }

  /** No poll of the topic begins while another one is in flight. */
  ghost predicate Alone(s: State, e: Event, t: string)
    requires Enabled(s, e)
  {
    e.PollTick? && Own(s, e, t) ==> NoPoll(s.tasks, t)
  }

  predicate SamePolls(before: map<nat, Task>, after: map<nat, Task>, t: string) {
    && (forall k <- before :: before[k].Polls(t) ==> k in after && after[k] == before[k])
    && (forall k <- after :: after[k].Polls(t) ==> k in before && before[k] == after[k])
  }

  lemma IdsStay(s: State, e: Event)
    requires Enabled(s, e) && TaskIds(s)
    ensures TaskIds(Next(s, e))
  {
  }

  lemma SteadyStays(s: State, e: Event, t: string)
    requires Enabled(s, e) && Steady(s, t) && !(e.Stopped? && e.topicId == t)
    ensures Steady(Next(s, e), t)
  {
  }

  /** Whatever else the service does leaves the topic's mark and polls alone. */
  lemma OthersLeave(s: State, e: Event, t: string)
    requires Enabled(s, e) && Steady(s, t) && TaskIds(s) && !Own(s, e, t) && !(e.Stopped? && e.topicId == t)
    ensures SamePolls(s.tasks, NextTasks(s, e), t) && t in NextTopics(s, e).marks && NextTopics(s, e).marks[t] == s.topics.marks[t]
  {
  }

  lemma OthersProgress(log: seq<HcsMessage>, t: string, start: nat, top: nat, got: seq<HcsMessage>, s: State, e: Event)
    requires Progress(log, t, start, top, got, s) && Enabled(s, e) && !Own(s, e, t) && !(e.Stopped? && e.topicId == t)
    ensures Progress(log, t, start, top, got, Next(s, e))
  {
    IdsStay(s, e);
    SteadyStays(s, e, t);
    OthersLeave(s, e, t);
    if k :| OnlyPoll(s.tasks, t, k) && InPhase(log, start, top, got, s.topics.marks[t], s.tasks[k]) {
      assert OnlyPoll(NextTasks(s, e), t, k);
    }
  }

  /** The poll in flight, which makes every step but the first. */
  lemma PollInFlight(log: seq<HcsMessage>, t: string, start: nat, top: nat, got: seq<HcsMessage>, s: State, k: nat)
    requires Progress(log, t, start, top, got, s) && k in s.tasks && s.tasks[k].Polls(t)
    ensures OnlyPoll(s.tasks, t, k) && InPhase(log, start, top, got, s.topics.marks[t], s.tasks[k])
  {
  }

  /** The task of the poll is replaced. */
  lemma PollGoesOn(log: seq<HcsMessage>, t: string, start: nat, top: nat, got: seq<HcsMessage>, s: State, n: State, k: nat)
    requires OnlyPoll(s.tasks, t, k) && k in n.tasks && n.tasks == s.tasks[k := n.tasks[k]] && n.tasks[k].Polls(t)
    requires Steady(n, t) && TaskIds(n) && InPhase(log, start, top, got, n.topics.marks[t], n.tasks[k])
    ensures Progress(log, t, start, top, got, n)
  {
    assert OnlyPoll(n.tasks, t, k);
  }

  lemma PollEnds(log: seq<HcsMessage>, t: string, start: nat, top: nat, got: seq<HcsMessage>, s: State, n: State, k: nat)
    requires OnlyPoll(s.tasks, t, k) && n.tasks == s.tasks - {k}
    requires Steady(n, t) && TaskIds(n) && Consumed(log, start, top, got) && n.topics.marks[t] == LastNumber(start, got)
    ensures Progress(log, t, start, top, got, n)
  {
  }

  lemma TickProgress(log: seq<HcsMessage>, t: string, start: nat, top: nat, got: seq<HcsMessage>, s: State, i: nat)
    requires Progress(log, t, start, top, got, s) && Enabled(s, PollTick(i)) && s.topics.intervals[i] == t && NoPoll(s.tasks, t)
    ensures Progress(log, t, start, top, got, Next(s, PollTick(i)))
  {
    var n := Next(s, PollTick(i));
    SteadyStays(s, PollTick(i), t);
    assert got + ([] + []) == got && got + [] == got;
    assert OnlyPoll(n.tasks, t, s.nextTask);
    assert InPhase(log, start, top, got, n.topics.marks[t], n.tasks[s.nextTask]);
  }

  lemma PlanPhase(log: seq<HcsMessage>, start: nat, top: nat, got: seq<HcsMessage>, mark: nat, task: Task, inbound: bool,
                  batch: seq<HcsMessage>, plan: seq<HcsMessage>)
    requires InPhase(log, start, top, got, mark, task) && task.Fetching? && Ascending(log) && Faithful(batch, log)
    requires IsPlan(task.from, inbound, batch, plan)
    ensures Consumed(log, start, Max(Highest(batch), top), got + plan) && mark == LastNumber(start, got)
  {
    assert got + ([] + []) == got && got + [] == got;
    ConsumedPoll(log, start, top, got, inbound, batch, plan);
  }

  lemma PhaseBegins(log: seq<HcsMessage>, start: nat, top: nat, got: seq<HcsMessage>, mark: nat, t: string, plan: seq<HcsMessage>)
    requires Consumed(log, start, top, got + plan) && mark == LastNumber(start, got) && plan != []
    ensures InPhase(log, start, top, got, mark, Taking(t, plan))
  {
    var task := Taking(t, plan);
    assert task.Held() == [] && task.Queue() == plan && [] + plan == plan && got + [] == got;
  }

  lemma PhaseTakes(log: seq<HcsMessage>, start: nat, top: nat, got: seq<HcsMessage>, mark: nat, before: Task, after: Task)
    requires InPhase(log, start, top, got, mark, before) && before.Taking?
    requires after.Held() == [before.queue[0]] && after.Queue() == before.queue[1..] && !after.Fetching? && !after.Taking?
    ensures InPhase(log, start, top, got, before.queue[0].sequenceNumber, after)
  {
    assert [] + before.queue == [before.queue[0]] + before.queue[1..];
    assert (got + [before.queue[0]])[|got|] == before.queue[0];
  }

  /** The poll has planned its batch, read from the mark as it still is. */
  lemma PlanProgress(log: seq<HcsMessage>, t: string, start: nat, top: nat, got: seq<HcsMessage>, s: State, n: State, k: nat,
                     inbound: bool, batch: seq<HcsMessage>, plan: seq<HcsMessage>)
    requires OnlyPoll(s.tasks, t, k) && s.tasks[k].Fetching? && t in s.topics.marks
    requires InPhase(log, start, top, got, s.topics.marks[t], s.tasks[k])
    requires Ascending(log) && Faithful(batch, log) && IsPlan(s.tasks[k].from, inbound, batch, plan)
    requires n.tasks == Idle(t, plan, s.tasks, k) && n.topics == s.topics && Steady(n, t) && TaskIds(n)
    ensures Progress(log, t, start, Max(Highest(batch), top), got, n)
  {
    PlanPhase(log, start, top, got, s.topics.marks[t], s.tasks[k], inbound, batch, plan);
    if plan == [] {
      assert got + plan == got;
      PollEnds(log, t, start, Max(Highest(batch), top), got, s, n, k);
    } else {
      PhaseBegins(log, start, Max(Highest(batch), top), got, s.topics.marks[t], t, plan);
      PollGoesOn(log, t, start, Max(Highest(batch), top), got, s, n, k);
    }
  }

  lemma FetchedProgress(log: seq<HcsMessage>, t: string, start: nat, top: nat, got: seq<HcsMessage>, s: State, k: nat, batch: seq<HcsMessage>)
    requires Progress(log, t, start, top, got, s) && Enabled(s, Fetched(k, batch)) && s.tasks[k].topicId == t
    requires Ascending(log) && Faithful(batch, log)
    ensures Progress(log, t, start, Max(Highest(batch), top), got, Next(s, Fetched(k, batch)))
  {
    var e, inbound := Fetched(k, batch), IsInbound(s.topics.info, t);
    IdsStay(s, e);
    SteadyStays(s, e, t);
    PlanIsPlan(s.tasks[k].from, inbound, batch);
    PollInFlight(log, t, start, top, got, s, k);
    PlanProgress(log, t, start, top, got, s, Next(s, e), k, inbound, batch, Planned(s, e));
  }

  lemma FailedProgress(log: seq<HcsMessage>, t: string, start: nat, top: nat, got: seq<HcsMessage>, s: State, k: nat)
    requires Progress(log, t, start, top, got, s) && Enabled(s, FetchFailed(k)) && s.tasks[k].topicId == t
    ensures Progress(log, t, start, top, got, Next(s, FetchFailed(k)))
  {
    PollInFlight(log, t, start, top, got, s, k);
    IdsStay(s, FetchFailed(k));
    SteadyStays(s, FetchFailed(k), t);
    assert got + ([] + []) == got && got + [] == got;
    PollEnds(log, t, start, top, got, s, Next(s, FetchFailed(k)), k);
  }

  lemma TakenProgress(log: seq<HcsMessage>, t: string, start: nat, top: nat, got: seq<HcsMessage>, s: State, e: Event)
    requires Progress(log, t, start, top, got, s) && e.Taken? && Enabled(s, e) && s.tasks[e.task].topicId == t
    ensures Progress(log, t, start, top, got, Next(s, e))
  {
    var k, n := e.task, Next(s, e);
    PollInFlight(log, t, start, top, got, s, k);
    IdsStay(s, e);
    SteadyStays(s, e, t);
    PhaseTakes(log, start, top, got, s.topics.marks[t], s.tasks[k], n.tasks[k]);
    PollGoesOn(log, t, start, top, got, s, n, k);
  }

  lemma HandlingKeeps(s: State, e: Event, t: string)
    requires Enabled(s, e) && Own(s, e, t) && Steady(s, t)
    requires e.AgentFound? || e.TopicOpened? || e.MonitoringStarted? || e.ConnectionRegistered? || e.Connected?
    ensures var n, task := NextTasks(s, e), s.tasks[e.task];
            && n == s.tasks[e.task := n[e.task]] && n[e.task].Polls(t) && !n[e.task].Fetching? && !n[e.task].Taking?
            && n[e.task].Held() == task.Held() && n[e.task].Queue() == task.Queue()
    ensures t in NextTopics(s, e).marks && NextTopics(s, e).marks[t] == s.topics.marks[t]
  {
  }

  /** Steps in which the poll neither takes nor delivers a message. */
  lemma HandlingProgress(log: seq<HcsMessage>, t: string, start: nat, top: nat, got: seq<HcsMessage>, s: State, e: Event)
    requires Progress(log, t, start, top, got, s) && Enabled(s, e) && Own(s, e, t)
    requires e.AgentFound? || e.TopicOpened? || e.MonitoringStarted? || e.ConnectionRegistered? || e.Connected?
    ensures Progress(log, t, start, top, got, Next(s, e))
  {
    var k, n := e.task, Next(s, e);
    PollInFlight(log, t, start, top, got, s, k);
    IdsStay(s, e);
    SteadyStays(s, e, t);
    HandlingKeeps(s, e, t);
    PollGoesOn(log, t, start, top, got, s, n, k);
  }

  lemma DeliveryProgress(log: seq<HcsMessage>, t: string, start: nat, top: nat, got: seq<HcsMessage>, s: State, n: State, k: nat)
    requires Progress(log, t, start, top, got, s) && k in s.tasks && s.tasks[k].Emitting? && s.tasks[k].topicId == t
    requires n.tasks == Idle(t, s.tasks[k].queue, s.tasks, k) && n.topics == s.topics && Steady(n, t) && TaskIds(n)
    ensures Progress(log, t, start, top, got + [s.tasks[k].message], n)
  {
    var m, queue := s.tasks[k].message, s.tasks[k].queue;
    PollInFlight(log, t, start, top, got, s, k);
    assert got + ([m] + queue) == got + [m] + ([] + queue) && got + [m] + [] == got + [m];
    if queue == [] {
      PollEnds(log, t, start, top, got + [m], s, n, k);
    } else {
      PollGoesOn(log, t, start, top, got + [m], s, n, k);
    }
  }

  lemma EmittedProgress(log: seq<HcsMessage>, t: string, start: nat, top: nat, got: seq<HcsMessage>, s: State, k: nat)
    requires Progress(log, t, start, top, got, s) && Enabled(s, Emitted(k)) && s.tasks[k].topicId == t
    ensures Progress(log, t, start, top, got + [s.tasks[k].message], Next(s, Emitted(k)))
  {
    IdsStay(s, Emitted(k));
    SteadyStays(s, Emitted(k), t);
    DeliveryProgress(log, t, start, top, got, s, Next(s, Emitted(k)), k);
  }

  /** The highest message any poll of the topic has seen. */
  function TopAfter(s: State, e: Event, t: string, top: nat): nat
    requires Enabled(s, e)
  {
    if e.Fetched? && Own(s, e, t) then Max(Highest(e.batch), top) else top
  }

  function DeliveredOn(s: State, e: Event, t: string): seq<HcsMessage>
    requires Enabled(s, e)
  {
    if e.Emitted? && Own(s, e, t) then [s.tasks[e.task].message] else []
  }

  lemma OwnProgress(log: seq<HcsMessage>, t: string, start: nat, top: nat, got: seq<HcsMessage>, s: State, e: Event)
    requires Progress(log, t, start, top, got, s) && Enabled(s, e) && Ascending(log) && Follows(s, e, t, log) && Alone(s, e, t)
    requires Own(s, e, t) && !e.Emitted?
    ensures Progress(log, t, start, TopAfter(s, e, t, top), got, Next(s, e))
  {
    match e
    case PollTick(i) => TickProgress(log, t, start, top, got, s, i);
    case Fetched(k, batch) => FetchedProgress(log, t, start, top, got, s, k, batch);
    case FetchFailed(k) => FailedProgress(log, t, start, top, got, s, k);
    case Taken(_, _, _) => TakenProgress(log, t, start, top, got, s, e);
    case _ => HandlingProgress(log, t, start, top, got, s, e);
  }

  lemma SilentProgress(log: seq<HcsMessage>, t: string, start: nat, top: nat, got: seq<HcsMessage>, s: State, e: Event)
    requires Progress(log, t, start, top, got, s) && Enabled(s, e) && Ascending(log) && Follows(s, e, t, log) && Alone(s, e, t)
    requires !(Own(s, e, t) && e.Emitted?)
    ensures Progress(log, t, start, TopAfter(s, e, t, top), got, Next(s, e))
  {
    if Own(s, e, t) { OwnProgress(log, t, start, top, got, s, e); } else { OthersProgress(log, t, start, top, got, s, e); }
  }

  lemma ProgressStep(log: seq<HcsMessage>, t: string, start: nat, top: nat, got: seq<HcsMessage>, s: State, e: Event)
    requires Progress(log, t, start, top, got, s) && Enabled(s, e) && Ascending(log) && Follows(s, e, t, log) && Alone(s, e, t)
    ensures Progress(log, t, start, TopAfter(s, e, t, top), got + DeliveredOn(s, e, t), Next(s, e))
  {
    if Own(s, e, t) && e.Emitted? {
      EmittedProgress(log, t, start, top, got, s, e.task);
    } else {
      SilentProgress(log, t, start, top, got, s, e);
      assert got + [] == got;
    }
  }

  // ---------------------------------------------------------------- every run

  ghost predicate FollowsRun(s: State, run: seq<Event>, t: string, log: seq<HcsMessage>)
    requires ValidRun(s, run)
  {
    run == []
    || (FollowsRun(s, run[..|run| - 1], t, log) && Follows(After(s, run[..|run| - 1]), run[|run| - 1], t, log))
  }

  ghost predicate AloneRun(s: State, run: seq<Event>, t: string)
    requires ValidRun(s, run)
  {
    run == [] || (AloneRun(s, run[..|run| - 1], t) && Alone(After(s, run[..|run| - 1]), run[|run| - 1], t))
  }

  function Top(s: State, run: seq<Event>, t: string, start: nat): nat
    requires ValidRun(s, run)
  {
    if run == [] then start
    else TopAfter(After(s, run[..|run| - 1]), run[|run| - 1], t, Top(s, run[..|run| - 1], t, start))
  }

  /** What the listeners of the topic got in the run. */
  function Got(s: State, run: seq<Event>, t: string): seq<HcsMessage>
    requires ValidRun(s, run)
  {
    if run == [] then []
    else Got(s, run[..|run| - 1], t) + DeliveredOn(After(s, run[..|run| - 1]), run[|run| - 1], t)
  }

  lemma DeliveredStep(s: State, e: Event, t: string)
    requires Enabled(s, e)
    ensures On(Next(s, e).delivered, t) == On(s.delivered, t) + DeliveredOn(s, e, t)
  {
    OnTagged(s.delivered, Delivered(s, e), Topic(s, e), t);
  }

  lemma {:induction false} GotIsDelivered(s: State, run: seq<Event>, t: string)
    requires ValidRun(s, run)
    ensures On(After(s, run).delivered, t) == On(s.delivered, t) + Got(s, run, t)
  {
    if run == [] {
      assert On(s.delivered, t) + [] == On(s.delivered, t);
    } else {
      var init, e := run[..|run| - 1], run[|run| - 1];
      GotIsDelivered(s, init, t);
      DeliveredStep(After(s, init), e, t);
      Assoc(On(s.delivered, t), Got(s, init, t), DeliveredOn(After(s, init), e, t));
    }
  }

  lemma {:induction false} ProgressRun(s: State, run: seq<Event>, t: string, log: seq<HcsMessage>)
    requires ValidRun(s, run) && Quiet(s, t) && TaskIds(s) && Ascending(log)
    requires FollowsRun(s, run, t, log) && AloneRun(s, run, t)
    ensures Progress(log, t, s.topics.marks[t], Top(s, run, t, s.topics.marks[t]), Got(s, run, t), After(s, run))
  {
    if run != [] {
      var init := run[..|run| - 1];
      ProgressRun(s, init, t, log);
      ProgressStep(log, t, s.topics.marks[t], Top(s, init, t, s.topics.marks[t]), Got(s, init, t), After(s, init), run[|run| - 1]);
    }
  }

  /**
   * Polls of a topic that do not overlap, while everything else, polls of other topics included, interleaves freely: at every
   * moment what the listeners got since the start is ascending, so nothing was delivered twice, and consists of messages of
   * the log above the starting mark. Whenever no poll of the topic is in flight, the mark is the highest number its polls
   * have seen, and every message up to it was delivered or is a connection request that a newer one replaced.
   */
  lemma ConsumedOnce(s: State, run: seq<Event>, t: string, log: seq<HcsMessage>)
    requires ValidRun(s, run) && Quiet(s, t) && TaskIds(s) && Ascending(log)
    requires FollowsRun(s, run, t, log) && AloneRun(s, run, t)
    ensures var n, got, start := After(s, run), Got(s, run, t), s.topics.marks[t];
            && On(n.delivered, t) == On(s.delivered, t) + got
            && Ascending(got) && (forall m <- got :: m in log && m.sequenceNumber > start)
            && (NoPoll(n.tasks, t) ==>
                  && t in n.topics.marks && n.topics.marks[t] == Top(s, run, t, start)
                  && Consumed(log, start, n.topics.marks[t], got))
  {
    var n, got, start, top := After(s, run), Got(s, run, t), s.topics.marks[t], Top(s, run, t, s.topics.marks[t]);
    GotIsDelivered(s, run, t);
    ProgressRun(s, run, t, log);
    if k :| OnlyPoll(n.tasks, t, k) && InPhase(log, start, top, got, n.topics.marks[t], n.tasks[k]) {
      FirstPart(got, n.tasks[k].Held() + n.tasks[k].Queue(), log, start);
    }
  }

  lemma FirstPart(got: seq<HcsMessage>, rest: seq<HcsMessage>, log: seq<HcsMessage>, start: nat)
    requires Ascending(got + rest) && forall m <- got + rest :: m in log && start < m.sequenceNumber
    ensures Ascending(got) && forall m <- got :: m in log && start < m.sequenceNumber
  {
    var all := got + rest;
    assert forall i :: 0 <= i < |got| ==> all[i] == got[i];
    assert forall m <- got :: m in all;
  }

  /** Then the mark never goes back. */
  lemma MarkNeverGoesBack(s: State, run: seq<Event>, e: Event, t: string, log: seq<HcsMessage>)
    requires ValidRun(s, run) && Enabled(After(s, run), e) && Quiet(s, t) && TaskIds(s) && Ascending(log)
    requires FollowsRun(s, run, t, log) && AloneRun(s, run, t) && Follows(After(s, run), e, t, log)
    ensures var b, n := After(s, run), Next(After(s, run), e);
            t in b.topics.marks && t in n.topics.marks && b.topics.marks[t] <= n.topics.marks[t]
  {
    var b, got, start, top := After(s, run), Got(s, run, t), s.topics.marks[t], Top(s, run, t, s.topics.marks[t]);
    ProgressRun(s, run, t, log);
    if !Own(b, e, t) {
      OthersLeave(b, e, t);
    } else if e.Taken? {
      PollInFlight(log, t, start, top, got, b, e.task);
      HeadAbove(log, start, top, got, b.tasks[e.task].queue);
    }
  }

  lemma HeadAbove(log: seq<HcsMessage>, start: nat, top: nat, got: seq<HcsMessage>, queue: seq<HcsMessage>)
    requires Consumed(log, start, top, got + ([] + queue)) && queue != []
    ensures LastNumber(start, got + []) < queue[0].sequenceNumber
  {
    var all := got + ([] + queue);
    assert all[|got|] == queue[0] && all[|got|] in all && got + [] == got;
    if got != [] { assert all[|got| - 1] == got[|got| - 1]; }
  }
}
