/**
 * Two runs of the topic monitor, from its initial state, in which polls of one topic overlap.
 *
 * In the first, a topic of unknown kind delivers a message twice and its mark goes back, so that a third poll, which overlaps
 * with none, delivers another message again. In the second, a connection request on an inbound topic is attempted twice, because
 * both polls check the records of attempts before either has found the agent and written them.
 *
 * A run is built step by step, with the state that every part of it leads to.
 */
module MonitorRuns {
  import opened Common
  import opened Monitor
  import opened MonitorSelection
  import MonitorAttempts
  import MonitorOverlap
  import MonitorSafety

  predicate Step(s: State, e: Event, n: State) {
    Enabled(s, e) && n == Next(s, e)
  }

  predicate StepAt(states: seq<State>, run: seq<Event>, i: nat)
    requires i < |run| && |states| == |run| + 1
  {
    Step(states[i], run[i], states[i + 1])
  }

  ghost predicate Trace(states: seq<State>, run: seq<Event>) {
    |states| == |run| + 1 && forall i: nat :: i < |run| ==> StepAt(states, run, i)
  }

  /** The run leads from one state to the other. */
  ghost predicate Leads(s: State, run: seq<Event>, n: State) {
    exists states :: Trace(states, run) && states[0] == s && states[|run|] == n
  }

  lemma LeadsNowhere(s: State)
    ensures Leads(s, [], s)
  {
    assert Trace([s], []);
  }

  lemma SameStep(states: seq<State>, run: seq<Event>, n: State, e: Event, i: nat)
    requires |states| == |run| + 1 && i < |run|
    ensures StepAt(states + [n], run + [e], i) == StepAt(states, run, i)
  {
    assert (states + [n])[i] == states[i] && (states + [n])[i + 1] == states[i + 1] && (run + [e])[i] == run[i];
  }

  lemma Then(s: State, run: seq<Event>, m: State, e: Event, n: State)
    requires Leads(s, run, m) && Step(m, e, n)
    ensures Leads(s, run + [e], n)
  {
    var states :| Trace(states, run) && states[0] == s && states[|run|] == m;
    TraceMore(states, run, e, n);
    assert (states + [n])[0] == s && (states + [n])[|run + [e]|] == n;
  }

  lemma TraceMore(states: seq<State>, run: seq<Event>, e: Event, n: State)
    requires Trace(states, run) && Step(states[|run|], e, n)
    ensures Trace(states + [n], run + [e])
  {
    forall i: nat | i < |run + [e]| ensures StepAt(states + [n], run + [e], i) {
      if i < |run| { SameStep(states, run, n, e, i); } else { LastStep(states, run, e, n); }
    }
  }

  lemma LastStep(states: seq<State>, run: seq<Event>, e: Event, n: State)
    requires |states| == |run| + 1 && Step(states[|run|], e, n)
    ensures StepAt(states + [n], run + [e], |run|)
  {
  }

  lemma ThenTwo(s: State, run: seq<Event>, m: State, e: Event, f: Event, i: State, n: State)
    requires Leads(s, run, m) && Step(m, e, i) && Step(i, f, n)
    ensures Leads(s, run + [e, f], n)
  {
    Then(s, run, m, e, i);
    Then(s, run + [e], i, f, n);
    assert run + [e] + [f] == run + [e, f];
  }

  lemma {:induction false} TraceIsRun(states: seq<State>, run: seq<Event>)
    requires Trace(states, run)
    ensures ValidRun(states[0], run) && After(states[0], run) == states[|run|]
  {
    if run != [] {
      var k := |run| - 1;
      assert states == states[..|run|] + [states[|run|]] && run == run[..k] + [run[k]];
      forall i: nat | i < k ensures StepAt(states[..|run|], run[..k], i) {
        SameStep(states[..|run|], run[..k], states[|run|], run[k], i);
      }
      TraceIsRun(states[..|run|], run[..k]);
      assert StepAt(states, run, k);
    }
  }

  lemma LeadsIsRun(s: State, run: seq<Event>, n: State)
    requires Leads(s, run, n)
    ensures ValidRun(s, run) && After(s, run) == n
  {
    var states :| Trace(states, run) && states[0] == s && states[|run|] == n;
    TraceIsRun(states, run);
  }

  // ---------------------------------------------------------------- what polls plan of one or two messages

  lemma OnlyOne(plan: seq<HcsMessage>, a: HcsMessage)
    requires Ascending(plan) && forall m :: m in plan <==> m == a
    ensures plan == [a]
  {
    assert a in plan;
    assert plan[0] in plan && plan[|plan| - 1] in plan;
  }

  lemma OnlyTwo(plan: seq<HcsMessage>, a: HcsMessage, b: HcsMessage)
    requires Ascending(plan) && (forall m :: m in plan <==> m == a || m == b) && a.sequenceNumber < b.sequenceNumber
    ensures plan == [a, b]
  {
    assert a in plan && b in plan;
    assert |plan| > 1;
    var n := |plan|;
    assert plan[0] in plan && plan[n - 2] in plan && plan[n - 1] in plan;
    assert plan[n - 1] == b && plan[n - 2] == a && n == 2;
  }

  lemma PlanOfOne(from: nat, inbound: bool, a: HcsMessage)
    requires from < a.sequenceNumber
    ensures Plan(from, inbound, [a]) == [a]
  {
    PlanIsPlan(from, inbound, [a]);
    OnlyOne(Plan(from, inbound, [a]), a);
  }

  lemma PlanOfTwo(from: nat, a: HcsMessage, b: HcsMessage)
    requires from < b.sequenceNumber && a.sequenceNumber < b.sequenceNumber
    ensures Plan(from, false, [a, b]) == if from < a.sequenceNumber then [a, b] else [b]
  {
    PlanIsPlan(from, false, [a, b]);
    if from < a.sequenceNumber { OnlyTwo(Plan(from, false, [a, b]), a, b); } else { OnlyOne(Plan(from, false, [a, b]), b); }
  }

  // ---------------------------------------------------------------- the steps of the runs

  /** A topic is started when it cannot be read, and its interval fires twice. */
  function TwoPolls(t: string): seq<Event> {
    [StartRequested(t), Started(0, None)] + [PollTick(0), PollTick(0)]
  }

  predicate Idling(s: State) {
    s.topics.monitored == {} && s.topics.intervals == map[] && s.topics.nextInterval == 0 && s.tasks == map[] && s.nextTask == 0
  }

  /** Two polls of the topic wait for its messages, from the mark zero. */
  predicate Waiting(s: State, n: State, t: string) {
    && n.tasks == map[1 := Fetching(t, 0), 2 := Fetching(t, 0)] && n.nextTask == 3
    && n.topics.marks == s.topics.marks[t := 0] && n.topics.info == s.topics.info && n.topics.intervals == map[0 := t]
    && n.records == s.records && n.delivered == s.delivered
  }

  lemma StartsTopic(s: State, t: string) returns (i: State, n: State)
    requires Idling(s)
    ensures Step(s, StartRequested(t), i) && Step(i, Started(0, None), n)
    ensures n.tasks == map[] && n.nextTask == 1 && n.topics.intervals == map[0 := t]
    ensures n.topics.marks == s.topics.marks[t := 0] && n.topics.info == s.topics.info
    ensures n.records == s.records && n.delivered == s.delivered
  {
    i := Next(s, StartRequested(t));
    n := Next(i, Started(0, None));
  }

  lemma PollsTwice(s: State, t: string) returns (i: State, n: State)
    requires s.tasks == map[] && s.nextTask == 1 && s.topics.intervals == map[0 := t] && Mark(s.topics, t) == 0
    ensures Step(s, PollTick(0), i) && Step(i, PollTick(0), n)
    ensures n.tasks == map[1 := Fetching(t, 0), 2 := Fetching(t, 0)] && n.nextTask == 3
    ensures n.topics == s.topics && n.records == s.records && n.delivered == s.delivered
  {
    i := Next(s, PollTick(0));
    n := Next(i, PollTick(0));
  }

  lemma TwoPollsBegin(s: State, run: seq<Event>, m: State, t: string) returns (n: State)
    requires Leads(s, run, m) && Idling(m)
    ensures Leads(s, run + TwoPolls(t), n) && Waiting(m, n, t)
  {
    var i, p := StartsTopic(m, t);
    ThenTwo(s, run, m, StartRequested(t), Started(0, None), i, p);
    var j, q := PollsTwice(p, t);
    ThenTwo(s, run + [StartRequested(t), Started(0, None)], p, PollTick(0), PollTick(0), j, q);
    assert run + TwoPolls(t) == run + [StartRequested(t), Started(0, None)] + [PollTick(0), PollTick(0)];
    n := q;
  }

  /** A poll reads a batch of which it handles something. */
  lemma Reads(s: State, k: nat, t: string, from: nat, batch: seq<HcsMessage>, plan: seq<HcsMessage>) returns (n: State)
    requires k in s.tasks && s.tasks[k] == Fetching(t, from) && plan != []
    requires Plan(from, IsInbound(s.topics.info, t), batch) == plan
    ensures Step(s, Fetched(k, batch), n) && n.tasks == s.tasks[k := Taking(t, plan)] && n.nextTask == s.nextTask
    ensures n.topics == s.topics && n.records == s.records && n.delivered == s.delivered
  {
    n := Next(s, Fetched(k, batch));
  }

  lemma ReadsOne(s: State, run: seq<Event>, m: State, k: nat, t: string, a: HcsMessage) returns (n: State)
    requires Leads(s, run, m) && k in m.tasks && m.tasks[k] == Fetching(t, 0) && 0 < a.sequenceNumber
    ensures Leads(s, run + [Fetched(k, [a])], n) && n.tasks == m.tasks[k := Taking(t, [a])] && n.nextTask == m.nextTask
    ensures n.topics == m.topics && n.records == m.records && n.delivered == m.delivered
  {
    PlanOfOne(0, IsInbound(m.topics.info, t), a);
    n := Reads(m, k, t, 0, [a], [a]);
    Then(s, run, m, Fetched(k, [a]), n);
  }

  lemma ReadsTwo(s: State, run: seq<Event>, m: State, k: nat, t: string, a: HcsMessage, b: HcsMessage) returns (n: State)
    requires Leads(s, run, m) && k in m.tasks && m.tasks[k] == Fetching(t, 0) && 0 < a.sequenceNumber < b.sequenceNumber
    requires t !in m.topics.info
    ensures Leads(s, run + [Fetched(k, [a, b])], n) && n.tasks == m.tasks[k := Taking(t, [a, b])] && n.nextTask == m.nextTask
    ensures n.topics == m.topics && n.records == m.records && n.delivered == m.delivered
  {
    PlanOfTwo(0, a, b);
    n := Reads(m, k, t, 0, [a, b], [a, b]);
    Then(s, run, m, Fetched(k, [a, b]), n);
  }

  /** A poll of a topic of unknown kind handles its next message. */
  function Handles(k: nat): seq<Event> {
    [Taken(k, 0, ""), Emitted(k)]
  }

  /** What handling a message changes. */
  predicate Handled(m: State, n: State, k: nat, t: string, queue: seq<HcsMessage>)
    requires queue != []
  {
    && n.tasks == Idle(t, queue[1..], m.tasks, k) && n.nextTask == m.nextTask
    && n.topics == m.topics.(marks := m.topics.marks[t := queue[0].sequenceNumber])
    && n.delivered == m.delivered + [(t, queue[0])]
  }

  lemma HandlesNext(s: State, run: seq<Event>, m: State, k: nat, t: string, queue: seq<HcsMessage>) returns (n: State)
    requires Leads(s, run, m) && k in m.tasks && queue != [] && m.tasks[k] == Taking(t, queue) && t !in m.topics.info
    ensures Leads(s, run + Handles(k), n) && Handled(m, n, k, t, queue)
  {
    var i := TakesNext(m, k, t, queue);
    n := Emits(i, k, t, queue[1..], queue[0]);
    ThenTwo(s, run, m, Taken(k, 0, ""), Emitted(k), i, n);
    IdleAgain(t, queue[1..], m.tasks, k, Emitting(t, queue[1..], queue[0]));
  }

  lemma TakesNext(m: State, k: nat, t: string, queue: seq<HcsMessage>) returns (n: State)
    requires k in m.tasks && queue != [] && m.tasks[k] == Taking(t, queue) && t !in m.topics.info
    ensures Step(m, Taken(k, 0, ""), n)
    ensures n.tasks == m.tasks[k := Emitting(t, queue[1..], queue[0])] && n.nextTask == m.nextTask
    ensures n.topics == m.topics.(marks := m.topics.marks[t := queue[0].sequenceNumber]) && n.delivered == m.delivered
  {
    n := Next(m, Taken(k, 0, ""));
  }

  lemma Emits(m: State, k: nat, t: string, rest: seq<HcsMessage>, message: HcsMessage) returns (n: State)
    requires k in m.tasks && m.tasks[k] == Emitting(t, rest, message)
    ensures Step(m, Emitted(k), n)
    ensures n.tasks == Idle(t, rest, m.tasks, k) && n.nextTask == m.nextTask && n.topics == m.topics
    ensures n.delivered == m.delivered + [(t, message)]
  {
    assert [message][..0] == [] && Tagged([message], t) == [(t, message)];
    n := Next(m, Emitted(k));
  }

  lemma IdleAgain(t: string, rest: seq<HcsMessage>, tasks: map<nat, Task>, k: nat, task: Task)
    ensures Idle(t, rest, tasks[k := task], k) == Idle(t, rest, tasks, k)
  {
  }

  // ---------------------------------------------------------------- the mark goes back

  /**
   * The first of two overlapping polls has read one message, the second two. The second handles both, then the first handles
   * its own: the first message was delivered twice, and the mark is back at it.
   */
  function GoesBack(t: string, a: HcsMessage, b: HcsMessage): seq<Event> {
    TwoPolls(t) + [Fetched(1, [a])] + [Fetched(2, [a, b])] + Handles(2) + Handles(2) + Handles(1)
  }

  lemma AllHandled(m: State, i: State, j: State, n: State, t: string, a: HcsMessage, b: HcsMessage)
    requires m.tasks == map[1 := Taking(t, [a]), 2 := Taking(t, [a, b])]
    requires Handled(m, i, 2, t, [a, b]) && Handled(i, j, 2, t, [b]) && Handled(j, n, 1, t, [a])
    ensures 2 in i.tasks && i.tasks[2] == Taking(t, [b]) && 1 in j.tasks && j.tasks[1] == Taking(t, [a])
    ensures n.tasks == map[] && n.nextTask == m.nextTask && n.delivered == m.delivered + [(t, a), (t, b), (t, a)]
    ensures n.topics.marks == m.topics.marks[t := a.sequenceNumber]
    ensures n.topics.info == m.topics.info && n.topics.intervals == m.topics.intervals
  {
    assert [a, b][1..] == [b] && [b][1..] == [] && [a][1..] == [];
  }

  lemma SecondLeft(m: State, i: State, t: string, a: HcsMessage, b: HcsMessage)
    requires m.tasks == map[1 := Taking(t, [a]), 2 := Taking(t, [a, b])] && Handled(m, i, 2, t, [a, b])
    ensures i.tasks == map[1 := Taking(t, [a]), 2 := Taking(t, [b])] && i.topics.info == m.topics.info
  {
    assert [a, b][1..] == [b];
  }

  lemma FirstLeft(m: State, i: State, t: string, a: HcsMessage, b: HcsMessage)
    requires m.tasks == map[1 := Taking(t, [a]), 2 := Taking(t, [b])] && Handled(m, i, 2, t, [b])
    ensures i.tasks == map[1 := Taking(t, [a])] && i.topics.info == m.topics.info
  {
    assert [b][1..] == [];
  }

  lemma HandlesAll(run: seq<Event>, m: State, t: string, a: HcsMessage, b: HcsMessage) returns (n: State)
    requires Leads(INITIAL, run, m) && m.tasks == map[1 := Taking(t, [a]), 2 := Taking(t, [a, b])] && t !in m.topics.info
    ensures Leads(INITIAL, run + Handles(2) + Handles(2) + Handles(1), n)
    ensures n.tasks == map[] && n.nextTask == m.nextTask && n.delivered == m.delivered + [(t, a), (t, b), (t, a)]
    ensures n.topics.marks == m.topics.marks[t := a.sequenceNumber]
    ensures n.topics.info == m.topics.info && n.topics.intervals == m.topics.intervals
  {
    var i := HandlesNext(INITIAL, run, m, 2, t, [a, b]);
    SecondLeft(m, i, t, a, b);
    var j := HandlesNext(INITIAL, run + Handles(2), i, 2, t, [b]);
    FirstLeft(i, j, t, a, b);
    n := HandlesNext(INITIAL, run + Handles(2) + Handles(2), j, 1, t, [a]);
    AllHandled(m, i, j, n, t, a, b);
  }

  lemma BeginsTwoPolls(t: string) returns (n: State)
    ensures Leads(INITIAL, TwoPolls(t), n) && Waiting(INITIAL, n, t)
  {
    LeadsNowhere(INITIAL);
    n := TwoPollsBegin(INITIAL, [], INITIAL, t);
    assert [] + TwoPolls(t) == TwoPolls(t);
  }

  lemma BothRead(t: string, a: HcsMessage, b: HcsMessage) returns (n: State)
    requires 0 < a.sequenceNumber < b.sequenceNumber
    ensures Leads(INITIAL, TwoPolls(t) + [Fetched(1, [a])] + [Fetched(2, [a, b])], n) && n.delivered == []
    ensures n.tasks == map[1 := Taking(t, [a]), 2 := Taking(t, [a, b])] && n.nextTask == 3
    ensures n.topics.info == map[] && n.topics.intervals == map[0 := t] && n.topics.marks == map[t := 0]
  {
    var w := BeginsTwoPolls(t);
    var i := ReadsOne(INITIAL, TwoPolls(t), w, 1, t, a);
    n := ReadsTwo(INITIAL, TwoPolls(t) + [Fetched(1, [a])], i, 2, t, a, b);
  }

  lemma MarkIsBack(t: string, a: HcsMessage, b: HcsMessage) returns (n: State)
    requires 0 < a.sequenceNumber < b.sequenceNumber
    ensures Leads(INITIAL, GoesBack(t, a, b), n) && n.delivered == [(t, a), (t, b), (t, a)]
    ensures n.tasks == map[] && n.nextTask == 3 && n.topics.info == map[] && n.topics.intervals == map[0 := t]
    ensures n.topics.marks == map[t := a.sequenceNumber]
  {
    var m := BothRead(t, a, b);
    n := HandlesAll(TwoPolls(t) + [Fetched(1, [a])] + [Fetched(2, [a, b])], m, t, a, b);
  }

  /** A third poll, which overlaps with none, begins at the mark that went back. */
  lemma ThirdPoll(run: seq<Event>, m: State, t: string, a: HcsMessage, b: HcsMessage) returns (n: State)
    requires Leads(INITIAL, run, m) && m.tasks == map[] && m.nextTask == 3 && m.topics.info == map[] && m.topics.intervals == map[0 := t]
    requires m.topics.marks == map[t := a.sequenceNumber] && 0 < a.sequenceNumber < b.sequenceNumber
    ensures Leads(INITIAL, run + [PollTick(0), Fetched(3, [a, b])] + Handles(3), n) && n.delivered == m.delivered + [(t, b)]
  {
    var p := Next(m, PollTick(0));
    assert Step(m, PollTick(0), p) && p.tasks == map[3 := Fetching(t, a.sequenceNumber)] && p.topics == m.topics;
    assert p.delivered == m.delivered;
    PlanOfTwo(a.sequenceNumber, a, b);
    var q := Reads(p, 3, t, a.sequenceNumber, [a, b], [b]);
    ThenTwo(INITIAL, run, m, PollTick(0), Fetched(3, [a, b]), p, q);
    n := HandlesNext(INITIAL, run + [PollTick(0), Fetched(3, [a, b])], q, 3, t, [b]);
  }

  /**
   * Two overlapping polls deliver a message twice and leave the mark at it, below a message that was delivered too; even a poll
   * that overlaps with no other then delivers that one again.
   */
  lemma OverlapDeliversAgain(t: string, a: HcsMessage, b: HcsMessage)
    requires 0 < a.sequenceNumber < b.sequenceNumber
    ensures var run := GoesBack(t, a, b);
            && ValidRun(INITIAL, run) && After(INITIAL, run).tasks == map[]
            && After(INITIAL, run).delivered == [(t, a), (t, b), (t, a)] && After(INITIAL, run).topics.marks == map[t := a.sequenceNumber]
            && !MonitorOverlap.Distinct(MonitorSafety.On(After(INITIAL, run).delivered, t))
    ensures var run := GoesBack(t, a, b) + [PollTick(0), Fetched(3, [a, b])] + Handles(3);
            ValidRun(INITIAL, run) && After(INITIAL, run).delivered == [(t, a), (t, b), (t, a), (t, b)]
  {
    var m := MarkIsBack(t, a, b);
    LeadsIsRun(INITIAL, GoesBack(t, a, b), m);
    FirstTwice(t, a, b);
    DeliversAgain(t, a, b, m);
  }

  lemma FirstTwice(t: string, a: HcsMessage, b: HcsMessage)
    ensures !MonitorOverlap.Distinct(MonitorSafety.On([(t, a), (t, b), (t, a)], t))
  {
    assert [] + [(t, a)] == [(t, a)] && [(t, a)] + [(t, b)] == [(t, a), (t, b)] && [(t, a), (t, b)] + [(t, a)] == [(t, a), (t, b), (t, a)];
    MonitorSafety.OnMore([], (t, a), t);
    MonitorSafety.OnMore([(t, a)], (t, b), t);
    MonitorSafety.OnMore([(t, a), (t, b)], (t, a), t);
    assert [a, b, a][0] == [a, b, a][2];
    assert [] + [a] + [b] + [a] == [a, b, a];
  }

  lemma DeliversAgain(t: string, a: HcsMessage, b: HcsMessage, m: State)
    requires Leads(INITIAL, GoesBack(t, a, b), m) && m.delivered == [(t, a), (t, b), (t, a)] && 0 < a.sequenceNumber < b.sequenceNumber
    requires m.tasks == map[] && m.nextTask == 3 && m.topics.info == map[] && m.topics.intervals == map[0 := t]
    requires m.topics.marks == map[t := a.sequenceNumber]
    ensures var run := GoesBack(t, a, b) + [PollTick(0), Fetched(3, [a, b])] + Handles(3);
            ValidRun(INITIAL, run) && After(INITIAL, run).delivered == [(t, a), (t, b), (t, a), (t, b)]
  {
    var n := ThirdPoll(GoesBack(t, a, b), m, t, a, b);
    LeadsIsRun(INITIAL, GoesBack(t, a, b) + [PollTick(0), Fetched(3, [a, b])] + Handles(3), n);
    assert [(t, a), (t, b), (t, a)] + [(t, b)] == [(t, a), (t, b), (t, a), (t, b)];
  }

  // ---------------------------------------------------------------- a request is attempted twice

  /** Two overlapping polls of an inbound topic have both read one connection request. */
  function BothHold(t: string, info: TopicInfo, r: HcsMessage): seq<Event> {
    [TopicRegistered(t, info)] + TwoPolls(t) + [Fetched(1, [r])] + [Fetched(2, [r])]
  }

  lemma Registers(t: string, info: TopicInfo) returns (n: State)
    ensures Leads(INITIAL, [TopicRegistered(t, info)], n) && Idling(n) && n.topics.info == map[t := info] && n.records == INITIAL.records
  {
    n := Next(INITIAL, TopicRegistered(t, info));
    LeadsNowhere(INITIAL);
    Then(INITIAL, [], INITIAL, TopicRegistered(t, info), n);
    assert [] + [TopicRegistered(t, info)] == [TopicRegistered(t, info)];
  }

  lemma BothHaveRequest(t: string, info: TopicInfo, r: HcsMessage) returns (n: State)
    requires info.kind.Inbound? && 0 < r.sequenceNumber
    ensures Leads(INITIAL, BothHold(t, info, r), n)
    ensures n.tasks == map[1 := Taking(t, [r]), 2 := Taking(t, [r])] && n.topics.info == map[t := info] && n.records == INITIAL.records
  {
    var m := Registers(t, info);
    var w := TwoPollsBegin(INITIAL, [TopicRegistered(t, info)], m, t);
    var i := ReadsOne(INITIAL, [TopicRegistered(t, info)] + TwoPolls(t), w, 1, t, r);
    n := ReadsOne(INITIAL, [TopicRegistered(t, info)] + TwoPolls(t) + [Fetched(1, [r])], i, 2, t, r);
  }

  predicate Acceptable(info: TopicInfo, r: HcsMessage) {
    && info.kind.Inbound? && info.characterId != ""
    && r.op.ConnectionRequest? && r.isHcs10 && 0 < r.sequenceNumber && r.data != "" && r.operatorId != ""
  }

  lemma PassesCheck(s: State, k: nat, t: string, info: TopicInfo, r: HcsMessage) returns (n: State)
    requires k in s.tasks && s.tasks[k] == Taking(t, [r]) && t in s.topics.info && s.topics.info[t] == info
    requires Acceptable(info, r) && s.records == INITIAL.records
    ensures Step(s, Taken(k, 1, "a"), n)
    ensures n.tasks == s.tasks[k := Looking(t, [], r, Attempt(t, Request(r), RequestTime(r, 1)), info.characterId)]
    ensures n.topics.info == s.topics.info && n.records == s.records
  {
    assert [r][1..] == [];
    n := Next(s, Taken(k, 1, "a"));
  }

  lemma FindsAgent(s: State, k: nat) returns (n: State)
    requires k in s.tasks && s.tasks[k].Looking?
    ensures Step(s, AgentFound(k, true), n) && n.records.attempted == s.records.attempted + [s.tasks[k].attempt]
    ensures forall j :: j != k ==> (j in n.tasks <==> j in s.tasks) && (j in s.tasks ==> n.tasks[j] == s.tasks[j])
  {
    n := Next(s, AgentFound(k, true));
  }

  /**
   * Two overlapping polls of an inbound topic both check a request before either has found the agent, and both attempt it: the
   * records that should prevent this are written after the agent is found.
   */
  lemma RequestAttemptedTwice(t: string, info: TopicInfo, r: HcsMessage)
    requires Acceptable(info, r)
    ensures var a := Attempt(t, Request(r), RequestTime(r, 1));
            var run := BothHold(t, info, r) + [Taken(1, 1, "a"), Taken(2, 1, "a")] + [AgentFound(1, true), AgentFound(2, true)];
            && ValidRun(INITIAL, run) && After(INITIAL, run).records.attempted == [a, a]
            && !MonitorAttempts.InOrder(After(INITIAL, run).records.attempted)
  {
    var a := Attempt(t, Request(r), RequestTime(r, 1));
    var run := BothHold(t, info, r) + [Taken(1, 1, "a"), Taken(2, 1, "a")];
    var m := BothHaveRequest(t, info, r);
    var i := PassesCheck(m, 1, t, info, r);
    var j := PassesCheck(i, 2, t, info, r);
    ThenTwo(INITIAL, BothHold(t, info, r), m, Taken(1, 1, "a"), Taken(2, 1, "a"), i, j);
    var n := BothAnswered(run, j, a);
    LeadsIsRun(INITIAL, run + [AgentFound(1, true), AgentFound(2, true)], n);
    assert [a, a][0].request == [a, a][1].request;
  }

  lemma BothAnswered(run: seq<Event>, m: State, a: Attempt) returns (n: State)
    requires Leads(INITIAL, run, m) && 1 in m.tasks && 2 in m.tasks && m.tasks[1].Looking? && m.tasks[2].Looking?
    requires m.tasks[1].attempt == m.tasks[2].attempt == a && m.records.attempted == []
    ensures Leads(INITIAL, run + [AgentFound(1, true), AgentFound(2, true)], n) && n.records.attempted == [a, a]
  {
    var i := FindsAgent(m, 1);
    n := FindsAgent(i, 2);
    ThenTwo(INITIAL, run, m, AgentFound(1, true), AgentFound(2, true), i, n);
  }
}
