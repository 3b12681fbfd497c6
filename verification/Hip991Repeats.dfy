/** Which messages the HIP-991 runtime looks at again: the lower bound of a fetch is included. */
module Hip991Repeats {
  import opened Common
  import opened Hip991
  import opened Hip991Invariants

  /** The callback may still look at the message at the timestamp. */
  predicate MayLook(task: Task, a: nat, c: nat) {
    && !task.Initializing? && task.agent == a
    && ((task.Fetching? && task.from <= c) || exists i :: 0 <= i < |task.Queue()| && task.Queue()[i].consensus == c)
  }

  /** The mark of the poller is not above the timestamp, or one of its callbacks may still look at it. */
  ghost predicate InReach(p: Pollers, a: nat, c: nat) {
    (a in p.marks && p.marks[a] <= c) || exists t :: t in p.tasks && MayLook(p.tasks[t], a, c)
  }

  /** A fetch starts from the mark itself. */
  predicate Exact(s: State, e: Event)
    requires Enabled(s, e)
  {
    e.PollTick? ==> e.from == s.pollers.marks[e.agent]
  }

  predicate Looks(s: State, e: Event, a: nat, c: nat)
    requires Enabled(s, e)
  {
    e.NextMessage? && s.pollers.tasks[e.task].agent == a
    && s.pollers.tasks[e.task].queue != [] && s.pollers.tasks[e.task].queue[0].consensus == c
  }

  // ---------------------------------------------------------------- out of reach

  /** Tasks are numbered as they begin. */
  ghost predicate TaskIds(p: Pollers) {
    forall t <- p.tasks :: t < p.nextTask
  }

  lemma IdsStay(s: State, e: Event)
    requires Enabled(s, e) && TaskIds(s.pollers)
    ensures TaskIds(NextPollers(s, e))
  {
  }

  /** The queue of a callback after an event: its batch, what it had, or what it had but for the head. */
  lemma TaskAfter(s: State, e: Event, t: nat)
    requires Enabled(s, e) && TaskIds(s.pollers) && t in NextPollers(s, e).tasks && t in s.pollers.tasks
    ensures var before, task := s.pollers.tasks[t], NextPollers(s, e).tasks[t];
            if before.Initializing? || task.Initializing? then task == before
            else task.agent == before.agent
                 && if e.Fetched? && t == e.task
                    then before.Fetching? && task.Scanning? && before.agent in s.pollers.logs && task.queue == Since(s.pollers.logs[before.agent], before.from)
                    else if before.Fetching? then task == before
                    else !task.Fetching? && (task.Queue() == before.Queue() || (before.Queue() != [] && task.Queue() == before.Queue()[1..]))
  {
  }

  /** A callback after an event may look at a message only if it, or the mark, allowed it before. */
  lemma TaskOutOfReach(s: State, e: Event, a: nat, c: nat, t: nat)
    requires Enabled(s, e) && Exact(s, e) && TaskIds(s.pollers) && !InReach(s.pollers, a, c) && t in NextPollers(s, e).tasks
    ensures !MayLook(NextPollers(s, e).tasks[t], a, c)
  {
    if t in s.pollers.tasks {
      var before, task := s.pollers.tasks[t], NextPollers(s, e).tasks[t];
      TaskAfter(s, e, t);
      assert !MayLook(before, a, c);
      if e.Fetched? && t == e.task {
        forall i | 0 <= i < |task.Queue()| && task.agent == a ensures task.Queue()[i].consensus != c {
          SinceMembers(s.pollers.logs[before.agent], before.from, task.Queue()[i]);
        }
      } else if !before.Initializing? && !before.Fetching? {
        StillNot(before, task, a, c);
      }
    }
  }

  lemma StillNot(before: Task, task: Task, a: nat, c: nat)
    requires !MayLook(before, a, c) && !before.Initializing? && !before.Fetching? && !task.Initializing? && !task.Fetching? && task.agent == before.agent
    requires task.Queue() == before.Queue() || (before.Queue() != [] && task.Queue() == before.Queue()[1..])
    ensures !MayLook(task, a, c)
  {
    forall i | 0 <= i < |task.Queue()| && task.agent == a ensures task.Queue()[i].consensus != c {
      var k := if task.Queue() == before.Queue() then i else i + 1;
      assert before.Queue()[k] == task.Queue()[i];
    }
  }

  lemma LookedIsInReach(s: State, e: Event, a: nat, c: nat)
    requires Enabled(s, e) && Looks(s, e, a, c)
    ensures InReach(s.pollers, a, c)
  {
    assert s.pollers.tasks[e.task].Queue()[0].consensus == c;
    assert MayLook(s.pollers.tasks[e.task], a, c);
  }

  lemma MarkGrows(s: State, e: Event, a: nat)
    requires Enabled(s, e) && a in s.pollers.agents && a in s.pollers.marks
    ensures a in NextPollers(s, e).agents && a in NextPollers(s, e).marks && s.pollers.marks[a] <= NextPollers(s, e).marks[a]
  {
  }

  lemma OutOfReachStays(s: State, e: Event, a: nat, c: nat)
    requires Enabled(s, e) && Exact(s, e) && TaskIds(s.pollers)
    requires a in s.pollers.agents && a in s.pollers.marks && !InReach(s.pollers, a, c)
    ensures var n := NextPollers(s, e); a in n.agents && a in n.marks && !InReach(n, a, c)
  {
    var n := NextPollers(s, e);
    MarkGrows(s, e, a);
    forall t | t in n.tasks ensures !MayLook(n.tasks[t], a, c) { TaskOutOfReach(s, e, a, c, t); }
  }

  predicate ExactRun(s: State, run: seq<Event>)
    requires ValidRun(s, run)
    decreases |run|
  {
    run == [] || (Exact(s, run[0]) && ExactRun(Next(s, run[0]), run[1..]))
  }

  /** Some event of the run looks at the message of the agent's topic at the timestamp. */
  predicate LooksIn(s: State, run: seq<Event>, a: nat, c: nat)
    requires ValidRun(s, run)
    decreases |run|
  {
    run != [] && (Looks(s, run[0], a, c) || LooksIn(Next(s, run[0]), run[1..], a, c))
  }

  lemma {:induction false} OutOfReachForEver(s: State, run: seq<Event>, a: nat, c: nat)
    requires ValidRun(s, run) && ExactRun(s, run) && TaskIds(s.pollers)
    requires a in s.pollers.agents && a in s.pollers.marks && !InReach(s.pollers, a, c)
    ensures !LooksIn(s, run, a, c)
    decreases |run|
  {
    if run != [] {
      IdsStay(s, run[0]);
      OutOfReachStays(s, run[0], a, c);
      OutOfReachForEver(Next(s, run[0]), run[1..], a, c);
      if Looks(s, run[0], a, c) { LookedIsInReach(s, run[0], a, c); }
    }
  }

  // ---------------------------------------------------------------- within reach

  /** Some continuation in which fetches start from the mark looks at the message. */
  ghost predicate CanBeLookedAt(s: State, a: nat, c: nat) {
    exists run :: ValidRun(s, run) && ExactRun(s, run) && LooksIn(s, run, a, c)
  }

  lemma CanLookNow(s: State, t: nat)
    requires Enabled(s, NextMessage(t)) && s.pollers.tasks[t].queue != []
    ensures CanBeLookedAt(s, s.pollers.tasks[t].agent, s.pollers.tasks[t].queue[0].consensus)
  {
    var run := [NextMessage(t)];
    assert run[1..] == [];
    assert Looks(s, run[0], s.pollers.tasks[t].agent, s.pollers.tasks[t].queue[0].consensus);
    assert ValidRun(s, run) && ExactRun(s, run);
  }

  lemma CanLookLater(s: State, e: Event, a: nat, c: nat)
    requires Enabled(s, e) && Exact(s, e) && CanBeLookedAt(Next(s, e), a, c)
    ensures CanBeLookedAt(s, a, c)
  {
    var rest :| ValidRun(Next(s, e), rest) && ExactRun(Next(s, e), rest) && LooksIn(Next(s, e), rest, a, c);
    var run := [e] + rest;
    assert run[1..] == rest;
    assert ValidRun(s, run) && ExactRun(s, run) && LooksIn(s, run, a, c);
  }

  lemma CanVisit(s: State, t: nat)
    requires Inv(s) && t in s.pollers.tasks && s.pollers.tasks[t].Scanning?
    ensures Enabled(s, NextMessage(t))
  {
    assert TaskOk(s.pollers, s.pollers.tasks[t]);
  }

  lemma CanFail(s: State, t: nat)
    requires Inv(s) && t in s.pollers.tasks && s.pollers.tasks[t].IsAnswering()
    ensures Enabled(s, ProcessingFailed(t))
  {
    assert AnsweringOk(s.happened, s.pollers.tasks[t]);
  }

  lemma AfterFailure(s: State, t: nat)
    requires Enabled(s, ProcessingFailed(t))
    ensures var task, n := s.pollers.tasks[t], Next(s, ProcessingFailed(t));
            t in n.pollers.tasks && n.pollers.tasks[t] == Scanning(task.agent, task.queue)
  {
  }

  lemma AfterVisit(s: State, t: nat)
    requires Enabled(s, NextMessage(t)) && s.pollers.tasks[t].queue != []
    ensures var task, n := s.pollers.tasks[t], Next(s, NextMessage(t));
            t in n.pollers.tasks && n.pollers.tasks[t].agent == task.agent && !n.pollers.tasks[t].Initializing?
            && n.pollers.tasks[t].Queue() == task.queue[1..]
  {
  }

  /** The state after one round of the loop, from which whatever can be looked at could be before. */
  lemma VisitGoesOn(s: State, t: nat) returns (n: State)
    requires Inv(s) && t in s.pollers.tasks && s.pollers.tasks[t].Scanning? && s.pollers.tasks[t].queue != []
    ensures Inv(n) && t in n.pollers.tasks
    ensures !n.pollers.tasks[t].Initializing? && n.pollers.tasks[t].agent == s.pollers.tasks[t].agent
    ensures n.pollers.tasks[t].Queue() == s.pollers.tasks[t].queue[1..]
    ensures forall a, c :: CanBeLookedAt(n, a, c) ==> CanBeLookedAt(s, a, c)
  {
    CanVisit(s, t);
    AfterVisit(s, t);
    InvStep(s, NextMessage(t));
    n := Next(s, NextMessage(t));
    forall a, c | CanBeLookedAt(n, a, c) ensures CanBeLookedAt(s, a, c) { CanLookLater(s, NextMessage(t), a, c); }
  }

  /** What the callback answers may fail. */
  lemma FailureGoesOn(s: State, t: nat) returns (n: State)
    requires Inv(s) && t in s.pollers.tasks && s.pollers.tasks[t].IsAnswering()
    ensures Inv(n) && t in n.pollers.tasks && n.pollers.tasks[t] == Scanning(s.pollers.tasks[t].agent, s.pollers.tasks[t].queue)
    ensures forall a, c :: CanBeLookedAt(n, a, c) ==> CanBeLookedAt(s, a, c)
  {
    CanFail(s, t);
    AfterFailure(s, t);
    InvStep(s, ProcessingFailed(t));
    n := Next(s, ProcessingFailed(t));
    forall a, c | CanBeLookedAt(n, a, c) ensures CanBeLookedAt(s, a, c) { CanLookLater(s, ProcessingFailed(t), a, c); }
  }

  lemma FirstIsLookedAt(s: State, t: nat)
    requires Inv(s) && t in s.pollers.tasks && s.pollers.tasks[t].Scanning? && s.pollers.tasks[t].queue != []
    ensures CanBeLookedAt(s, s.pollers.tasks[t].agent, s.pollers.tasks[t].queue[0].consensus)
  {
    CanVisit(s, t);
    CanLookNow(s, t);
  }

  /** A callback gets to any message of its queue. */
  lemma {:induction false} QueueIsLookedAt(s: State, t: nat, i: nat)
    requires Inv(s) && t in s.pollers.tasks && i < |s.pollers.tasks[t].Queue()|
    ensures CanBeLookedAt(s, s.pollers.tasks[t].agent, s.pollers.tasks[t].Queue()[i].consensus)
    decreases i, 1
  {
    if s.pollers.tasks[t].IsAnswering() {
      var n := FailureGoesOn(s, t);
      ScannedIsLookedAt(n, t, i);
    } else {
      ScannedIsLookedAt(s, t, i);
    }
  }

  lemma {:induction false} ScannedIsLookedAt(s: State, t: nat, i: nat)
    requires Inv(s) && t in s.pollers.tasks && s.pollers.tasks[t].Scanning? && i < |s.pollers.tasks[t].queue|
    ensures CanBeLookedAt(s, s.pollers.tasks[t].agent, s.pollers.tasks[t].queue[i].consensus)
    decreases i, 0
  {
    if i == 0 {
      FirstIsLookedAt(s, t);
    } else {
      LaterIsLookedAt(s, t, i);
    }
  }

  lemma {:induction false} LaterIsLookedAt(s: State, t: nat, i: nat)
    requires Inv(s) && t in s.pollers.tasks && s.pollers.tasks[t].Scanning? && 0 < i < |s.pollers.tasks[t].queue|
    ensures CanBeLookedAt(s, s.pollers.tasks[t].agent, s.pollers.tasks[t].queue[i].consensus)
    decreases i - 1, 2
  {
    var n := VisitGoesOn(s, t);
    QueueIsLookedAt(n, t, i - 1);
  }

  lemma FetchedIsLookedAt(s: State, t: nat, m: RawMessage)
    requires Inv(s) && t in s.pollers.tasks && s.pollers.tasks[t].Fetching? && s.pollers.tasks[t].from <= m.consensus
    requires s.pollers.tasks[t].agent in s.pollers.logs && m in s.pollers.logs[s.pollers.tasks[t].agent]
    ensures CanBeLookedAt(s, s.pollers.tasks[t].agent, m.consensus)
  {
    var task := s.pollers.tasks[t];
    var batch := Since(s.pollers.logs[task.agent], task.from);
    SinceMembers(s.pollers.logs[task.agent], task.from, m);
    var i :| 0 <= i < |batch| && batch[i] == m;
    InvStep(s, Fetched(t));
    assert Next(s, Fetched(t)).pollers.tasks[t] == Scanning(task.agent, batch);
    ScannedIsLookedAt(Next(s, Fetched(t)), t, i);
    CanLookLater(s, Fetched(t), task.agent, m.consensus);
  }

  lemma PolledIsLookedAt(s: State, a: nat, m: RawMessage)
    requires Inv(s) && a in s.pollers.agents && m in s.pollers.logs[a] && s.pollers.marks[a] <= m.consensus
    ensures CanBeLookedAt(s, a, m.consensus)
  {
    var e := PollTick(a, s.pollers.marks[a]);
    InvStep(s, e);
    FetchedIsLookedAt(Next(s, e), s.pollers.nextTask, m);
    CanLookLater(s, e, a, m.consensus);
  }

  /**
   * In every reachable state, and with fetches that start from the mark: a message of a topic can still be looked at, for the
   * first time or again, exactly if the mark of its poller is not above it or a callback in flight was begun before that and
   * has not passed it. So the newest message is looked at for ever, and every other one only by callbacks that overlap.
   */
  lemma CanBeLookedAtIff(run: seq<Event>, a: nat, m: RawMessage)
    requires ValidRun(INITIAL, run)
    requires var p := After(INITIAL, run).pollers; a in p.agents && a in p.logs && m in p.logs[a]
    ensures CanBeLookedAt(After(INITIAL, run), a, m.consensus) <==> InReach(After(INITIAL, run).pollers, a, m.consensus)
  {
    var s := After(INITIAL, run);
    InvAlways(run);
    if InReach(s.pollers, a, m.consensus) {
      ReachIsLookedAt(s, a, m);
    } else {
      forall more | ValidRun(s, more) && ExactRun(s, more) ensures !LooksIn(s, more, a, m.consensus) {
        OutOfReachForEver(s, more, a, m.consensus);
      }
    }
  }

  lemma ReachIsLookedAt(s: State, a: nat, m: RawMessage)
    requires Inv(s) && a in s.pollers.agents && m in s.pollers.logs[a] && InReach(s.pollers, a, m.consensus)
    ensures CanBeLookedAt(s, a, m.consensus)
  {
    if s.pollers.marks[a] <= m.consensus {
      PolledIsLookedAt(s, a, m);
    } else {
      var t :| t in s.pollers.tasks && MayLook(s.pollers.tasks[t], a, m.consensus);
      if s.pollers.tasks[t].Fetching? {
        FetchedIsLookedAt(s, t, m);
      } else {
        var i :| 0 <= i < |s.pollers.tasks[t].Queue()| && s.pollers.tasks[t].Queue()[i].consensus == m.consensus;
        QueueIsLookedAt(s, t, i);
      }
    }
  }

  // ---------------------------------------------------------------- the newest message

  /** A topic's timestamps increase, and nothing was cached in the future. */
  ghost predicate InOrder(s: State) {
    && (forall a <- s.pollers.logs :: forall i, j :: 0 <= i < j < |s.pollers.logs[a]| ==>
          s.pollers.logs[a][i].consensus < s.pollers.logs[a][j].consensus)
    && (forall id <- s.cache :: s.cache[id].timestamp <= s.now)
  }

  lemma InOrderStep(s: State, e: Event)
    requires Enabled(s, e) && InOrder(s)
    ensures InOrder(Next(s, e))
  {
    if e.Post? {
      forall x | x in s.pollers.logs[e.agent] ensures x.consensus < e.message.consensus { }
      assert forall i :: 0 <= i < |s.pollers.logs[e.agent]| ==> s.pollers.logs[e.agent][i] in s.pollers.logs[e.agent];
    }
  }

  lemma {:induction false} InOrderRun(s: State, run: seq<Event>)
    requires ValidRun(s, run) && InOrder(s)
    ensures InOrder(After(s, run))
    decreases |run|
  {
    if run != [] {
      InOrderStep(s, run[0]);
      InOrderRun(Next(s, run[0]), run[1..]);
    }
  }

  lemma {:induction false} SinceNone(log: seq<RawMessage>, from: nat)
    requires forall x <- log :: x.consensus < from
    ensures Since(log, from) == []
  {
    if log != [] {
      assert log[|log| - 1] in log && forall x <- log[..|log| - 1] :: x in log;
      SinceNone(log[..|log| - 1], from);
    }
  }

  /** From the timestamp of the newest message on, there is just that message. */
  lemma SinceNewest(log: seq<RawMessage>)
    requires log != [] && forall i, j :: 0 <= i < j < |log| ==> log[i].consensus < log[j].consensus
    ensures Since(log, log[|log| - 1].consensus) == [log[|log| - 1]]
  {
    SinceNone(log[..|log| - 1], log[|log| - 1].consensus);
  }

  /** The message can be answered, whatever is cached. */
  predicate Answerable(m: RawMessage) {
    m.content.Some? && Filled(m.content.value.prompt) && Filled(m.content.value.responseId)
  }

  predicate StepAt(states: seq<State>, run: seq<Event>, i: nat)
    requires i < |run| && |states| == |run| + 1
  {
    Enabled(states[i], run[i]) && states[i + 1] == Next(states[i], run[i])
  }

  ghost predicate Trace(states: seq<State>, run: seq<Event>) {
    |states| == |run| + 1 && forall i: nat :: i < |run| ==> StepAt(states, run, i)
  }

  /** The run leads from one state to the other. */
  ghost predicate Leads(s: State, run: seq<Event>, n: State) {
    exists states :: Trace(states, run) && states[0] == s && states[|run|] == n
  }

  lemma OneEventLeads(s: State, e: Event)
    requires Enabled(s, e)
    ensures Leads(s, [e], Next(s, e))
  {
    var states := [s, Next(s, e)];
    assert StepAt(states, [e], 0);
    assert Trace(states, [e]);
  }

  lemma SameStep(a: seq<State>, run: seq<Event>, b: seq<State>, more: seq<Event>, i: nat)
    requires |a| == |run| + 1 && |b| == |more| + 1 && a[|run|] == b[0] && i < |run| + |more|
    ensures StepAt(a + b[1..], run + more, i) == if i < |run| then StepAt(a, run, i) else StepAt(b, more, i - |run|)
  {
    var all := a + b[1..];
    if i < |run| {
      assert all[i] == a[i] && all[i + 1] == a[i + 1];
    } else {
      assert all[i] == b[i - |run|] && all[i + 1] == b[i - |run| + 1];
    }
  }

  lemma LeadsOn(s: State, run: seq<Event>, m: State, more: seq<Event>, n: State)
    requires Leads(s, run, m) && Leads(m, more, n)
    ensures Leads(s, run + more, n)
  {
    var a :| Trace(a, run) && a[0] == s && a[|run|] == m;
    var b :| Trace(b, more) && b[0] == m && b[|more|] == n;
    forall i: nat | i < |run + more| ensures StepAt(a + b[1..], run + more, i) { SameStep(a, run, b, more, i); }
    assert Trace(a + b[1..], run + more) && (a + b[1..])[|run + more|] == n;
  }

  lemma StepLater(states: seq<State>, run: seq<Event>, i: nat)
    requires |states| == |run| + 1 && 0 < |run| && i < |run[1..]|
    ensures StepAt(states[1..], run[1..], i) == StepAt(states, run, i + 1)
  {
  }

  lemma {:induction false} TraceIsRun(states: seq<State>, run: seq<Event>)
    requires Trace(states, run)
    ensures ValidRun(states[0], run) && After(states[0], run) == states[|run|]
    decreases |run|
  {
    if run != [] {
      forall i: nat | i < |run[1..]| ensures StepAt(states[1..], run[1..], i) { StepLater(states, run, i); }
      TraceIsRun(states[1..], run[1..]);
      assert StepAt(states, run, 0);
    }
  }

  lemma LeadsIsRun(s: State, run: seq<Event>, n: State)
    requires Leads(s, run, n)
    ensures ValidRun(s, run) && After(s, run) == n
  {
    var states :| Trace(states, run) && states[0] == s && states[|run|] == n;
    TraceIsRun(states, run);
  }

  lemma TwoEventsLead(s: State, e: Event, m: State, f: Event)
    requires Enabled(s, e) && m == Next(s, e) && Enabled(m, f)
    ensures Leads(s, [e, f], Next(m, f))
  {
    OneEventLeads(s, e);
    OneEventLeads(m, f);
    LeadsOn(s, [e], m, [f], Next(m, f));
    assert [e] + [f] == [e, f];
  }

  /** Once the time to live of every entry is over, collecting garbage empties the cache. */
  lemma CacheEmpties(s: State) returns (n: State)
    requires InOrder(s)
    ensures Leads(s, [Tick(s.now + MESSAGE_CACHE_TTL + 1), CollectGarbage], n)
    ensures n.cache == map[] && n.now == s.now + MESSAGE_CACHE_TTL + 1 && n.pollers == s.pollers && n.happened == s.happened
  {
    var m := Next(s, Tick(s.now + MESSAGE_CACHE_TTL + 1));
    n := Next(m, CollectGarbage);
    TwoEventsLead(s, Tick(s.now + MESSAGE_CACHE_TTL + 1), m, CollectGarbage);
  }

  lemma NewestRead(s: State, a: nat, m: RawMessage) returns (n: State)
    requires a in s.pollers.agents && a in s.pollers.marks && a in s.pollers.logs && s.pollers.marks[a] == m.consensus
    requires Since(s.pollers.logs[a], m.consensus) == [m]
    ensures Leads(s, [PollTick(a, m.consensus), Fetched(s.pollers.nextTask)], n)
    ensures var t := s.pollers.nextTask;
            t in n.pollers.tasks && n.pollers.tasks[t] == Scanning(a, [m]) && a in n.pollers.agents && a in n.pollers.marks
    ensures n.cache == s.cache && n.now == s.now && n.happened == s.happened
  {
    var t, p := s.pollers.nextTask, Next(s, PollTick(a, m.consensus));
    assert p.pollers.tasks[t] == Fetching(a, m.consensus) && p.pollers.logs == s.pollers.logs;
    n := Next(p, Fetched(t));
    TwoEventsLead(s, PollTick(a, m.consensus), p, Fetched(t));
  }

  lemma NewestPasses(s: State, t: nat, a: nat, m: RawMessage) returns (n: State)
    requires t in s.pollers.tasks && s.pollers.tasks[t] == Scanning(a, [m]) && a in s.pollers.agents && a in s.pollers.marks
    requires s.cache == map[] && Answerable(m)
    ensures Leads(s, [NextMessage(t)], n)
    ensures n.happened == s.happened + [Passed(m.content.value.id, m.content.value.responseId.value, s.now)]
  {
    n := Next(s, NextMessage(t));
    OneEventLeads(s, NextMessage(t));
  }

  /** Waiting for the time to live, collecting garbage and a poll from the mark. */
  function WaitAndPoll(s: State, a: nat): seq<Event>
    requires a in s.pollers.marks
  {
    [Tick(s.now + MESSAGE_CACHE_TTL + 1), CollectGarbage]
    + [PollTick(a, s.pollers.marks[a]), Fetched(s.pollers.nextTask)] + [NextMessage(s.pollers.nextTask)]
  }

  /**
   * In every reachable state in which the newest message of a topic is at the mark: when the time to live is over and garbage
   * has been collected, the next poll lets that message through again, although nothing was posted since.
   */
  lemma NewestPassesAgain(run: seq<Event>, a: nat, m: RawMessage)
    requires ValidRun(INITIAL, run)
    requires var p := After(INITIAL, run).pollers;
             && a in p.agents && a in p.marks && a in p.logs && p.logs[a] != [] && p.logs[a][|p.logs[a]| - 1] == m
             && p.marks[a] == m.consensus && Answerable(m)
    ensures var s := After(INITIAL, run);
            ValidRun(s, WaitAndPoll(s, a)) &&
            After(s, WaitAndPoll(s, a)).happened
            == s.happened + [Passed(m.content.value.id, m.content.value.responseId.value, s.now + MESSAGE_CACHE_TTL + 1)]
  {
    var s := After(INITIAL, run);
    InOrderRun(INITIAL, run);
    PassesAfterWaiting(s, a, m);
  }

  lemma PassesAfterWaiting(s: State, a: nat, m: RawMessage)
    requires InOrder(s) && a in s.pollers.agents && a in s.pollers.marks && a in s.pollers.logs && s.pollers.logs[a] != []
    requires s.pollers.logs[a][|s.pollers.logs[a]| - 1] == m && s.pollers.marks[a] == m.consensus && Answerable(m)
    ensures ValidRun(s, WaitAndPoll(s, a))
    ensures After(s, WaitAndPoll(s, a)).happened
            == s.happened + [Passed(m.content.value.id, m.content.value.responseId.value, s.now + MESSAGE_CACHE_TTL + 1)]
  {
    var n := WaitingLeads(s, a, m);
    LeadsIsRun(s, WaitAndPoll(s, a), n);
  }

  lemma WaitingLeads(s: State, a: nat, m: RawMessage) returns (n: State)
    requires InOrder(s) && a in s.pollers.agents && a in s.pollers.marks && a in s.pollers.logs && s.pollers.logs[a] != []
    requires s.pollers.logs[a][|s.pollers.logs[a]| - 1] == m && s.pollers.marks[a] == m.consensus && Answerable(m)
    ensures Leads(s, WaitAndPoll(s, a), n)
    ensures n.happened == s.happened + [Passed(m.content.value.id, m.content.value.responseId.value, s.now + MESSAGE_CACHE_TTL + 1)]
  {
    SinceNewest(s.pollers.logs[a]);
    var s2 := CacheEmpties(s);
    var s4 := NewestRead(s2, a, m);
    n := NewestPasses(s4, s.pollers.nextTask, a, m);
    var wait, poll := [Tick(s.now + MESSAGE_CACHE_TTL + 1), CollectGarbage], [PollTick(a, m.consensus), Fetched(s.pollers.nextTask)];
    LeadsOn(s, wait, s2, poll, s4);
    LeadsOn(s, wait + poll, s4, [NextMessage(s.pollers.nextTask)], n);
  }
}
