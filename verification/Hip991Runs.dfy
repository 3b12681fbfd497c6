/**
 * Two runs of the HIP-991 runtime from its initial state.
 *
 * In the first, two polls overlap, and two messages that name one response are both answered under it: the second gets through
 * the guard while the first is being answered, because only a finished answer is cached. In the second, one question, the only
 * message ever posted on its topic, gets through the guard twice: a poll still returns it when its cache entry has expired.
 *
 * A run is built step by step, with the state that every part of it leads to.
 */
module Hip991Runs {
  import opened Common
  import opened Hip991
  import opened Hip991Race
  import opened Hip991Repeats

  // ---------------------------------------------------------------- one response answered twice

  lemma {:induction false} RunAppend(s: State, run: seq<Event>, e: Event)
    requires ValidRun(s, run) && Enabled(After(s, run), e)
    ensures ValidRun(s, run + [e]) && After(s, run + [e]) == Next(After(s, run), e)
    decreases |run|
  {
    if run == [] {
      assert ValidRun(Next(s, e), []);
      assert (run + [e])[1..] == [];
    } else {
      RunAppend(Next(s, run[0]), run[1..], e);
      assert (run + [e])[1..] == run[1..] + [e];
    }
  }

  /** One more event at the end of a run, when the state it leads to is known. */
  lemma Extend(run: seq<Event>, from: State, e: Event, to: State) returns (longer: seq<Event>)
    requires ValidRun(INITIAL, run) && After(INITIAL, run) == from && Enabled(from, e) && Next(from, e) == to
    ensures ValidRun(INITIAL, longer) && After(INITIAL, longer) == to
  {
    RunAppend(INITIAL, run, e);
    longer := run + [e];
  }

  function Ask(id: string): TopicMessage {
    TopicMessage(id, Some("hello"), None, None, Some("r"), 0)
  }

  /** At time 0 the topic of one agent holds two messages that name the same response; its poller runs callbacks. */
  function Stage(mark: nat, tasks: map<nat, Task>, nextTask: nat, visited: set<(nat, nat)>,
                 cache: map<string, CacheEntry>, happened: seq<Happening>): State
  {
    State(0, cache, INITIAL.waiters,
          Pollers(map[0 := Agent("u", true, 0)], map["u" := 0],
                  map[0 := [RawMessage(1, Some(Ask("a"))), RawMessage(2, Some(Ask("b")))]],
                  map[0 := mark], tasks, nextTask, visited),
          happened)
  }

  lemma Overwrite<T>(x: T, y: T)
    ensures map[0 := x][0 := y] == map[0 := y]
  {
  }

  lemma StagePosted() returns (run: seq<Event>)
    ensures ValidRun(INITIAL, run) && After(INITIAL, run) == Stage(0, map[], 1, {}, map[], [])
  {
    var m, n := RawMessage(1, Some(Ask("a"))), RawMessage(2, Some(Ask("b")));
    var s1 := INITIAL.(pollers := INITIAL.pollers.(tasks := map[0 := Initializing("u")], nextTask := 1));
    run := Extend([], INITIAL, BeginInitialize("u"), s1);
    assert s1.pollers.tasks - {0} == map[];
    var s4 := Stage(0, map[], 1, {}, map[], []);
    var s2 := s4.(pollers := s4.pollers.(logs := map[0 := []]));
    run := Extend(run, s1, FinishInitialize(0, 0), s2);
    Overwrite([], [m]);
    assert [] + [m] == [m];
    var s3 := s4.(pollers := s4.pollers.(logs := map[0 := [m]]));
    run := Extend(run, s2, Post(0, m), s3);
    Overwrite([m], [m, n]);
    assert [m] + [n] == [m, n];
    run := Extend(run, s3, Post(0, n), s4);
  }

  lemma SinceMore(log: seq<RawMessage>, m: RawMessage, from: nat)
    ensures Since(log + [m], from) == Since(log, from) + (if from <= m.consensus then [m] else [])
  {
    assert (log + [m])[..|log|] == log;
  }

  lemma BothSince(log: seq<RawMessage>, mark: nat)
    requires |log| == 2 && mark <= log[0].consensus && mark <= log[1].consensus
    ensures Since(log, mark) == log
  {
    SinceMore([], log[0], mark);
    SinceMore([log[0]], log[1], mark);
    assert [] + [log[0]] == [log[0]] && [log[0]] + [log[1]] == log;
  }

  /** A callback is started and gets both messages, whatever the others are doing. */
  lemma StagePoll(run: seq<Event>, mark: nat, tasks: map<nat, Task>, t: nat, visited: set<(nat, nat)>,
                  cache: map<string, CacheEntry>, h: seq<Happening>) returns (longer: seq<Event>)
    requires mark <= 1 && t !in tasks
    requires ValidRun(INITIAL, run) && After(INITIAL, run) == Stage(mark, tasks, t, visited, cache, h)
    ensures ValidRun(INITIAL, longer)
    ensures var log := [RawMessage(1, Some(Ask("a"))), RawMessage(2, Some(Ask("b")))];
            After(INITIAL, longer) == Stage(mark, tasks[t := Scanning(0, log)], t + 1, visited, cache, h)
  {
    var s1 := Stage(mark, tasks[t := Fetching(0, mark)], t + 1, visited, cache, h);
    longer := Extend(run, Stage(mark, tasks, t, visited, cache, h), PollTick(0, mark), s1);
    longer := StageFetch(longer, mark, tasks, t, visited, cache, h);
  }

  lemma StageFetch(run: seq<Event>, mark: nat, tasks: map<nat, Task>, t: nat, visited: set<(nat, nat)>,
                   cache: map<string, CacheEntry>, h: seq<Happening>) returns (longer: seq<Event>)
    requires mark <= 1 && t !in tasks
    requires ValidRun(INITIAL, run)
    requires After(INITIAL, run) == Stage(mark, tasks[t := Fetching(0, mark)], t + 1, visited, cache, h)
    ensures ValidRun(INITIAL, longer)
    ensures var log := [RawMessage(1, Some(Ask("a"))), RawMessage(2, Some(Ask("b")))];
            After(INITIAL, longer) == Stage(mark, tasks[t := Scanning(0, log)], t + 1, visited, cache, h)
  {
    var log := [RawMessage(1, Some(Ask("a"))), RawMessage(2, Some(Ask("b")))];
    BothSince(log, mark);
    BatchArrives(Stage(mark, tasks[t := Fetching(0, mark)], t + 1, visited, cache, h), t, mark, log);
    assert tasks[t := Fetching(0, mark)][t := Scanning(0, log)] == tasks[t := Scanning(0, log)];
    longer := Extend(run, Stage(mark, tasks[t := Fetching(0, mark)], t + 1, visited, cache, h), Fetched(t),
                     Stage(mark, tasks[t := Scanning(0, log)], t + 1, visited, cache, h));
  }

  lemma BatchArrives(s: State, t: nat, mark: nat, log: seq<RawMessage>)
    requires t in s.pollers.tasks && s.pollers.tasks[t] == Fetching(0, mark) && 0 in s.pollers.logs && s.pollers.logs[0] == log
    requires log != [] && Since(log, mark) == log
    ensures Enabled(s, Fetched(t)) && Next(s, Fetched(t)) == s.(pollers := s.pollers.(tasks := s.pollers.tasks[t := Scanning(0, log)]))
  {
  }

  lemma StageFirst() returns (run: seq<Event>)
    ensures ValidRun(INITIAL, run)
    ensures After(INITIAL, run) ==
              Stage(1, map[1 := Generating(0, [RawMessage(2, Some(Ask("b")))], Ask("a"))], 2, {(0, 1)},
                    map["a" := CacheEntry(Ask("a"), 0)], [Passed("a", "r", 0)])
  {
    run := StagePosted();
    run := StagePoll(run, 0, map[], 1, {}, map[], []);
    var log := [RawMessage(1, Some(Ask("a"))), RawMessage(2, Some(Ask("b")))];
    assert map[][1 := Scanning(0, log)] == map[1 := Scanning(0, log)];
    run := StagePass(run, log);
  }

  /** The first message gets through the guard. */
  lemma StagePass(run: seq<Event>, log: seq<RawMessage>) returns (longer: seq<Event>)
    requires log == [RawMessage(1, Some(Ask("a"))), RawMessage(2, Some(Ask("b")))]
    requires ValidRun(INITIAL, run) && After(INITIAL, run) == Stage(0, map[1 := Scanning(0, log)], 2, {}, map[], [])
    ensures ValidRun(INITIAL, longer)
    ensures After(INITIAL, longer) ==
              Stage(1, map[1 := Generating(0, [RawMessage(2, Some(Ask("b")))], Ask("a"))], 2, {(0, 1)},
                    map["a" := CacheEntry(Ask("a"), 0)], [Passed("a", "r", 0)])
  {
    var rest := [RawMessage(2, Some(Ask("b")))];
    var before := Stage(0, map[1 := Scanning(0, log)], 2, {}, map[], []);
    var after := Stage(1, map[1 := Generating(0, rest, Ask("a"))], 2, {(0, 1)}, map["a" := CacheEntry(Ask("a"), 0)], [Passed("a", "r", 0)]);
    assert log[1..] == rest;
    StagePassPollers(before, log, rest);
    assert Next(before, NextMessage(1)) == after;
    longer := Extend(run, before, NextMessage(1), after);
  }

  lemma StagePassPollers(s: State, log: seq<RawMessage>, rest: seq<RawMessage>)
    requires log == [RawMessage(1, Some(Ask("a"))), RawMessage(2, Some(Ask("b")))] && log[1..] == rest
    requires s == Stage(0, map[1 := Scanning(0, log)], 2, {}, map[], [])
    ensures Enabled(s, NextMessage(1)) && Admitted(s, 1) == Some(Ask("a"))
    ensures NextPollers(s, NextMessage(1)) == Stage(1, map[1 := Generating(0, rest, Ask("a"))], 2, {(0, 1)}, map[], []).pollers
  {
    Overwrite(0, 1);
    Overwrite(Agent("u", true, 0), Agent("u", true, 0));
    var tasks := map[1 := Scanning(0, log)];
    assert tasks[1 := Generating(0, rest, Ask("a"))] == map[1 := Generating(0, rest, Ask("a"))];
  }

  /** An overlapping callback skips the first message, which is cached, while "r" is being answered. */
  lemma StageSecond(first: Task, cache: map<string, CacheEntry>) returns (run: seq<Event>)
    requires first == Generating(0, [RawMessage(2, Some(Ask("b")))], Ask("a"))
    requires cache == map["a" := CacheEntry(Ask("a"), 0)]
    ensures ValidRun(INITIAL, run)
    ensures After(INITIAL, run) == Stage(1, map[1 := first, 2 := Scanning(0, [RawMessage(2, Some(Ask("b")))])], 3, {(0, 1)},
                                         cache, [Passed("a", "r", 0)])
  {
    run := StageFirst();
    run := StagePoll(run, 1, map[1 := first], 2, {(0, 1)}, cache, [Passed("a", "r", 0)]);
    var log := [RawMessage(1, Some(Ask("a"))), RawMessage(2, Some(Ask("b")))];
    run := StageSkip(run, first, cache, log);
  }

  lemma StageSkip(run: seq<Event>, first: Task, cache: map<string, CacheEntry>, log: seq<RawMessage>) returns (longer: seq<Event>)
    requires cache == map["a" := CacheEntry(Ask("a"), 0)]
    requires log == [RawMessage(1, Some(Ask("a"))), RawMessage(2, Some(Ask("b")))]
    requires ValidRun(INITIAL, run)
    requires After(INITIAL, run) == Stage(1, map[1 := first][2 := Scanning(0, log)], 3, {(0, 1)}, cache, [Passed("a", "r", 0)])
    ensures ValidRun(INITIAL, longer)
    ensures After(INITIAL, longer) ==
              Stage(1, map[1 := first, 2 := Scanning(0, [RawMessage(2, Some(Ask("b")))])], 3, {(0, 1)}, cache, [Passed("a", "r", 0)])
  {
    var tasks := map[1 := first][2 := Scanning(0, log)];
    var rest := [RawMessage(2, Some(Ask("b")))];
    Overwrite(1, 1);
    assert log[1..] == rest && {(0, 1)} + {(0, 1)} == {(0, 1)};
    assert tasks[2 := Scanning(0, rest)] == map[1 := first, 2 := Scanning(0, rest)];
    longer := Extend(run, Stage(1, tasks, 3, {(0, 1)}, cache, [Passed("a", "r", 0)]), NextMessage(2),
                     Stage(1, map[1 := first, 2 := Scanning(0, rest)], 3, {(0, 1)}, cache, [Passed("a", "r", 0)]));
  }

  /** The second message gets through the guard although "r" is being answered. */
  lemma StageThird(s: State, first: Task, cache: map<string, CacheEntry>)
    requires cache == map["a" := CacheEntry(Ask("a"), 0)]
    requires s == Stage(1, map[1 := first, 2 := Scanning(0, [RawMessage(2, Some(Ask("b")))])], 3, {(0, 1)}, cache, [Passed("a", "r", 0)])
    ensures Enabled(s, NextMessage(2)) && Admitted(s, 2) == Some(Ask("b"))
    ensures var n := Next(s, NextMessage(2));
            && n.happened == [Passed("a", "r", 0), Passed("b", "r", 0)] && n.now == 0
            && 1 in n.pollers.tasks && n.pollers.tasks[1] == first
            && 2 in n.pollers.tasks && n.pollers.tasks[2] == Generating(0, [], Ask("b"))
  {
  }

  /** A run that ends with two answers under one response id. */
  lemma OneResponseAnsweredTwice() returns (run: seq<Event>)
    ensures ValidRun(INITIAL, run)
    ensures After(INITIAL, run).happened ==
              [Passed("a", "r", 0), Passed("b", "r", 0), Answered("a", "r", 0, "x"), Answered("b", "r", 0, "y")]
  {
    var first := Generating(0, [RawMessage(2, Some(Ask("b")))], Ask("a"));
    var cache := map["a" := CacheEntry(Ask("a"), 0)];
    run := StageSecond(first, cache);
    StageThird(After(INITIAL, run), first, cache);
    run := Step(run, NextMessage(2));
    run := BothAnswered(run, first);
  }

  lemma BothAnswered(run: seq<Event>, first: Task) returns (longer: seq<Event>)
    requires ValidRun(INITIAL, run) && first == Generating(0, [RawMessage(2, Some(Ask("b")))], Ask("a"))
    requires var s := After(INITIAL, run);
             && s.happened == [Passed("a", "r", 0), Passed("b", "r", 0)] && s.now == 0
             && 1 in s.pollers.tasks && s.pollers.tasks[1] == first
             && 2 in s.pollers.tasks && s.pollers.tasks[2] == Generating(0, [], Ask("b"))
    ensures ValidRun(INITIAL, longer)
    ensures After(INITIAL, longer).happened ==
              [Passed("a", "r", 0), Passed("b", "r", 0), Answered("a", "r", 0, "x"), Answered("b", "r", 0, "y")]
  {
    longer := RunAnswer(run, 1, "x");
    assert After(INITIAL, longer).happened == [Passed("a", "r", 0), Passed("b", "r", 0), Answered("a", "r", 0, "x")];
    longer := RunAnswer(longer, 2, "y");
  }

  lemma RunAnswer(run: seq<Event>, t: nat, text: string) returns (longer: seq<Event>)
    requires ValidRun(INITIAL, run) && Enabled(After(INITIAL, run), Generated(t, text))
    ensures ValidRun(INITIAL, longer)
    ensures var s, n := After(INITIAL, run), After(INITIAL, longer);
            var task := s.pollers.tasks[t];
            && n.happened == s.happened + [Answered(task.message.id, task.message.responseId.value, s.now, text)]
            && n.now == s.now
            && forall u <- s.pollers.tasks :: u != t ==> u in n.pollers.tasks && n.pollers.tasks[u] == s.pollers.tasks[u]
  {
    AnswerCompletes(After(INITIAL, run), t, text);
    longer := Step(run, Generated(t, text));
    longer := Step(longer, Sent(t));
  }

  lemma Step(run: seq<Event>, e: Event) returns (longer: seq<Event>)
    requires ValidRun(INITIAL, run) && Enabled(After(INITIAL, run), e)
    ensures ValidRun(INITIAL, longer) && After(INITIAL, longer) == Next(After(INITIAL, run), e)
  {
    longer := Extend(run, After(INITIAL, run), e, Next(After(INITIAL, run), e));
  }

  // ---------------------------------------------------------------- one question passed twice

  /** The topic of one agent holds one question, which its only poller has looked at. */
  lemma QuestionPassed() returns (run: seq<Event>)
    ensures ValidRun(INITIAL, run)
    ensures var s, m := After(INITIAL, run), RawMessage(1, Some(Ask("a")));
            && s.happened == [Passed("a", "r", 0)] && s.now == 0
            && 0 in s.pollers.agents && 0 in s.pollers.marks && 0 in s.pollers.logs && s.pollers.logs[0] == [m] && s.pollers.marks[0] == 1
  {
    var m := RawMessage(1, Some(Ask("a")));
    var n1 := QuestionPosted();
    var n2 := QuestionPolled(n1);
    var n3 := QuestionFetched(n2, m);
    var n := QuestionAdmitted(n3);
    var posted := [BeginInitialize("u"), FinishInitialize(0, 0)] + [Post(0, m)];
    LeadsOn(INITIAL, posted, n1, [PollTick(0, 0)], n2);
    LeadsOn(INITIAL, posted + [PollTick(0, 0)], n2, [Fetched(1)], n3);
    run := posted + [PollTick(0, 0)] + [Fetched(1)] + [NextMessage(1)];
    LeadsOn(INITIAL, posted + [PollTick(0, 0)] + [Fetched(1)], n3, [NextMessage(1)], n);
    LeadsIsRun(INITIAL, run, n);
  }

  lemma QuestionPosted() returns (n: State)
    ensures Leads(INITIAL, [BeginInitialize("u"), FinishInitialize(0, 0)] + [Post(0, RawMessage(1, Some(Ask("a"))))], n)
    ensures n.pollers.agents == map[0 := Agent("u", true, 0)] && n.pollers.logs == map[0 := [RawMessage(1, Some(Ask("a")))]]
    ensures n.pollers.marks == map[0 := 0] && n.pollers.tasks == map[] && n.pollers.nextTask == 1
    ensures n.cache == map[] && n.happened == [] && n.now == 0
  {
    var b := Next(INITIAL, BeginInitialize("u"));
    var f := Next(b, FinishInitialize(0, 0));
    TwoEventsLead(INITIAL, BeginInitialize("u"), b, FinishInitialize(0, 0));
    var m := RawMessage(1, Some(Ask("a")));
    assert f.pollers.logs == map[0 := []] && f.pollers.agents == map[0 := Agent("u", true, 0)] && f.pollers.marks == map[0 := 0];
    n := Next(f, Post(0, m));
    assert [] + [m] == [m];
    Overwrite([], [m]);
    OneEventLeads(f, Post(0, m));
    LeadsOn(INITIAL, [BeginInitialize("u"), FinishInitialize(0, 0)], f, [Post(0, m)], n);
  }

  lemma QuestionPolled(s: State) returns (n: State)
    requires 0 in s.pollers.marks && s.pollers.marks[0] == 0 && s.pollers.tasks == map[] && s.pollers.nextTask == 1
    ensures Leads(s, [PollTick(0, 0)], n) && n.pollers == s.pollers.(tasks := map[1 := Fetching(0, 0)], nextTask := 2)
    ensures n.cache == s.cache && n.happened == s.happened && n.now == s.now
  {
    n := Next(s, PollTick(0, 0));
    OneEventLeads(s, PollTick(0, 0));
  }

  lemma QuestionFetched(s: State, m: RawMessage) returns (n: State)
    requires 1 in s.pollers.tasks && s.pollers.tasks[1] == Fetching(0, 0) && 0 in s.pollers.logs && s.pollers.logs[0] == [m]
    ensures Leads(s, [Fetched(1)], n) && n.pollers == s.pollers.(tasks := s.pollers.tasks[1 := Scanning(0, [m])])
    ensures n.cache == s.cache && n.happened == s.happened && n.now == s.now
  {
    n := Next(s, Fetched(1));
    QuestionArrives(s, m);
    OneEventLeads(s, Fetched(1));
  }

  lemma QuestionArrives(s: State, m: RawMessage)
    requires 1 in s.pollers.tasks && s.pollers.tasks[1] == Fetching(0, 0) && 0 in s.pollers.logs && s.pollers.logs[0] == [m]
    ensures Enabled(s, Fetched(1))
    ensures Next(s, Fetched(1)) == s.(pollers := s.pollers.(tasks := s.pollers.tasks[1 := Scanning(0, [m])]))
  {
    OneSince(m);
    BatchArrives(s, 1, 0, [m]);
  }

  lemma OneSince(m: RawMessage)
    ensures Since([m], 0) == [m]
  {
    SinceMore([], m, 0);
    assert [] + [m] == [m];
  }

  lemma QuestionAdmitted(s: State) returns (n: State)
    requires s.pollers.agents == map[0 := Agent("u", true, 0)] && s.pollers.logs == map[0 := [RawMessage(1, Some(Ask("a")))]]
    requires s.pollers.marks == map[0 := 0] && 1 in s.pollers.tasks && s.pollers.tasks[1] == Scanning(0, s.pollers.logs[0])
    requires s.cache == map[] && s.happened == [] && s.now == 0
    ensures Leads(s, [NextMessage(1)], n) && n.happened == [Passed("a", "r", 0)] && n.now == 0
    ensures 0 in n.pollers.agents && n.pollers.logs == s.pollers.logs && 0 in n.pollers.marks && n.pollers.marks[0] == 1
  {
    n := Next(s, NextMessage(1));
    OneEventLeads(s, NextMessage(1));
  }

  /** A run in which one question, the only message ever posted, gets through the guard twice. */
  lemma QuestionPassesTwice() returns (run: seq<Event>)
    ensures ValidRun(INITIAL, run)
    ensures After(INITIAL, run).happened == [Passed("a", "r", 0), Passed("a", "r", MESSAGE_CACHE_TTL + 1)]
  {
    var first := QuestionPassed();
    var s, m := After(INITIAL, first), RawMessage(1, Some(Ask("a")));
    NewestPassesAgain(first, 0, m);
    RunsJoin(INITIAL, first, WaitAndPoll(s, 0));
    run := first + WaitAndPoll(s, 0);
    assert [Passed("a", "r", 0)] + [Passed("a", "r", MESSAGE_CACHE_TTL + 1)] == [Passed("a", "r", 0), Passed("a", "r", MESSAGE_CACHE_TTL + 1)];
  }
}
