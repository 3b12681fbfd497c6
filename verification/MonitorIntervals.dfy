/** Whether stopping a topic of the topic monitor ends all its polling. */
module MonitorIntervals {
  import opened Common
  import opened Monitor
  import opened MonitorRuns

  /** A topic is monitored exactly if it has a last interval, which runs and polls it. */
  ghost predicate LastRuns(topics: Topics) {
    && (forall t :: t in topics.monitored <==> t in topics.pollingIntervals)
    && (forall t <- topics.pollingIntervals ::
          topics.pollingIntervals[t] in topics.intervals && topics.intervals[topics.pollingIntervals[t]] == t)
    && (forall i <- topics.intervals :: i < topics.nextInterval)
  }

  /** Only the last interval of the topic polls it. */
  ghost predicate NoLeak(topics: Topics, t: string) {
    forall i <- topics.intervals :: topics.intervals[i] == t ==> t in topics.pollingIntervals && topics.pollingIntervals[t] == i
  }

  /** A start of the topic ends although the topic is monitored by then. */
  predicate StartsAgain(s: State, e: Event, t: string)
    requires Enabled(s, e)
  {
    t in s.topics.monitored
    && ((e.Started? && s.tasks[e.task].topicId == t) || (e.MonitoringStarted? && s.tasks[e.task].connection == t))
  }

  lemma MonitoredLeakIff(topics: Topics, x: string, initial: Option<seq<HcsMessage>>, t: string)
    requires LastRuns(topics)
    ensures LastRuns(Monitored(topics, x, initial))
    ensures NoLeak(Monitored(topics, x, initial), t) <==> NoLeak(topics, t) && !(x == t && t in topics.monitored)
  {
    var n := Monitored(topics, x, initial);
    forall i | i in topics.intervals ensures i in n.intervals && n.intervals[i] == topics.intervals[i] { }
    if x == t && t in topics.monitored {
      var i := topics.pollingIntervals[t];
      assert i in n.intervals && n.intervals[i] == t && n.pollingIntervals[t] != i;
    }
  }

  lemma UnmonitoredLeakIff(topics: Topics, x: string, t: string)
    requires LastRuns(topics)
    ensures LastRuns(Unmonitored(topics, x))
    ensures NoLeak(Unmonitored(topics, x), t) <==> NoLeak(topics, t)
  {
    var n := Unmonitored(topics, x);
    if !NoLeak(topics, t) {
      var i :| i in topics.intervals && topics.intervals[i] == t && !(t in topics.pollingIntervals && topics.pollingIntervals[t] == i);
      assert i in n.intervals && n.intervals[i] == t;
    }
  }

  lemma LeakStepIff(s: State, e: Event, t: string)
    requires Enabled(s, e) && LastRuns(s.topics)
    ensures LastRuns(NextTopics(s, e))
    ensures NoLeak(NextTopics(s, e), t) <==> NoLeak(s.topics, t) && !StartsAgain(s, e, t)
  {
    match e
    case Started(k, initial) => MonitoredLeakIff(s.topics, s.tasks[k].topicId, initial, t);
    case MonitoringStarted(k, initial) => MonitoredLeakIff(s.topics, s.tasks[k].connection, initial, t);
    case Stopped(x) => UnmonitoredLeakIff(s.topics, x, t);
    case _ =>
  }

  predicate NeverStartsAgain(s: State, run: seq<Event>, t: string)
    requires ValidRun(s, run)
  {
    run == [] || (NeverStartsAgain(s, run[..|run| - 1], t) && !StartsAgain(After(s, run[..|run| - 1]), run[|run| - 1], t))
  }

  lemma {:induction false} LeakRunIff(run: seq<Event>, t: string)
    requires ValidRun(INITIAL, run)
    ensures LastRuns(After(INITIAL, run).topics)
    ensures NoLeak(After(INITIAL, run).topics, t) <==> NeverStartsAgain(INITIAL, run, t)
  {
    if run != [] {
      LeakRunIff(run[..|run| - 1], t);
      LeakStepIff(After(INITIAL, run[..|run| - 1]), run[|run| - 1], t);
    }
  }

  /**
   * Over every run: once a topic is stopped no interval polls it, exactly if no start of the topic had ended while it was
   * monitored. An interval that such a start leaves behind polls the topic for ever.
   */
  lemma StopEndsPollingIff(run: seq<Event>, t: string)
    requires ValidRun(INITIAL, run)
    ensures var n := NextTopics(After(INITIAL, run), Stopped(t));
            (forall i <- n.intervals :: n.intervals[i] != t) <==> NeverStartsAgain(INITIAL, run, t)
  {
    LeakRunIff(run, t);
    LeakStepIff(After(INITIAL, run), Stopped(t), t);
  }

  lemma BothRequested(t: string) returns (n: State)
    ensures Leads(INITIAL, [StartRequested(t), StartRequested(t)], n)
    ensures n.topics == INITIAL.topics && n.tasks == map[0 := Starting(t), 1 := Starting(t)]
  {
    var a := Next(INITIAL, StartRequested(t));
    n := Next(a, StartRequested(t));
    LeadsNowhere(INITIAL);
    ThenTwo(INITIAL, [], INITIAL, StartRequested(t), StartRequested(t), a, n);
    assert [] + [StartRequested(t), StartRequested(t)] == [StartRequested(t), StartRequested(t)];
  }

  lemma StartEnds(s: State, run: seq<Event>, m: State, k: nat, t: string) returns (n: State)
    requires Leads(s, run, m) && k in m.tasks && m.tasks[k] == Starting(t)
    ensures Leads(s, run + [Started(k, None)], n) && n.topics == Monitored(m.topics, t, None) && n.tasks == m.tasks - {k}
  {
    n := Next(m, Started(k, None));
    Then(s, run, m, Started(k, None), n);
  }

  lemma StartsTwice(t: string) returns (n: State)
    ensures Leads(INITIAL, [StartRequested(t), StartRequested(t)] + [Started(0, None)] + [Started(1, None)], n)
    ensures n.topics.intervals == map[0 := t, 1 := t] && n.topics.pollingIntervals == map[t := 1] && n.topics.monitored == {t}
  {
    var b := BothRequested(t);
    var c := StartEnds(INITIAL, [StartRequested(t), StartRequested(t)], b, 0, t);
    n := StartEnds(INITIAL, [StartRequested(t), StartRequested(t)] + [Started(0, None)], c, 1, t);
  }

  /** Two overlapping starts of one topic leave an interval that stopping the topic does not clear. */
  lemma OverlappingStartsLeak(t: string)
    ensures var run := [StartRequested(t), StartRequested(t)] + [Started(0, None)] + [Started(1, None)] + [Stopped(t)];
            ValidRun(INITIAL, run) && t !in After(INITIAL, run).topics.monitored && After(INITIAL, run).topics.intervals == map[0 := t]
  {
    var starts := [StartRequested(t), StartRequested(t)] + [Started(0, None)] + [Started(1, None)];
    var m := StartsTwice(t);
    var n := Next(m, Stopped(t));
    assert map[0 := t, 1 := t] - {1} == map[0 := t];
    Then(INITIAL, starts, m, Stopped(t), n);
    LeadsIsRun(INITIAL, starts + [Stopped(t)], n);
  }
}
