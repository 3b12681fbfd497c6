/**
 * The two records of the topic monitor, which are checked before the agent is looked up and written after it. Handlers of
 * different messages may interleave between the two.
 */
module MonitorAttempts {
  import opened Common
  import opened Monitor
  import opened MonitorSafety

  // ---------------------------------------------------------------- the records

  predicate AttemptOn(attempted: seq<Attempt>, t: string, time: nat) {
    exists i :: 0 <= i < |attempted| && attempted[i].topicId == t && attempted[i].timestamp == time
  }

  predicate AttemptFor(attempted: seq<Attempt>, request: (nat, string)) {
    exists i :: 0 <= i < |attempted| && attempted[i].request == request
  }

  /** Attempts on one topic have ascending times, and no request is attempted twice on any topic. */
  ghost predicate InOrder(attempted: seq<Attempt>) {
    && (forall i, j :: 0 <= i < j < |attempted| ==> attempted[i].request != attempted[j].request)
    && (forall i, j :: 0 <= i < j < |attempted| && attempted[i].topicId == attempted[j].topicId ==>
          attempted[i].timestamp < attempted[j].timestamp)
  }

  /** The two records say exactly what was attempted, and when last on each topic. */
  ghost predicate RecordsInv(r: Records) {
    && (forall q :: q in r.processedRequests <==> AttemptFor(r.attempted, q))
    && (forall t <- r.lastRequestTime :: AttemptOn(r.attempted, t, r.lastRequestTime[t]))
    && (forall i :: 0 <= i < |r.attempted| ==> r.attempted[i].timestamp <= LastTime(r, r.attempted[i].topicId))
  }

  lemma AttemptForMore(attempted: seq<Attempt>, a: Attempt, q: (nat, string))
    ensures AttemptFor(attempted + [a], q) <==> AttemptFor(attempted, q) || q == a.request
  {
    var all := attempted + [a];
    assert all[|attempted|] == a;
    if AttemptFor(attempted, q) {
      var i :| 0 <= i < |attempted| && attempted[i].request == q;
      assert all[i].request == q;
    }
  }

  lemma AttemptOnMore(attempted: seq<Attempt>, a: Attempt, t: string, time: nat)
    requires AttemptOn(attempted, t, time) || (t == a.topicId && time == a.timestamp)
    ensures AttemptOn(attempted + [a], t, time)
  {
    var all := attempted + [a];
    assert all[|attempted|] == a;
    if i :| 0 <= i < |attempted| && attempted[i].topicId == t && attempted[i].timestamp == time {
      assert all[i] == attempted[i];
    }
  }

  /** Recording an attempt that is still new keeps the records exact. */
  lemma RecordKeeps(r: Records, a: Attempt)
    requires RecordsInv(r) && IsNew(r, a)
    ensures RecordsInv(Record(r, a))
  {
    var n := Record(r, a);
    forall q ensures q in n.processedRequests <==> AttemptFor(n.attempted, q) { AttemptForMore(r.attempted, a, q); }
    forall t | t in n.lastRequestTime ensures AttemptOn(n.attempted, t, n.lastRequestTime[t]) {
      AttemptOnMore(r.attempted, a, t, n.lastRequestTime[t]);
    }
    forall i | 0 <= i < |n.attempted| ensures n.attempted[i].timestamp <= LastTime(n, n.attempted[i].topicId) {
      if i < |r.attempted| { assert r.attempted[i].timestamp <= LastTime(r, r.attempted[i].topicId); }
    }
  }

  /** Recording keeps the order of the attempts exactly if the attempt is still new. */
  lemma RecordKeepsOrderIff(r: Records, a: Attempt)
    requires RecordsInv(r) && InOrder(r.attempted) && 0 < a.timestamp
    ensures InOrder(Record(r, a).attempted) <==> IsNew(r, a)
  {
    if IsNew(r, a) { NewInOrder(r, a); } else { OldNotInOrder(r, a); }
  }

  lemma NewInOrder(r: Records, a: Attempt)
    requires RecordsInv(r) && InOrder(r.attempted) && IsNew(r, a)
    ensures InOrder(r.attempted + [a])
  {
    forall i | 0 <= i < |r.attempted|
      ensures r.attempted[i].request != a.request
      ensures r.attempted[i].topicId == a.topicId ==> r.attempted[i].timestamp < a.timestamp
    {
      assert r.attempted[i].request == a.request ==> AttemptFor(r.attempted, a.request);
      assert r.attempted[i].timestamp <= LastTime(r, r.attempted[i].topicId);
    }
  }

  lemma OldNotInOrder(r: Records, a: Attempt)
    requires RecordsInv(r) && !IsNew(r, a) && 0 < a.timestamp
    ensures !InOrder(r.attempted + [a])
  {
    var all := r.attempted + [a];
    if a.request in r.processedRequests {
      var i :| 0 <= i < |r.attempted| && r.attempted[i].request == a.request;
      assert all[i].request == all[|r.attempted|].request;
    } else {
      var i :| 0 <= i < |r.attempted| && r.attempted[i].topicId == a.topicId && r.attempted[i].timestamp == LastTime(r, a.topicId);
      assert all[i] == r.attempted[i] && all[|r.attempted|] == a;
    }
  }

  lemma OrderStaysBroken(attempted: seq<Attempt>, a: Attempt)
    requires !InOrder(attempted)
    ensures !InOrder(attempted + [a])
  {
    var all := attempted + [a];
    assert forall i :: 0 <= i < |attempted| ==> all[i] == attempted[i];
    if i, j :| 0 <= i < j < |attempted| && attempted[i].request == attempted[j].request {
      assert all[i].request == all[j].request;
    } else {
      var i, j :| 0 <= i < j < |attempted| && attempted[i].topicId == attempted[j].topicId
                  && attempted[i].timestamp >= attempted[j].timestamp;
      assert all[i].topicId == all[j].topicId && all[i].timestamp >= all[j].timestamp;
    }
  }

  // ---------------------------------------------------------------- every run

  /** An attempt that waits for the agent passed the check, so its time is positive, and it is for its message. */
  ghost predicate LookersInv(s: State) {
    forall k <- s.tasks :: s.tasks[k].Looking? ==>
      s.tasks[k].attempt.timestamp > 0 && s.tasks[k].attempt.topicId == s.tasks[k].topicId
      && s.tasks[k].attempt.request == Request(s.tasks[k].message)
  }

  lemma LookersStep(s: State, e: Event)
    requires Enabled(s, e) && LookersInv(s)
    ensures LookersInv(Next(s, e))
  {
  }

  predicate RecordsAttempt(e: Event) {
    e.AgentFound? && e.credentials
  }

  /** If the event records an attempt, the attempt still passes the check. */
  predicate StillNew(s: State, e: Event)
    requires Enabled(s, e)
  {
    RecordsAttempt(e) ==> IsNew(s.records, s.tasks[e.task].attempt)
  }

  predicate StillNewRun(s: State, run: seq<Event>)
    requires ValidRun(s, run)
  {
    run == [] || (StillNewRun(s, run[..|run| - 1]) && StillNew(After(s, run[..|run| - 1]), run[|run| - 1]))
  }

  ghost predicate Exact(s: State) {
    RecordsInv(s.records) && InOrder(s.records.attempted)
  }

  lemma ExactStep(s: State, e: Event)
    requires Enabled(s, e) && LookersInv(s) && Exact(s) && StillNew(s, e)
    ensures Exact(Next(s, e))
  {
    if RecordsAttempt(e) {
      RecordKeeps(s.records, s.tasks[e.task].attempt);
      RecordKeepsOrderIff(s.records, s.tasks[e.task].attempt);
    }
  }

  /**
   * Over every run of the service, with any handlers interleaving and failing: attempts on one topic have strictly increasing
   * times and no request is attempted twice, exactly if every attempt that was recorded still passed at that moment the check
   * it had passed before the agent was looked up.
   */
  lemma {:induction false} AttemptsInOrderIff(run: seq<Event>)
    requires ValidRun(INITIAL, run)
    ensures LookersInv(After(INITIAL, run))
    ensures StillNewRun(INITIAL, run) ==> RecordsInv(After(INITIAL, run).records)
    ensures InOrder(After(INITIAL, run).records.attempted) <==> StillNewRun(INITIAL, run)
  {
    if run != [] {
      var init, e := run[..|run| - 1], run[|run| - 1];
      AttemptsInOrderIff(init);
      var s := After(INITIAL, init);
      LookersStep(s, e);
      if !StillNewRun(INITIAL, init) {
        if RecordsAttempt(e) { OrderStaysBroken(s.records.attempted, s.tasks[e.task].attempt); }
      } else if StillNew(s, e) {
        ExactStep(s, e);
      } else {
        RecordKeepsOrderIff(s.records, s.tasks[e.task].attempt);
      }
    }
  }

  // ---------------------------------------------------------------- handlers that do not compete

  /** Two handlers that wait for the agent would attempt the same request or attempts on one topic. */
  predicate Compete(a: Attempt, b: Attempt) {
    a.topicId == b.topicId || a.request == b.request
  }

  /** No handler passes the check while a competing one waits for the agent. */
  ghost predicate Uncontended(s: State, e: Event)
    requires Enabled(s, e)
  {
    e.Taken? && NextTasks(s, e)[e.task].Looking? ==>
      forall k <- s.tasks :: s.tasks[k].Looking? ==> !Compete(s.tasks[k].attempt, NextTasks(s, e)[e.task].attempt)
  }

  ghost predicate UncontendedRun(s: State, run: seq<Event>)
    requires ValidRun(s, run)
  {
    run == [] || (UncontendedRun(s, run[..|run| - 1]) && Uncontended(After(s, run[..|run| - 1]), run[|run| - 1]))
  }

  /** Every attempt that waits for the agent would still pass the check, and none competes with another. */
  ghost predicate WaitersNew(s: State) {
    && (forall k <- s.tasks :: s.tasks[k].Looking? ==> IsNew(s.records, s.tasks[k].attempt))
    && (forall j, k :: j in s.tasks && k in s.tasks && j != k && s.tasks[j].Looking? && s.tasks[k].Looking? ==>
          !Compete(s.tasks[j].attempt, s.tasks[k].attempt))
  }

  lemma NotCompetingStaysNew(r: Records, a: Attempt, b: Attempt)
    requires IsNew(r, a) && !Compete(a, b)
    ensures IsNew(Record(r, b), a)
  {
  }

  /** The handlers that wait for the agent after an event waited before it, or one has just passed the check. */
  lemma LookersAfter(s: State, e: Event)
    requires Enabled(s, e) && !(e.Taken? && NextTasks(s, e)[e.task].Looking?)
    ensures forall k <- NextTasks(s, e) :: NextTasks(s, e)[k].Looking? ==> k in s.tasks && s.tasks[k] == NextTasks(s, e)[k]
    ensures e.AgentFound? ==> !NextTasks(s, e)[e.task].Looking?
  {
  }

  lemma WaitersStep(s: State, e: Event)
    requires Enabled(s, e) && LookersInv(s) && WaitersNew(s) && Uncontended(s, e)
    ensures WaitersNew(Next(s, e))
  {
    if e.Taken? && NextTasks(s, e)[e.task].Looking? {
      WaiterAdded(s, e);
    } else {
      LookersAfter(s, e);
      if RecordsAttempt(e) {
        forall k | k in s.tasks && k != e.task && s.tasks[k].Looking? ensures IsNew(NextRecords(s, e), s.tasks[k].attempt) {
          NotCompetingStaysNew(s.records, s.tasks[k].attempt, s.tasks[e.task].attempt);
        }
      }
    }
  }

  lemma WaiterAdded(s: State, e: Event)
    requires Enabled(s, e) && WaitersNew(s) && Uncontended(s, e) && e.Taken? && NextTasks(s, e)[e.task].Looking?
    ensures WaitersNew(Next(s, e))
  {
    var a := NextTasks(s, e)[e.task].attempt;
    assert IsNew(s.records, a);
  }

  /** In particular the attempts are in order in every run in which no two competing handlers wait for the agent at once. */
  lemma {:induction false} UncontendedInOrder(run: seq<Event>)
    requires ValidRun(INITIAL, run) && UncontendedRun(INITIAL, run)
    ensures WaitersNew(After(INITIAL, run)) && StillNewRun(INITIAL, run) && InOrder(After(INITIAL, run).records.attempted)
  {
    if run != [] {
      var init := run[..|run| - 1];
      UncontendedInOrder(init);
      AttemptsInOrderIff(init);
      WaitersStep(After(INITIAL, init), run[|run| - 1]);
    }
    AttemptsInOrderIff(run);
  }

  /** Two competing handlers that wait for the agent at once: one order of its two answers breaks the order of the attempts. */
  lemma CompetitorsBreakOrder(s: State, j: nat, k: nat) returns (answers: seq<Event>)
    requires LookersInv(s) && j in s.tasks && k in s.tasks && j != k && s.tasks[j].Looking? && s.tasks[k].Looking?
    requires Compete(s.tasks[j].attempt, s.tasks[k].attempt)
    ensures ValidRun(s, answers) && UncontendedRun(s, answers) && !InOrder(After(s, answers).records.attempted)
  {
    var a, b := s.tasks[j].attempt, s.tasks[k].attempt;
    if a.timestamp >= b.timestamp {
      answers := TwoAnswers(s, j, k);
      BadPair(s.records.attempted, a, b);
    } else {
      answers := TwoAnswers(s, k, j);
      BadPair(s.records.attempted, b, a);
    }
  }

  lemma TwoAnswers(s: State, j: nat, k: nat) returns (answers: seq<Event>)
    requires j in s.tasks && k in s.tasks && j != k && s.tasks[j].Looking? && s.tasks[k].Looking?
    ensures ValidRun(s, answers) && UncontendedRun(s, answers)
    ensures After(s, answers).records.attempted == s.records.attempted + [s.tasks[j].attempt] + [s.tasks[k].attempt]
  {
    var x, y := AgentFound(j, true), AgentFound(k, true);
    OneMore(s, [], x);
    OneMore(s, [] + [x], y);
    answers := [] + [x] + [y];
    assert answers[..1] == [] + [x] && ([] + [x])[..0] == [];
  }

  lemma BadPair(attempted: seq<Attempt>, a: Attempt, b: Attempt)
    requires Compete(a, b) && a.timestamp >= b.timestamp
    ensures !InOrder(attempted + [a] + [b])
  {
    var all, n := attempted + [a] + [b], |attempted|;
    assert all[n] == a && all[n + 1] == b;
  }

  /** Some uncontended continuation breaks the order of the attempts. */
  ghost predicate CanBreakOrder(s: State) {
    exists run :: ValidRun(s, run) && UncontendedRun(s, run) && !InOrder(After(s, run).records.attempted)
  }

  /**
   * After an uncontended run, an event opens the way to attempts that repeat a request, or that are not in the order of their
   * times, exactly if it lets a handler pass the check while a competing one waits for the agent.
   */
  lemma ContentionBreaksOrderIff(run: seq<Event>, e: Event)
    requires ValidRun(INITIAL, run) && UncontendedRun(INITIAL, run) && Enabled(After(INITIAL, run), e)
    ensures CanBreakOrder(Next(After(INITIAL, run), e)) <==> !Uncontended(After(INITIAL, run), e)
  {
    var s := After(INITIAL, run);
    if Uncontended(s, e) {
      UncontendedMore(INITIAL, run, e);
      forall more | ValidRun(Next(s, e), more) && UncontendedRun(Next(s, e), more)
        ensures InOrder(After(Next(s, e), more).records.attempted)
      {
        InOrderAfter(run + [e], Next(s, e), more);
      }
    } else {
      ContendedBreaks(run, s, e);
    }
  }

  lemma InOrderAfter(run: seq<Event>, s: State, more: seq<Event>)
    requires ValidRun(INITIAL, run) && UncontendedRun(INITIAL, run) && s == After(INITIAL, run)
    requires ValidRun(s, more) && UncontendedRun(s, more)
    ensures InOrder(After(s, more).records.attempted)
  {
    RunsJoin(INITIAL, run, s, more);
    UncontendedInOrder(run + more);
  }

  lemma ContendedBreaks(run: seq<Event>, s: State, e: Event)
    requires ValidRun(INITIAL, run) && s == After(INITIAL, run) && Enabled(s, e) && !Uncontended(s, e)
    ensures CanBreakOrder(Next(s, e))
  {
    AttemptsInOrderIff(run);
    LookersStep(s, e);
    var k :| k in s.tasks && s.tasks[k].Looking? && Compete(s.tasks[k].attempt, NextTasks(s, e)[e.task].attempt);
    var answers := CompetitorsBreakOrder(Next(s, e), k, e.task);
  }

  lemma Assoc(run: seq<Event>, more: seq<Event>)
    requires more != []
    ensures run + more == run + more[..|more| - 1] + [more[|more| - 1]]
  {
  }

  lemma UncontendedMore(s: State, run: seq<Event>, e: Event)
    requires ValidRun(s, run) && Enabled(After(s, run), e) && UncontendedRun(s, run) && Uncontended(After(s, run), e)
    ensures ValidRun(s, run + [e]) && After(s, run + [e]) == Next(After(s, run), e) && UncontendedRun(s, run + [e])
  {
    OneMore(s, run, e);
    assert (run + [e])[..|run|] == run;
  }

  lemma {:induction false} RunsJoin(s: State, run: seq<Event>, n: State, more: seq<Event>)
    requires ValidRun(s, run) && UncontendedRun(s, run) && n == After(s, run) && ValidRun(n, more) && UncontendedRun(n, more)
    ensures ValidRun(s, run + more) && After(s, run + more) == After(n, more) && UncontendedRun(s, run + more)
  {
    if more == [] {
      assert run + more == run;
    } else {
      var init := more[..|more| - 1];
      RunsJoin(s, run, n, init);
      UncontendedMore(s, run + init, more[|more| - 1]);
      Assoc(run, more);
    }
  }

  // ---------------------------------------------------------------- one topic

  /** The attempts on one topic have ascending times and different requests. */
  ghost predicate InOrderOn(attempted: seq<Attempt>, t: string) {
    forall i, j :: 0 <= i < j < |attempted| && attempted[i].topicId == t && attempted[j].topicId == t ==>
      attempted[i].timestamp < attempted[j].timestamp && attempted[i].request != attempted[j].request
  }

  /** The attempt comes after all attempts on its topic, and is for another request. */
  ghost predicate Later(attempted: seq<Attempt>, a: Attempt) {
    forall i :: 0 <= i < |attempted| && attempted[i].topicId == a.topicId ==>
      attempted[i].timestamp < a.timestamp && attempted[i].request != a.request
  }

  /** Whatever was attempted is recorded, and no later time is recorded for the topic than its attempts had. */
  ghost predicate Recorded(r: Records, t: string) {
    forall i :: 0 <= i < |r.attempted| ==>
      r.attempted[i].request in r.processedRequests
      && (r.attempted[i].topicId == t ==> r.attempted[i].timestamp <= LastTime(r, t))
  }

  ghost predicate OnePoll(tasks: map<nat, Task>, t: string) {
    forall j, k :: j in tasks && k in tasks && tasks[j].Polls(t) && tasks[k].Polls(t) ==> j == k
  }

  ghost predicate TopicInv(s: State, t: string) {
    && TaskIds(s) && LookersInv(s) && OnePoll(s.tasks, t)
    && InOrderOn(s.records.attempted, t) && Recorded(s.records, t)
    && forall k <- s.tasks :: s.tasks[k].Looking? && s.tasks[k].topicId == t ==> Later(s.records.attempted, s.tasks[k].attempt)
  }

  lemma OnePollStays(s: State, e: Event, t: string)
    requires Enabled(s, e) && TaskIds(s) && OnePoll(s.tasks, t) && Alone(s, e, t)
    ensures OnePoll(NextTasks(s, e), t)
  {
  }

  lemma NewIsLater(r: Records, a: Attempt)
    requires Recorded(r, a.topicId) && IsNew(r, a)
    ensures Later(r.attempted, a)
  {
  }

  lemma RecordInOrderOn(r: Records, a: Attempt, t: string)
    requires InOrderOn(r.attempted, t) && Recorded(r, t) && (a.topicId == t ==> Later(r.attempted, a))
    ensures InOrderOn(Record(r, a).attempted, t)
  {
  }

  lemma RecordRecorded(r: Records, a: Attempt, t: string)
    requires Recorded(r, t) && (a.topicId == t ==> Later(r.attempted, a))
    ensures Recorded(Record(r, a), t)
  {
    var n := Record(r, a);
    forall i | 0 <= i < |n.attempted|
      ensures n.attempted[i].request in n.processedRequests
      ensures n.attempted[i].topicId == t ==> n.attempted[i].timestamp <= LastTime(n, t)
    {
      if i < |r.attempted| { assert n.attempted[i] == r.attempted[i]; }
    }
  }

  lemma OthersLater(attempted: seq<Attempt>, a: Attempt, b: Attempt)
    requires Later(attempted, a) && a.topicId != b.topicId
    ensures Later(attempted + [b], a)
  {
  }

  lemma RecordsStep(s: State, e: Event, t: string)
    requires Enabled(s, e) && TopicInv(s, t)
    ensures InOrderOn(NextRecords(s, e).attempted, t) && Recorded(NextRecords(s, e), t)
  {
    if RecordsAttempt(e) {
      RecordInOrderOn(s.records, s.tasks[e.task].attempt, t);
      RecordRecorded(s.records, s.tasks[e.task].attempt, t);
    }
  }

  lemma WaitingStep(s: State, e: Event, t: string, k: nat)
    requires Enabled(s, e) && TopicInv(s, t) && k in NextTasks(s, e)
    requires NextTasks(s, e)[k].Looking? && NextTasks(s, e)[k].topicId == t
    ensures Later(NextRecords(s, e).attempted, NextTasks(s, e)[k].attempt)
  {
    if e.Taken? && k == e.task {
      NewIsLater(s.records, NextTasks(s, e)[k].attempt);
    } else {
      assert k in s.tasks && s.tasks[k] == NextTasks(s, e)[k];
      if RecordsAttempt(e) { OthersLater(s.records.attempted, s.tasks[k].attempt, s.tasks[e.task].attempt); }
    }
  }

  lemma TopicStep(s: State, e: Event, t: string)
    requires Enabled(s, e) && TopicInv(s, t) && Alone(s, e, t)
    ensures TopicInv(Next(s, e), t)
  {
    IdsStay(s, e);
    LookersStep(s, e);
    OnePollStays(s, e, t);
    RecordsStep(s, e, t);
    forall k | k in NextTasks(s, e) && NextTasks(s, e)[k].Looking? && NextTasks(s, e)[k].topicId == t
      ensures Later(NextRecords(s, e).attempted, NextTasks(s, e)[k].attempt)
    {
      WaitingStep(s, e, t, k);
    }
  }

  /**
   * If only the polls of one topic do not overlap, while polls of all other topics overlap freely, the attempts on that topic
   * have strictly increasing times and none repeats a request.
   */
  lemma {:induction false} TopicAttemptsInOrder(run: seq<Event>, t: string)
    requires ValidRun(INITIAL, run) && AloneRun(INITIAL, run, t)
    ensures TopicInv(After(INITIAL, run), t)
    ensures InOrderOn(After(INITIAL, run).records.attempted, t)
  {
    if run != [] {
      TopicAttemptsInOrder(run[..|run| - 1], t);
      TopicStep(After(INITIAL, run[..|run| - 1]), run[|run| - 1], t);
    }
  }

  ghost predicate AllProcessed(r: Records) {
    forall i :: 0 <= i < |r.attempted| ==> r.attempted[i].request in r.processedRequests
  }

  lemma {:induction false} ProcessedRun(run: seq<Event>)
    requires ValidRun(INITIAL, run)
    ensures AllProcessed(After(INITIAL, run).records)
  {
    if run != [] { ProcessedRun(run[..|run| - 1]); }
  }

  /** The record of a request does not name its topic: what was attempted anywhere passes the check nowhere, in any run. */
  lemma AttemptedElsewhereIsIgnored(run: seq<Event>, i: nat, t: string, m: HcsMessage, now: nat, account: string)
    requires ValidRun(INITIAL, run)
    requires i < |After(INITIAL, run).records.attempted| && After(INITIAL, run).records.attempted[i].request == Request(m)
    ensures Check(After(INITIAL, run), t, m, now, account) == None
  {
    ProcessedRun(run);
  }
}
