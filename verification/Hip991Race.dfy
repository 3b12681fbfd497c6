/** What overlapping callbacks of the HIP-991 runtime can do wrong, exactly when they do, and what they never do. */
module Hip991Race {
  import opened Common
  import opened Hip991
  import opened Hip991Invariants

  /** No two callbacks are about to answer the same response id. */
  ghost predicate OneAnswerer(tasks: map<nat, Task>) {
    forall t, u :: t in tasks && u in tasks && t != u && tasks[t].IsAnswering() && tasks[u].IsAnswering() ==>
      tasks[t].message.responseId != tasks[u].message.responseId
  }

  /**
   * The guard looks at cached answers only, so two messages in flight may name one response id and both be answered.
   * A message keeps the answerers apart exactly when it is not let through or no callback is answering its response.
   */
  lemma KeepsOneAnswererIff(s: State, t: nat)
    requires Enabled(s, NextMessage(t)) && OneAnswerer(s.pollers.tasks)
    ensures OneAnswerer(Next(s, NextMessage(t)).pollers.tasks) <==>
              || Admitted(s, t).None?
              || forall u :: u in s.pollers.tasks && s.pollers.tasks[u].IsAnswering() ==>
                   s.pollers.tasks[u].message.responseId != Admitted(s, t).value.responseId
  {
    var m, before, after := Admitted(s, t), s.pollers.tasks, Visit(s, t).tasks;
    if m.Some? {
      assert after[t].IsAnswering() && after[t].message == m.value;
      forall u | u in before && before[u].IsAnswering() ensures u in after && u != t && after[u] == before[u] {}
    }
  }

  /** The event lets no message through whose response another callback is answering. */
  ghost predicate Uncontended(s: State, e: Event)
    requires Enabled(s, e)
  {
    e.NextMessage? && Admitted(s, e.task).Some? ==>
      forall u :: u in s.pollers.tasks && s.pollers.tasks[u].IsAnswering() ==>
        s.pollers.tasks[u].message.responseId != Admitted(s, e.task).value.responseId
  }

  ghost predicate UncontendedRun(s: State, run: seq<Event>)
    requires ValidRun(s, run)
    decreases |run|
  {
    run == [] || (Uncontended(s, run[0]) && UncontendedRun(Next(s, run[0]), run[1..]))
  }

  /** The new tasks that answer are old ones with their messages. */
  ghost predicate NoNewAnswerer(before: map<nat, Task>, after: map<nat, Task>) {
    forall t :: t in after && after[t].IsAnswering() ==> t in before && before[t].IsAnswering() && before[t].message == after[t].message
  }

  lemma AnswersAddNoAnswerer(s: State, e: Event)
    requires Enabled(s, e) && (e.Generated? || e.Sent? || e.ProcessingFailed?)
    ensures NoNewAnswerer(s.pollers.tasks, NextPollers(s, e).tasks)
  {
  }

  lemma TasksAddNoAnswerer(s: State, e: Event)
    requires Enabled(s, e) && !(e.NextMessage? && Admitted(s, e.task).Some?)
    requires e.Fetched? || e.FetchFailed? || e.NextMessage?
    ensures NoNewAnswerer(s.pollers.tasks, NextPollers(s, e).tasks)
  {
  }

  lemma OthersAddNoAnswerer(s: State, e: Event)
    requires Enabled(s, e) && DeliveryInv(s.pollers) && !(e.NextMessage? && Admitted(s, e.task).Some?)
    ensures NoNewAnswerer(s.pollers.tasks, NextPollers(s, e).tasks)
  {
    if e.Fetched? || e.FetchFailed? || e.NextMessage? {
      TasksAddNoAnswerer(s, e);
    } else if e.Generated? || e.Sent? || e.ProcessingFailed? {
      AnswersAddNoAnswerer(s, e);
    }
  }

  lemma OneAnswererStep(s: State, e: Event)
    requires Enabled(s, e) && DeliveryInv(s.pollers) && OneAnswerer(s.pollers.tasks) && Uncontended(s, e)
    ensures OneAnswerer(Next(s, e).pollers.tasks)
  {
    if e.NextMessage? && Admitted(s, e.task).Some? {
      KeepsOneAnswererIff(s, e.task);
    } else {
      OthersAddNoAnswerer(s, e);
    }
  }

  /** Every answer under a response id was sent more than the time to live ago. */
  ghost predicate LongAnswered(h: seq<Happening>, now: nat, responseId: string) {
    forall k :: 0 <= k < |h| && h[k].Answered? && h[k].responseId == responseId ==> h[k].time + MESSAGE_CACHE_TTL < now
  }

  ghost predicate TasksLate(tasks: map<nat, Task>, h: seq<Happening>, now: nat) {
    forall t :: t in tasks && tasks[t].IsAnswering() && tasks[t].message.responseId.Some? ==>
      LongAnswered(h, now, tasks[t].message.responseId.value)
  }

  ghost predicate Apart(h: seq<Happening>) {
    forall i, j ::
      (0 <= i < j < |h| && h[i].Answered? && h[j].Answered? && h[i].responseId == h[j].responseId) ==>
        h[i].time + MESSAGE_CACHE_TTL < h[j].time
  }

  /** Responses being answered were answered long ago, if ever, and answers under one response id are far apart. */
  ghost predicate AnswersApart(s: State) {
    TasksLate(s.pollers.tasks, s.happened, s.now) && Apart(s.happened)
  }

  /** What is not cached was answered long ago. */
  lemma AdmittedIsLongAnswered(s: State, t: nat)
    requires CacheInv(s) && Enabled(s, NextMessage(t)) && Admitted(s, t).Some?
    ensures LongAnswered(s.happened, s.now, Admitted(s, t).value.responseId.value)
  {
    forall k | 0 <= k < |s.happened| && s.happened[k].Answered? && s.happened[k].responseId == Admitted(s, t).value.responseId.value
      ensures s.happened[k].time + MESSAGE_CACHE_TTL < s.now
    {
      assert Guarded(s, Key(s.happened[k]), s.happened[k].time);
    }
  }

  lemma HistoryApartStep(s: State, e: Event)
    requires Enabled(s, e) && AnswersApart(s)
    ensures Apart(s.happened + Recorded(s, e))
  {
  }

  ghost predicate LateAfter(s: State, e: Event)
    requires Enabled(s, e)
  {
    TasksLate(NextPollers(s, e).tasks, s.happened + Recorded(s, e), NextNow(s, e))
  }

  lemma AdmissionLate(s: State, t: nat)
    requires Enabled(s, NextMessage(t)) && Admitted(s, t).Some? && CacheInv(s) && AnswersApart(s)
    ensures LateAfter(s, NextMessage(t))
  {
    AdmittedIsLongAnswered(s, t);
  }

  lemma OthersLate(s: State, e: Event)
    requires Enabled(s, e) && AnswersApart(s) && OneAnswerer(s.pollers.tasks)
    requires NoNewAnswerer(s.pollers.tasks, NextPollers(s, e).tasks) && !(e.NextMessage? && Admitted(s, e.task).Some?)
    ensures LateAfter(s, e)
  {
  }

  lemma LateStep(s: State, e: Event)
    requires Enabled(s, e) && Inv(s) && OneAnswerer(s.pollers.tasks) && AnswersApart(s)
    ensures LateAfter(s, e)
  {
    if e.NextMessage? && Admitted(s, e.task).Some? {
      AdmissionLate(s, e.task);
    } else {
      OthersAddNoAnswerer(s, e);
      OthersLate(s, e);
    }
  }

  lemma ApartStep(s: State, e: Event)
    requires Enabled(s, e) && Inv(s) && OneAnswerer(s.pollers.tasks) && AnswersApart(s)
    ensures AnswersApart(Next(s, e))
  {
    HistoryApartStep(s, e);
    LateStep(s, e);
  }

  lemma {:induction false} ApartRun(s: State, run: seq<Event>)
    requires Inv(s) && ValidRun(s, run) && UncontendedRun(s, run) && OneAnswerer(s.pollers.tasks) && AnswersApart(s)
    ensures AnswersApart(After(s, run)) && OneAnswerer(After(s, run).pollers.tasks)
    decreases |run|
  {
    if run != [] {
      InvStep(s, run[0]);
      OneAnswererStep(s, run[0]);
      ApartStep(s, run[0]);
      ApartRun(Next(s, run[0]), run[1..]);
    }
  }

  /**
   * In every run in which no message is let through while its response is being answered, two answers under one response
   * id are more than the time to live apart.
   */
  lemma OneAnswerPerResponse(run: seq<Event>, i: nat, j: nat)
    requires ValidRun(INITIAL, run) && UncontendedRun(INITIAL, run)
    requires i < j < |After(INITIAL, run).happened|
    requires var h := After(INITIAL, run).happened; h[i].Answered? && h[j].Answered? && h[i].responseId == h[j].responseId
    ensures var h := After(INITIAL, run).happened; h[i].time + MESSAGE_CACHE_TTL < h[j].time
  {
    ApartRun(INITIAL, run);
  }

  lemma {:induction false} RunsJoin(s: State, a: seq<Event>, b: seq<Event>)
    requires ValidRun(s, a) && ValidRun(After(s, a), b)
    ensures ValidRun(s, a + b) && After(s, a + b) == After(After(s, a), b)
    ensures UncontendedRun(s, a) && UncontendedRun(After(s, a), b) ==> UncontendedRun(s, a + b)
    ensures UncontendedRun(s, a + b) ==> UncontendedRun(s, a) && UncontendedRun(After(s, a), b)
    decreases |a|
  {
    if a == [] {
      assert a + b == b;
    } else {
      assert (a + b)[0] == a[0] && (a + b)[1..] == a[1..] + b;
      RunsJoin(Next(s, a[0]), a[1..], b);
    }
  }

  /** A callback that is answering can send an answer, and only that happens. */
  lemma AnswererFinishes(s: State, t: nat) returns (run: seq<Event>)
    requires Inv(s) && t in s.pollers.tasks && s.pollers.tasks[t].IsAnswering()
    ensures ValidRun(s, run) && UncontendedRun(s, run)
    ensures var n, task := After(s, run), s.pollers.tasks[t];
            && Inv(n) && n.now == s.now && |n.happened| == |s.happened| + 1 && n.happened[..|s.happened|] == s.happened
            && n.happened[|s.happened|].Answered? && task.message.responseId.Some?
            && n.happened[|s.happened|].responseId == task.message.responseId.value && n.happened[|s.happened|].time == s.now
            && forall u <- s.pollers.tasks :: u != t ==> u in n.pollers.tasks && n.pollers.tasks[u] == s.pollers.tasks[u]
  {
    var task := s.pollers.tasks[t];
    assert AnsweringOk(s.happened, task);
    if task.Generating? {
      var e := Generated(t, "");
      AnswerCompletes(s, t, "");
      InvStep(s, e);
      InvStep(Next(s, e), Sent(t));
      run := [e, Sent(t)];
      TwoEvents(s, e, Sent(t));
    } else {
      InvStep(s, Sent(t));
      run := [Sent(t)];
      OneEvent(s, Sent(t));
    }
  }

  lemma OneEvent(s: State, e: Event)
    requires Enabled(s, e) && !e.NextMessage?
    ensures ValidRun(s, [e]) && After(s, [e]) == Next(s, e) && UncontendedRun(s, [e])
  {
    assert [e][1..] == [];
    assert ValidRun(Next(s, e), []) && UncontendedRun(Next(s, e), []);
  }

  lemma TwoEvents(s: State, e: Event, f: Event)
    requires Enabled(s, e) && Enabled(Next(s, e), f) && !e.NextMessage? && !f.NextMessage?
    ensures ValidRun(s, [e, f]) && After(s, [e, f]) == Next(Next(s, e), f) && UncontendedRun(s, [e, f])
  {
    assert [e, f][1..] == [f];
    OneEvent(Next(s, e), f);
  }

  /** Two callbacks that are answering one response id can both send their answers, at one moment. */
  lemma BothAnswer(s: State, t: nat, u: nat) returns (run: seq<Event>)
    requires Inv(s) && t != u && t in s.pollers.tasks && u in s.pollers.tasks
    requires s.pollers.tasks[t].IsAnswering() && s.pollers.tasks[u].IsAnswering()
    requires s.pollers.tasks[t].message.responseId == s.pollers.tasks[u].message.responseId
    ensures ValidRun(s, run) && UncontendedRun(s, run) && !Apart(After(s, run).happened)
  {
    var first := AnswererFinishes(s, t);
    var m := After(s, first);
    assert u in m.pollers.tasks && m.pollers.tasks[u] == s.pollers.tasks[u];
    var second := AnswererRepeats(m, u, |s.happened|);
    RunsJoin(s, first, second);
    run := first + second;
  }

  /** The last thing that happened is an answer under a response id that a callback is about to answer again. */
  lemma AnswererRepeats(m: State, u: nat, n: nat) returns (run: seq<Event>)
    requires Inv(m) && u in m.pollers.tasks && m.pollers.tasks[u].IsAnswering() && |m.happened| == n + 1
    requires m.happened[n].Answered? && m.happened[n].time == m.now
    requires Some(m.happened[n].responseId) == m.pollers.tasks[u].message.responseId
    ensures ValidRun(m, run) && UncontendedRun(m, run) && !Apart(After(m, run).happened)
  {
    run := AnswererFinishes(m, u);
    var h := After(m, run).happened;
    assert h[..n + 1] == m.happened && h[n + 1].Answered? && h[n + 1].responseId == m.happened[n].responseId;
    TwoAtOnce(m.happened, h, n);
  }

  lemma TwoAtOnce(before: seq<Happening>, h: seq<Happening>, n: nat)
    requires |before| == n + 1 && |h| == n + 2 && h[..n + 1] == before
    requires before[n].Answered? && h[n + 1].Answered?
    requires before[n].responseId == h[n + 1].responseId && before[n].time == h[n + 1].time
    ensures !Apart(h)
  {
    assert h[n] == h[..n + 1][n];
  }

  /** From a state, without contention from there on, two answers under one response id come within the time to live. */
  ghost predicate CanAnswerTwice(s: State) {
    exists more :: ValidRun(s, more) && UncontendedRun(s, more) && !Apart(After(s, more).happened)
  }

  lemma ContendedCanAnswerTwice(s: State, t: nat, u: nat)
    requires Inv(s) && Enabled(s, NextMessage(t)) && Admitted(s, t).Some?
    requires u in s.pollers.tasks && s.pollers.tasks[u].IsAnswering()
    requires s.pollers.tasks[u].message.responseId == Admitted(s, t).value.responseId
    ensures CanAnswerTwice(Next(s, NextMessage(t)))
  {
    var n := Next(s, NextMessage(t));
    InvStep(s, NextMessage(t));
    AdmittedAnswers(s, t, u);
    var more := BothAnswer(n, t, u);
  }

  lemma AdmittedAnswers(s: State, t: nat, u: nat)
    requires Enabled(s, NextMessage(t)) && Admitted(s, t).Some? && u in s.pollers.tasks && s.pollers.tasks[u].IsAnswering()
    ensures var n := Next(s, NextMessage(t));
            && t in n.pollers.tasks && n.pollers.tasks[t].IsAnswering() && n.pollers.tasks[t].message == Admitted(s, t).value
            && u != t && u in n.pollers.tasks && n.pollers.tasks[u] == s.pollers.tasks[u]
  {
  }

  /**
   * After a run without contention, letting a message through makes it possible that, without further contention, two
   * answers under one response id are sent within the time to live, exactly if a callback in flight is answering the
   * response that the message names.
   */
  lemma AdmissionCanAnswerTwiceIff(run: seq<Event>, t: nat)
    requires ValidRun(INITIAL, run) && UncontendedRun(INITIAL, run)
    requires Enabled(After(INITIAL, run), NextMessage(t)) && Admitted(After(INITIAL, run), t).Some?
    ensures var s := After(INITIAL, run);
            CanAnswerTwice(Next(s, NextMessage(t))) <==>
              exists u :: u in s.pollers.tasks && s.pollers.tasks[u].IsAnswering()
                          && s.pollers.tasks[u].message.responseId == Admitted(s, t).value.responseId
  {
    var s, e := After(INITIAL, run), NextMessage(t);
    InvAlways(run);
    ApartRun(INITIAL, run);
    if Uncontended(s, e) {
      InvStep(s, e);
      OneAnswererStep(s, e);
      ApartStep(s, e);
      forall more | ValidRun(Next(s, e), more) && UncontendedRun(Next(s, e), more) ensures Apart(After(Next(s, e), more).happened) {
        ApartRun(Next(s, e), more);
      }
    } else {
      var u :| u in s.pollers.tasks && s.pollers.tasks[u].IsAnswering()
               && s.pollers.tasks[u].message.responseId == Admitted(s, t).value.responseId;
      ContendedCanAnswerTwice(s, t, u);
    }
  }

  // ---------------------------------------------------------------- one answer for each pass

  function Passes(h: seq<Happening>, id: string): nat {
    if h == [] then 0 else Passes(h[..|h| - 1], id) + if h[|h| - 1].Passed? && h[|h| - 1].id == id then 1 else 0
  }

  function Answers(h: seq<Happening>, id: string): nat {
    if h == [] then 0 else Answers(h[..|h| - 1], id) + if h[|h| - 1].Answered? && h[|h| - 1].id == id then 1 else 0
  }

  /** The callbacks that are answering messages with an id. */
  function Answerers(tasks: map<nat, Task>, id: string): set<nat> {
    set t | t in tasks && tasks[t].IsAnswering() && tasks[t].message.id == id
  }

  /** Every pass leads to one answer at most, which is being made or was sent. */
  ghost predicate Accounted(s: State, id: string) {
    Answers(s.happened, id) + |Answerers(s.pollers.tasks, id)| <= Passes(s.happened, id)
  }

  lemma CountsMore(h: seq<Happening>, y: Happening, id: string)
    ensures Passes(h + [y], id) == Passes(h, id) + if y.Passed? && y.id == id then 1 else 0
    ensures Answers(h + [y], id) == Answers(h, id) + if y.Answered? && y.id == id then 1 else 0
  {
    assert (h + [y])[..|h|] == h;
  }

  lemma FewerAnswerers(before: map<nat, Task>, after: map<nat, Task>, id: string)
    requires NoNewAnswerer(before, after)
    ensures |Answerers(after, id)| <= |Answerers(before, id)|
  {
    SubsetSize(Answerers(after, id), Answerers(before, id));
  }

  lemma {:induction false} SubsetSize(a: set<nat>, b: set<nat>)
    requires a <= b
    ensures |a| <= |b|
  {
    if a != {} {
      var x :| x in a;
      SubsetSize(a - {x}, b - {x});
    }
  }

  lemma AdmissionAccounted(s: State, t: nat, id: string)
    requires Enabled(s, NextMessage(t)) && Admitted(s, t).Some? && Accounted(s, id)
    ensures Accounted(Next(s, NextMessage(t)), id)
  {
    var m, n := Admitted(s, t).value, Next(s, NextMessage(t));
    CountsMore(s.happened, Passed(m.id, m.responseId.value, s.now), id);
    var before, after := Answerers(s.pollers.tasks, id), Answerers(n.pollers.tasks, id);
    assert after == if m.id == id then before + {t} else before;
  }

  lemma SentAccounted(s: State, t: nat, id: string)
    requires Enabled(s, Sent(t)) && Accounted(s, id)
    ensures Accounted(Next(s, Sent(t)), id)
  {
    var task, n := s.pollers.tasks[t], Next(s, Sent(t));
    CountsMore(s.happened, Answered(task.message.id, task.message.responseId.value, s.now, task.reply.response.value), id);
    var before, after := Answerers(s.pollers.tasks, id), Answerers(n.pollers.tasks, id);
    assert after == before - {t};
    assert task.message.id == id ==> t in before;
  }

  lemma AccountedStep(s: State, e: Event, id: string)
    requires Enabled(s, e) && DeliveryInv(s.pollers) && Accounted(s, id)
    ensures Accounted(Next(s, e), id)
  {
    if e.NextMessage? && Admitted(s, e.task).Some? {
      AdmissionAccounted(s, e.task, id);
    } else if e.Sent? {
      SentAccounted(s, e.task, id);
    } else {
      OthersAddNoAnswerer(s, e);
      FewerAnswerers(s.pollers.tasks, NextPollers(s, e).tasks, id);
      assert s.happened + Recorded(s, e) == s.happened;
    }
  }

  lemma {:induction false} AccountedRun(s: State, run: seq<Event>, id: string)
    requires Inv(s) && ValidRun(s, run) && Accounted(s, id)
    ensures Accounted(After(s, run), id)
    decreases |run|
  {
    if run != [] {
      InvStep(s, run[0]);
      AccountedStep(s, run[0], id);
      AccountedRun(Next(s, run[0]), run[1..], id);
    }
  }

  /** In every run a message is answered at most as often as it was let through. */
  lemma AnswersNeverOutnumberPasses(run: seq<Event>, id: string)
    requires ValidRun(INITIAL, run)
    ensures Answers(After(INITIAL, run).happened, id) <= Passes(After(INITIAL, run).happened, id)
  {
    assert Answerers(INITIAL.pollers.tasks, id) == {};
    AccountedRun(INITIAL, run, id);
  }

  /** A callback that generates an answer may send it, and leaves the other callbacks as they are. */
  lemma AnswerCompletes(s: State, t: nat, text: string)
    requires Enabled(s, Generated(t, text))
    ensures var s1 := Next(s, Generated(t, text));
            var task := s.pollers.tasks[t];
            && Enabled(s1, Sent(t))
            && Next(s1, Sent(t)).happened == s.happened + [Answered(task.message.id, task.message.responseId.value, s.now, text)]
            && Next(s1, Sent(t)).now == s.now
            && forall u <- s.pollers.tasks :: u != t ==>
                 u in Next(s1, Sent(t)).pollers.tasks && Next(s1, Sent(t)).pollers.tasks[u] == s.pollers.tasks[u]
  {
  }
}
