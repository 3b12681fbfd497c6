/**
 * What every event of the HIP-991 runtime keeps, whichever callback it belongs to.
 *
 * Cached ids stay guarded for their time to live; callbacks that answer answer what got through; pending waiters, timers and
 * settlements stay in step; everything below a mark was looked at or is queued; and activeAgents points to active agents of
 * their users.
 *
 * One lemma for every kind of event and every kind of state, and in the end one for all runs.
 */
module Hip991Invariants {
  import opened Common
  import opened Hip991

  // ---------------------------------------------------------------- duplicates

  /** The cache key a happening writes. */
  function Key(h: Happening): string {
    if h.Passed? then h.id else h.responseId
  }

  /** y is a message let through although its id or its response id had been cached by x. */
  predicate Repeats(x: Happening, y: Happening) {
    y.Passed? && (y.id == Key(x) || y.responseId == Key(x))
  }

  /** An id cached at a time stays cached until its time to live is over. */
  ghost predicate Guarded(s: State, id: string, time: nat) {
    s.now > time + MESSAGE_CACHE_TTL || (id in s.cache && s.cache[id].timestamp >= time)
  }

  ghost predicate CacheInv(s: State) {
    var h := s.happened;
    && (forall i :: 0 <= i < |h| ==> h[i].time <= s.now && Guarded(s, Key(h[i]), h[i].time))
    && (forall i, j :: 0 <= i < j < |h| && Repeats(h[i], h[j]) ==> h[j].time > h[i].time + MESSAGE_CACHE_TTL)
  }

  lemma CacheStep(s: State, e: Event)
    requires CacheInv(s) && Enabled(s, e)
    ensures CacheInv(Next(s, e))
  {
  }

  // ---------------------------------------------------------------- answers

  /** The message was let through before position k of the history. */
  ghost predicate PassedBefore(h: seq<Happening>, k: nat, id: string, responseId: string) {
    exists j :: 0 <= j < k <= |h| && h[j].Passed? && h[j].id == id && h[j].responseId == responseId
  }

  /** A task that is answering a message answers one that was let through, under its response id. */
  ghost predicate AnsweringOk(h: seq<Happening>, task: Task) {
    && (task.IsAnswering() ==>
          && task.message.responseId.Some?
          && PassedBefore(h, |h|, task.message.id, task.message.responseId.value))
    && (task.Sending? ==> task.reply.id == task.message.responseId.value && task.reply.response.Some?)
  }

  ghost predicate AnswerInv(s: State) {
    var h, tasks := s.happened, s.pollers.tasks;
    && (forall t <- tasks :: AnsweringOk(h, tasks[t]))
    && (forall k :: 0 <= k < |h| && h[k].Answered? ==> PassedBefore(h, k, h[k].id, h[k].responseId))
  }

  lemma PassedBeforeKept(h: seq<Happening>, k: nat, more: seq<Happening>, l: nat, id: string, responseId: string)
    requires PassedBefore(h, k, id, responseId) && k <= l <= |h + more|
    ensures PassedBefore(h + more, l, id, responseId)
  {
    var j :| 0 <= j < k <= |h| && h[j].Passed? && h[j].id == id && h[j].responseId == responseId;
    assert (h + more)[j] == h[j];
  }

  lemma AnsweringOkKept(h: seq<Happening>, more: seq<Happening>, task: Task)
    requires AnsweringOk(h, task)
    ensures AnsweringOk(h + more, task)
  {
    if task.IsAnswering() {
      PassedBeforeKept(h, |h|, more, |h + more|, task.message.id, task.message.responseId.value);
    }
  }

  /** Every task after a step is an old one, no longer answers, or continues from one that was in order. */
  lemma TasksAfter(s: State, e: Event)
    requires AnswerInv(s) && Enabled(s, e)
    ensures var n := Next(s, e);
            forall t <- n.pollers.tasks :: AnsweringOk(n.happened, n.pollers.tasks[t])
  {
    var n, before := Next(s, e), s.pollers.tasks;
    forall t <- n.pollers.tasks ensures AnsweringOk(n.happened, n.pollers.tasks[t]) {
      if t in before { AnsweringOkKept(s.happened, Recorded(s, e), before[t]); }
      if e.NextMessage? && Admitted(s, e.task).Some? && t == e.task {
        assert n.happened[|s.happened|] == Recorded(s, e)[0];
      }
    }
  }

  lemma AnswerStep(s: State, e: Event)
    requires AnswerInv(s) && Enabled(s, e)
    ensures AnswerInv(Next(s, e))
  {
    TasksAfter(s, e);
    var h: seq<Happening>, more: seq<Happening> := s.happened, Recorded(s, e);
    var all: seq<Happening> := h + more;
    forall k | 0 <= k < |all| && all[k].Answered?
      ensures PassedBefore(all, k, all[k].id, all[k].responseId)
    {
      if |h| <= k { assert AnsweringOk(h, s.pollers.tasks[e.task]); }
      PassedBeforeKept(h, if k < |h| then k else |h|, more, k, all[k].id, all[k].responseId);
    }
  }

  // ---------------------------------------------------------------- waiters

  ghost predicate Settled(w: Waiters, responseId: string) {
    exists i :: 0 <= i < |w.settled| && w.settled[i].responseId == responseId
  }

  /** The answer was sent and cached at that moment. */
  ghost predicate AnsweredAt(h: seq<Happening>, responseId: string, time: nat, text: string) {
    exists k :: 0 <= k < |h| && h[k].Answered? && h[k].responseId == responseId && h[k].time == time && h[k].text == text
  }

  /** A waiter times out at its deadline or after it, and is resolved with an answer. */
  ghost predicate Justified(w: Waiters, h: seq<Happening>, x: Settlement) {
    && x.responseId in w.registered
    && (x.outcome.TimedOut? ==> w.registered[x.responseId] <= x.time)
    && (x.outcome.Resolved? ==> AnsweredAt(h, x.responseId, x.time, x.outcome.text))
  }

  ghost predicate WaiterInv(w: Waiters, h: seq<Happening>) {
    && (forall r :: r in w.pending <==> r in w.registered && !Settled(w, r))
    && (forall r <- w.pending :: w.pending[r] in w.timers && w.timers[w.pending[r]] == Timer(r, w.registered[r]))
    && (forall t <- w.timers ::
          && t < w.nextTimer
          && w.timers[t].responseId in w.pending
          && w.pending[w.timers[t].responseId] == t)
    && (forall i :: 0 <= i < |w.settled| ==> Justified(w, h, w.settled[i]))
    && (forall i, j :: 0 <= i < j < |w.settled| ==> w.settled[i].responseId != w.settled[j].responseId)
  }

  lemma WaiterFrame(w: Waiters, h: seq<Happening>, more: seq<Happening>)
    requires WaiterInv(w, h)
    ensures WaiterInv(w, h + more)
  {
    forall i | 0 <= i < |w.settled| ensures Justified(w, h + more, w.settled[i]) {
      var x := w.settled[i];
      assert Justified(w, h, x);
      if x.outcome.Resolved? {
        var k :| 0 <= k < |h| && h[k].Answered? && h[k].responseId == x.responseId && h[k].time == x.time
                 && h[k].text == x.outcome.text;
        assert (h + more)[k] == h[k];
      }
    }
  }

  lemma SettledMore(w: Waiters, x: Settlement, q: string)
    ensures Settled(w.(settled := w.settled + [x]), q) <==> Settled(w, q) || q == x.responseId
  {
    var more := w.settled + [x];
    assert more[|w.settled|] == x;
    if Settled(w, q) {
      var i :| 0 <= i < |w.settled| && w.settled[i].responseId == q;
      assert more[i].responseId == q;
    }
  }

  /** The settlements stay justified and distinct when a pending waiter is settled. */
  lemma SettlementsMore(w: Waiters, h: seq<Happening>, x: Settlement, n: Waiters)
    requires WaiterInv(w, h) && x.responseId in w.pending && Justified(w, h, x)
    requires n.registered == w.registered && n.settled == w.settled + [x]
    ensures forall i :: 0 <= i < |n.settled| ==> Justified(n, h, n.settled[i])
    ensures forall i, j :: 0 <= i < j < |n.settled| ==> n.settled[i].responseId != n.settled[j].responseId
  {
    forall i | 0 <= i < |w.settled| ensures Justified(n, h, w.settled[i]) && w.settled[i].responseId != x.responseId {
      assert Justified(w, h, w.settled[i]);
      assert w.settled[i].responseId == x.responseId ==> Settled(w, x.responseId);
    }
    assert Justified(n, h, x);
  }

  /** Taking one pending waiter out of both maps and recording how it ended. */
  lemma WaiterSettles(w: Waiters, h: seq<Happening>, now: nat, r: string, outcome: Outcome)
    requires WaiterInv(w, h) && r in w.pending
    requires outcome.Resolved? ==> AnsweredAt(h, r, now, outcome.text)
    requires outcome.TimedOut? ==> w.timers[w.pending[r]].deadline <= now
    ensures WaiterInv(Settle(w, r, outcome, now), h)
  {
    var n, x := Settle(w, r, outcome, now), Settlement(r, outcome, now);
    SettlementsMore(w, h, x, n);
    forall q ensures Settled(n, q) <==> Settled(w, q) || q == r { SettledMore(w, x, q); }
  }

  lemma JustifiedStays(w: Waiters, h: seq<Happening>, x: Settlement, r: string, deadline: nat)
    requires Justified(w, h, x) && r !in w.registered
    ensures Justified(Register(w, r, deadline), h, x) && x.responseId != r
  {
  }

  lemma SettlementsStay(w: Waiters, h: seq<Happening>, r: string, deadline: nat)
    requires WaiterInv(w, h) && r !in w.registered
    ensures var n := Register(w, r, deadline);
            && (forall i :: 0 <= i < |n.settled| ==> Justified(n, h, n.settled[i]) && n.settled[i].responseId != r)
            && (forall q :: Settled(n, q) <==> Settled(w, q)) && !Settled(w, r)
  {
    var n := Register(w, r, deadline);
    forall i | 0 <= i < |w.settled| ensures Justified(n, h, w.settled[i]) && w.settled[i].responseId != r {
      JustifiedStays(w, h, w.settled[i], r, deadline);
    }
  }

  lemma PendingRegistered(w: Waiters, h: seq<Happening>, r: string, deadline: nat)
    requires WaiterInv(w, h) && r !in w.registered
    ensures var n := Register(w, r, deadline);
            && (forall q <- n.pending :: n.pending[q] in n.timers && n.timers[n.pending[q]] == Timer(q, n.registered[q]))
            && (forall t <- n.timers ::
                  t < n.nextTimer && n.timers[t].responseId in n.pending && n.pending[n.timers[t].responseId] == t)
  {
  }

  lemma WaiterRegisters(w: Waiters, h: seq<Happening>, r: string, deadline: nat)
    requires WaiterInv(w, h) && r !in w.registered
    ensures WaiterInv(Register(w, r, deadline), h)
  {
    SettlementsStay(w, h, r, deadline);
    PendingRegistered(w, h, r, deadline);
  }

  /** The waiters are in order after an event. */
  ghost predicate WaitersAfter(s: State, e: Event)
    requires Enabled(s, e)
  {
    WaiterInv(NextWaiters(s, e), s.happened + Recorded(s, e))
  }

  lemma WaiterAnswers(w: Waiters, h: seq<Happening>, now: nat, r: string, outcome: Outcome)
    requires WaiterInv(w, h) && !outcome.TimedOut?
    requires outcome.Resolved? ==> AnsweredAt(h, r, now, outcome.text)
    ensures WaiterInv(Settle(w, r, outcome, now), h)
  {
    if r in w.pending { WaiterSettles(w, h, now, r, outcome); }
  }

  lemma WaiterSent(s: State, t: nat)
    requires WaiterInv(s.waiters, s.happened) && Enabled(s, Sent(t))
    ensures WaitersAfter(s, Sent(t))
  {
    var more := Recorded(s, Sent(t));
    WaiterFrame(s.waiters, s.happened, more);
    assert (s.happened + more)[|s.happened|] == more[0];
    var task := s.pollers.tasks[t];
    WaiterAnswers(s.waiters, s.happened + more, s.now, task.message.responseId.value, Resolved(task.reply.response.value));
  }

  lemma WaiterTimesOut(w: Waiters, h: seq<Happening>, now: nat, t: nat)
    requires WaiterInv(w, h) && t in w.timers && w.timers[t].deadline <= now
    ensures WaiterInv(TimeOut(w, t, now), h)
  {
    WaiterSettles(w, h, now, w.timers[t].responseId, TimedOut);
  }

  /** Events that leave the waiters alone. */
  lemma WaiterQuiet(s: State, e: Event)
    requires WaiterInv(s.waiters, s.happened) && Enabled(s, e)
    requires !e.SendUserMessage? && !e.TimeoutFires? && !e.Sent? && !e.ProcessingFailed?
    ensures WaitersAfter(s, e)
  {
    WaiterFrame(s.waiters, s.happened, Recorded(s, e));
  }

  lemma NothingRecorded(s: State, e: Event)
    requires Enabled(s, e) && !e.NextMessage? && !e.Sent?
    ensures s.happened + Recorded(s, e) == s.happened
  {
  }

  /** Events that record nothing: it is enough that the new waiters, whatever they are, fit the history. */
  lemma WaitersAre(s: State, e: Event, w: Waiters, h: seq<Happening>)
    requires Enabled(s, e) && NextWaiters(s, e) == w && s.happened + Recorded(s, e) == h && WaiterInv(w, h)
    ensures WaitersAfter(s, e)
  {
  }

  lemma WaiterSends(s: State, e: Event)
    requires WaiterInv(s.waiters, s.happened) && Enabled(s, e) && e.SendUserMessage?
    ensures WaitersAfter(s, e)
  {
    NothingRecorded(s, e);
    WaiterRegisters(s.waiters, s.happened, e.responseId, s.now + e.timeout);
    WaitersAre(s, e, Register(s.waiters, e.responseId, s.now + e.timeout), s.happened);
  }

  lemma WaiterExpires(s: State, e: Event)
    requires WaiterInv(s.waiters, s.happened) && Enabled(s, e) && e.TimeoutFires?
    ensures WaitersAfter(s, e)
  {
    NothingRecorded(s, e);
    WaiterTimesOut(s.waiters, s.happened, s.now, e.timer);
    WaitersAre(s, e, TimeOut(s.waiters, e.timer, s.now), s.happened);
  }

  lemma WaiterFails(s: State, e: Event)
    requires WaiterInv(s.waiters, s.happened) && Enabled(s, e) && e.ProcessingFailed?
    ensures WaitersAfter(s, e)
  {
    var r := s.pollers.tasks[e.task].message.responseId.value;
    NothingRecorded(s, e);
    WaiterAnswers(s.waiters, s.happened, s.now, r, Rejected);
    WaitersAre(s, e, Settle(s.waiters, r, Rejected, s.now), s.happened);
  }

  lemma WaiterStep(s: State, e: Event)
    requires WaiterInv(s.waiters, s.happened) && Enabled(s, e)
    ensures WaitersAfter(s, e)
  {
    match e
    case SendUserMessage(_, _) => WaiterSends(s, e);
    case TimeoutFires(_) => WaiterExpires(s, e);
    case ProcessingFailed(_) => WaiterFails(s, e);
    case Sent(t) => WaiterSent(s, t);
    case _ => WaiterQuiet(s, e);
  }

  // ---------------------------------------------------------------- delivery

  /** A callback of the poller still has the message in its queue. */
  predicate Waits(task: Task, a: nat, m: RawMessage) {
    m in task.Queue() && task.agent == a
  }

  /** The message has been looked at, or a callback of its poller will still look at it. */
  ghost predicate Covered(p: Pollers, a: nat, m: RawMessage) {
    (a, m.consensus) in p.visited || exists t :: t in p.tasks && Waits(p.tasks[t], a, m)
  }

  ghost predicate CoveredUpTo(p: Pollers, a: nat, mark: nat) {
    a in p.logs && forall m <- p.logs[a] :: m.consensus <= mark ==> Covered(p, a, m)
  }

  /** What a poll callback may rely on: whatever precedes a message of its queue is covered. */
  ghost predicate TaskOk(p: Pollers, task: Task) {
    && (!task.Initializing? ==> task.agent in p.logs)
    && (task.Fetching? ==> task.agent in p.marks && task.from <= p.marks[task.agent])
    && forall m <- task.Queue() :: m in p.logs[task.agent] && CoveredUpTo(p, task.agent, m.consensus)
  }

  /** The mark of a poller is no message yet, or one of its messages, and everything up to it is covered. */
  ghost predicate MarkOk(p: Pollers, a: nat, mark: nat) {
    && CoveredUpTo(p, a, mark)
    && (mark == 0 || exists m :: m in p.logs[a] && m.consensus == mark)
  }

  ghost predicate DeliveryInv(p: Pollers) {
    && p.logs.Keys == p.marks.Keys == p.agents.Keys
    && (forall t <- p.tasks :: t < p.nextTask)
    && (forall a <- p.logs :: MarkOk(p, a, p.marks[a]))
    && (forall t <- p.tasks :: TaskOk(p, p.tasks[t]))
  }

  /** No message leaves a queue except by being looked at. */
  ghost predicate Progress(p: Pollers, n: Pollers) {
    && p.visited <= n.visited
    && forall t: nat, a: nat, m: RawMessage :: t in p.tasks && Waits(p.tasks[t], a, m) ==>
         (a, m.consensus) in n.visited || (t in n.tasks && Waits(n.tasks[t], a, m))
  }

  lemma CoverageKept(p: Pollers, n: Pollers, a: nat, mark: nat)
    requires CoveredUpTo(p, a, mark) && Progress(p, n)
    requires a in n.logs && forall m <- n.logs[a] :: m in p.logs[a] || mark < m.consensus
    ensures CoveredUpTo(n, a, mark)
  {
  }

  /** Logs only gain messages newer than all they hold. */
  ghost predicate LogsGrow(p: Pollers, n: Pollers) {
    forall a <- p.logs ::
      && a in n.logs
      && (forall m <- p.logs[a] :: m in n.logs[a])
      && (forall m <- n.logs[a] :: m in p.logs[a] || (0 < m.consensus && forall x <- p.logs[a] :: x.consensus < m.consensus))
  }

  lemma MarkKept(p: Pollers, n: Pollers, a: nat, mark: nat)
    requires MarkOk(p, a, mark) && Progress(p, n) && LogsGrow(p, n)
    ensures MarkOk(n, a, mark)
  {
  }

  /** The task belongs to the same poller and has at most the old messages left. */
  predicate Remains(before: Task, after: Task) {
    && !before.Initializing? && !after.Initializing? && after.agent == before.agent
    && (after.Fetching? ==> after == before)
    && forall m <- after.Queue() :: m in before.Queue()
  }

  lemma TaskKept(p: Pollers, n: Pollers, before: Task, after: Task)
    requires TaskOk(p, before) && Progress(p, n) && LogsGrow(p, n) && Remains(before, after)
    requires before.Fetching? ==> before.agent in n.marks && p.marks[before.agent] <= n.marks[before.agent]
    ensures TaskOk(n, after)
  {
  }

  lemma DeliveryFrame(p: Pollers, n: Pollers)
    requires DeliveryInv(p) && Progress(p, n) && LogsGrow(p, n)
    requires n.logs.Keys == n.marks.Keys == n.agents.Keys
    requires forall t <- n.tasks :: t < n.nextTask
    requires forall a <- n.logs ::
               (a in p.logs && p.marks[a] == n.marks[a]) || (MarkOk(n, a, n.marks[a]) && (a in p.marks ==> p.marks[a] <= n.marks[a]))
    requires forall t <- n.tasks ::
               n.tasks[t].Initializing? || (t in p.tasks && Remains(p.tasks[t], n.tasks[t])) || TaskOk(n, n.tasks[t])
    ensures DeliveryInv(n)
  {
    forall a <- n.logs ensures MarkOk(n, a, n.marks[a]) {
      if a in p.logs && p.marks[a] == n.marks[a] { MarkKept(p, n, a, p.marks[a]); }
    }
    forall t <- n.tasks ensures TaskOk(n, n.tasks[t]) {
      if t in p.tasks && Remains(p.tasks[t], n.tasks[t]) { TaskKept(p, n, p.tasks[t], n.tasks[t]); }
    }
  }

  lemma {:induction false} SinceMembers(log: seq<RawMessage>, from: nat, m: RawMessage)
    ensures m in Since(log, from) <==> m in log && from <= m.consensus
  {
    if log != [] {
      var init := log[..|log| - 1];
      assert log == init + [log[|log| - 1]];
      SinceMembers(init, from, m);
    }
  }

  lemma TaskRemoved(p: Pollers, t: nat)
    requires DeliveryInv(p) && t in p.tasks && p.tasks[t].Queue() == []
    ensures DeliveryInv(p.(tasks := p.tasks - {t}))
  {
    DeliveryFrame(p, p.(tasks := p.tasks - {t}));
  }

  lemma SameLogsGrow(p: Pollers, n: Pollers)
    requires n.logs == p.logs
    ensures LogsGrow(p, n)
  {
  }

  /** A special case of the frame: only tasks change. */
  lemma TasksFrame(p: Pollers, n: Pollers)
    requires DeliveryInv(p) && Progress(p, n) && n.logs == p.logs && n.marks == p.marks && n.agents == p.agents
    requires forall t <- n.tasks :: t < n.nextTask
    requires forall t <- n.tasks :: (t in p.tasks && n.tasks[t] == p.tasks[t]) || TaskOk(n, n.tasks[t])
    ensures DeliveryInv(n)
  {
    SameLogsGrow(p, n);
    forall a <- n.logs ensures MarkOk(n, a, n.marks[a]) { MarkKept(p, n, a, p.marks[a]); }
    forall t <- n.tasks ensures TaskOk(n, n.tasks[t]) {
      if t in p.tasks && n.tasks[t] == p.tasks[t] { TaskStays(p, n, t); }
    }
  }

  lemma OneTaskFrame(p: Pollers, t: nat, after: Task)
    requires DeliveryInv(p) && t in p.tasks
    requires var n := p.(tasks := p.tasks[t := after]); Progress(p, n) && TaskOk(n, after)
    ensures DeliveryInv(p.(tasks := p.tasks[t := after]))
  {
    TasksFrame(p, p.(tasks := p.tasks[t := after]));
  }

  lemma TaskReplaced(p: Pollers, t: nat, after: Task)
    requires DeliveryInv(p) && t in p.tasks && Remains(p.tasks[t], after)
    requires forall m <- p.tasks[t].Queue() :: m in after.Queue() || (after.agent, m.consensus) in p.visited
    ensures DeliveryInv(p.(tasks := p.tasks[t := after]))
  {
    var n := p.(tasks := p.tasks[t := after]);
    ReplacementProgress(p, t, after);
    TaskKept(p, n, p.tasks[t], after);
    OneTaskFrame(p, t, after);
  }

  lemma ReplacementProgress(p: Pollers, t: nat, after: Task)
    requires t in p.tasks && Remains(p.tasks[t], after)
    requires forall m <- p.tasks[t].Queue() :: m in after.Queue() || (after.agent, m.consensus) in p.visited
    ensures Progress(p, p.(tasks := p.tasks[t := after])) && LogsGrow(p, p.(tasks := p.tasks[t := after]))
  {
  }

  lemma SpawnedOk(p: Pollers, task: Task)
    requires TaskOk(p, task) && task.Queue() == []
    ensures TaskOk(Spawn(p, task), task)
  {
  }

  lemma SpawnProgress(p: Pollers, task: Task)
    requires p.nextTask !in p.tasks
    ensures Progress(p, Spawn(p, task))
  {
  }

  lemma TaskSpawned(p: Pollers, task: Task)
    requires DeliveryInv(p) && TaskOk(p, task) && task.Queue() == []
    ensures DeliveryInv(Spawn(p, task))
  {
    SpawnedOk(p, task);
    SpawnProgress(p, task);
    TasksFrame(p, Spawn(p, task));
  }

  lemma AgentsChanged(p: Pollers, agents: map<nat, Agent>, active: map<string, nat>)
    requires DeliveryInv(p) && agents.Keys == p.agents.Keys
    ensures DeliveryInv(p.(agents := agents, activeAgents := active))
  {
  }

  lemma SameTasksProgress(p: Pollers, n: Pollers)
    requires n.tasks == p.tasks && p.visited <= n.visited
    ensures Progress(p, n)
  {
  }

  lemma PostedGrows(p: Pollers, a: nat, m: RawMessage)
    requires a in p.logs && 0 < m.consensus && forall x <- p.logs[a] :: x.consensus < m.consensus
    ensures LogsGrow(p, p.(logs := p.logs[a := p.logs[a] + [m]]))
  {
  }

  lemma Posted(p: Pollers, a: nat, m: RawMessage)
    requires DeliveryInv(p) && a in p.logs && 0 < m.consensus && forall x <- p.logs[a] :: x.consensus < m.consensus
    ensures DeliveryInv(p.(logs := p.logs[a := p.logs[a] + [m]]))
  {
    var n := p.(logs := p.logs[a := p.logs[a] + [m]]);
    SameTasksProgress(p, n);
    PostedGrows(p, a, m);
    SameMarksFrame(p, n);
  }

  /** A special case of the frame: neither marks nor tasks change. */
  lemma SameMarksFrame(p: Pollers, n: Pollers)
    requires DeliveryInv(p) && Progress(p, n) && LogsGrow(p, n) && n.logs.Keys == p.logs.Keys
    requires n.marks == p.marks && n.agents == p.agents && n.tasks == p.tasks && n.nextTask == p.nextTask
    ensures DeliveryInv(n)
  {
    forall a <- n.logs ensures MarkOk(n, a, n.marks[a]) { MarkKept(p, n, a, p.marks[a]); }
    forall t <- n.tasks ensures TaskOk(n, n.tasks[t]) { TaskStays(p, n, t); }
  }

  lemma TaskStays(p: Pollers, n: Pollers, t: nat)
    requires DeliveryInv(p) && Progress(p, n) && LogsGrow(p, n) && n.marks == p.marks && t in p.tasks
    ensures TaskOk(n, p.tasks[t])
  {
    if !p.tasks[t].Initializing? { TaskKept(p, n, p.tasks[t], p.tasks[t]); }
  }

  predicate Extends(p: Pollers, n: Pollers) {
    && n.tasks == p.tasks && n.visited == p.visited
    && forall a <- p.logs :: a in n.logs && n.logs[a] == p.logs[a] && (a in p.marks ==> a in n.marks && n.marks[a] == p.marks[a])
  }

  lemma TaskExtends(p: Pollers, n: Pollers, task: Task)
    requires TaskOk(p, task) && Extends(p, n)
    ensures TaskOk(n, task)
  {
  }

  lemma MarkExtends(p: Pollers, n: Pollers, a: nat, mark: nat)
    requires MarkOk(p, a, mark) && Extends(p, n)
    ensures MarkOk(n, a, mark)
  {
  }

  lemma PollerAdded(p: Pollers, n: Pollers, a: nat)
    requires DeliveryInv(p) && Extends(p, n) && n.nextTask == p.nextTask && n.logs.Keys == n.marks.Keys == n.agents.Keys
    requires n.logs.Keys == p.logs.Keys + {a} && MarkOk(n, a, n.marks[a])
    ensures DeliveryInv(n)
  {
    forall t | t in n.tasks ensures TaskOk(n, n.tasks[t]) { TaskExtends(p, n, p.tasks[t]); }
    forall b | b in n.logs ensures MarkOk(n, b, n.marks[b]) {
      if b != a { MarkExtends(p, n, b, p.marks[b]); }
    }
  }

  lemma AgentAdded(p: Pollers, a: nat, agent: Agent)
    requires DeliveryInv(p) && a !in p.agents
    ensures DeliveryInv(p.(agents := p.agents[a := agent],
                           activeAgents := p.activeAgents[agent.userId := a],
                           logs := p.logs[a := []],
                           marks := p.marks[a := 0]))
  {
    var n := p.(agents := p.agents[a := agent], activeAgents := p.activeAgents[agent.userId := a],
                logs := p.logs[a := []], marks := p.marks[a := 0]);
    assert a !in p.logs && a !in p.marks;
    PollerAdded(p, n, a);
  }

  /** A fetch from a mark onwards misses nothing: what lies below the mark was covered before. */
  lemma BatchOk(p: Pollers, t: nat, batch: seq<RawMessage>)
    requires DeliveryInv(p) && t in p.tasks && p.tasks[t].Fetching?
    requires forall m :: m in batch <==> m in p.logs[p.tasks[t].agent] && p.tasks[t].from <= m.consensus
    ensures DeliveryInv(p.(tasks := p.tasks[t := Scanning(p.tasks[t].agent, batch)]))
  {
    BatchCovers(p, t, batch);
    OneTaskFrame(p, t, Scanning(p.tasks[t].agent, batch));
  }

  lemma BatchCovers(p: Pollers, t: nat, batch: seq<RawMessage>)
    requires DeliveryInv(p) && t in p.tasks && p.tasks[t].Fetching?
    requires forall m :: m in batch <==> m in p.logs[p.tasks[t].agent] && p.tasks[t].from <= m.consensus
    ensures var n := p.(tasks := p.tasks[t := Scanning(p.tasks[t].agent, batch)]);
            Progress(p, n) && TaskOk(n, n.tasks[t])
  {
    assert TaskOk(p, p.tasks[t]);
    var a := p.tasks[t].agent;
    var n := p.(tasks := p.tasks[t := Scanning(a, batch)]);
    CoverageKept(p, n, a, p.marks[a]);
    forall x | x in n.logs[a] ensures Covered(n, a, x) {
      if x in batch { assert Waits(n.tasks[t], a, x); }
    }
  }

  lemma DeliveryFetched(s: State, t: nat)
    requires DeliveryInv(s.pollers) && Enabled(s, Fetched(t))
    ensures DeliveryInv(NextPollers(s, Fetched(t)))
  {
    var p := s.pollers;
    var a, from := p.tasks[t].agent, p.tasks[t].from;
    var batch := Since(p.logs[a], from);
    if batch == [] {
      TaskRemoved(p, t);
    } else {
      forall m ensures m in batch <==> m in p.logs[a] && from <= m.consensus {
        SinceMembers(p.logs[a], from, m);
      }
      BatchOk(p, t, batch);
    }
  }

  /** A message is looked at: the mark may move up to it when all before it is covered. */
  function Looked(p: Pollers, a: nat, m: RawMessage): Pollers
    requires a in p.marks
  {
    p.(marks := p.marks[a := if m.consensus > p.marks[a] then m.consensus else p.marks[a]],
       visited := p.visited + {(a, m.consensus)})
  }

  lemma LookedAt(p: Pollers, a: nat, m: RawMessage)
    requires DeliveryInv(p) && a in p.marks && m in p.logs[a] && CoveredUpTo(p, a, m.consensus)
    ensures DeliveryInv(Looked(p, a, m))
  {
    LookedMark(p, a, m);
    LookedMarks(p, a, m);
    LookedTasks(p, a, m);
  }

  lemma LookedMarks(p: Pollers, a: nat, m: RawMessage)
    requires DeliveryInv(p) && a in p.marks && MarkOk(Looked(p, a, m), a, Looked(p, a, m).marks[a])
    ensures forall b <- p.logs :: MarkOk(Looked(p, a, m), b, Looked(p, a, m).marks[b])
  {
    var n := Looked(p, a, m);
    SameTasksProgress(p, n);
    forall b | b in p.logs && b != a ensures MarkOk(n, b, n.marks[b]) { MarkKept(p, n, b, p.marks[b]); }
  }

  lemma LookedTasks(p: Pollers, a: nat, m: RawMessage)
    requires DeliveryInv(p) && a in p.marks
    ensures forall t <- p.tasks :: TaskOk(Looked(p, a, m), p.tasks[t])
  {
    var n := Looked(p, a, m);
    SameTasksProgress(p, n);
    forall t | t in p.tasks ensures TaskOk(n, p.tasks[t]) {
      if !p.tasks[t].Initializing? { TaskKept(p, n, p.tasks[t], p.tasks[t]); }
    }
  }

  lemma LookedMark(p: Pollers, a: nat, m: RawMessage)
    requires DeliveryInv(p) && a in p.marks && m in p.logs[a] && CoveredUpTo(p, a, m.consensus)
    ensures MarkOk(Looked(p, a, m), a, Looked(p, a, m).marks[a]) && Progress(p, Looked(p, a, m))
  {
  }

  /** The task goes on behind a message that was looked at. */
  lemma HeadDropped(p: Pollers, t: nat, after: Task)
    requires DeliveryInv(p) && t in p.tasks && p.tasks[t].Queue() != []
    requires !after.Initializing? && !after.Fetching? && after.agent == p.tasks[t].agent
    requires after.Queue() == p.tasks[t].Queue()[1..]
    requires (after.agent, p.tasks[t].Queue()[0].consensus) in p.visited
    ensures DeliveryInv(p.(tasks := p.tasks[t := after]))
  {
    var queue := p.tasks[t].Queue();
    assert queue == [queue[0]] + queue[1..];
    TaskReplaced(p, t, after);
  }

  lemma HeadTaken(p: Pollers, t: nat, after: Task)
    requires DeliveryInv(p) && t in p.tasks && p.tasks[t].Queue() != [] && p.tasks[t].agent in p.marks
    requires !after.Initializing? && !after.Fetching? && after.agent == p.tasks[t].agent
    requires after.Queue() == p.tasks[t].Queue()[1..]
    ensures DeliveryInv(Looked(p, after.agent, p.tasks[t].Queue()[0]).(tasks := p.tasks[t := after]))
  {
    assert TaskOk(p, p.tasks[t]);
    var head := p.tasks[t].Queue()[0];
    LookedAt(p, after.agent, head);
    HeadDropped(Looked(p, after.agent, head), t, after);
  }

  /** One round of the loop takes the head of the queue and touches its agent. */
  lemma VisitLooks(s: State, t: nat)
    requires Enabled(s, NextMessage(t)) && s.pollers.tasks[t].queue != []
    ensures var p, task, n := s.pollers, s.pollers.tasks[t], Visit(s, t);
            && task.agent in p.marks && t in n.tasks && n.agents.Keys == p.agents.Keys
            && !n.tasks[t].Initializing? && !n.tasks[t].Fetching? && n.tasks[t].agent == task.agent
            && n.tasks[t].Queue() == task.Queue()[1..] && task.Queue() == task.queue
            && n == Looked(p, task.agent, task.queue[0]).(tasks := p.tasks[t := n.tasks[t]], agents := n.agents, activeAgents := p.activeAgents)
  {
  }

  lemma DeliveryVisit(s: State, t: nat)
    requires DeliveryInv(s.pollers) && Enabled(s, NextMessage(t))
    ensures DeliveryInv(Visit(s, t))
  {
    if s.pollers.tasks[t].queue == [] {
      TaskRemoved(s.pollers, t);
    } else {
      VisitLooks(s, t);
      HeadVisited(s.pollers, t, Visit(s, t));
    }
  }

  lemma HeadVisited(p: Pollers, t: nat, n: Pollers)
    requires DeliveryInv(p) && t in p.tasks && p.tasks[t].Queue() != [] && p.tasks[t].agent in p.marks
    requires t in n.tasks && n.agents.Keys == p.agents.Keys && !n.tasks[t].Initializing? && !n.tasks[t].Fetching?
    requires n.tasks[t].agent == p.tasks[t].agent && n.tasks[t].Queue() == p.tasks[t].Queue()[1..]
    requires n == Looked(p, p.tasks[t].agent, p.tasks[t].Queue()[0])
                  .(tasks := p.tasks[t := n.tasks[t]], agents := n.agents, activeAgents := p.activeAgents)
    ensures DeliveryInv(n)
  {
    HeadTaken(p, t, n.tasks[t]);
    AgentsChanged(Looked(p, p.tasks[t].agent, p.tasks[t].Queue()[0]).(tasks := p.tasks[t := n.tasks[t]]), n.agents, p.activeAgents);
  }

  lemma Deactivated(p: Pollers, u: string)
    requires DeliveryInv(p)
    ensures DeliveryInv(Deactivate(p, u))
  {
  }

  lemma DeliveryTask(s: State, e: Event)
    requires DeliveryInv(s.pollers) && Enabled(s, e)
    requires e.PollTick? || e.Fetched? || e.FetchFailed? || e.NextMessage? || e.Generated? || e.Sent? || e.ProcessingFailed?
    ensures DeliveryInv(NextPollers(s, e))
  {
    var p := s.pollers;
    match e {
      case PollTick(a, from) => TaskSpawned(p, Fetching(a, from));
      case Fetched(t) => DeliveryFetched(s, t);
      case FetchFailed(t) => TaskRemoved(p, t);
      case NextMessage(t) => DeliveryVisit(s, t);
      case Generated(t, _) => TaskReplaced(p, t, NextPollers(s, e).tasks[t]);
      case Sent(t) => TaskReplaced(p, t, Resume(p, t).tasks[t]);
      case ProcessingFailed(t) => TaskReplaced(p, t, Resume(p, t).tasks[t]);
    }
  }

  lemma DeliveryStep(s: State, e: Event)
    requires DeliveryInv(s.pollers) && Enabled(s, e)
    ensures DeliveryInv(NextPollers(s, e))
  {
    var p := s.pollers;
    match e {
      case BeginInitialize(u) =>
        Deactivated(p, u);
        TaskSpawned(Deactivate(p, u), Initializing(u));
      case FinishInitialize(t, a) =>
        TaskRemoved(p, t);
        AgentAdded(p.(tasks := p.tasks - {t}), a, Agent(p.tasks[t].userId, true, s.now));
      case AbandonInitialize(t) => TaskRemoved(p, t);
      case Destroy(u) => Deactivated(p, u);
      case Post(a, m) => Posted(p, a, m);
      case Tick(_) =>
      case CollectGarbage =>
      case SendUserMessage(_, _) =>
      case TimeoutFires(_) =>
      case _ => DeliveryTask(s, e);
    }
  }

  // ---------------------------------------------------------------- agents

  /** A user is mapped to an agent of their own that is active; agents that lost their place may stay active. */
  ghost predicate AgentInv(p: Pollers) {
    forall u <- p.activeAgents ::
      p.activeAgents[u] in p.agents && p.agents[p.activeAgents[u]].isActive && p.agents[p.activeAgents[u]].userId == u
  }

  lemma AgentStep(s: State, e: Event)
    requires AgentInv(s.pollers) && Enabled(s, e)
    ensures AgentInv(Next(s, e).pollers)
  {
  }

  // ---------------------------------------------------------------- every run

  ghost predicate Inv(s: State) {
    CacheInv(s) && AnswerInv(s) && WaiterInv(s.waiters, s.happened) && DeliveryInv(s.pollers) && AgentInv(s.pollers)
  }

  lemma InvStep(s: State, e: Event)
    requires Inv(s) && Enabled(s, e)
    ensures Inv(Next(s, e))
  {
    CacheStep(s, e);
    AnswerStep(s, e);
    WaiterStep(s, e);
    DeliveryStep(s, e);
    AgentStep(s, e);
  }

  lemma {:induction false} InvRun(s: State, run: seq<Event>)
    requires Inv(s) && ValidRun(s, run)
    ensures Inv(After(s, run))
    decreases |run|
  {
    if run != [] {
      InvStep(s, run[0]);
      InvRun(Next(s, run[0]), run[1..]);
    }
  }

  lemma InvAlways(run: seq<Event>)
    requires ValidRun(INITIAL, run)
    ensures Inv(After(INITIAL, run))
  {
    InvRun(INITIAL, run);
  }
}
