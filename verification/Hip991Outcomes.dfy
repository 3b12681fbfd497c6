/** How a promise for a response ends: with the first of answer, failure and timeout that comes for it. */
module Hip991Outcomes {
  import opened Common
  import opened Hip991
  import opened Hip991Invariants

  lemma {:induction false} LastStep(s: State, run: seq<Event>)
    requires ValidRun(s, run) && run != []
    ensures var init, e := run[..|run| - 1], run[|run| - 1];
            ValidRun(s, init) && Enabled(After(s, init), e) && After(s, run) == Next(After(s, init), e)
    decreases |run|
  {
    var init, e := run[..|run| - 1], run[|run| - 1];
    if |run| == 1 {
      assert init == [] && run[1..] == [];
    } else {
      LastStep(Next(s, run[0]), run[1..]);
      assert run[1..][..|run| - 2] == init[1..] && run[1..][|run| - 2] == e && init[0] == run[0];
    }
  }

  // ---------------------------------------------------------------- what is said about a response

  /** The text generated last in a callback. */
  function TextOf(run: seq<Event>, t: nat): Option<string> {
    if run == [] then None
    else if run[|run| - 1].Generated? && run[|run| - 1].task == t then Some(run[|run| - 1].text)
    else TextOf(run[..|run| - 1], t)
  }

  /** The answer that a callback sends has the text that was generated for it. */
  lemma {:induction false} RepliesAsGenerated(run: seq<Event>, t: nat)
    requires ValidRun(INITIAL, run)
    ensures var tasks := After(INITIAL, run).pollers.tasks;
            t in tasks && tasks[t].Sending? ==> tasks[t].reply.response.Some? && tasks[t].reply.response == TextOf(run, t)
    decreases |run|
  {
    if run != [] {
      var init, e := run[..|run| - 1], run[|run| - 1];
      LastStep(INITIAL, run);
      RepliesAsGenerated(init, t);
      if t in After(INITIAL, run).pollers.tasks && After(INITIAL, run).pollers.tasks[t].Sending? {
        SendingBefore(After(INITIAL, init), e, t);
      }
    }
  }

  lemma SendingBefore(s: State, e: Event, t: nat)
    requires Enabled(s, e) && t in NextPollers(s, e).tasks && NextPollers(s, e).tasks[t].Sending?
    ensures if e.Generated? && e.task == t then NextPollers(s, e).tasks[t].reply.response == Some(e.text)
            else t in s.pollers.tasks && s.pollers.tasks[t] == NextPollers(s, e).tasks[t]
  {
  }

  /** What the next event after a run says about the response: its answer is sent, answering failed, or a timer fires for it. */
  function Verdict(run: seq<Event>, e: Event, r: string): Option<Outcome>
    requires ValidRun(INITIAL, run) && Enabled(After(INITIAL, run), e)
  {
    var s := After(INITIAL, run);
    match e
    case Sent(t) =>
      if s.pollers.tasks[t].message.responseId == Some(r) && TextOf(run, t).Some? then Some(Resolved(TextOf(run, t).value)) else None
    case ProcessingFailed(t) => if s.pollers.tasks[t].message.responseId == Some(r) then Some(Rejected) else None
    case TimeoutFires(h) => if s.waiters.timers[h].responseId == r then Some(TimedOut) else None
    case _ => None
  }

  // ---------------------------------------------------------------- what becomes of a promise

  datatype Fate = Unknown | Waiting(deadline: nat) | Ended(deadline: nat, outcome: Outcome, time: nat)

  /** What the next event makes of a promise. */
  function NextFate(fate: Fate, now: nat, e: Event, r: string, verdict: Option<Outcome>): Fate {
    match fate
    case Unknown => if e.SendUserMessage? && e.responseId == r then Waiting(now + e.timeout) else Unknown
    case Waiting(d) => if verdict.Some? then Ended(d, verdict.value, now) else fate
    case Ended(_, _, _) => fate
  }

  /** Registered with a deadline, and then ended by the first thing that is said about the response. */
  function FateOf(run: seq<Event>, r: string): Fate
    requires ValidRun(INITIAL, run)
    decreases |run|
  {
    if run == [] then Unknown
    else
      LastStep(INITIAL, run);
      var init, e := run[..|run| - 1], run[|run| - 1];
      NextFate(FateOf(init, r), After(INITIAL, init).now, e, r, Verdict(init, e, r))
  }

  /** The maps and the settlements say the same. */
  ghost predicate Agrees(w: Waiters, r: string, fate: Fate) {
    match fate
    case Unknown => r !in w.registered && r !in w.pending && !Settled(w, r)
    case Waiting(d) => r in w.registered && w.registered[r] == d && r in w.pending && !Settled(w, r)
                       && w.pending[r] in w.timers && w.timers[w.pending[r]] == Timer(r, d)
    case Ended(d, outcome, time) => r in w.registered && w.registered[r] == d && r !in w.pending && Settlement(r, outcome, time) in w.settled
  }

  /** The waiter of another response is as before. */
  lemma OtherWaiter(w: Waiters, n: Waiters, r: string, fate: Fate, x: Settlement)
    requires Agrees(w, r, fate) && x.responseId != r
    requires n.registered == w.registered && n.pending == w.pending - {x.responseId} && n.settled == w.settled + [x]
    requires forall t <- w.timers :: w.timers[t].responseId == r ==> t in n.timers && n.timers[t] == w.timers[t]
    ensures Agrees(n, r, fate)
  {
    SettledMore(w, x, r);
    assert Settled(n, r) <==> Settled(w, r);
  }

  lemma OwnWaiter(w: Waiters, n: Waiters, deadline: nat, x: Settlement)
    requires Agrees(w, x.responseId, Waiting(deadline))
    requires n.registered == w.registered && n.pending == w.pending - {x.responseId} && n.settled == w.settled + [x]
    ensures Agrees(n, x.responseId, Ended(deadline, x.outcome, x.time))
  {
  }

  /** One thing is said about a response that waits: it ends so. */
  lemma SettleAgrees(w: Waiters, h: seq<Happening>, q: string, outcome: Outcome, now: nat, r: string, fate: Fate)
    requires WaiterInv(w, h) && Agrees(w, r, fate)
    ensures Agrees(Settle(w, q, outcome, now), r, if q == r && fate.Waiting? then Ended(fate.deadline, outcome, now) else fate)
  {
    if q in w.pending {
      var x := Settlement(q, outcome, now);
      if q == r {
        OwnWaiter(w, Settle(w, q, outcome, now), fate.deadline, x);
      } else {
        OtherWaiter(w, Settle(w, q, outcome, now), r, fate, x);
      }
    }
  }

  lemma TimeOutAgrees(w: Waiters, h: seq<Happening>, t: nat, now: nat, r: string, fate: Fate)
    requires WaiterInv(w, h) && Agrees(w, r, fate) && t in w.timers
    ensures Agrees(TimeOut(w, t, now), r, if w.timers[t].responseId == r && fate.Waiting? then Ended(fate.deadline, TimedOut, now) else fate)
    ensures w.timers[t].responseId == r ==> fate.Waiting?
  {
    var q := w.timers[t].responseId;
    var x := Settlement(q, TimedOut, now);
    if q == r {
      OwnWaiter(w, TimeOut(w, t, now), fate.deadline, x);
    } else {
      OtherWaiter(w, TimeOut(w, t, now), r, fate, x);
    }
  }

  lemma RegisterAgrees(w: Waiters, h: seq<Happening>, q: string, deadline: nat, r: string, fate: Fate)
    requires WaiterInv(w, h) && Agrees(w, r, fate) && q !in w.registered
    ensures Agrees(Register(w, q, deadline), r, if q == r then Waiting(deadline) else fate)
  {
    assert Settled(Register(w, q, deadline), r) <==> Settled(w, r);
  }

  lemma RegisteredStep(init: seq<Event>, s: State, e: Event, r: string, fate: Fate)
    requires ValidRun(INITIAL, init) && s == After(INITIAL, init) && Enabled(s, e) && e.SendUserMessage?
    requires WaiterInv(s.waiters, s.happened) && Agrees(s.waiters, r, fate)
    ensures Agrees(NextWaiters(s, e), r, NextFate(fate, s.now, e, r, Verdict(init, e, r)))
  {
    RegisterAgrees(s.waiters, s.happened, e.responseId, s.now + e.timeout, r, fate);
  }

  lemma TimedOutStep(init: seq<Event>, s: State, e: Event, r: string, fate: Fate)
    requires ValidRun(INITIAL, init) && s == After(INITIAL, init) && Enabled(s, e) && e.TimeoutFires?
    requires WaiterInv(s.waiters, s.happened) && Agrees(s.waiters, r, fate)
    ensures Agrees(NextWaiters(s, e), r, NextFate(fate, s.now, e, r, Verdict(init, e, r)))
  {
    TimeOutAgrees(s.waiters, s.happened, e.timer, s.now, r, fate);
  }

  lemma SentStep(init: seq<Event>, s: State, e: Event, r: string, fate: Fate)
    requires ValidRun(INITIAL, init) && s == After(INITIAL, init) && Enabled(s, e) && e.Sent?
    requires WaiterInv(s.waiters, s.happened) && Agrees(s.waiters, r, fate)
    ensures Agrees(NextWaiters(s, e), r, NextFate(fate, s.now, e, r, Verdict(init, e, r)))
  {
    RepliesAsGenerated(init, e.task);
    var task := s.pollers.tasks[e.task];
    SettleAgrees(s.waiters, s.happened, task.message.responseId.value, Resolved(task.reply.response.value), s.now, r, fate);
  }

  lemma FailedStep(init: seq<Event>, s: State, e: Event, r: string, fate: Fate)
    requires ValidRun(INITIAL, init) && s == After(INITIAL, init) && Enabled(s, e) && e.ProcessingFailed?
    requires WaiterInv(s.waiters, s.happened) && Agrees(s.waiters, r, fate)
    ensures Agrees(NextWaiters(s, e), r, NextFate(fate, s.now, e, r, Verdict(init, e, r)))
  {
    SettleAgrees(s.waiters, s.happened, s.pollers.tasks[e.task].message.responseId.value, Rejected, s.now, r, fate);
  }

  predicate ConcernsPromises(e: Event) {
    e.SendUserMessage? || e.TimeoutFires? || e.Sent? || e.ProcessingFailed?
  }

  lemma NothingSaid(init: seq<Event>, s: State, e: Event, r: string, fate: Fate)
    requires ValidRun(INITIAL, init) && s == After(INITIAL, init) && Enabled(s, e) && !ConcernsPromises(e)
    ensures NextWaiters(s, e) == s.waiters && NextFate(fate, s.now, e, r, Verdict(init, e, r)) == fate
  {
  }

  lemma WaitersInOrder(run: seq<Event>)
    requires ValidRun(INITIAL, run)
    ensures WaiterInv(After(INITIAL, run).waiters, After(INITIAL, run).happened)
  {
    InvAlways(run);
  }

  lemma FateStep(init: seq<Event>, s: State, e: Event, r: string, fate: Fate)
    requires ValidRun(INITIAL, init) && s == After(INITIAL, init) && Enabled(s, e) && Agrees(s.waiters, r, fate)
    ensures Agrees(NextWaiters(s, e), r, NextFate(fate, s.now, e, r, Verdict(init, e, r)))
  {
    WaitersInOrder(init);
    if e.SendUserMessage? {
      RegisteredStep(init, s, e, r, fate);
    } else if e.TimeoutFires? {
      TimedOutStep(init, s, e, r, fate);
    } else if e.Sent? {
      SentStep(init, s, e, r, fate);
    } else if e.ProcessingFailed? {
      FailedStep(init, s, e, r, fate);
    } else {
      NothingSaid(init, s, e, r, fate);
    }
  }

  /**
   * In every run: a promise that was registered waits, with its deadline and its timer, until the first answer, failure or
   * timer for its response, and is then resolved with the text that was generated, rejected, or timed out, at that moment.
   */
  lemma {:induction false} OutcomeIsFirstVerdict(run: seq<Event>, r: string)
    requires ValidRun(INITIAL, run)
    ensures Agrees(After(INITIAL, run).waiters, r, FateOf(run, r))
    decreases |run|
  {
    if run != [] {
      var init, e := run[..|run| - 1], run[|run| - 1];
      LastStep(INITIAL, run);
      OutcomeIsFirstVerdict(init, r);
      FateStep(init, After(INITIAL, init), e, r, FateOf(init, r));
    }
  }

  /** A promise ended with an outcome, and no other, exactly if that was the first thing said about its response. */
  lemma OutcomeIff(run: seq<Event>, r: string, outcome: Outcome)
    requires ValidRun(INITIAL, run)
    ensures var settled := After(INITIAL, run).waiters.settled;
            (exists i :: 0 <= i < |settled| && settled[i].responseId == r && settled[i].outcome == outcome)
            <==> FateOf(run, r).Ended? && FateOf(run, r).outcome == outcome
  {
    var w, fate := After(INITIAL, run).waiters, FateOf(run, r);
    OutcomeIsFirstVerdict(run, r);
    InvAlways(run);
    if fate.Ended? {
      var j :| 0 <= j < |w.settled| && w.settled[j] == Settlement(r, fate.outcome, fate.time);
      forall i | 0 <= i < |w.settled| && w.settled[i].responseId == r ensures i == j { }
    }
  }

  /** In particular an answer that is sent while its promise waits resolves it, with the text that was generated. */
  lemma AnswerResolves(run: seq<Event>, t: nat)
    requires ValidRun(INITIAL, run) && Enabled(After(INITIAL, run), Sent(t))
    requires After(INITIAL, run).pollers.tasks[t].message.responseId.value in After(INITIAL, run).waiters.pending
    ensures var s := After(INITIAL, run);
            var r := s.pollers.tasks[t].message.responseId.value;
            TextOf(run, t).Some? &&
            Next(s, Sent(t)).waiters.settled == s.waiters.settled + [Settlement(r, Resolved(TextOf(run, t).value), s.now)]
            && r !in Next(s, Sent(t)).waiters.pending
  {
    RepliesAsGenerated(run, t);
  }
}
