/** What every run of the HIP-991 runtime keeps: duplicate suppression, the life of a waiter, and delivery. */
module Hip991Safety {
  import opened Common
  import opened Hip991
  import opened Hip991Invariants

  // ---------------------------------------------------------------- deadlines

  /** The clock does not run past a timer that is due. */
  predicate OnTime(s: State, e: Event) {
    e.Tick? ==> forall h <- s.waiters.timers :: e.to <= s.waiters.timers[h].deadline
  }

  predicate TimersOnTime(s: State, run: seq<Event>)
    requires ValidRun(s, run)
    decreases |run|
  {
    run == [] || (OnTime(s, run[0]) && TimersOnTime(Next(s, run[0]), run[1..]))
  }

  /** No waiter is pending after its deadline or was settled after it. */
  ghost predicate Timely(w: Waiters, now: nat) {
    && (forall r <- w.pending :: r in w.registered && now <= w.registered[r])
    && (forall i :: 0 <= i < |w.settled| ==>
          w.settled[i].responseId in w.registered && w.settled[i].time <= w.registered[w.settled[i].responseId])
  }

  lemma TickTimelyIff(w: Waiters, h: seq<Happening>, now: nat, to: nat)
    requires WaiterInv(w, h) && Timely(w, now) && now <= to
    ensures Timely(w, to) <==> forall t <- w.timers :: to <= w.timers[t].deadline
  {
    forall r | r in w.pending ensures w.timers[w.pending[r]].deadline == w.registered[r] {}
  }

  /** A waiter stays pending after its deadline until it is settled after it. */
  lemma LateStays(s: State, e: Event)
    requires Enabled(s, e) && WaiterInv(s.waiters, s.happened) && !Timely(s.waiters, s.now)
    ensures !Timely(NextWaiters(s, e), NextNow(s, e))
  {
    var w, n := s.waiters, NextWaiters(s, e);
    if i :| 0 <= i < |w.settled| && w.settled[i].time > w.registered[w.settled[i].responseId] {
      assert Justified(w, s.happened, w.settled[i]);
      assert n.settled[i] == w.settled[i];
    } else {
      var r :| r in w.pending && w.registered[r] < s.now;
      if r !in n.pending { LateSettles(s, e, r); }
    }
  }

  lemma LateSettles(s: State, e: Event, r: string)
    requires Enabled(s, e) && WaiterInv(s.waiters, s.happened)
    requires r in s.waiters.pending && s.waiters.registered[r] < s.now && r !in NextWaiters(s, e).pending
    ensures !Timely(NextWaiters(s, e), NextNow(s, e))
  {
    var w, n := s.waiters, NextWaiters(s, e);
    assert n.settled[|w.settled|].responseId == r && n.settled[|w.settled|].time == s.now;
  }

  lemma TimelyStepIff(s: State, e: Event)
    requires Enabled(s, e) && WaiterInv(s.waiters, s.happened) && Timely(s.waiters, s.now)
    ensures Timely(NextWaiters(s, e), NextNow(s, e)) <==> OnTime(s, e)
  {
    if e.Tick? { TickTimelyIff(s.waiters, s.happened, s.now, e.to); }
  }

  // ---------------------------------------------------------------- every run

  /**
   * Whatever the interleaving of pollers, garbage collection and clock, once an id has been let through as a message
   * or answered as a response, no message with that id, or naming it as its response, is let through until more than
   * the time to live has passed. In particular two passes of one message id are more than that apart.
   */
  lemma NoDuplicateWithinTtl(run: seq<Event>, i: nat, j: nat)
    requires ValidRun(INITIAL, run)
    requires i < j < |After(INITIAL, run).happened|
    requires Repeats(After(INITIAL, run).happened[i], After(INITIAL, run).happened[j])
    ensures var h := After(INITIAL, run).happened;
            h[j].time > h[i].time + MESSAGE_CACHE_TTL
  {
    InvAlways(run);
  }

  /** Every answer that is sent belongs to a message that was let through before, under the response id it named. */
  lemma AnswersWerePrompted(run: seq<Event>, k: nat)
    requires ValidRun(INITIAL, run)
    requires k < |After(INITIAL, run).happened| && After(INITIAL, run).happened[k].Answered?
    ensures var h := After(INITIAL, run).happened;
            exists j :: 0 <= j < k && h[j].Passed? && h[j].id == h[k].id && h[j].responseId == h[k].responseId
  {
    InvAlways(run);
    assert PassedBefore(After(INITIAL, run).happened, k, After(INITIAL, run).happened[k].id, After(INITIAL, run).happened[k].responseId);
  }

  /**
   * A registered waiter is settled at most once; it is pending exactly while it is not settled and has a live timer
   * exactly while it is pending; it does not time out before its deadline.
   */
  lemma WaiterLifetime(run: seq<Event>, r: string)
    requires ValidRun(INITIAL, run)
    requires r in After(INITIAL, run).waiters.registered
    ensures var w := After(INITIAL, run).waiters;
            && (forall i, j :: 0 <= i < |w.settled| && 0 <= j < |w.settled| && w.settled[i].responseId == r == w.settled[j].responseId ==> i == j)
            && (r in w.pending <==> forall i :: 0 <= i < |w.settled| ==> w.settled[i].responseId != r)
            && (r in w.pending <==> exists t :: t in w.timers && w.timers[t].responseId == r)
            && (forall i :: 0 <= i < |w.settled| && w.settled[i].responseId == r && w.settled[i].outcome.TimedOut? ==>
                  w.registered[r] <= w.settled[i].time)
  {
    InvAlways(run);
    var w := After(INITIAL, run).waiters;
    assert Settled(w, r) <==> exists i :: 0 <= i < |w.settled| && w.settled[i].responseId == r;
  }

  lemma {:induction false} TimelyRunIff(s: State, run: seq<Event>)
    requires Inv(s) && ValidRun(s, run)
    ensures Timely(After(s, run).waiters, After(s, run).now) <==> Timely(s.waiters, s.now) && TimersOnTime(s, run)
    decreases |run|
  {
    if run != [] {
      InvStep(s, run[0]);
      if Timely(s.waiters, s.now) { TimelyStepIff(s, run[0]); } else { LateStays(s, run[0]); }
      TimelyRunIff(Next(s, run[0]), run[1..]);
    }
  }

  /**
   * In every run all waiters whose deadline has passed are settled, each no later than its deadline, exactly if the clock
   * never ran past a live timer. Nothing else in the runtime delays a waiter.
   */
  lemma SettledByDeadlineIff(run: seq<Event>)
    requires ValidRun(INITIAL, run)
    ensures var s := After(INITIAL, run);
            TimersOnTime(INITIAL, run) <==>
              forall r <- s.waiters.registered ::
                if r in s.waiters.pending then s.now <= s.waiters.registered[r]
                else exists i :: 0 <= i < |s.waiters.settled| && SettledInTime(s.waiters, i, r)
  {
    InvAlways(run);
    TimelyRunIff(INITIAL, run);
    TimelyMeans(After(INITIAL, run).waiters, After(INITIAL, run).happened, After(INITIAL, run).now);
  }

  predicate SettledInTime(w: Waiters, i: nat, r: string) {
    i < |w.settled| && r in w.registered && w.settled[i].responseId == r && w.settled[i].time <= w.registered[r]
  }

  lemma TimelyMeans(w: Waiters, h: seq<Happening>, now: nat)
    requires WaiterInv(w, h)
    ensures Timely(w, now) <==>
              forall r <- w.registered ::
                if r in w.pending then now <= w.registered[r] else exists i :: 0 <= i < |w.settled| && SettledInTime(w, i, r)
  {
    if Timely(w, now) {
      forall r | r in w.registered && r !in w.pending ensures exists i :: 0 <= i < |w.settled| && SettledInTime(w, i, r) {
        var i :| 0 <= i < |w.settled| && w.settled[i].responseId == r;
        assert SettledInTime(w, i, r);
      }
    } else if i :| 0 <= i < |w.settled| && w.settled[i].responseId in w.registered
                   && w.settled[i].time > w.registered[w.settled[i].responseId] {
      assert Settled(w, w.settled[i].responseId);
    } else {
      forall i | 0 <= i < |w.settled| ensures w.settled[i].responseId in w.registered { assert Justified(w, h, w.settled[i]); }
    }
  }

  /** In particular, where timers fire on time, a waiter whose deadline has passed was settled no later than its deadline. */
  lemma SettledByDeadline(run: seq<Event>, r: string)
    requires ValidRun(INITIAL, run) && TimersOnTime(INITIAL, run)
    requires var s := After(INITIAL, run); r in s.waiters.registered && s.waiters.registered[r] < s.now
    ensures var w := After(INITIAL, run).waiters;
            exists i :: 0 <= i < |w.settled| && SettledInTime(w, i, r)
  {
    SettledByDeadlineIff(run);
  }

  /**
   * A resolved waiter got the text of an answer sent at that moment to a message let through earlier that carried its
   * response id, and the answer stays cached under that id for its time to live.
   */
  lemma ResolvedWithItsAnswer(run: seq<Event>, i: nat)
    requires ValidRun(INITIAL, run)
    requires i < |After(INITIAL, run).waiters.settled| && After(INITIAL, run).waiters.settled[i].outcome.Resolved?
    ensures var s := After(INITIAL, run);
            var x := s.waiters.settled[i];
            && Guarded(s, x.responseId, x.time)
            && exists j, k :: 0 <= j < k < |s.happened|
                 && s.happened[k].Answered? && s.happened[k].responseId == x.responseId
                 && s.happened[k].time == x.time && s.happened[k].text == x.outcome.text
                 && s.happened[j].Passed? && s.happened[j].id == s.happened[k].id && s.happened[j].responseId == x.responseId
  {
    InvAlways(run);
    var s := After(INITIAL, run);
    var x, h := s.waiters.settled[i], s.happened;
    assert Justified(s.waiters, h, x);
    var k :| 0 <= k < |h| && h[k].Answered? && h[k].responseId == x.responseId && h[k].time == x.time && h[k].text == x.outcome.text;
    assert PassedBefore(h, k, h[k].id, h[k].responseId);
    var j :| 0 <= j < k && h[j].Passed? && h[j].id == h[k].id && h[j].responseId == h[k].responseId;
    assert Key(h[k]) == x.responseId;
  }

  /**
   * No message is lost between overlapping callbacks: whatever lies at or below a poller's mark has been looked at,
   * or is in the queue of one of its callbacks.
   */
  lemma NothingBelowTheMarkIsLost(run: seq<Event>, a: nat, m: RawMessage)
    requires ValidRun(INITIAL, run)
    requires var p := After(INITIAL, run).pollers; a in p.logs && a in p.marks && m in p.logs[a] && m.consensus <= p.marks[a]
    ensures var p := After(INITIAL, run).pollers;
            (a, m.consensus) in p.visited || exists t :: t in p.tasks && m in p.tasks[t].Queue() && p.tasks[t].agent == a
  {
    InvAlways(run);
    var p := After(INITIAL, run).pollers;
    assert MarkOk(p, a, p.marks[a]) && Covered(p, a, m);
    if (a, m.consensus) !in p.visited {
      var t :| t in p.tasks && Waits(p.tasks[t], a, m);
      assert m in p.tasks[t].Queue();
    }
  }

  /** Whatever a callback awaits, it can go on when that arrives or fails: the maps it looks things up in have them. */
  lemma CallbacksGoOn(run: seq<Event>, t: nat, text: string)
    requires ValidRun(INITIAL, run) && t in After(INITIAL, run).pollers.tasks
    ensures var s := After(INITIAL, run);
            match s.pollers.tasks[t]
            case Initializing(_) => Enabled(s, AbandonInitialize(t))
            case Fetching(_, _) => Enabled(s, Fetched(t)) && Enabled(s, FetchFailed(t))
            case Scanning(_, _) => Enabled(s, NextMessage(t))
            case Generating(_, _, _) => Enabled(s, Generated(t, text)) && Enabled(s, ProcessingFailed(t))
            case Sending(_, _, _, _) => Enabled(s, Sent(t)) && Enabled(s, ProcessingFailed(t))
  {
    InvAlways(run);
    var s := After(INITIAL, run);
    assert TaskOk(s.pollers, s.pollers.tasks[t]) && AnsweringOk(s.happened, s.pollers.tasks[t]);
  }

  /** hasActiveAgent: a user who is mapped to an agent is mapped to an active one of their own. */
  lemma MappedIsActive(run: seq<Event>, u: string)
    requires ValidRun(INITIAL, run)
    ensures var p := After(INITIAL, run).pollers;
            HasActiveAgent(p, u) <==> u in p.activeAgents
  {
    InvAlways(run);
  }

  /** What a lower bound above the mark would lose: the messages in between, which the next mark then passes. */
  lemma BoundAboveMarkLoses(log: seq<RawMessage>, mark: nat, from: nat, m: RawMessage)
    ensures m in Since(log, mark) && m !in Since(log, from) <==> m in log && mark <= m.consensus < from
  {
    SinceMembers(log, mark, m);
    SinceMembers(log, from, m);
  }
}
