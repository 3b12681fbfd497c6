/** Active agents that overlapping initialisations of the HIP-991 runtime leave without an entry in activeAgents. */
module Hip991Orphans {
  import opened Common
  import opened Hip991
  import opened Hip991Invariants
  import Hip991Race

  /** An active agent is somebody's mapped agent. */
  ghost predicate NoOrphan(p: Pollers) {
    forall a <- p.agents :: p.agents[a].isActive ==> p.agents[a].userId in p.activeAgents && p.activeAgents[p.agents[a].userId] == a
  }

  /**
   * Two initialisations of one user may overlap, and the agent of the first is then replaced without being destroyed.
   * Finishing an initialisation orphans no agent exactly when the user is not mapped at that moment.
   */
  lemma FinishOrphansIff(s: State, t: nat, a: nat)
    requires Inv(s) && Enabled(s, FinishInitialize(t, a)) && NoOrphan(s.pollers)
    ensures NoOrphan(Next(s, FinishInitialize(t, a)).pollers) <==> s.pollers.tasks[t].userId !in s.pollers.activeAgents
  {
    var p, u := s.pollers, s.pollers.tasks[t].userId;
    var n := NextPollers(s, FinishInitialize(t, a));
    if u in p.activeAgents {
      var b := p.activeAgents[u];
      assert n.agents[b].isActive && n.agents[b].userId == u && n.activeAgents[u] == a != b;
    }
  }

  predicate IsOrphan(p: Pollers, a: nat) {
    a in p.agents && p.agents[a].isActive
    && (p.agents[a].userId !in p.activeAgents || p.activeAgents[p.agents[a].userId] != a)
  }

  /** Nothing that can happen deactivates an orphan or maps its user to it again. */
  lemma OrphanStays(s: State, e: Event, a: nat)
    requires Inv(s) && Enabled(s, e) && IsOrphan(s.pollers, a)
    ensures IsOrphan(NextPollers(s, e), a)
  {
    if !e.FinishInitialize? && !e.BeginInitialize? && !e.Destroy? { OthersSameActivity(s, e); }
  }

  /** Nobody can destroy an orphan: it is one after every further run. */
  lemma {:induction false} OrphanForEver(s: State, run: seq<Event>, a: nat)
    requires Inv(s) && ValidRun(s, run) && IsOrphan(s.pollers, a)
    ensures IsOrphan(After(s, run).pollers, a)
    decreases |run|
  {
    if run != [] {
      InvStep(s, run[0]);
      OrphanStays(s, run[0], a);
      OrphanForEver(Next(s, run[0]), run[1..], a);
    }
  }

  lemma DeactivatedOrphansNobody(p: Pollers, u: string)
    requires AgentInv(p) && NoOrphan(p)
    ensures NoOrphan(Deactivate(p, u))
  {
  }

  lemma OthersOrphanNobody(s: State, e: Event)
    requires Inv(s) && Enabled(s, e) && NoOrphan(s.pollers) && !e.FinishInitialize?
    ensures NoOrphan(NextPollers(s, e))
  {
    match e
    case BeginInitialize(u) => DeactivatedOrphansNobody(s.pollers, u);
    case Destroy(u) => DeactivatedOrphansNobody(s.pollers, u);
    case _ => OthersSameActivity(s, e);
  }

  predicate SameActivity(p: Pollers, n: Pollers) {
    && n.activeAgents == p.activeAgents && n.agents.Keys == p.agents.Keys
    && forall a <- p.agents :: n.agents[a].isActive == p.agents[a].isActive && n.agents[a].userId == p.agents[a].userId
  }

  lemma VisitSameActivity(s: State, t: nat)
    requires Enabled(s, NextMessage(t))
    ensures SameActivity(s.pollers, Visit(s, t))
  {
  }

  /** Other events change neither who is active nor who is mapped. */
  lemma OthersSameActivity(s: State, e: Event)
    requires Enabled(s, e) && !e.FinishInitialize? && !e.BeginInitialize? && !e.Destroy?
    ensures SameActivity(s.pollers, NextPollers(s, e))
  {
    if e.NextMessage? {
      VisitSameActivity(s, e.task);
    } else {
      assert NextPollers(s, e).agents == s.pollers.agents && NextPollers(s, e).activeAgents == s.pollers.activeAgents;
    }
  }

  /** No initialisation of the run finished when its user was mapped to an agent. */
  predicate NoneFinishedMapped(s: State, run: seq<Event>)
    requires ValidRun(s, run)
    decreases |run|
  {
    run == []
    || ((run[0].FinishInitialize? ==> s.pollers.tasks[run[0].task].userId !in s.pollers.activeAgents)
        && NoneFinishedMapped(Next(s, run[0]), run[1..]))
  }

  lemma {:induction false} NoOrphanRunIff(s: State, run: seq<Event>)
    requires Inv(s) && ValidRun(s, run)
    ensures NoOrphan(After(s, run).pollers) <==> NoOrphan(s.pollers) && NoneFinishedMapped(s, run)
    decreases |run|
  {
    if run != [] {
      var e, n := run[0], Next(s, run[0]);
      InvStep(s, e);
      NoOrphanRunIff(n, run[1..]);
      if !NoOrphan(s.pollers) {
        var a :| a in s.pollers.agents && IsOrphan(s.pollers, a);
        OrphanForEver(s, run, a);
      } else if e.FinishInitialize? {
        FinishOrphansIff(s, e.task, e.agent);
      } else {
        OthersOrphanNobody(s, e);
      }
    }
  }

  /** Every active agent is its user's agent after a run exactly if no initialisation finished for a user who had one. */
  lemma NoOrphanIff(run: seq<Event>)
    requires ValidRun(INITIAL, run)
    ensures NoOrphan(After(INITIAL, run).pollers) <==> NoneFinishedMapped(INITIAL, run)
  {
    NoOrphanRunIff(INITIAL, run);
  }

  /** Two initialisations of one user that overlap leave the agent of the first as an orphan. */
  lemma OverlappingInitialisationsOrphan()
    ensures var run := [BeginInitialize("u"), BeginInitialize("u"), FinishInitialize(0, 0), FinishInitialize(1, 1)];
            ValidRun(INITIAL, run) && IsOrphan(After(INITIAL, run).pollers, 0)
  {
    var s1 := Next(INITIAL, BeginInitialize("u"));
    var s2 := Next(s1, BeginInitialize("u"));
    var s3 := Next(s2, FinishInitialize(0, 0));
    var s4 := Next(s3, FinishInitialize(1, 1));
    var r3, r2 := [FinishInitialize(1, 1)], [FinishInitialize(0, 0), FinishInitialize(1, 1)];
    Hip991Race.OneEvent(s3, r3[0]);
    Hip991Race.TwoEvents(s2, r2[0], r2[1]);
    var r1 := [BeginInitialize("u")] + r2;
    assert r1[1..] == r2;
    var run := [BeginInitialize("u"), BeginInitialize("u"), FinishInitialize(0, 0), FinishInitialize(1, 1)];
    assert run[1..] == r1;
    assert IsOrphan(s4.pollers, 0);
  }
}
