/** Where the topic monitor begins: at what a topic holds when it is started, so that history is not handled. */
module MonitorStarts {
  import opened Common
  import opened Monitor
  import opened MonitorSelection
  import opened MonitorSafety
  import opened MonitorOverlap

  /** The event ends a start of the topic, which had read what the topic held, if it could. */
  predicate EndsStart(s: State, e: Event, t: string, held: Option<seq<HcsMessage>>) {
    && Enabled(s, e)
    && match e
       case Started(k, initial) => s.tasks[k].topicId == t && initial == held
       case MonitoringStarted(k, initial) => s.tasks[k].connection == t && initial == held
       case _ => false
  }

  /** The largest number held, and zero if nothing is held or the topic could not be read. */
  ghost predicate StartsAt(held: Option<seq<HcsMessage>>, mark: nat) {
    if held == None || held == Some([]) then mark == 0
    else (forall m <- held.value :: m.sequenceNumber <= mark) && exists m :: m in held.value && m.sequenceNumber == mark
  }

  /** A start sets the mark of its topic to the largest number the topic held, and leaves all other marks. */
  lemma StartSetsMark(s: State, e: Event, t: string, held: Option<seq<HcsMessage>>)
    requires EndsStart(s, e, t, held)
    ensures var n := Next(s, e).topics;
            && t in n.monitored && t in n.marks && StartsAt(held, n.marks[t])
            && forall x :: x != t ==> (x in n.marks <==> x in s.topics.marks) && (x in s.topics.marks ==> n.marks[x] == s.topics.marks[x])
  {
  }

  lemma {:induction false} GotWasSetOut(s: State, run: seq<Event>, t: string, m: HcsMessage)
    requires ValidRun(s, run) && Quiet(s, t) && TaskIds(s) && m in Got(s, run, t)
    ensures m in SetOut(s, run, t)
  {
    CountsAgree(s, run, t, m);
    assert Count(Got(s, run, t), m) > 0;
  }

  /** The message is newer than everything the topic held. */
  predicate Newer(held: Option<seq<HcsMessage>>, m: HcsMessage) {
    0 < m.sequenceNumber && (held.Some? ==> forall x <- held.value :: x.sequenceNumber < m.sequenceNumber)
  }

  lemma NewerIff(held: Option<seq<HcsMessage>>, mark: nat, m: HcsMessage)
    requires StartsAt(held, mark)
    ensures Newer(held, m) <==> mark < m.sequenceNumber
  {
  }

  lemma OnlyNewerDelivered(b: State, t: string, held: Option<seq<HcsMessage>>, run: seq<Event>, log: seq<HcsMessage>)
    requires Quiet(b, t) && TaskIds(b) && StartsAt(held, b.topics.marks[t])
    requires ValidRun(b, run) && Ascending(log) && FollowsRun(b, run, t, log)
    ensures forall m <- Got(b, run, t) :: m in log && Newer(held, m)
  {
    SeenRun(b, run, t, log);
    forall m | m in Got(b, run, t) ensures m in log && Newer(held, m) {
      GotWasSetOut(b, run, t, m);
      NewerIff(held, b.topics.marks[t], m);
    }
  }

  lemma NewerConsumed(b: State, t: string, held: Option<seq<HcsMessage>>, run: seq<Event>, log: seq<HcsMessage>, m: HcsMessage)
    requires Quiet(b, t) && TaskIds(b) && StartsAt(held, b.topics.marks[t])
    requires ValidRun(b, run) && Ascending(log) && FollowsRun(b, run, t, log) && AloneRun(b, run, t) && NoPoll(After(b, run).tasks, t)
    requires m in log && Newer(held, m)
    ensures t in After(b, run).topics.marks
    ensures m.sequenceNumber <= After(b, run).topics.marks[t] ==>
              m in Got(b, run, t) || (m.op.ConnectionRequest? && NewerRequest(Got(b, run, t), m.sequenceNumber))
  {
    ConsumedOnce(b, run, t, log);
    NewerIff(held, b.topics.marks[t], m);
  }

  /**
   * Until the topic is stopped, and however its polls overlap with each other and with everything else: no listener gets a
   * message that is not newer than everything the topic held when it was started. If the polls of the topic do not overlap,
   * then between polls every newer message up to the mark was delivered, or is a connection request that a newer one replaced.
   */
  lemma HistoryIsNotDelivered(s: State, e: Event, t: string, held: Option<seq<HcsMessage>>, run: seq<Event>, log: seq<HcsMessage>)
    requires EndsStart(s, e, t, held) && TaskIds(s) && Quiet(Next(s, e), t)
    requires ValidRun(Next(s, e), run) && Ascending(log) && FollowsRun(Next(s, e), run, t, log)
    ensures forall m <- Got(Next(s, e), run, t) :: m in log && Newer(held, m)
    ensures held.Some? ==> forall m <- Got(Next(s, e), run, t) :: m !in held.value
    ensures AloneRun(Next(s, e), run, t) && NoPoll(After(Next(s, e), run).tasks, t) ==>
              && t in After(Next(s, e), run).topics.marks
              && forall m <- log :: Newer(held, m) && m.sequenceNumber <= After(Next(s, e), run).topics.marks[t] ==>
                   m in Got(Next(s, e), run, t) || (m.op.ConnectionRequest? && NewerRequest(Got(Next(s, e), run, t), m.sequenceNumber))
  {
    var b := Next(s, e);
    IdsStay(s, e);
    StartSetsMark(s, e, t, held);
    OnlyNewerDelivered(b, t, held, run, log);
    if AloneRun(b, run, t) && NoPoll(After(b, run).tasks, t) {
      ConsumedOnce(b, run, t, log);
      forall m | m in log && Newer(held, m) && m.sequenceNumber <= After(b, run).topics.marks[t]
        ensures m in Got(b, run, t) || (m.op.ConnectionRequest? && NewerRequest(Got(b, run, t), m.sequenceNumber))
      {
        NewerConsumed(b, t, held, run, log, m);
      }
    }
  }
}
