/**
 * The module-level maps of agent-framework/src/utils/hip991-agent.ts and the code between two awaits that updates
 * them, one method for each event of Hip991.
 */
module Hip991Runtime {
  import opened Common
  import opened Hip991

  lemma AgentStored(s: State, t: nat, a: nat)
    requires Enabled(s, Event.FinishInitialize(t, a))
    ensures var p, u := s.pollers, s.pollers.tasks[t].userId;
            Next(s, Event.FinishInitialize(t, a))
            == State(s.now, s.cache, s.waiters,
                     Pollers(p.agents[a := Agent(u, true, s.now)], p.activeAgents[u := a], p.logs[a := []], p.marks[a := 0],
                             p.tasks - {t}, p.nextTask, p.visited), s.happened)
  {
  }

  lemma OnlyWaiters(s: State, e: Event)
    requires Enabled(s, e) && e.SendUserMessage?
    ensures Next(s, e) == s.(waiters := Register(s.waiters, e.responseId, s.now + e.timeout))
  {
  }

  class Runtime {
    var now: nat
    var messageCache: map<string, CacheEntry>
    var pendingResponses: map<string, nat>
    var timers: map<nat, Timer>
    var nextTimer: nat
    var agents: map<nat, Agent>
    var activeAgents: map<string, nat>
    var logs: map<nat, seq<RawMessage>>
    var lastConsensusTimestamp: map<nat, nat>
    var tasks: map<nat, Task>
    var nextTask: nat
    ghost var registered: map<string, nat>
    ghost var settled: seq<Settlement>
    ghost var visited: set<(nat, nat)>
    ghost var happened: seq<Happening>

    ghost function View(): State
      reads this
    {
      State(now, messageCache,
            Waiters(pendingResponses, timers, nextTimer, registered, settled),
            Pollers(agents, activeAgents, logs, lastConsensusTimestamp, tasks, nextTask, visited),
            happened)
    }

    constructor ()
      ensures View() == INITIAL
    {
      now, messageCache, pendingResponses, timers, nextTimer := 0, map[], map[], map[], 0;
      agents, activeAgents, logs, lastConsensusTimestamp := map[], map[], map[], map[];
      tasks, nextTask := map[], 0;
      registered, settled, visited, happened := map[], [], {}, [];
    }

    /** hasActiveAgent */
    method HasActive(userId: string) returns (active: bool)
      ensures active <==> HasActiveAgent(View().pollers, userId)
    {
      if userId !in activeAgents || activeAgents[userId] !in agents {
        return false;
      }
      return agents[activeAgents[userId]].isActive;
    }

    method SetMessageInCache(id: string, message: TopicMessage)
      modifies this`messageCache
      ensures messageCache == old(messageCache)[id := CacheEntry(message, now)]
    {
      messageCache := messageCache[id := CacheEntry(message, now)];
    }

    /** Lines 150 to 164: every entry is looked at once and deleted when it is older than the time to live. */
    method CollectGarbage()
      modifies this
      ensures View() == Next(old(View()), Event.CollectGarbage)
    {
      var ids := messageCache.Keys;
      while ids != {}
        invariant ids <= messageCache.Keys <= old(messageCache).Keys
        invariant View() == old(View()).(cache := messageCache)
        invariant forall id <- messageCache :: messageCache[id] == old(messageCache)[id]
        invariant forall id <- old(messageCache) :: id !in ids ==>
                    (id in messageCache <==> now <= old(messageCache)[id].timestamp + MESSAGE_CACHE_TTL)
        decreases ids
      {
        var id :| id in ids;
        if now - messageCache[id].timestamp > MESSAGE_CACHE_TTL {
          messageCache := messageCache - {id};
        }
        ids := ids - {id};
      }
    }

    method DestroyAgent(userId: string) returns (found: bool)
      modifies this
      ensures View() == Next(old(View()), Destroy(userId))
      ensures found <==> userId in old(activeAgents)
    {
      found := userId in activeAgents;
      if found {
        var agent := activeAgents[userId];
        if agent in agents {
          agents := agents[agent := agents[agent].(isActive := false)];
        }
        activeAgents := activeAgents - {userId};
      }
    }

    /** initializeAgent up to the creation of the topics. */
    method BeginInitialize(userId: string)
      modifies this
      ensures View() == Next(old(View()), Event.BeginInitialize(userId))
    {
      if userId in activeAgents {
        var _ := DestroyAgent(userId);
      }
      tasks, nextTask := tasks[nextTask := Initializing(userId)], nextTask + 1;
    }

    /** initializeAgent after both topics exist. */
    method FinishInitialize(task: nat, agent: nat)
      requires Enabled(View(), Event.FinishInitialize(task, agent))
      modifies this`tasks, this`agents, this`activeAgents, this`logs, this`lastConsensusTimestamp
      ensures View() == Next(old(View()), Event.FinishInitialize(task, agent))
    {
      AgentStored(View(), task, agent);
      var userId := tasks[task].userId;
      tasks := tasks - {task};
      agents, activeAgents := agents[agent := Agent(userId, true, now)], activeAgents[userId := agent];
      SetupTopicPolling(agent);
    }

    /** The poller has no mark yet, and nothing is on the topic. */
    method SetupTopicPolling(agent: nat)
      modifies this`logs, this`lastConsensusTimestamp
      ensures logs == old(logs)[agent := []] && lastConsensusTimestamp == old(lastConsensusTimestamp)[agent := 0]
    {
      logs, lastConsensusTimestamp := logs[agent := []], lastConsensusTimestamp[agent := 0];
    }

    /** The interval of setupTopicPolling starts a callback, whatever its earlier callbacks are doing; from is what parseFloat
        makes of lastConsensusTimestamp. */
    method PollTick(agent: nat, from: nat)
      requires Enabled(View(), Event.PollTick(agent, from))
      modifies this
      ensures View() == Next(old(View()), Event.PollTick(agent, from))
    {
      tasks, nextTask := tasks[nextTask := Fetching(agent, from)], nextTask + 1;
    }

    /** The messages from the bound on, oldest first. */
    method Fetched(task: nat)
      requires Enabled(View(), Event.Fetched(task))
      modifies this
      ensures View() == Next(old(View()), Event.Fetched(task))
    {
      var agent, from := tasks[task].agent, tasks[task].from;
      var log := logs[agent];
      var batch := [];
      for i := 0 to |log|
        invariant batch == Since(log[..i], from)
        invariant View() == old(View())
      {
        assert log[..i + 1][..i] == log[..i];
        if from <= log[i].consensus {
          batch := batch + [log[i]];
        }
      }
      assert log[..|log|] == log;
      tasks := if batch == [] then tasks - {task} else tasks[task := Scanning(agent, batch)];
    }

    /** Lines 302 to 331, one message. */
    method NextMessage(task: nat)
      requires Enabled(View(), Event.NextMessage(task))
      modifies this
      ensures View() == Next(old(View()), Event.NextMessage(task))
    {
      if tasks[task].queue == [] {
        tasks := tasks - {task};
        return;
      }
      var message := TakeHead(task);
      if message.content.Some? && message.content.value.id !in messageCache {
        ProcessUserMessage(task, message.content.value);
      }
    }

    /** The mark of the poller moves up to the message. */
    method TakeHead(task: nat) returns (message: RawMessage)
      requires task in tasks && tasks[task].Scanning? && tasks[task].queue != [] && tasks[task].agent in lastConsensusTimestamp
      modifies this`lastConsensusTimestamp, this`tasks, this`visited
      ensures var agent, queue, marks := old(tasks[task].agent), old(tasks[task].queue), old(lastConsensusTimestamp);
              && message == queue[0] && tasks == old(tasks)[task := Scanning(agent, queue[1..])]
              && lastConsensusTimestamp == marks[agent := if message.consensus > marks[agent] then message.consensus else marks[agent]]
              && visited == old(visited) + {(agent, message.consensus)}
    {
      var agent, queue := tasks[task].agent, tasks[task].queue;
      message := queue[0];
      if message.consensus > lastConsensusTimestamp[agent] {
        lastConsensusTimestamp := lastConsensusTimestamp[agent := message.consensus];
      } else {
        assert lastConsensusTimestamp == lastConsensusTimestamp[agent := lastConsensusTimestamp[agent]];
      }
      tasks, visited := tasks[task := Scanning(agent, queue[1..])], visited + {(agent, message.consensus)};
    }

    /** Lines 420 to 449: no await separates the guard from the cache entry that closes it. */
    method ProcessUserMessage(task: nat, message: TopicMessage)
      requires task in tasks && tasks[task].Scanning? && tasks[task].agent in agents
      modifies this
      ensures !Admits(old(messageCache), message) ==> View() == old(View())
      ensures Admits(old(messageCache), message) ==>
                var agent, queue, p := old(tasks[task].agent), old(tasks[task].queue), old(View().pollers);
                View() == old(View()).(
                  cache := old(messageCache)[message.id := CacheEntry(message, now)],
                  pollers := p.(agents := p.agents[agent := p.agents[agent].(lastMessage := now)],
                                tasks := p.tasks[task := Generating(agent, queue, message)]),
                  happened := old(happened) + [Passed(message.id, message.responseId.value, now)])
    {
      if !Filled(message.prompt) || !Filled(message.responseId) {
        return;
      }
      if message.id in messageCache {
        return;
      }
      if message.responseId.value in messageCache {
        return;
      }
      var agent, queue := tasks[task].agent, tasks[task].queue;
      agents := agents[agent := agents[agent].(lastMessage := now)];
      SetMessageInCache(message.id, message);
      tasks := tasks[task := Generating(agent, queue, message)];
      happened := happened + [Passed(message.id, message.responseId.value, now)];
    }

    method Generated(task: nat, text: string)
      requires Enabled(View(), Event.Generated(task, text))
      modifies this
      ensures View() == Next(old(View()), Event.Generated(task, text))
    {
      var t := tasks[task];
      var reply := TopicMessage(t.message.responseId.value, None, Some(text), Some(t.message.id), None, now);
      tasks := tasks[task := Sending(t.agent, t.queue, t.message, reply)];
    }

    /** Lines 462 to 471. */
    method Sent(task: nat)
      requires Enabled(View(), Event.Sent(task))
      modifies this
      ensures View() == Next(old(View()), Event.Sent(task))
    {
      var t := tasks[task];
      CacheAnswer(task);
      SettlePending(t.message.responseId.value, Resolved(t.reply.response.value));
    }

    /** Line 463; the callback goes on behind the message. */
    method CacheAnswer(task: nat)
      requires Enabled(View(), Event.Sent(task))
      modifies this`tasks, this`messageCache, this`happened
      ensures var t := old(tasks[task]);
              && tasks == old(tasks)[task := Scanning(t.agent, t.queue)]
              && messageCache == old(messageCache)[t.message.responseId.value := CacheEntry(t.reply, now)]
              && happened == old(happened) + [Answered(t.message.id, t.message.responseId.value, now, t.reply.response.value)]
    {
      var t := tasks[task];
      SetMessageInCache(t.message.responseId.value, t.reply);
      tasks := tasks[task := Scanning(t.agent, t.queue)];
      happened := happened + [Answered(t.message.id, t.message.responseId.value, now, t.reply.response.value)];
    }

    /** Lines 474 to 484. */
    method ProcessingFailed(task: nat)
      requires Enabled(View(), Event.ProcessingFailed(task))
      modifies this
      ensures View() == Next(old(View()), Event.ProcessingFailed(task))
    {
      var t := tasks[task];
      tasks := tasks[task := Scanning(t.agent, t.queue)];
      SettlePending(t.message.responseId.value, Rejected);
    }

    /** The waiter for a response, if there is one, loses its timer and is settled. */
    method SettlePending(responseId: string, outcome: Outcome)
      modifies this
      ensures View() == old(View()).(waiters := Settle(old(View().waiters), responseId, outcome, now))
    {
      if responseId in pendingResponses {
        timers := timers - {pendingResponses[responseId]};
        settled := settled + [Settlement(responseId, outcome, now)];
        pendingResponses := pendingResponses - {responseId};
      }
    }

    /** Lines 576 to 589: the waiter and its timer, registered before the message is sent. */
    method SendUserMessage(responseId: string, timeout: nat)
      requires Enabled(View(), Event.SendUserMessage(responseId, timeout))
      modifies this`timers, this`nextTimer, this`pendingResponses, this`registered
      ensures View() == Next(old(View()), Event.SendUserMessage(responseId, timeout))
    {
      OnlyWaiters(View(), Event.SendUserMessage(responseId, timeout));
      timers, nextTimer, pendingResponses :=
        timers[nextTimer := Timer(responseId, now + timeout)], nextTimer + 1, pendingResponses[responseId := nextTimer];
      registered := registered[responseId := now + timeout];
    }

    /** Lines 578 to 581. */
    method TimeoutFires(timer: nat)
      requires Enabled(View(), Event.TimeoutFires(timer))
      modifies this
      ensures View() == Next(old(View()), Event.TimeoutFires(timer))
    {
      var responseId := timers[timer].responseId;
      timers := timers - {timer};
      pendingResponses := pendingResponses - {responseId};
      settled := settled + [Settlement(responseId, TimedOut, now)];
    }
  }
}
