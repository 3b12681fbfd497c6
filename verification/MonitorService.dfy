/** The MonitorService class of agent-framework/src/services/monitorService.ts, one method for what runs between two awaits. */
module MonitorServices {
  import opened Common
  import opened Monitor

  class MonitorService {
    var lastProcessedMessage: map<string, nat>
    var monitoredTopics: set<string>
    var topicConnections: map<string, TopicInfo>
    var pollingIntervals: map<string, nat>
    var intervals: map<nat, string>
    var nextInterval: nat
    var lastConnectionRequestTime: map<string, nat>
    var processedConnectionRequests: set<(nat, string)>
    var tasks: map<nat, Task>
    var nextTask: nat
    ghost var attempted: seq<Attempt>
    ghost var planned: seq<(string, HcsMessage)>
    ghost var delivered: seq<(string, HcsMessage)>

    ghost function TopicsView(): Topics
      reads this
    {
      Topics(lastProcessedMessage, monitoredTopics, topicConnections, pollingIntervals, intervals, nextInterval)
    }

    ghost function RecordsView(): Records
      reads this
    {
      Records(lastConnectionRequestTime, processedConnectionRequests, attempted)
    }

    ghost function View(): State
      reads this
    {
      State(TopicsView(), RecordsView(), tasks, nextTask, planned, delivered)
    }

    constructor ()
      ensures View() == INITIAL
    {
      lastProcessedMessage, monitoredTopics, topicConnections := map[], {}, map[];
      pollingIntervals, intervals, nextInterval := map[], map[], 0;
      lastConnectionRequestTime, processedConnectionRequests := map[], {};
      tasks, nextTask, attempted, planned, delivered := map[], 0, [], [], [];
    }

    method Suspend(task: Task)
      modifies this`tasks, this`nextTask
      ensures tasks == old(tasks)[old(nextTask) := task] && nextTask == old(nextTask) + 1
    {
      tasks, nextTask := tasks[nextTask := task], nextTask + 1;
    }

    method RegisterTopicType(topicId: string, info: TopicInfo)
      modifies this`topicConnections
      ensures View() == Next(old(View()), TopicRegistered(topicId, info))
    {
      topicConnections := topicConnections[topicId := info];
      assert planned + [] == planned && delivered + [] == delivered;
    }

    /** startMonitoringTopic up to its await. */
    method StartMonitoringTopic(topicId: string)
      modifies this`tasks, this`nextTask
      ensures View() == Next(old(View()), StartRequested(topicId))
    {
      if topicId !in monitoredTopics {
        Suspend(Starting(topicId));
      }
      assert planned + [] == planned && delivered + [] == delivered;
    }

    /** The rest of startMonitoringTopic: the mark starts at what the topic holds, or at zero if it cannot be read. */
    method BeginPolling(topicId: string, initial: Option<seq<HcsMessage>>)
      modifies this`lastProcessedMessage, this`monitoredTopics, this`pollingIntervals, this`intervals, this`nextInterval
      ensures TopicsView() == Monitored(old(TopicsView()), topicId, initial)
    {
      lastProcessedMessage := lastProcessedMessage[topicId := if initial.Some? then Highest(initial.value) else 0];
      intervals, pollingIntervals, nextInterval :=
        intervals[nextInterval := topicId], pollingIntervals[topicId := nextInterval], nextInterval + 1;
      monitoredTopics := monitoredTopics + {topicId};
    }

    method StopMonitoringTopic(topicId: string)
      modifies this`lastProcessedMessage, this`monitoredTopics, this`topicConnections, this`pollingIntervals, this`intervals
      ensures TopicsView() == Unmonitored(old(TopicsView()), topicId)
    {
      if topicId !in monitoredTopics {
        return;
      }
      if topicId in pollingIntervals {
        intervals := intervals - {pollingIntervals[topicId]};
        pollingIntervals := pollingIntervals - {topicId};
      } else {
        assert pollingIntervals - {topicId} == pollingIntervals;
      }
      monitoredTopics := monitoredTopics - {topicId};
      lastProcessedMessage := lastProcessedMessage - {topicId};
      topicConnections := topicConnections - {topicId};
    }

    /** The interval starts a poll, whatever its earlier polls are doing. */
    method Poll(interval: nat)
      requires Enabled(View(), PollTick(interval))
      modifies this`tasks, this`nextTask
      ensures View() == Next(old(View()), PollTick(interval))
    {
      var topicId := intervals[interval];
      var lastProcessed := if topicId in lastProcessedMessage then lastProcessedMessage[topicId] else 0;
      Suspend(Fetching(topicId, lastProcessed));
      assert planned + [] == planned && delivered + [] == delivered;
    }

    /** Lines 139 to 171. */
    method SelectMessages(topicId: string, lastProcessed: nat, batch: seq<HcsMessage>) returns (messagesToProcess: seq<HcsMessage>)
      ensures messagesToProcess == Plan(lastProcessed, IsInbound(topicConnections, topicId), batch)
    {
      var newMessages := Sorted(Above(batch, lastProcessed));
      messagesToProcess := newMessages;
      if topicId in topicConnections && topicConnections[topicId].kind.Inbound? {
        var connectionRequests := Requests(newMessages);
        if |connectionRequests| > 1 {
          messagesToProcess := OnlyNewest(newMessages, Newest(connectionRequests).sequenceNumber);
        }
      }
    }

    /** A poll has read its topic. */
    method MessagesArrived(task: nat, batch: seq<HcsMessage>)
      requires Enabled(View(), Fetched(task, batch))
      modifies this`tasks, this`planned
      ensures View() == Next(old(View()), Fetched(task, batch))
    {
      var topicId := tasks[task].topicId;
      var messagesToProcess := SelectMessages(topicId, tasks[task].from, batch);
      planned := planned + Tagged(messagesToProcess, topicId);
      tasks := if messagesToProcess == [] then tasks - {task} else tasks[task := Taking(topicId, messagesToProcess)];
      assert delivered + [] == delivered;
    }

    /** The next message of the loop: its mark, and its checks up to line 343. */
    method TakeMessage(task: nat, now: nat, account: string)
      requires Enabled(View(), Taken(task, now, account))
      modifies this`lastProcessedMessage, this`tasks
      ensures View() == Next(old(View()), Taken(task, now, account))
    {
      var topicId, message, rest := tasks[task].topicId, tasks[task].queue[0], tasks[task].queue[1..];
      lastProcessedMessage := lastProcessedMessage[topicId := message.sequenceNumber];
      var attempt := None;
      if ShouldProcess(topicConnections, topicId, message) {
        if message.data != "" && IsInbound(topicConnections, topicId) {
          attempt := ProcessInboundMessage(topicId, message, now, account);
        }
      }
      tasks := tasks[task := if attempt.Some?
                             then Looking(topicId, rest, message, attempt.value, topicConnections[topicId].characterId)
                             else Emitting(topicId, rest, message)];
      assert planned + [] == planned && delivered + [] == delivered;
    }

    /** Lines 281 to 341. */
    method ProcessInboundMessage(topicId: string, m: HcsMessage, now: nat, account: string) returns (attempt: Option<Attempt>)
      ensures attempt == Check(View(), topicId, m, now, account)
      ensures attempt.Some? ==> topicId in topicConnections
    {
      if !(m.isHcs10 && m.op.ConnectionRequest? && m.sequenceNumber != 0) {
        return None;
      }
      var requestId := Request(m);
      if requestId in processedConnectionRequests {
        return None;
      }
      var messageTimestamp := RequestTime(m, now);
      var lastProcessedTime := if topicId in lastConnectionRequestTime then lastConnectionRequestTime[topicId] else 0;
      if messageTimestamp <= lastProcessedTime {
        return None;
      }
      var requesterAccountId := if m.operatorId != "" then account else UserId(m);
      if requesterAccountId == "" {
        return None;
      }
      if topicId !in topicConnections || topicConnections[topicId].characterId == "" {
        return None;
      }
      return Some(Attempt(topicId, requestId, messageTimestamp));
    }

    /** Lines 343 to 371: both records are written before anything that can fail. */
    method AgentArrived(task: nat, credentials: bool)
      requires Enabled(View(), AgentFound(task, credentials))
      modifies this`lastConnectionRequestTime, this`processedConnectionRequests, this`attempted, this`tasks
      ensures View() == Next(old(View()), AgentFound(task, credentials))
    {
      var p := tasks[task];
      if credentials {
        lastConnectionRequestTime := lastConnectionRequestTime[p.attempt.topicId := p.attempt.timestamp];
        processedConnectionRequests := processedConnectionRequests + {p.attempt.request};
        attempted := attempted + [p.attempt];
        tasks := tasks[task := Connecting(p.topicId, p.queue, p.message, p.characterId)];
      } else {
        tasks := tasks[task := Emitting(p.topicId, p.queue, p.message)];
      }
      assert planned + [] == planned && delivered + [] == delivered;
    }

    /** Lines 176 to 188: the listeners hear of the message, and the loop goes on behind it. */
    method Emit(task: nat)
      requires Enabled(View(), Emitted(task))
      modifies this`delivered, this`tasks
      ensures View() == Next(old(View()), Emitted(task))
    {
      var p := tasks[task];
      delivered := delivered + [(p.topicId, p.message)];
      tasks := if p.queue == [] then tasks - {task} else tasks[task := Taking(p.topicId, p.queue)];
      assert [p.message][..0] == [] && Tagged([p.message], p.topicId) == [(p.topicId, p.message)];
      assert planned + [] == planned;
    }
  }
}
