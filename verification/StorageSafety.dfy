/** What the file store keeps over every run, and exactly when an operation that awaits undoes what happened meanwhile. */
module StorageSafety {
  import opened Common
  import opened Storage

  // ---------------------------------------------------------------- records and lists

  predicate Distinct(list: seq<string>) {
    forall i, j :: 0 <= i < j < |list| ==> list[i] != list[j]
  }

  /** A list that may stand in an agent's record: no topic twice, every topic with a file under the character. */
  predicate ListFits(connections: Connections, a: AgentInfo) {
    Distinct(ListOf(a)) && forall t <- ListOf(a) :: (a.characterId, t) in connections
  }

  /** What an operation at its await goes on with may be old, but fits. */
  predicate TaskFits(connections: Connections, task: Task) {
    match task
    case Linking(c, agent) =>
      Key(c) in connections && (agent.Some? ==> agent.value.characterId == c.characterId && ListFits(connections, agent.value))
    case Updating(topicId, _, found) => found.Some? ==> found.value.connectionTopicId == topicId && Key(found.value) in connections
    case Reading(_, _) => true
  }

  ghost predicate AgentsFit(agents: map<string, AgentInfo>, connections: Connections) {
    forall id <- agents :: agents[id].characterId == id && ListFits(connections, agents[id])
  }

  ghost predicate Inv(s: State) {
    && (forall k <- s.connections :: Key(s.connections[k]) == k)
    && AgentsFit(s.agents, s.connections)
    && (forall t <- s.tasks :: TaskFits(s.connections, s.tasks[t]))
  }

  /** Saving an agent record keeps the invariant exactly if its list fits; records without a list always do. */
  lemma SaveAgentKeepsIff(s: State, a: AgentInfo)
    requires Inv(s)
    ensures Inv(Next(s, AgentSaved(a))) <==> ListFits(s.connections, a)
    ensures a.connections.None? ==> ListFits(s.connections, a)
  {
    assert a.characterId in Next(s, AgentSaved(a)).agents;
  }

  lemma {:induction false} FindIsThere(listing: seq<string>, connections: Connections, topicId: string)
    ensures var c := Find(listing, connections, topicId);
            if c.Some? then exists id :: id in listing && (id, topicId) in connections && connections[(id, topicId)] == c.value
            else forall id <- listing :: (id, topicId) !in connections
  {
    if listing != [] && (listing[0], topicId) !in connections {
      FindIsThere(listing[1..], connections, topicId);
      assert forall id <- listing :: id == listing[0] || id in listing[1..];
      if id :| id in listing[1..] && (id, topicId) in connections && Some(connections[(id, topicId)]) == Find(listing, connections, topicId) {
        assert id in listing;
      }
    }
  }

  lemma FitsStay(connections: Connections, more: Connections, task: Task)
    requires connections.Keys <= more.Keys && TaskFits(connections, task)
    ensures TaskFits(more, task)
  {
  }

  lemma WrittenFits(connections: Connections, task: Task)
    requires TaskFits(connections, task) && ToWrite(task).Some?
    ensures ListFits(connections, ToWrite(task).value) && ToWrite(task).value.characterId == task.connection.characterId
  {
  }

  lemma AgentsStep(s: State, e: Event)
    requires Enabled(s, e) && Inv(s) && (e.AgentSaved? ==> ListFits(s.connections, e.agent))
    ensures AgentsFit(NextAgents(s, e), s.connections)
  {
    if e.Linked? && ToWrite(s.tasks[e.task]).Some? { WrittenFits(s.connections, s.tasks[e.task]); }
  }

  lemma ConnectionsStep(s: State, e: Event)
    requires Enabled(s, e) && Inv(s)
    ensures s.connections.Keys <= NextConnections(s, e).Keys
    ensures forall k <- NextConnections(s, e) :: Key(NextConnections(s, e)[k]) == k
  {
  }

  lemma NewTaskFits(s: State, e: Event, t: nat)
    requires Enabled(s, e) && Inv(s) && t in NextTasks(s, e) && (t !in s.tasks || NextTasks(s, e)[t] != s.tasks[t])
    ensures TaskFits(NextConnections(s, e), NextTasks(s, e)[t])
  {
    if e.UpdateBegun? { FindIsThere(e.listing, s.connections, e.topicId); }
  }

  lemma TasksStep(s: State, e: Event)
    requires Enabled(s, e) && Inv(s)
    ensures forall t <- NextTasks(s, e) :: TaskFits(NextConnections(s, e), NextTasks(s, e)[t])
  {
    ConnectionsStep(s, e);
    forall t | t in NextTasks(s, e) ensures TaskFits(NextConnections(s, e), NextTasks(s, e)[t]) {
      if t in s.tasks && NextTasks(s, e)[t] == s.tasks[t] {
        FitsStay(s.connections, NextConnections(s, e), s.tasks[t]);
      } else {
        NewTaskFits(s, e, t);
      }
    }
  }

  lemma Step(s: State, e: Event)
    requires Enabled(s, e) && Inv(s) && (e.AgentSaved? ==> ListFits(s.connections, e.agent))
    ensures Inv(Next(s, e))
  {
    AgentsStep(s, e);
    ConnectionsStep(s, e);
    TasksStep(s, e);
  }

  /** Agents are saved without a list, as they are when created. */
  predicate CreatedOnly(run: seq<Event>) {
    forall e <- run :: e.AgentSaved? ==> e.agent.connections.None?
  }

  /**
   * Over every run, with any number of operations at their awaits and any write failing: every file holds a record of its
   * character and topic, and in agents' lists no topic stands twice and every topic has a file.
   */
  lemma {:induction false} InvAlways(s: State, run: seq<Event>)
    requires ValidRun(s, run) && Inv(s) && CreatedOnly(run)
    ensures Inv(After(s, run))
  {
    if run != [] {
      var init, e := run[..|run| - 1], run[|run| - 1];
      assert run == init + [e];
      InvAlways(s, init);
      if e.AgentSaved? { SaveAgentKeepsIff(After(s, init), e.agent); }
      Step(After(s, init), e);
    }
  }

  // ---------------------------------------------------------------- updates

  /** The directories are listed, in any order. */
  ghost predicate Lists(listing: seq<string>, connections: Connections) {
    forall k <- connections :: k.0 in listing
  }

  /** An update finds the record of its topic as the file has it, and nothing exactly if no character has the topic. */
  lemma UpdateFindsFile(s: State, listing: seq<string>, topicId: string)
    requires Inv(s) && Lists(listing, s.connections)
    ensures var c := Find(listing, s.connections, topicId);
            if c.Some? then var k := (c.value.characterId, topicId); k in s.connections && s.connections[k] == c.value
            else forall id :: (id, topicId) !in s.connections
  {
    FindIsThere(listing, s.connections, topicId);
    if Find(listing, s.connections, topicId).None? {
      forall id ensures (id, topicId) !in s.connections {
        assert (id, topicId) in s.connections ==> (id, topicId).0 in listing;
      }
    }
  }

  function Unstamped(c: ConnectionInfo): ConnectionInfo {
    c.(lastMessageAt := None)
  }

  /**
   * An update rewrites the file its record was found in, and no other file. It changes only the time of the last message
   * exactly if the other fields of the file are still as they were found.
   */
  lemma UpdateChangesOnlyTimeIff(s: State, t: nat)
    requires Inv(s) && Enabled(s, UpdateFound(t, true)) && s.tasks[t].found.Some?
    ensures var found, n := s.tasks[t].found.value, Next(s, UpdateFound(t, true));
            var k := (found.characterId, s.tasks[t].topicId);
            && k in s.connections && n.connections.Keys == s.connections.Keys
            && (forall x <- s.connections :: x != k ==> n.connections[x] == s.connections[x])
            && n.agents == s.agents && n.characters == s.characters && n.cache == s.cache
            && (n.connections[k] == s.connections[k].(lastMessageAt := Some(s.tasks[t].timestamp)) <==>
                  Unstamped(s.connections[k]) == Unstamped(found))
  {
    assert TaskFits(s.connections, s.tasks[t]);
  }

  /** The event writes the file of a character and topic. */
  predicate Writes(s: State, e: Event, k: (string, string))
    requires Enabled(s, e)
  {
    match e
    case ConnectionSaved(c, ok) => ok && Key(c) == k
    case UpdateFound(t, ok) => ok && ToSave(s.tasks[t]).Some? && Key(ToSave(s.tasks[t]).value) == k
    case _ => false
  }

  predicate NeverWritten(s: State, run: seq<Event>, k: (string, string))
    requires ValidRun(s, run)
  {
    run == [] || (NeverWritten(s, run[..|run| - 1], k) && !Writes(After(s, run[..|run| - 1]), run[|run| - 1], k))
  }

  /** A file nobody writes stays as it is. */
  lemma {:induction false} UnwrittenStays(s: State, run: seq<Event>, k: (string, string))
    requires ValidRun(s, run) && NeverWritten(s, run, k) && k in s.connections
    ensures k in After(s, run).connections && After(s, run).connections[k] == s.connections[k]
  {
    if run != [] { UnwrittenStays(s, run[..|run| - 1], k); }
  }

  /** The run neither continues the operation nor ends the process. */
  predicate LeavesTask(run: seq<Event>, t: nat) {
    forall e <- run :: !e.Restarted? && !(e.Linked? && e.task == t) && !(e.UpdateFound? && e.task == t) && !(e.ReadEnded? && e.task == t)
  }

  lemma {:induction false} TaskLeft(s: State, run: seq<Event>, t: nat)
    requires ValidRun(s, run) && LeavesTask(run, t) && t in s.tasks && t < s.nextTask
    ensures t in After(s, run).tasks && After(s, run).tasks[t] == s.tasks[t] && t < After(s, run).nextTask
  {
    if run != [] {
      assert run[|run| - 1] in run && forall e <- run[..|run| - 1] :: e in run;
      TaskLeft(s, run[..|run| - 1], t);
    }
  }

  /**
   * The rest of saveConnection writes the agent record that was looked up before the await. It only adds the topic to the
   * list exactly if the record of the agent is still that one, up to the difference between no list and an empty one.
   */
  lemma LinkOnlyAddsTopicIff(s: State, t: nat)
    requires Inv(s) && Enabled(s, Linked(t, true)) && ToWrite(s.tasks[t]).Some?
    ensures var c, a, n := s.tasks[t].connection, s.tasks[t].agent.value, Next(s, Linked(t, true));
            && n.connections == s.connections && n.agents.Keys == s.agents.Keys + {c.characterId}
            && (forall id <- s.agents :: id != c.characterId ==> n.agents[id] == s.agents[id])
            && (c.characterId in s.agents && n.agents[c.characterId] == WithTopic(s.agents[c.characterId], c.connectionTopicId) <==>
                  c.characterId in s.agents && Listed(s.agents[c.characterId]) == Listed(a))
  {
    assert TaskFits(s.connections, s.tasks[t]);
    var c, a := s.tasks[t].connection, s.tasks[t].agent.value;
    if c.characterId in s.agents { SameLists(s.agents[c.characterId], a, c.connectionTopicId); }
  }

  function Listed(a: AgentInfo): AgentInfo {
    a.(connections := Some(ListOf(a)))
  }

  lemma SameLists(a: AgentInfo, b: AgentInfo, topicId: string)
    ensures WithTopic(a, topicId) == WithTopic(b, topicId) <==> Listed(a) == Listed(b)
  {
    if WithTopic(a, topicId) == WithTopic(b, topicId) {
      assert ListOf(a) == (ListOf(a) + [topicId])[..|ListOf(a)|];
      assert ListOf(b) == (ListOf(b) + [topicId])[..|ListOf(b)|];
    }
  }

  /** The agents after an update: one list may have gained the topic. */
  predicate AtMostListed(before: map<string, AgentInfo>, after: map<string, AgentInfo>, id: string, topicId: string) {
    after == before
    || (id in before && topicId !in ListOf(before[id]) && after == before[id := WithTopic(before[id], topicId)])
  }

  /**
   * Between the lookup of an update and its write anything may happen, as long as nobody writes the file of the record: then
   * the update rewrites that file, changes only the time of the last message, and leaves all other files as they have become.
   * A topic without a file changes nothing.
   */
  lemma UpdateRewritesSameFile(s: State, listing: seq<string>, topicId: string, timestamp: string, run: seq<Event>)
    requires Inv(s) && Lists(listing, s.connections)
    requires ValidRun(Next(s, UpdateBegun(listing, topicId, timestamp)), run) && LeavesTask(run, s.nextTask)
    requires var c := Find(listing, s.connections, topicId);
             c.Some? ==> NeverWritten(Next(s, UpdateBegun(listing, topicId, timestamp)), run, (c.value.characterId, topicId))
    ensures var c, b, t := Find(listing, s.connections, topicId), After(Next(s, UpdateBegun(listing, topicId, timestamp)), run), s.nextTask;
            Enabled(b, UpdateFound(t, true)) &&
            var n := Next(b, UpdateFound(t, true));
            if c.None? then n.connections == b.connections && n.agents == b.agents && forall id :: (id, topicId) !in s.connections
            else var k := (c.value.characterId, topicId);
                 && k in s.connections && k in b.connections && b.connections[k] == s.connections[k]
                 && n.connections == b.connections[k := b.connections[k].(lastMessageAt := Some(timestamp))]
                 && n.agents == b.agents && Enabled(n, Linked(t, true)) && n.tasks[t].connection == n.connections[k]
  {
    var s1 := Next(s, UpdateBegun(listing, topicId, timestamp));
    UpdateFindsFile(s, listing, topicId);
    FindIsThere(listing, s.connections, topicId);
    TaskLeft(s1, run, s.nextTask);
    var c := Find(listing, s.connections, topicId);
    if c.Some? { UnwrittenStays(s1, run, (c.value.characterId, topicId)); }
  }

  /** The event writes the record of an agent. */
  predicate WritesAgent(s: State, e: Event, id: string)
    requires Enabled(s, e)
  {
    match e
    case AgentSaved(a) => a.characterId == id
    case Linked(t, ok) => ok && ToWrite(s.tasks[t]).Some? && ToWrite(s.tasks[t]).value.characterId == id
    case _ => false
  }

  predicate AgentUnwritten(s: State, run: seq<Event>, id: string)
    requires ValidRun(s, run)
  {
    run == [] || (AgentUnwritten(s, run[..|run| - 1], id) && !WritesAgent(After(s, run[..|run| - 1]), run[|run| - 1], id))
  }

  lemma {:induction false} AgentStays(s: State, run: seq<Event>, id: string)
    requires ValidRun(s, run) && AgentUnwritten(s, run, id)
    ensures Lookup(After(s, run).agents, id) == Lookup(s.agents, id)
  {
    if run != [] { AgentStays(s, run[..|run| - 1], id); }
  }

  /**
   * Between the lookup of the agent and the second write of saveConnection anything may happen, as long as nobody writes the
   * record of that agent: then at most the topic is added to its list, and nothing else changes.
   */
  lemma SaveOnlyAddsTopic(s: State, c: ConnectionInfo, run: seq<Event>)
    requires forall id <- s.agents :: s.agents[id].characterId == id
    requires ValidRun(Next(s, ConnectionSaved(c, true)), run) && LeavesTask(run, s.nextTask)
    requires AgentUnwritten(Next(s, ConnectionSaved(c, true)), run, c.characterId)
    ensures var b, t := After(Next(s, ConnectionSaved(c, true)), run), s.nextTask;
            Enabled(b, Linked(t, true)) &&
            var n := Next(b, Linked(t, true));
            n.connections == b.connections && AtMostListed(b.agents, n.agents, c.characterId, c.connectionTopicId)
  {
    var s1 := Next(s, ConnectionSaved(c, true));
    TaskLeft(s1, run, s.nextTask);
    AgentStays(s1, run, c.characterId);
  }

  ghost predicate OneHolder(connections: Connections, topicId: string) {
    forall a, b :: (a, topicId) in connections && (b, topicId) in connections ==> a == b
  }

  /** Which record a topic finds does not depend on the order of the directories exactly if one character at most has it. */
  lemma FoundInAnyOrderIff(s: State, listing: seq<string>, topicId: string)
    requires Inv(s) && Lists(listing, s.connections)
    ensures (forall other :: Lists(other, s.connections) ==> Find(other, s.connections, topicId) == Find(listing, s.connections, topicId))
      <==> OneHolder(s.connections, topicId)
  {
    if OneHolder(s.connections, topicId) {
      forall other | Lists(other, s.connections) ensures Find(other, s.connections, topicId) == Find(listing, s.connections, topicId) {
        SameFound(s.connections, other, listing, topicId);
      }
    } else {
      var a, b :| (a, topicId) in s.connections && (b, topicId) in s.connections && a != b;
      var first, second := [a] + listing, [b] + listing;
      assert Lists(first, s.connections) && Lists(second, s.connections);
      assert Find(first, s.connections, topicId) == Some(s.connections[(a, topicId)]);
      assert Find(second, s.connections, topicId) == Some(s.connections[(b, topicId)]);
    }
  }

  lemma SameFound(connections: Connections, a: seq<string>, b: seq<string>, topicId: string)
    requires Lists(a, connections) && Lists(b, connections) && OneHolder(connections, topicId)
    ensures Find(a, connections, topicId) == Find(b, connections, topicId)
  {
    FindIsThere(a, connections, topicId);
    FindIsThere(b, connections, topicId);
    if id :| (id, topicId) in connections {
      assert (id, topicId).0 in a && (id, topicId).0 in b;
    }
  }

  // ---------------------------------------------------------------- the cache and the character's own file

  /** A cached character with its own file is cached as the file has it. */
  predicate Refines(s: State, id: string) {
    id in s.cache && id in s.characters ==> s.cache[id] == s.characters[id]
  }

  lemma RefinesMeans(s: State, id: string)
    requires id in s.characters
    ensures Refines(s, id) <==> Get(s, id) == Uncached(s, id)
  {
  }

  /** How many events came before an operation at its await looked up what it goes on with. */
  function LookedUp(s: State, run: seq<Event>, t: nat): (k: nat)
    requires ValidRun(s, run)
    ensures k <= |run|
  {
    if run == [] then 0
    else if t in After(s, run[..|run| - 1]).tasks then LookedUp(s, run[..|run| - 1], t) else |run| - 1
  }

  /** Tasks are numbered as they begin. */
  ghost predicate TaskIds(s: State) {
    forall t <- s.tasks :: t < s.nextTask
  }

  /** A read in flight was in flight before the event, or has begun with what the files say. */
  lemma NewReader(s: State, e: Event, t: nat)
    requires Enabled(s, e) && TaskIds(s) && t in NextTasks(s, e) && NextTasks(s, e)[t].Reading?
    ensures var task := NextTasks(s, e)[t];
            if t in s.tasks then task == s.tasks[t]
            else e.CharacterRead? && task.data == Uncached(s, task.id) && task.id !in s.characters
  {
  }

  /** The character was saved by an event from k on. */
  predicate SavedSince(run: seq<Event>, k: nat, id: string)
    requires k <= |run|
  {
    k < |run|
    && ((run[|run| - 1].CharacterSaved? && run[|run| - 1].id == id) || SavedSince(run[..|run| - 1], k, id))
  }

  /** A read at its await looked the character up when it had no file, so it has one now exactly if it was saved since. */
  lemma {:induction false} ReaderHasFileIff(s: State, run: seq<Event>, t: nat)
    requires ValidRun(s, run) && s.tasks == map[]
    ensures var n := After(s, run);
            && TaskIds(n)
            && (t in n.tasks && n.tasks[t].Reading? ==>
                  (n.tasks[t].id in n.characters <==> SavedSince(run, LookedUp(s, run, t), n.tasks[t].id)))
  {
    if run != [] {
      var b, n := After(s, run[..|run| - 1]), After(s, run);
      ReaderHasFileIff(s, run[..|run| - 1], t);
      if t in n.tasks && n.tasks[t].Reading? { NewReader(b, run[|run| - 1], t); }
    }
  }

  /** The end of a read caches what was looked up before the character was saved with other data. */
  predicate Overtaken(s: State, run: seq<Event>, e: Event, id: string)
    requires ValidRun(s, run) && Enabled(After(s, run), e)
  {
    var b := After(s, run);
    e.ReadEnded? && b.tasks[e.task].id == id && b.tasks[e.task].data.Some? && SavedSince(run, LookedUp(s, run, e.task), id)
    && id in b.characters && b.characters[id] != b.tasks[e.task].data.value
  }

  /** One event makes a cached character differ from its file exactly if it is the end of an overtaken read. */
  lemma RefinesStepIff(s: State, run: seq<Event>, e: Event, id: string)
    requires ValidRun(s, run) && s.tasks == map[] && Enabled(After(s, run), e) && Refines(After(s, run), id)
    ensures Refines(Next(After(s, run), e), id) <==> !Overtaken(s, run, e, id)
  {
    if e.ReadEnded? { ReaderHasFileIff(s, run, e.task); }
  }

  /** Since the character was last saved, or the process started, an overtaken read ended and none that was not after it. */
  ghost predicate Stale(s: State, run: seq<Event>, id: string)
    requires ValidRun(s, run)
  {
    run != [] &&
    var init, e := run[..|run| - 1], run[|run| - 1];
    match e
    case CharacterSaved(other, _) => other != id && Stale(s, init, id)
    case Restarted => false
    case ReadEnded(t) =>
      var task := After(s, init).tasks[t];
      if task.id == id && task.data.Some? then Overtaken(s, init, e, id) else Stale(s, init, id)
    case _ => Stale(s, init, id)
  }

  lemma StaleStepIff(s: State, run: seq<Event>, e: Event, id: string)
    requires ValidRun(s, run) && s.tasks == map[] && Enabled(After(s, run), e) && !Refines(After(s, run), id)
    ensures Refines(Next(After(s, run), e), id) <==>
              || (e.CharacterSaved? && e.id == id) || e.Restarted?
              || (e.ReadEnded? && After(s, run).tasks[e.task].id == id && After(s, run).tasks[e.task].data.Some?
                  && !Overtaken(s, run, e, id))
  {
    if e.ReadEnded? { ReaderHasFileIff(s, run, e.task); }
  }

  /**
   * Over every run of a process: reading a character that has its own file gives something else than the file exactly if a
   * read that the save overtook ended after the save and nothing has repaired the cache since.
   */
  lemma {:induction false} CacheRefinesOwnFileIff(s: State, run: seq<Event>, id: string)
    requires ValidRun(s, run) && s.cache == map[] && s.tasks == map[]
    ensures Refines(After(s, run), id) <==> !Stale(s, run, id)
    ensures id in After(s, run).characters ==> (Get(After(s, run), id) == Uncached(After(s, run), id) <==> !Stale(s, run, id))
  {
    if run != [] {
      var init, e := run[..|run| - 1], run[|run| - 1];
      CacheRefinesOwnFileIff(s, init, id);
      if Refines(After(s, init), id) { RefinesStepIff(s, init, e, id); } else { StaleStepIff(s, init, e, id); }
    }
    if id in After(s, run).characters { RefinesMeans(After(s, run), id); }
  }

  /** No read of the character that looked it up before a save ends after it. */
  predicate NoneOvertaken(s: State, run: seq<Event>, id: string)
    requires ValidRun(s, run)
  {
    run == [] || (NoneOvertaken(s, run[..|run| - 1], id) && !Overtaken(s, run[..|run| - 1], run[|run| - 1], id))
  }

  lemma {:induction false} NeverStale(s: State, run: seq<Event>, id: string)
    requires ValidRun(s, run) && NoneOvertaken(s, run, id)
    ensures !Stale(s, run, id)
  {
    if run != [] { NeverStale(s, run[..|run| - 1], id); }
  }

  /** So in every run in which no save falls between the lookup and the end of a read, reading gives what the file says. */
  lemma CacheRefinesOwnFile(s: State, run: seq<Event>, id: string)
    requires ValidRun(s, run) && s.cache == map[] && s.tasks == map[] && NoneOvertaken(s, run, id) && id in After(s, run).characters
    ensures Get(After(s, run), id) == Uncached(After(s, run), id)
  {
    NeverStale(s, run, id);
    CacheRefinesOwnFileIff(s, run, id);
  }

  // ---------------------------------------------------------------- characters without their own file

  /** Reading a character gives what the files say. */
  predicate Fresh(s: State, id: string) {
    Get(s, id) == Uncached(s, id)
  }

  /** The event writes a file or a record that the character may be served from. */
  predicate WritesSource(s: State, e: Event, id: string)
    requires Enabled(s, e)
  {
    match e
    case CharacterSaved(file, _) => file == id || file == Underscored(id)
    case AgentSaved(a) => a.characterId == id && a.characterData != FromAgent(s, id)
    case Linked(t, ok) =>
      var a := ToWrite(s.tasks[t]);
      ok && a.Some? && a.value.characterId == id && a.value.characterData != FromAgent(s, id)
    case _ => false
  }

  /** The state after the first k events of a run. */
  function At(s: State, run: seq<Event>, k: nat): State
    requires ValidRun(s, run) && k <= |run|
  {
    if k == |run| then After(s, run) else At(s, run[..|run| - 1], k)
  }

  /** From the event k on nothing writes what the character may be served from. */
  predicate UnwrittenSince(s: State, run: seq<Event>, k: nat, id: string)
    requires ValidRun(s, run) && k <= |run|
  {
    k == |run| || (UnwrittenSince(s, run[..|run| - 1], k, id) && !WritesSource(After(s, run[..|run| - 1]), run[|run| - 1], id))
  }

  lemma {:induction false} SourcesStay(s: State, run: seq<Event>, k: nat, id: string)
    requires ValidRun(s, run) && k <= |run| && UnwrittenSince(s, run, k, id)
    ensures Uncached(At(s, run, k), id) == Uncached(After(s, run), id)
  {
    if k < |run| { SourcesStay(s, run[..|run| - 1], k, id); }
  }

  /** How many events came before a cached character was looked up, or was saved. */
  function CachedAt(s: State, run: seq<Event>, id: string): (k: nat)
    requires ValidRun(s, run)
    ensures k <= |run|
  {
    if run == [] then 0
    else
      var init, e := run[..|run| - 1], run[|run| - 1];
      match e
      case CharacterSaved(other, _) => if other == id then |run| else CachedAt(s, init, id)
      case CharacterRead(other) => if other == id && id !in After(s, init).cache then |init| else CachedAt(s, init, id)
      case ReadEnded(t) =>
        var task := After(s, init).tasks[t];
        if task.id == id && task.data.Some? then LookedUp(s, init, t) else CachedAt(s, init, id)
      case _ => CachedAt(s, init, id)
  }

  /** A read in flight goes on with what the files said when it looked them up. */
  lemma {:induction false} ReadIsSnapshot(s: State, run: seq<Event>, t: nat)
    requires ValidRun(s, run) && s.tasks == map[]
    ensures var n := After(s, run);
            && TaskIds(n)
            && (t in n.tasks && n.tasks[t].Reading? ==> n.tasks[t].data == Uncached(At(s, run, LookedUp(s, run, t)), n.tasks[t].id))
  {
    if run != [] {
      ReadIsSnapshot(s, run[..|run| - 1], t);
      var n := After(s, run);
      if t in n.tasks && n.tasks[t].Reading? { NewReader(After(s, run[..|run| - 1]), run[|run| - 1], t); }
    }
  }

  /** A cached character is what the files said when it was looked up. */
  lemma {:induction false} CacheIsSnapshot(s: State, run: seq<Event>, id: string)
    requires ValidRun(s, run) && s.cache == map[] && s.tasks == map[]
    ensures id in After(s, run).cache ==> Some(After(s, run).cache[id]) == Uncached(At(s, run, CachedAt(s, run, id)), id)
  {
    if run != [] {
      var init, e := run[..|run| - 1], run[|run| - 1];
      CacheIsSnapshot(s, init, id);
      if e.ReadEnded? { ReadIsSnapshot(s, init, e.task); }
    }
  }

  /**
   * Over every run of a process, whatever it serves a character from: reading gives what the files say exactly if the
   * character is not cached, or the files say now what they said when the cached value was looked up.
   */
  lemma FreshIff(s: State, run: seq<Event>, id: string)
    requires ValidRun(s, run) && s.cache == map[] && s.tasks == map[]
    ensures var n := After(s, run);
            Fresh(n, id) <==> id !in n.cache || Uncached(At(s, run, CachedAt(s, run, id)), id) == Uncached(n, id)
  {
    CacheIsSnapshot(s, run, id);
  }

  /** So reading gives what the files say until, after that lookup, a file or record the character may come from is written. */
  lemma FreshUntilWritten(s: State, run: seq<Event>, id: string)
    requires ValidRun(s, run) && s.cache == map[] && s.tasks == map[]
    requires id in After(s, run).cache ==> UnwrittenSince(s, run, CachedAt(s, run, id), id)
    ensures Fresh(After(s, run), id)
  {
    FreshIff(s, run, id);
    if id in After(s, run).cache { SourcesStay(s, run, CachedAt(s, run, id), id); }
  }

  /** A cached character is served from the agent's record. */
  predicate ServedByAgent(s: State, id: string) {
    id in s.cache && FromFiles(s, id).None?
  }

  /** The event writes something else where a cached character came from, or ends a read that such a write overtook. */
  predicate Outdates(s: State, run: seq<Event>, e: Event, id: string)
    requires ValidRun(s, run) && Enabled(After(s, run), e)
  {
    var b := After(s, run);
    match e
    case CharacterSaved(file, data) =>
      id in b.cache && id !in b.characters && file == Underscored(id) && file != id && data != b.cache[id]
    case AgentSaved(a) => ServedByAgent(b, id) && a.characterId == id && a.characterData != Some(b.cache[id])
    case Linked(t, ok) =>
      var a := ToWrite(b.tasks[t]);
      ServedByAgent(b, id) && ok && a.Some? && a.value.characterId == id && a.value.characterData != Some(b.cache[id])
    case ReadEnded(t) =>
      b.tasks[t].id == id && b.tasks[t].data.Some? && !UnwrittenSince(s, run, LookedUp(s, run, t), id)
      && b.tasks[t].data != Uncached(b, id)
    case _ => false
  }

  /** A character that reads as the files say goes on to do so exactly if the event does not outdate it. */
  lemma FreshStepIff(s: State, run: seq<Event>, e: Event, id: string)
    requires ValidRun(s, run) && s.cache == map[] && s.tasks == map[] && Enabled(After(s, run), e) && Fresh(After(s, run), id)
    ensures Fresh(Next(After(s, run), e), id) <==> !Outdates(s, run, e, id)
  {
    if e.ReadEnded? && UnwrittenSince(s, run, LookedUp(s, run, e.task), id) {
      ReadIsSnapshot(s, run, e.task);
      SourcesStay(s, run, LookedUp(s, run, e.task), id);
    }
  }

  // ---------------------------------------------------------------- what overlapping operations do

  lemma OneMore(s: State, run: seq<Event>, e: Event)
    requires ValidRun(s, run) && Enabled(After(s, run), e)
    ensures ValidRun(s, run + [e]) && After(s, run + [e]) == Next(After(s, run), e)
  {
    assert (run + [e])[..|run|] == run;
  }

  /** A save during a read of a character that only the agent's record has leaves the old data in the cache. */
  lemma OvertakenReadStaysCached()
    ensures var s := Started(map["c" := AgentInfo("c", "", Some("A"), None)], map[], map[]);
            var run := [CharacterRead("c"), CharacterSaved("c", "B"), ReadEnded(0)];
            ValidRun(s, run) && After(s, run).characters == map["c" := "B"] && Get(After(s, run), "c") == Some("A")
  {
    var s := Started(map["c" := AgentInfo("c", "", Some("A"), None)], map[], map[]);
    var e, f, g := CharacterRead("c"), CharacterSaved("c", "B"), ReadEnded(0);
    assert Underscored("c") == "c";
    OneMore(s, [], e);
    OneMore(s, [e], f);
    OneMore(s, [e, f], g);
    assert [] + [e] == [e] && [e] + [f] == [e, f] && [e, f] + [g] == [e, f, g];
    assert map[][("c") := "B"] == map["c" := "B"];
  }

  /** A character that only the agent's record has is cached, and then the record gets other data. */
  lemma RewrittenAgentStaysCached()
    ensures var s := Started(map["c" := AgentInfo("c", "", Some("A"), None)], map[], map[]);
            var run := [CharacterRead("c"), ReadEnded(0), AgentSaved(AgentInfo("c", "", Some("B"), None))];
            ValidRun(s, run) && Get(After(s, run), "c") == Some("A") && Uncached(After(s, run), "c") == Some("B")
  {
    var s := Started(map["c" := AgentInfo("c", "", Some("A"), None)], map[], map[]);
    var e, f, g := CharacterRead("c"), ReadEnded(0), AgentSaved(AgentInfo("c", "", Some("B"), None));
    assert Underscored("c") == "c";
    OneMore(s, [], e);
    OneMore(s, [e], f);
    OneMore(s, [e, f], g);
    assert [] + [e] == [e] && [e] + [f] == [e, f] && [e, f] + [g] == [e, f, g];
  }

  /** A character is served from the file with underscores and cached, and then that file is saved under its own name. */
  lemma RewrittenUnderscoreStaysCached(id: string)
    requires Underscored(id) != id
    ensures var s := Started(map[], map[], map[Underscored(id) := "A"]);
            var run := [CharacterRead(id), CharacterSaved(Underscored(id), "B")];
            ValidRun(s, run) && Get(After(s, run), id) == Some("A") && Uncached(After(s, run), id) == Some("B")
  {
    var s := Started(map[], map[], map[Underscored(id) := "A"]);
    var e, f := CharacterRead(id), CharacterSaved(Underscored(id), "B");
    OneMore(s, [], e);
    OneMore(s, [e], f);
    assert [] + [e] == [e] && [e] + [f] == [e, f];
  }

  /** Two saves of connections of one character wait for the links they looked up the agent for. */
  lemma TwoSaves(s: State, a: AgentInfo, c: ConnectionInfo, d: ConnectionInfo)
    requires s == Started(map["c" := a], map[], map[]) && c.characterId == d.characterId == "c"
    ensures var n := Next(Next(s, ConnectionSaved(c, true)), ConnectionSaved(d, true));
            && n.tasks == map[0 := Linking(c, Some(a)), 1 := Linking(d, Some(a))] && n.agents == map["c" := a]
            && Key(c) in n.connections
  {
  }

  lemma TwoLinks(s: State, a: AgentInfo, c: ConnectionInfo, d: ConnectionInfo)
    requires s.tasks == map[0 := Linking(c, Some(a)), 1 := Linking(d, Some(a))]
    requires a.characterId == "c" && a.connections == None
    ensures Enabled(s, Linked(0, true)) && Enabled(Next(s, Linked(0, true)), Linked(1, true))
    ensures var n := Next(Next(s, Linked(0, true)), Linked(1, true));
            "c" in n.agents && ListOf(n.agents["c"]) == [d.connectionTopicId] && n.connections == s.connections
  {
    assert [] + [d.connectionTopicId] == [d.connectionTopicId];
  }

  /** Of two connections of one character saved at the same time, only the one that is linked last is listed. */
  lemma OverlappingSavesLoseTopic()
    ensures var s := Started(map["c" := AgentInfo("c", "", None, None)], map[], map[]);
            var c, d := ConnectionInfo("t", "c", "", None), ConnectionInfo("u", "c", "", None);
            var run := [ConnectionSaved(c, true), ConnectionSaved(d, true), Linked(0, true), Linked(1, true)];
            ValidRun(s, run) && ("c", "t") in After(s, run).connections
            && "c" in After(s, run).agents && ListOf(After(s, run).agents["c"]) == ["u"]
  {
    var a := AgentInfo("c", "", None, None);
    var s := Started(map["c" := a], map[], map[]);
    var c, d := ConnectionInfo("t", "c", "", None), ConnectionInfo("u", "c", "", None);
    var e, f, g, h := ConnectionSaved(c, true), ConnectionSaved(d, true), Linked(0, true), Linked(1, true);
    TwoSaves(s, a, c, d);
    var n := Next(Next(s, e), f);
    TwoLinks(n, a, c, d);
    FourEvents(s, e, f, g, h);
  }

  lemma FourEvents(s: State, e: Event, f: Event, g: Event, h: Event)
    requires Enabled(s, e) && Enabled(Next(s, e), f) && Enabled(Next(Next(s, e), f), g) && Enabled(Next(Next(Next(s, e), f), g), h)
    ensures ValidRun(s, [e, f, g, h]) && After(s, [e, f, g, h]) == Next(Next(Next(Next(s, e), f), g), h)
  {
    OneMore(s, [], e);
    assert [] + [e] == [e];
    OneMore(s, [e], f);
    assert [e] + [f] == [e, f];
    OneMore(s, [e, f], g);
    assert [e, f] + [g] == [e, f, g];
    OneMore(s, [e, f, g], h);
    assert [e, f, g] + [h] == [e, f, g, h];
  }
}
