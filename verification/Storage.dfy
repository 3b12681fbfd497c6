/**
 * The file store of agent-framework/src/services/storageService.ts: agent records, connection records by character and
 * topic, character files, and the cache in front of the characters. An operation that awaits is two or three events; what
 * it looked up before the await is what it goes on with.
 */
module Storage {
  import opened Common

  /** The fields the store does not look at are kept in details; connections is None when the field is absent. */
  datatype AgentInfo = AgentInfo(characterId: string, details: string, characterData: Option<string>, connections: Option<seq<string>>)

  datatype ConnectionInfo = ConnectionInfo(connectionTopicId: string, characterId: string, details: string, lastMessageAt: Option<string>)

  type Connections = map<(string, string), ConnectionInfo>

  /**
   * An operation at its await: saveConnection has looked up the agent, updateConnectionLastMessage the connection, and
   * getCharacterData the agent of a character without a file.
   */
  datatype Task =
    | Linking(connection: ConnectionInfo, agent: Option<AgentInfo>)
    | Updating(topicId: string, timestamp: string, found: Option<ConnectionInfo>)
    | Reading(id: string, data: Option<string>)

  datatype State = State(
    agents: map<string, AgentInfo>,
    connections: Connections,
    characters: map<string, string>,
    cache: map<string, string>,
    tasks: map<nat, Task>,
    nextTask: nat)

  /** What a process finds when it starts. */
  function Started(agents: map<string, AgentInfo>, connections: Connections, characters: map<string, string>): State {
    State(agents, connections, characters, map[], map[], 0)
  }

  /** ok says whether the write of the event succeeds. */
  datatype Event =
    | AgentSaved(agent: AgentInfo)
    | ConnectionSaved(connection: ConnectionInfo, ok: bool)
    | Linked(task: nat, ok: bool)
    | UpdateBegun(listing: seq<string>, topicId: string, timestamp: string)
    | UpdateFound(task: nat, ok: bool)
    | CharacterSaved(id: string, data: string)
    | CharacterRead(id: string)
    | ReadEnded(task: nat)
    | Restarted

  predicate Enabled(s: State, e: Event) {
    match e
    case Linked(t, _) => t in s.tasks && s.tasks[t].Linking?
    case UpdateFound(t, _) => t in s.tasks && s.tasks[t].Updating?
    case ReadEnded(t) => t in s.tasks && s.tasks[t].Reading?
    case _ => true
  }

  // ---------------------------------------------------------------- looking up

  function Key(c: ConnectionInfo): (string, string) {
    (c.characterId, c.connectionTopicId)
  }

  function ListOf(a: AgentInfo): seq<string> {
    if a.connections.Some? then a.connections.value else []
  }

  function Lookup<T>(m: map<string, T>, id: string): Option<T> {
    if id in m then Some(m[id]) else None
  }

  /** The record of a topic in the first directory, in the order in which they are listed, that has one. */
  function Find(listing: seq<string>, connections: Connections, topicId: string): Option<ConnectionInfo> {
    if listing == [] then None
    else if (listing[0], topicId) in connections then Some(connections[(listing[0], topicId)])
    else Find(listing[1..], connections, topicId)
  }

  /** characterId.replace(/\./g, '_') */
  function Underscored(id: string): (r: string)
    ensures |r| == |id| && forall i :: 0 <= i < |id| ==> r[i] == if id[i] == '.' then '_' else id[i]
  {
    if id == "" then "" else [if id[0] == '.' then '_' else id[0]] + Underscored(id[1..])
  }

  function FromFiles(s: State, id: string): Option<string> {
    if id in s.characters then Some(s.characters[id]) else Lookup(s.characters, Underscored(id))
  }

  function FromAgent(s: State, id: string): Option<string> {
    if id in s.agents then s.agents[id].characterData else None
  }

  /** What the files say about a character: its own, the one with underscores, or the agent's record. */
  function Uncached(s: State, id: string): Option<string> {
    if FromFiles(s, id).Some? then FromFiles(s, id) else FromAgent(s, id)
  }

  function Get(s: State, id: string): Option<string> {
    if id in s.cache then Some(s.cache[id]) else Uncached(s, id)
  }

  // ---------------------------------------------------------------- one event

  /** The list of the agent that was looked up, with the topic. */
  function WithTopic(a: AgentInfo, topicId: string): AgentInfo {
    a.(connections := Some(ListOf(a) + [topicId]))
  }

  /** The agent record that the rest of saveConnection writes, if it writes one. */
  function ToWrite(task: Task): Option<AgentInfo> {
    if task.Linking? && task.agent.Some? && task.connection.connectionTopicId !in ListOf(task.agent.value)
    then Some(WithTopic(task.agent.value, task.connection.connectionTopicId)) else None
  }

  function NextAgents(s: State, e: Event): map<string, AgentInfo>
    requires Enabled(s, e)
  {
    match e
    case AgentSaved(a) => s.agents[a.characterId := a]
    case Linked(t, ok) =>
      var a := ToWrite(s.tasks[t]);
      if ok && a.Some? then s.agents[a.value.characterId := a.value] else s.agents
    case _ => s.agents
  }

  function NextConnections(s: State, e: Event): Connections
    requires Enabled(s, e)
  {
    match e
    case ConnectionSaved(c, ok) => if ok then s.connections[Key(c) := c] else s.connections
    case UpdateFound(t, ok) =>
      var c := ToSave(s.tasks[t]);
      if ok && c.Some? then s.connections[Key(c.value) := c.value] else s.connections
    case _ => s.connections
  }

  /** The record that updateConnectionLastMessage saves: the one it looked up, with the new time. */
  function ToSave(task: Task): Option<ConnectionInfo> {
    if task.Updating? && task.found.Some? then Some(task.found.value.(lastMessageAt := Some(task.timestamp))) else None
  }

  function NextCache(s: State, e: Event): map<string, string>
    requires Enabled(s, e)
  {
    match e
    case CharacterSaved(id, data) => s.cache[id := data]
    case CharacterRead(id) => if id !in s.cache && FromFiles(s, id).Some? then s.cache[id := FromFiles(s, id).value] else s.cache
    case ReadEnded(t) => if s.tasks[t].data.Some? then s.cache[s.tasks[t].id := s.tasks[t].data.value] else s.cache
    case Restarted => map[]
    case _ => s.cache
  }

  /** saveConnection after its first write. */
  function LinkTask(s: State, c: ConnectionInfo): Task {
    Linking(c, Lookup(s.agents, c.characterId))
  }

  /** A read that neither the cache nor a file answers looks the agent up and awaits. */
  predicate Suspends(s: State, id: string) {
    id !in s.cache && FromFiles(s, id).None?
  }

  function NextTasks(s: State, e: Event): map<nat, Task>
    requires Enabled(s, e)
  {
    match e
    case ConnectionSaved(c, ok) => if ok then s.tasks[s.nextTask := LinkTask(s, c)] else s.tasks
    case Linked(t, _) => s.tasks - {t}
    case UpdateBegun(listing, topicId, timestamp) =>
      s.tasks[s.nextTask := Updating(topicId, timestamp, Find(listing, s.connections, topicId))]
    case UpdateFound(t, ok) =>
      var c := ToSave(s.tasks[t]);
      if ok && c.Some? then s.tasks[t := LinkTask(s, c.value)] else s.tasks - {t}
    case CharacterRead(id) => if Suspends(s, id) then s.tasks[s.nextTask := Reading(id, FromAgent(s, id))] else s.tasks
    case ReadEnded(t) => s.tasks - {t}
    case Restarted => map[]
    case _ => s.tasks
  }

  function NextId(s: State, e: Event): nat {
    match e
    case ConnectionSaved(_, ok) => if ok then s.nextTask + 1 else s.nextTask
    case UpdateBegun(_, _, _) => s.nextTask + 1
    case CharacterRead(id) => if Suspends(s, id) then s.nextTask + 1 else s.nextTask
    case _ => s.nextTask
  }

  function Next(s: State, e: Event): State
    requires Enabled(s, e)
  {
    State(
      NextAgents(s, e),
      NextConnections(s, e),
      if e.CharacterSaved? then s.characters[e.id := e.data] else s.characters,
      NextCache(s, e),
      NextTasks(s, e),
      NextId(s, e))
  }

  predicate ValidRun(s: State, run: seq<Event>)
    decreases |run|, 0
  {
    run == [] || (ValidRun(s, run[..|run| - 1]) && Enabled(After(s, run[..|run| - 1]), run[|run| - 1]))
  }

  function After(s: State, run: seq<Event>): State
    requires ValidRun(s, run)
    decreases |run|, 1
  {
    if run == [] then s else Next(After(s, run[..|run| - 1]), run[|run| - 1])
  }

  // ---------------------------------------------------------------- the service

  class StorageService {
    var agents: map<string, AgentInfo>
    var connections: Connections
    var characters: map<string, string>
    var characterCache: map<string, string>
    var tasks: map<nat, Task>
    var nextTask: nat

    function View(): State
      reads this
    {
      State(agents, connections, characters, characterCache, tasks, nextTask)
    }

    constructor (agents: map<string, AgentInfo>, connections: Connections, characters: map<string, string>)
      ensures View() == Started(agents, connections, characters)
    {
      this.agents, this.connections, this.characters, this.characterCache := agents, connections, characters, map[];
      tasks, nextTask := map[], 0;
    }

    method Suspend(task: Task)
      modifies this`tasks, this`nextTask
      ensures tasks == old(tasks)[old(nextTask) := task] && nextTask == old(nextTask) + 1
    {
      tasks, nextTask := tasks[nextTask := task], nextTask + 1;
    }

    method SaveAgentInfo(agentInfo: AgentInfo)
      modifies this`agents
      ensures View() == Next(old(View()), AgentSaved(agentInfo))
    {
      agents := agents[agentInfo.characterId := agentInfo];
    }

    /** saveConnection up to its await. */
    method SaveConnection(connectionInfo: ConnectionInfo, ok: bool)
      modifies this
      ensures View() == Next(old(View()), ConnectionSaved(connectionInfo, ok))
    {
      if ok {
        connections := connections[Key(connectionInfo) := connectionInfo];
        Suspend(Linking(connectionInfo, Lookup(agents, connectionInfo.characterId)));
      }
    }

    /** saveConnection after its await. */
    method LinkConnection(task: nat, ok: bool)
      requires Enabled(View(), Linked(task, ok))
      modifies this
      ensures View() == Next(old(View()), Linked(task, ok))
    {
      var connectionInfo, agent := tasks[task].connection, tasks[task].agent;
      tasks := tasks - {task};
      if agent.Some? {
        var agentInfo := agent.value;
        if agentInfo.connections.None? {
          agentInfo := agentInfo.(connections := Some([]));
        }
        if connectionInfo.connectionTopicId !in agentInfo.connections.value {
          agentInfo := agentInfo.(connections := Some(agentInfo.connections.value + [connectionInfo.connectionTopicId]));
          if ok {
            SaveAgentInfo(agentInfo);
          }
        }
      }
    }

    method GetConnectionByTopicId(listing: seq<string>, connectionTopicId: string) returns (r: Option<ConnectionInfo>)
      ensures r == Find(listing, connections, connectionTopicId)
    {
      for i := 0 to |listing|
        invariant Find(listing, connections, connectionTopicId) == Find(listing[i..], connections, connectionTopicId)
      {
        if (listing[i], connectionTopicId) in connections {
          return Some(connections[(listing[i], connectionTopicId)]);
        }
        assert listing[i..][1..] == listing[i + 1..];
      }
      return None;
    }

    /** updateConnectionLastMessage up to its await. */
    method BeginUpdate(listing: seq<string>, connectionTopicId: string, timestamp: string)
      modifies this`tasks, this`nextTask
      ensures View() == Next(old(View()), UpdateBegun(listing, connectionTopicId, timestamp))
    {
      var connection := GetConnectionByTopicId(listing, connectionTopicId);
      Suspend(Updating(connectionTopicId, timestamp, connection));
    }

    /** updateConnectionLastMessage after its await, up to the await of saveConnection. */
    method FinishUpdate(task: nat, ok: bool)
      requires Enabled(View(), UpdateFound(task, ok))
      modifies this`connections, this`tasks
      ensures View() == Next(old(View()), UpdateFound(task, ok))
    {
      var timestamp, found := tasks[task].timestamp, tasks[task].found;
      if found.Some? && ok {
        var connection := found.value.(lastMessageAt := Some(timestamp));
        connections := connections[Key(connection) := connection];
        tasks := tasks[task := Linking(connection, Lookup(agents, connection.characterId))];
      } else {
        tasks := tasks - {task};
      }
    }

    method SaveCharacterData(characterId: string, characterData: string)
      modifies this
      ensures View() == Next(old(View()), CharacterSaved(characterId, characterData))
    {
      characters := characters[characterId := characterData];
      characterCache := characterCache[characterId := characterData];
    }

    /** getCharacterData up to its await, if it reaches it; done says that it did not. */
    method GetCharacterData(characterId: string) returns (done: bool, r: Option<string>)
      modifies this`characterCache, this`tasks, this`nextTask
      ensures done == !Suspends(old(View()), characterId)
      ensures done ==> r == Get(old(View()), characterId)
      ensures View() == Next(old(View()), CharacterRead(characterId))
    {
      if characterId in characterCache {
        return true, Some(characterCache[characterId]);
      }
      if characterId !in characters {
        if Underscored(characterId) !in characters {
          Suspend(Reading(characterId, if characterId in agents then agents[characterId].characterData else None));
          return false, None;
        }
        characterCache := characterCache[characterId := characters[Underscored(characterId)]];
        return true, Some(characters[Underscored(characterId)]);
      }
      characterCache := characterCache[characterId := characters[characterId]];
      return true, Some(characters[characterId]);
    }

    /** getCharacterData after its await. */
    method FinishRead(task: nat) returns (r: Option<string>)
      requires Enabled(View(), ReadEnded(task))
      modifies this`characterCache, this`tasks
      ensures r == old(tasks[task].data)
      ensures View() == Next(old(View()), ReadEnded(task))
    {
      var id := tasks[task].id;
      r := tasks[task].data;
      tasks := tasks - {task};
      if r.Some? {
        characterCache := characterCache[id := r.value];
      }
    }
  }
}
