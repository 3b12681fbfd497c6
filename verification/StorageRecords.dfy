/** What the files of the store hold: each is what the last operation that wrote it had been given, or had looked up. */
module StorageRecords {
  import opened Common
  import opened Storage
  import opened StorageSafety

  // ---------------------------------------------------------------- what an operation looked up

  /** The first directory listed that has the topic. */
  predicate FirstHolder(listing: seq<string>, connections: Connections, topicId: string, i: nat) {
    i < |listing| && (listing[i], topicId) in connections && forall j :: 0 <= j < i ==> (listing[j], topicId) !in connections
  }

  lemma {:induction false} FindIsFirst(listing: seq<string>, connections: Connections, topicId: string)
    ensures forall i: nat :: FirstHolder(listing, connections, topicId, i) ==>
              Find(listing, connections, topicId) == Some(connections[(listing[i], topicId)])
    ensures Find(listing, connections, topicId) == None <==> forall i :: 0 <= i < |listing| ==> (listing[i], topicId) !in connections
  {
    if listing != [] && (listing[0], topicId) !in connections {
      FindIsFirst(listing[1..], connections, topicId);
      forall i: nat | FirstHolder(listing, connections, topicId, i)
        ensures Find(listing, connections, topicId) == Some(connections[(listing[i], topicId)])
      {
        assert i > 0 && listing[1..][i - 1] == listing[i];
        forall j | 0 <= j < i - 1 ensures (listing[1..][j], topicId) !in connections { assert listing[1..][j] == listing[j + 1]; }
        assert FirstHolder(listing[1..], connections, topicId, i - 1);
      }
      if forall i :: 0 <= i < |listing[1..]| ==> (listing[1..][i], topicId) !in connections {
        forall i | 0 <= i < |listing| ensures (listing[i], topicId) !in connections { if i > 0 { assert listing[1..][i - 1] == listing[i]; } }
      }
    }
  }

  /** An update at its await goes on with the record that the first directory with its topic had when it began. */
  ghost predicate UpdateKnows(s: State, run: seq<Event>, t: nat)
    requires ValidRun(s, run)
  {
    var n, k := After(s, run), LookedUp(s, run, t);
    t in n.tasks && n.tasks[t].Updating? ==>
      && k < |run| && run[k].UpdateBegun? && n.tasks[t].topicId == run[k].topicId && n.tasks[t].timestamp == run[k].timestamp
      && n.tasks[t].found == Find(run[k].listing, At(s, run, k).connections, run[k].topicId)
  }

  lemma {:induction false} UpdateIsSnapshot(s: State, run: seq<Event>, t: nat)
    requires ValidRun(s, run) && s.tasks == map[]
    ensures TaskIds(After(s, run)) && UpdateKnows(s, run, t)
  {
    if run != [] {
      var init := run[..|run| - 1];
      UpdateIsSnapshot(s, init, t);
      if t in After(s, init).tasks && LookedUp(s, init, t) < |init| { assert run[LookedUp(s, init, t)] == init[LookedUp(s, init, t)]; }
    }
  }

  // ---------------------------------------------------------------- connection files

  /** What an update writes: the record it found when it began, with the new time. */
  function Rewritten(s: State, run: seq<Event>, t: nat): Option<ConnectionInfo>
    requires ValidRun(s, run)
  {
    var k := LookedUp(s, run, t);
    if k < |run| && run[k].UpdateBegun?
    then var found := Find(run[k].listing, At(s, run, k).connections, run[k].topicId);
         if found.Some? then Some(found.value.(lastMessageAt := Some(run[k].timestamp))) else None
    else None
  }

  /** The record of a character and topic that the run writes last. */
  function LastConnection(s: State, run: seq<Event>, k: (string, string)): Option<ConnectionInfo>
    requires ValidRun(s, run)
  {
    if run == [] then if k in s.connections then Some(s.connections[k]) else None
    else
      var init, e := run[..|run| - 1], run[|run| - 1];
      match e
      case ConnectionSaved(c, ok) =>
        if ok && c.characterId == k.0 && c.connectionTopicId == k.1 then Some(c) else LastConnection(s, init, k)
      case UpdateFound(t, ok) =>
        var c := Rewritten(s, init, t);
        if ok && c.Some? && c.value.characterId == k.0 && c.value.connectionTopicId == k.1 then c else LastConnection(s, init, k)
      case _ => LastConnection(s, init, k)
  }

  /**
   * In every run of a process, with any operations interleaving: the file of a character and topic holds, field for field, the
   * record that was saved last, or the record that the last update found when it began, with that update's time.
   */
  lemma {:induction false} FileIsLastSaved(s: State, run: seq<Event>, k: (string, string))
    requires ValidRun(s, run) && s.tasks == map[]
    ensures LastConnection(s, run, k) == if k in After(s, run).connections then Some(After(s, run).connections[k]) else None
  {
    if run != [] {
      var init, e := run[..|run| - 1], run[|run| - 1];
      FileIsLastSaved(s, init, k);
      if e.UpdateFound? { UpdateIsSnapshot(s, init, e.task); }
    }
  }

  /** A saved record is found under its topic, field for field, as long as nobody writes its file. */
  lemma SavedIsFound(s: State, c: ConnectionInfo, run: seq<Event>)
    requires ValidRun(Next(s, ConnectionSaved(c, true)), run)
    requires NeverWritten(Next(s, ConnectionSaved(c, true)), run, (c.characterId, c.connectionTopicId))
    ensures var n := After(Next(s, ConnectionSaved(c, true)), run);
            Find([c.characterId], n.connections, c.connectionTopicId) == Some(c)
  {
    UnwrittenStays(Next(s, ConnectionSaved(c, true)), run, (c.characterId, c.connectionTopicId));
  }

  // ---------------------------------------------------------------- agent records

  /** How many events came before saveConnection looked up the agent: it began, or an update called it. */
  function AgentLookedUp(s: State, run: seq<Event>, t: nat): (k: nat)
    requires ValidRun(s, run)
    ensures k <= |run|
  {
    if run == [] then 0
    else
      var init, e := run[..|run| - 1], run[|run| - 1];
      if t in After(s, init).tasks && !(e.UpdateFound? && e.task == t) then AgentLookedUp(s, init, t) else |run| - 1
  }

  /** The record that saveConnection was called with. */
  function LinkedRecord(s: State, run: seq<Event>, t: nat): Option<ConnectionInfo>
    requires ValidRun(s, run)
  {
    if run == [] then None
    else
      var init, e := run[..|run| - 1], run[|run| - 1];
      if e.UpdateFound? && e.task == t then Rewritten(s, init, t)
      else if t in After(s, init).tasks then LinkedRecord(s, init, t)
      else if e.ConnectionSaved? then Some(e.connection) else None
  }

  /** saveConnection at its await goes on with the agent record of that moment, and with the record it was called with. */
  ghost predicate LinkKnows(s: State, run: seq<Event>, t: nat)
    requires ValidRun(s, run)
  {
    var n, k := After(s, run), AgentLookedUp(s, run, t);
    t in n.tasks && n.tasks[t].Linking? ==>
      && LinkedRecord(s, run, t) == Some(n.tasks[t].connection)
      && n.tasks[t].agent == Lookup(At(s, run, k).agents, n.tasks[t].connection.characterId)
  }

  lemma {:induction false} LinkIsSnapshot(s: State, run: seq<Event>, t: nat)
    requires ValidRun(s, run) && s.tasks == map[]
    ensures TaskIds(After(s, run)) && LinkKnows(s, run, t)
  {
    if run != [] {
      var init, e := run[..|run| - 1], run[|run| - 1];
      LinkIsSnapshot(s, init, t);
      if e.UpdateFound? && e.task == t { UpdateIsSnapshot(s, init, t); }
    }
  }

  /** The agent record with the topic of a connection at the end of its list, if it was not in the list. */
  function Listing(a: AgentInfo, topicId: string): Option<AgentInfo> {
    var list := if a.connections.Some? then a.connections.value else [];
    if topicId in list then None else Some(AgentInfo(a.characterId, a.details, a.characterData, Some(list + [topicId])))
  }

  /** What the second write of saveConnection writes: the agent it looked up, with the topic. */
  function Relisted(s: State, run: seq<Event>, t: nat): Option<AgentInfo>
    requires ValidRun(s, run)
  {
    var c := LinkedRecord(s, run, t);
    if c == None then None
    else var a := Lookup(At(s, run, AgentLookedUp(s, run, t)).agents, c.value.characterId);
         if a.Some? then Listing(a.value, c.value.connectionTopicId) else None
  }

  function LastAgent(s: State, run: seq<Event>, id: string): Option<AgentInfo>
    requires ValidRun(s, run)
  {
    if run == [] then if id in s.agents then Some(s.agents[id]) else None
    else
      var init, e := run[..|run| - 1], run[|run| - 1];
      match e
      case AgentSaved(a) => if a.characterId == id then Some(a) else LastAgent(s, init, id)
      case Linked(t, ok) =>
        var a := Relisted(s, init, t);
        if ok && a.Some? && a.value.characterId == id then a else LastAgent(s, init, id)
      case _ => LastAgent(s, init, id)
  }

  /**
   * In every run of a process: the record of an agent is, field for field, the one that was saved last, or the one that the
   * last saveConnection to list a topic with it had looked up, with that topic at the end of its list.
   */
  lemma {:induction false} AgentIsLastSaved(s: State, run: seq<Event>, id: string)
    requires ValidRun(s, run) && s.tasks == map[]
    ensures LastAgent(s, run, id) == if id in After(s, run).agents then Some(After(s, run).agents[id]) else None
  {
    if run != [] {
      var init, e := run[..|run| - 1], run[|run| - 1];
      AgentIsLastSaved(s, init, id);
      if e.Linked? { LinkIsSnapshot(s, init, e.task); }
    }
  }

  // ---------------------------------------------------------------- character files

  function LastCharacter(s: State, run: seq<Event>, id: string): Option<string> {
    if run == [] then if id in s.characters then Some(s.characters[id]) else None
    else
      var e := run[|run| - 1];
      if e.CharacterSaved? && e.id == id then Some(e.data) else LastCharacter(s, run[..|run| - 1], id)
  }

  /** In every run the file of a character holds what was saved last. */
  lemma {:induction false} CharacterIsLastSaved(s: State, run: seq<Event>, id: string)
    requires ValidRun(s, run)
    ensures LastCharacter(s, run, id) == if id in After(s, run).characters then Some(After(s, run).characters[id]) else None
  {
    if run != [] { CharacterIsLastSaved(s, run[..|run| - 1], id); }
  }
}
