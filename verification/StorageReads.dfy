/** What a read of a character answers, and which operations are at their awaits, told from the events of a run. */
module StorageReads {
  import opened Common
  import opened Storage
  import opened StorageRecords

  /** How many operations have begun that await something. */
  function Begun(s: State, run: seq<Event>): nat
    requires ValidRun(s, run)
    decreases |run|, 0
  {
    if run == [] then s.nextTask
    else
      var init := run[..|run| - 1];
      Begun(s, init) + match run[|run| - 1]
                       case ConnectionSaved(_, ok) => if ok then 1 else 0
                       case UpdateBegun(_, _, _) => 1
                       case CharacterRead(id) => if AtHand(s, init, id).None? then 1 else 0
                       case _ => 0
  }

  /** The character and the data of a read at its await: what the agent record had when it began. */
  function ReadOf(s: State, run: seq<Event>, t: nat): Option<(string, Option<string>)>
    requires ValidRun(s, run)
    decreases |run|, 0
  {
    if run == [] then None
    else
      var init := run[..|run| - 1];
      match run[|run| - 1]
      case CharacterRead(id) =>
        if AtHand(s, init, id).None? && Begun(s, init) == t then Some((id, InRecord(s, init, id))) else ReadOf(s, init, t)
      case ReadEnded(k) => if k == t then None else ReadOf(s, init, t)
      case Restarted => None
      case _ => ReadOf(s, init, t)
  }

  function InRecord(s: State, run: seq<Event>, id: string): Option<string>
    requires ValidRun(s, run)
    decreases |run|, 2
  {
    if LastAgent(s, run, id).Some? then LastAgent(s, run, id).value.characterData else None
  }

  /** The cache has what was saved, or read, last in this process. */
  function CachedAfter(s: State, run: seq<Event>, id: string): Option<string>
    requires ValidRun(s, run)
    decreases |run|, 0
  {
    if run == [] then None
    else
      var init := run[..|run| - 1];
      match run[|run| - 1]
      case CharacterSaved(x, data) => if x == id then Some(data) else CachedAfter(s, init, id)
      case CharacterRead(x) => if x == id then AtHand(s, init, id) else CachedAfter(s, init, id)
      case ReadEnded(t) =>
        var r := ReadOf(s, init, t);
        if r.Some? && r.value.0 == id && r.value.1.Some? then r.value.1 else CachedAfter(s, init, id)
      case Restarted => None
      case _ => CachedAfter(s, init, id)
  }

  /** What a read finds without an await: in the cache, in the character's own file, or in the one with underscores for dots. */
  function AtHand(s: State, run: seq<Event>, id: string): Option<string>
    requires ValidRun(s, run)
    decreases |run|, 1
  {
    if CachedAfter(s, run, id).Some? then CachedAfter(s, run, id)
    else if LastCharacter(s, run, id).Some? then LastCharacter(s, run, id)
    else LastCharacter(s, run, seq(|id|, i requires 0 <= i < |id| => if id[i] == '.' then '_' else id[i]))
  }

  /** An operation other than a read at its await: an update, or a save with its second write to come. */
  datatype Await = Nothing | Update | SecondWrite

  function AwaitOf(s: State, run: seq<Event>, t: nat): Await
    requires ValidRun(s, run)
  {
    if run == [] then Nothing
    else
      var init := run[..|run| - 1];
      match run[|run| - 1]
      case ConnectionSaved(_, ok) => if ok && Begun(s, init) == t then SecondWrite else AwaitOf(s, init, t)
      case UpdateBegun(_, _, _) => if Begun(s, init) == t then Update else AwaitOf(s, init, t)
      case UpdateFound(k, ok) => if k != t then AwaitOf(s, init, t) else if ok && Rewritten(s, init, t).Some? then SecondWrite else Nothing
      case Linked(k, _) => if k == t then Nothing else AwaitOf(s, init, t)
      case Restarted => Nothing
      case _ => AwaitOf(s, init, t)
  }

  /** The operations at their awaits are those that have begun and not ended. */
  ghost predicate TasksTold(s: State, run: seq<Event>)
    requires ValidRun(s, run)
  {
    var n := After(s, run);
    && n.nextTask == Begun(s, run) && (forall t <- n.tasks :: t < n.nextTask)
    && (forall t: nat :: Waiting(n, t) == AwaitOf(s, run, t) && Reader(n, t) == ReadOf(s, run, t))
  }

  function Waiting(n: State, t: nat): Await {
    if t !in n.tasks then Nothing
    else match n.tasks[t] case Linking(_, _) => SecondWrite case Updating(_, _, _) => Update case Reading(_, _) => Nothing
  }

  function Reader(n: State, t: nat): Option<(string, Option<string>)> {
    if t in n.tasks && n.tasks[t].Reading? then Some((n.tasks[t].id, n.tasks[t].data)) else None
  }

  ghost predicate CacheTold(s: State, run: seq<Event>)
    requires ValidRun(s, run)
  {
    forall id :: Lookup(After(s, run).cache, id) == CachedAfter(s, run, id)
  }

  lemma UnderscoredIs(id: string)
    ensures Underscored(id) == seq(|id|, i requires 0 <= i < |id| => if id[i] == '.' then '_' else id[i])
  {
  }

  lemma AtHandIs(s: State, run: seq<Event>, id: string)
    requires ValidRun(s, run) && s.tasks == map[] && CacheTold(s, run)
    ensures var n := After(s, run);
            AtHand(s, run, id) == if id in n.cache then Some(n.cache[id]) else FromFiles(n, id)
    ensures InRecord(s, run, id) == FromAgent(After(s, run), id)
  {
    assert Lookup(After(s, run).cache, id) == CachedAfter(s, run, id);
    CharacterIsLastSaved(s, run, id);
    CharacterIsLastSaved(s, run, Underscored(id));
    UnderscoredIs(id);
    AgentIsLastSaved(s, run, id);
  }

  /** An update goes on to write exactly if it had found a record when it began. */
  lemma UpdateWrites(s: State, run: seq<Event>, t: nat)
    requires ValidRun(s, run) && s.tasks == map[] && t in After(s, run).tasks && After(s, run).tasks[t].Updating?
    ensures ToSave(After(s, run).tasks[t]).Some? <==> Rewritten(s, run, t).Some?
  {
    UpdateIsSnapshot(s, run, t);
  }

  lemma TaskStep(s: State, run: seq<Event>, t: nat)
    requires ValidRun(s, run) && run != [] && s.tasks == map[]
    requires TasksTold(s, run[..|run| - 1]) && CacheTold(s, run[..|run| - 1])
    ensures Waiting(After(s, run), t) == AwaitOf(s, run, t) && Reader(After(s, run), t) == ReadOf(s, run, t)
  {
    var init, e := run[..|run| - 1], run[|run| - 1];
    assert Waiting(After(s, init), t) == AwaitOf(s, init, t) && Reader(After(s, init), t) == ReadOf(s, init, t);
    if e.CharacterRead? {
      AtHandIs(s, init, e.id);
    } else if e.UpdateFound? && e.task == t {
      UpdateWrites(s, init, t);
    }
  }

  lemma CountStep(s: State, run: seq<Event>)
    requires ValidRun(s, run) && run != [] && s.tasks == map[]
    requires TasksTold(s, run[..|run| - 1]) && CacheTold(s, run[..|run| - 1])
    ensures After(s, run).nextTask == Begun(s, run) && forall t <- After(s, run).tasks :: t < After(s, run).nextTask
  {
    if run[|run| - 1].CharacterRead? { AtHandIs(s, run[..|run| - 1], run[|run| - 1].id); }
  }

  lemma CacheStep(s: State, run: seq<Event>, id: string)
    requires ValidRun(s, run) && run != [] && s.tasks == map[]
    requires TasksTold(s, run[..|run| - 1]) && CacheTold(s, run[..|run| - 1])
    ensures Lookup(After(s, run).cache, id) == CachedAfter(s, run, id)
  {
    var init, e := run[..|run| - 1], run[|run| - 1];
    assert Lookup(After(s, init).cache, id) == CachedAfter(s, init, id);
    if e.CharacterRead? {
      AtHandIs(s, init, e.id);
    } else if e.ReadEnded? {
      assert Reader(After(s, init), e.task) == ReadOf(s, init, e.task);
    }
  }

  lemma {:induction false} ToldAlways(s: State, run: seq<Event>)
    requires ValidRun(s, run) && s.tasks == map[] && s.cache == map[]
    ensures TasksTold(s, run) && CacheTold(s, run)
  {
    if run != [] {
      ToldAlways(s, run[..|run| - 1]);
      forall t: nat ensures Waiting(After(s, run), t) == AwaitOf(s, run, t) && Reader(After(s, run), t) == ReadOf(s, run, t) {
        TaskStep(s, run, t);
      }
      CountStep(s, run);
      forall id ensures Lookup(After(s, run).cache, id) == CachedAfter(s, run, id) { CacheStep(s, run, id); }
    }
  }

  /**
   * In every run from the start of a process, which finds the files and an empty cache: a read answers what was saved or read
   * last in this process, or else the file of the character, the file with underscores, or the record of the agent, as they
   * were written last.
   */
  lemma ReadAnswersLastWritten(agents: map<string, AgentInfo>, connections: Connections, characters: map<string, string>,
                               run: seq<Event>, id: string)
    requires ValidRun(Started(agents, connections, characters), run)
    ensures var s := Started(agents, connections, characters);
            Get(After(s, run), id) == if AtHand(s, run, id).Some? then AtHand(s, run, id) else InRecord(s, run, id)
  {
    var s := Started(agents, connections, characters);
    ToldAlways(s, run);
    AtHandIs(s, run, id);
  }

  /** In every run from the start of a process the operations at an await are those that have begun and not ended, and a read is
      at one exactly if nothing was at hand when it began. */
  lemma AwaitsAreBegun(agents: map<string, AgentInfo>, connections: Connections, characters: map<string, string>,
                       run: seq<Event>, t: nat, id: string)
    requires ValidRun(Started(agents, connections, characters), run)
    ensures var s := Started(agents, connections, characters);
            var n := After(s, run);
            && Waiting(n, t) == AwaitOf(s, run, t) && Reader(n, t) == ReadOf(s, run, t)
            && (Suspends(n, id) <==> AtHand(s, run, id).None?)
  {
    var s := Started(agents, connections, characters);
    ToldAlways(s, run);
    AtHandIs(s, run, id);
  }
}
