/**
 * The registry readers of agent-framework/src/services/registryService.ts: a topic holds every registration of every
 * character, and two readers look for the latest ones.
 */
module Registry {
  import opened Common

  /** A registration message; timestamp is None when its registrationTimestamp is not a number. */
  datatype Entry = Entry(id: string, timestamp: Option<int>, name: string)

  /** Ignored stands for text that is not JSON and for any other JSON. */
  datatype Message = Ignored | Registration(entry: Entry)

  // ---------------------------------------------------------------- one character

  datatype Best = Best(found: Option<Entry>, latest: int)

  function Consider(best: Best, m: Message, id: string): Best {
    if m.Registration? && m.entry.id == id && m.entry.timestamp.Some? && m.entry.timestamp.value > best.latest
    then Best(Some(m.entry), m.entry.timestamp.value) else best
  }

  function BestOf(messages: seq<Message>, id: string): Best {
    if messages == [] then Best(None, 0)
    else Consider(BestOf(messages[..|messages| - 1], id), messages[|messages| - 1], id)
  }

  /** fetched is None when the topic could not be read. */
  method GetCharacterFromRegistry(fetched: Option<seq<Message>>, characterId: string) returns (r: Result<Option<Entry>>)
    ensures r.Failure? <==> fetched.None?
    ensures fetched.Some? ==> r == Success(BestOf(fetched.value, characterId).found)
  {
    if fetched.None? {
      return Failure("Failed to get character from registry");
    }
    var messages := fetched.value;
    var characterData, latestTimestamp: int := None, 0;
    for i := 0 to |messages|
      invariant Best(characterData, latestTimestamp) == BestOf(messages[..i], characterId)
    {
      assert messages[..i + 1][..i] == messages[..i];
      match messages[i]
      case Ignored =>
      case Registration(data) =>
        if data.id == characterId {
          if data.timestamp.Some? && data.timestamp.value > latestTimestamp {
            characterData, latestTimestamp := Some(data), data.timestamp.value;
          }
        }
    }
    assert messages[..|messages|] == messages;
    return Success(characterData);
  }

  // ---------------------------------------------------------------- all characters

  /** characterMap, in the order in which its keys were first set. */
  function Position(entries: seq<Entry>, id: string): (k: nat)
    ensures k <= |entries| && (k < |entries| ==> entries[k].id == id) && forall j :: 0 <= j < k ==> entries[j].id != id
  {
    if entries == [] then 0 else if entries[0].id == id then 0 else 1 + Position(entries[1..], id)
  }

  /** A comparison with what is not a number is false. */
  predicate Newer(a: Entry, b: Entry) {
    a.timestamp.Some? && b.timestamp.Some? && a.timestamp.value < b.timestamp.value
  }

  function Put(entries: seq<Entry>, m: Message): seq<Entry> {
    if m.Ignored? || m.entry.id == "" then entries
    else
      var k := Position(entries, m.entry.id);
      if k == |entries| then entries + [m.entry]
      else if Newer(entries[k], m.entry) then entries[k := m.entry] else entries
  }

  function AllOf(messages: seq<Message>): seq<Entry> {
    if messages == [] then [] else Put(AllOf(messages[..|messages| - 1]), messages[|messages| - 1])
  }

  method GetAllCharactersFromRegistry(fetched: Option<seq<Message>>) returns (r: seq<Entry>)
    ensures r == if fetched.Some? then AllOf(fetched.value) else []
  {
    if fetched.None? {
      return [];
    }
    var messages := fetched.value;
    var characterMap: seq<Entry> := [];
    for i := 0 to |messages|
      invariant characterMap == AllOf(messages[..i])
    {
      assert messages[..i + 1][..i] == messages[..i];
      match messages[i]
      case Ignored =>
      case Registration(data) =>
        if data.id != "" {
          var k := Position(characterMap, data.id);
          if k == |characterMap| {
            characterMap := characterMap + [data];
          } else if Newer(characterMap[k], data) {
            characterMap := characterMap[k := data];
          }
        }
    }
    assert messages[..|messages|] == messages;
    return characterMap;
  }

  function Lookup(entries: seq<Entry>, id: string): Option<Entry> {
    var k := Position(entries, id);
    if k < |entries| then Some(entries[k]) else None
  }

  /** What the reader of all characters has for one of them. */
  function Listed(messages: seq<Message>, id: string): Option<Entry> {
    Lookup(AllOf(messages), id)
  }

  // ---------------------------------------------------------------- registering

  /** The message of a registration. The character's own fields, whose names the reader looks at too, come after the type
      and the id but before the time. */
  function Registered(characterId: string, name: string, custom: map<string, string>, now: int): Message {
    var kind := if "type" in custom then custom["type"] else "agent_registration";
    var id := if "characterId" in custom then custom["characterId"] else characterId;
    if kind == "agent_registration" || kind == "character_registration" then Registration(Entry(id, Some(now), name)) else Ignored
  }

  // ---------------------------------------------------------------- what the readers find

  /** Message k is a registration of the character with a time, above a bound if there is one. */
  predicate Dated(messages: seq<Message>, id: string, k: nat, above: Option<int>) {
    && k < |messages| && messages[k].Registration? && messages[k].entry.id == id && messages[k].entry.timestamp.Some?
    && (above.Some? ==> messages[k].entry.timestamp.value > above.value)
  }

  /** Message k has the greatest time of the registrations of the character, the earliest of those that have it. */
  ghost predicate IsLatest(messages: seq<Message>, id: string, k: nat, above: Option<int>) {
    && Dated(messages, id, k, above)
    && (forall j: nat :: Dated(messages, id, j, above) ==>
          messages[j].entry.timestamp.value <= messages[k].entry.timestamp.value
          && (j < k ==> messages[j].entry.timestamp.value < messages[k].entry.timestamp.value))
  }

  ghost predicate FindsLatest(found: Option<Entry>, messages: seq<Message>, id: string, above: Option<int>) {
    match found
    case Some(e) => exists k: nat :: IsLatest(messages, id, k, above) && messages[k].entry == e
    case None => forall j: nat :: !Dated(messages, id, j, above)
  }

  lemma LatestStays(init: seq<Message>, m: Message, id: string, above: Option<int>, k: nat)
    requires IsLatest(init, id, k, above)
    ensures Dated(init + [m], id, |init|, above) && m.entry.timestamp.value > init[k].entry.timestamp.value ==>
              IsLatest(init + [m], id, |init|, above)
    ensures !(Dated(init + [m], id, |init|, above) && m.entry.timestamp.value > init[k].entry.timestamp.value) ==>
              IsLatest(init + [m], id, k, above)
  {
  }

  lemma FirstDated(init: seq<Message>, m: Message, id: string, above: Option<int>)
    requires forall j: nat :: !Dated(init, id, j, above)
    ensures if Dated(init + [m], id, |init|, above) then IsLatest(init + [m], id, |init|, above)
            else forall j: nat :: !Dated(init + [m], id, j, above)
  {
    var all := init + [m];
    forall j: nat ensures Dated(all, id, j, above) ==> j == |init| {
      if j < |init| { assert Dated(all, id, j, above) == Dated(init, id, j, above); }
    }
  }

  /** The reader of one character finds its registration with the greatest positive time, the earliest of several. */
  lemma {:induction false} BestIsLatest(messages: seq<Message>, id: string)
    ensures var b := BestOf(messages, id);
            && FindsLatest(b.found, messages, id, Some(0))
            && b.latest == (if b.found.Some? && b.found.value.timestamp.Some? then b.found.value.timestamp.value else 0)
  {
    if messages != [] {
      var init, m := messages[..|messages| - 1], messages[|messages| - 1];
      assert messages == init + [m];
      BestIsLatest(init, id);
      var b := BestOf(init, id);
      if b.found.Some? {
        var k: nat :| IsLatest(init, id, k, Some(0)) && init[k].entry == b.found.value;
        LatestStays(init, m, id, Some(0), k);
      } else {
        FirstDated(init, m, id, Some(0));
      }
    }
  }

  // ---------------------------------------------------------------- what the reader of all characters has

  predicate IsOf(m: Message, id: string) {
    m.Registration? && m.entry.id == id
  }

  /** The first registration of a character, or the number of messages. */
  function FirstOf(messages: seq<Message>, id: string): (k: nat)
    ensures k <= |messages| && (k < |messages| ==> IsOf(messages[k], id)) && forall j :: 0 <= j < k ==> !IsOf(messages[j], id)
  {
    if messages == [] then 0 else if IsOf(messages[0], id) then 0 else 1 + FirstOf(messages[1..], id)
  }

  lemma PositionIs(entries: seq<Entry>, id: string, k: nat)
    requires k <= |entries| && (k < |entries| ==> entries[k].id == id) && forall j :: 0 <= j < k ==> entries[j].id != id
    ensures Position(entries, id) == k
  {
  }

  /** The entry of a character after one more message. */
  function Updated(current: Option<Entry>, m: Message, id: string): Option<Entry> {
    if !IsOf(m, id) then current
    else if current.None? || Newer(current.value, m.entry) then Some(m.entry)
    else current
  }

  lemma PutLookup(entries: seq<Entry>, m: Message, id: string)
    requires id != ""
    ensures Lookup(Put(entries, m), id) == Updated(Lookup(entries, id), m, id)
  {
    var k, n := Position(entries, id), Put(entries, m);
    if m.Registration? && m.entry.id != "" {
      PositionIs(n, id, if k == |entries| && m.entry.id != id then |n| else k);
    }
  }

  ghost predicate ListsFirstOrLatest(listed: Option<Entry>, messages: seq<Message>, id: string) {
    var f := FirstOf(messages, id);
    if f == |messages| then listed == None
    else if messages[f].entry.timestamp.None? then listed == Some(messages[f].entry)
    else listed.Some? && FindsLatest(listed, messages, id, None)
  }

  lemma FirstIs(messages: seq<Message>, id: string, k: nat)
    requires k <= |messages| && (k < |messages| ==> IsOf(messages[k], id)) && forall j :: 0 <= j < k ==> !IsOf(messages[j], id)
    ensures FirstOf(messages, id) == k
  {
  }

  lemma FirstOfMore(init: seq<Message>, m: Message, id: string)
    ensures var f := FirstOf(init, id);
            FirstOf(init + [m], id) == if f < |init| then f else if IsOf(m, id) then |init| else |init| + 1
  {
    var f, all := FirstOf(init, id), init + [m];
    FirstIs(all, id, if f < |init| then f else if IsOf(m, id) then |init| else |init| + 1);
  }

  lemma ListedStep(init: seq<Message>, m: Message, id: string, listed: Option<Entry>)
    requires ListsFirstOrLatest(listed, init, id)
    ensures ListsFirstOrLatest(Updated(listed, m, id), init + [m], id)
  {
    FirstOfMore(init, m, id);
    var f := FirstOf(init, id);
    if f == |init| {
      if IsOf(m, id) && m.entry.timestamp.Some? {
        assert forall j: nat :: Dated(init, id, j, None) ==> IsOf(init[j], id);
        FirstDated(init, m, id, None);
      }
    } else if init[f].entry.timestamp.Some? {
      var k: nat :| IsLatest(init, id, k, None) && init[k].entry == listed.value;
      LatestStays(init, m, id, None, k);
    }
  }

  /** The reader of all characters keeps the registration with the greatest time, the earliest of several, unless the first
      one has no time: then it keeps that one whatever follows. */
  lemma {:induction false} ListedIsFirstOrLatest(messages: seq<Message>, id: string)
    requires id != ""
    ensures ListsFirstOrLatest(Listed(messages, id), messages, id)
  {
    if messages != [] {
      var init, m := messages[..|messages| - 1], messages[|messages| - 1];
      assert messages == init + [m];
      ListedIsFirstOrLatest(init, id);
      ListedStep(init, m, id, Listed(init, id));
      PutLookup(AllOf(init), m, id);
    }
  }

  lemma {:induction false} NamelessNotListed(messages: seq<Message>)
    ensures forall e <- AllOf(messages) :: e.id != ""
  {
    if messages != [] { NamelessNotListed(messages[..|messages| - 1]); }
  }

  predicate InOrder(messages: seq<Message>, entries: seq<Entry>) {
    && (forall i :: 0 <= i < |entries| ==> FirstOf(messages, entries[i].id) < |messages|)
    && (forall i, j :: 0 <= i < j < |entries| ==> FirstOf(messages, entries[i].id) < FirstOf(messages, entries[j].id))
  }

  lemma OrderStays(init: seq<Message>, m: Message, entries: seq<Entry>)
    requires InOrder(init, entries)
    ensures InOrder(init + [m], entries)
  {
    forall i | 0 <= i < |entries| ensures FirstOf(init + [m], entries[i].id) == FirstOf(init, entries[i].id) {
      FirstOfMore(init, m, entries[i].id);
    }
  }

  lemma OrderById(messages: seq<Message>, a: seq<Entry>, b: seq<Entry>)
    requires InOrder(messages, a) && |a| == |b| && forall i :: 0 <= i < |a| ==> a[i].id == b[i].id
    ensures InOrder(messages, b)
  {
  }

  lemma OrderAtEnd(messages: seq<Message>, entries: seq<Entry>, last: Entry, n: nat)
    requires InOrder(messages, entries) && FirstOf(messages, last.id) == n < |messages|
    requires forall i :: 0 <= i < |entries| ==> FirstOf(messages, entries[i].id) < n
    ensures InOrder(messages, entries + [last])
  {
    var all := entries + [last];
    forall i, j | 0 <= i < j < |all| ensures FirstOf(messages, all[i].id) < FirstOf(messages, all[j].id) {
      assert all[i] == entries[i];
      if j < |entries| { assert all[j] == entries[j]; } else { assert all[j] == last; }
    }
  }

  lemma OrderAppended(init: seq<Message>, m: Message, entries: seq<Entry>)
    requires InOrder(init, entries) && m.Registration? && FirstOf(init, m.entry.id) == |init|
    ensures InOrder(init + [m], entries + [m.entry])
  {
    OrderStays(init, m, entries);
    FirstOfMore(init, m, m.entry.id);
    forall i | 0 <= i < |entries| ensures FirstOf(init + [m], entries[i].id) < |init| {
      FirstOfMore(init, m, entries[i].id);
    }
    OrderAtEnd(init + [m], entries, m.entry, |init|);
  }

  lemma OrderOfPut(init: seq<Message>, m: Message, entries: seq<Entry>)
    requires InOrder(init, entries)
    requires m.Registration? && m.entry.id != "" && Position(entries, m.entry.id) == |entries| ==> FirstOf(init, m.entry.id) == |init|
    ensures InOrder(init + [m], Put(entries, m))
  {
    if m.Registration? && m.entry.id != "" && Position(entries, m.entry.id) == |entries| {
      OrderAppended(init, m, entries);
    } else {
      OrderStays(init, m, entries);
      OrderById(init + [m], entries, Put(entries, m));
    }
  }

  /** Every character is listed once, in the order of the first registrations. */
  lemma {:induction false} ListedInOrder(messages: seq<Message>)
    ensures InOrder(messages, AllOf(messages))
  {
    if messages != [] {
      var init, m := messages[..|messages| - 1], messages[|messages| - 1];
      assert messages == init + [m];
      ListedInOrder(init);
      if m.Registration? && m.entry.id != "" { ListedIsFirstOrLatest(init, m.entry.id); }
      OrderOfPut(init, m, AllOf(init));
    }
  }

  // ---------------------------------------------------------------- when the readers agree

  lemma SameLatest(messages: seq<Message>, id: string, k: nat, n: nat)
    requires IsLatest(messages, id, k, Some(0)) && IsLatest(messages, id, n, None)
    ensures k == n
  {
  }

  ghost predicate HasPositive(messages: seq<Message>, id: string) {
    exists j: nat :: Dated(messages, id, j, Some(0))
  }

  lemma DatedAgree(messages: seq<Message>, id: string)
    requires id != "" && FirstOf(messages, id) < |messages| && messages[FirstOf(messages, id)].entry.timestamp.Some?
    ensures BestOf(messages, id).found == Listed(messages, id) <==> HasPositive(messages, id)
  {
    BestIsLatest(messages, id);
    ListedIsFirstOrLatest(messages, id);
    if HasPositive(messages, id) {
      var k: nat :| IsLatest(messages, id, k, Some(0)) && messages[k].entry == BestOf(messages, id).found.value;
      var n: nat :| IsLatest(messages, id, n, None) && messages[n].entry == Listed(messages, id).value;
      SameLatest(messages, id, k, n);
    }
  }

  /** The two readers agree on a character exactly if it has no registration, or its first one has a time and one of them a
      positive time; on the empty id, which only one of them ignores, exactly if it has no positive time. */
  lemma ReadersAgreeIff(messages: seq<Message>, id: string)
    ensures BestOf(messages, id).found == Listed(messages, id) <==>
              if id == "" then !HasPositive(messages, id)
              else var f := FirstOf(messages, id);
                   f == |messages| || (messages[f].entry.timestamp.Some? && HasPositive(messages, id))
  {
    BestIsLatest(messages, id);
    if id == "" {
      NamelessNotListed(messages);
    } else {
      var f := FirstOf(messages, id);
      ListedIsFirstOrLatest(messages, id);
      if f == |messages| {
        forall j: nat ensures !Dated(messages, id, j, Some(0)) {
          assert j < |messages| ==> !IsOf(messages[j], id);
        }
      } else if messages[f].entry.timestamp.Some? {
        DatedAgree(messages, id);
      } else if BestOf(messages, id).found.Some? {
        var k: nat :| IsLatest(messages, id, k, Some(0)) && messages[k].entry == BestOf(messages, id).found.value;
      }
    }
  }

  /** In particular on every character of a log whose registrations have ids and positive times. */
  lemma ReadersAgreeOnProperLogs(messages: seq<Message>, id: string)
    requires forall m <- messages :: m.Registration? ==> m.entry.id != "" && m.entry.timestamp.Some? && m.entry.timestamp.value > 0
    ensures BestOf(messages, id).found == Listed(messages, id)
  {
    ReadersAgreeIff(messages, id);
    var f := FirstOf(messages, id);
    if id == "" {
      forall j: nat ensures !Dated(messages, id, j, Some(0)) {
        assert j < |messages| ==> messages[j] in messages;
      }
    } else if f < |messages| {
      assert messages[f] in messages;
      assert Dated(messages, id, f, Some(0));
    }
  }

  // ---------------------------------------------------------------- order and time

  /** Registrations of a character with one time are the same. */
  ghost predicate DistinctTimes(messages: seq<Message>, id: string) {
    forall i: nat, j: nat ::
      (Dated(messages, id, i, Some(0)) && Dated(messages, id, j, Some(0))
       && messages[i].entry.timestamp == messages[j].entry.timestamp) ==> messages[i].entry == messages[j].entry
  }

  lemma Elsewhere(a: seq<Message>, b: seq<Message>, id: string, i: nat) returns (j: nat)
    requires multiset(a) == multiset(b) && Dated(a, id, i, Some(0))
    ensures Dated(b, id, j, Some(0)) && b[j] == a[i]
  {
    assert a[i] in multiset(a);
    assert a[i] in multiset(b);
    assert a[i] in b;
    j :| 0 <= j < |b| && b[j] == a[i];
  }

  /** What one order of the messages finds is as late as anything another order has. */
  lemma NotEarlier(a: seq<Message>, b: seq<Message>, id: string, i: nat, j: nat)
    requires multiset(a) == multiset(b) && IsLatest(a, id, i, Some(0)) && IsLatest(b, id, j, Some(0))
    ensures b[j].entry.timestamp.value <= a[i].entry.timestamp.value
  {
    var k := Elsewhere(b, a, id, j);
  }

  lemma FoundElsewhere(a: seq<Message>, b: seq<Message>, id: string)
    requires multiset(a) == multiset(b) && BestOf(a, id).found.Some?
    ensures BestOf(b, id).found.Some?
  {
    BestIsLatest(a, id);
    BestIsLatest(b, id);
    var i: nat :| IsLatest(a, id, i, Some(0)) && a[i].entry == BestOf(a, id).found.value;
    var j := Elsewhere(a, b, id, i);
  }

  lemma SameFound(a: seq<Message>, b: seq<Message>, id: string)
    requires multiset(a) == multiset(b) && DistinctTimes(a, id) && BestOf(a, id).found.Some? && BestOf(b, id).found.Some?
    ensures BestOf(a, id).found == BestOf(b, id).found
  {
    BestIsLatest(a, id);
    BestIsLatest(b, id);
    var i: nat :| IsLatest(a, id, i, Some(0)) && a[i].entry == BestOf(a, id).found.value;
    var j: nat :| IsLatest(b, id, j, Some(0)) && b[j].entry == BestOf(b, id).found.value;
    NotEarlier(a, b, id, i, j);
    NotEarlier(b, a, id, j, i);
    var k := Elsewhere(b, a, id, j);
    assert a[k].entry.timestamp == a[i].entry.timestamp;
  }

  /** If the times of a character are distinct, the order of the messages does not matter. */
  lemma OrderDoesNotMatter(a: seq<Message>, b: seq<Message>, id: string)
    requires multiset(a) == multiset(b) && DistinctTimes(a, id)
    ensures BestOf(a, id).found == BestOf(b, id).found
  {
    if BestOf(a, id).found.Some? {
      FoundElsewhere(a, b, id);
      SameFound(a, b, id);
    } else if BestOf(b, id).found.Some? {
      FoundElsewhere(b, a, id);
    }
  }

  /**
   * A new registration is found exactly if every earlier one has a smaller time. One made in the same millisecond as an
   * earlier one is not, and one whose own fields change its type or id does not concern the character at all.
   */
  lemma RegistrationFoundIff(messages: seq<Message>, id: string, name: string, custom: map<string, string>, now: int)
    requires now > 0 && Registration(Entry(id, Some(now), name)) !in messages
    ensures var m := Registered(id, name, custom, now);
            BestOf(messages + [m], id).found == Some(Entry(id, Some(now), name)) <==>
              ("type" in custom ==> custom["type"] == "agent_registration" || custom["type"] == "character_registration")
              && ("characterId" in custom ==> custom["characterId"] == id)
              && forall j: nat :: Dated(messages, id, j, Some(0)) ==> messages[j].entry.timestamp.value < now
  {
    var m := Registered(id, name, custom, now);
    assert (messages + [m])[..|messages|] == messages;
    BestIsLatest(messages, id);
    var b := BestOf(messages, id);
    if b.found.Some? {
      var k: nat :| IsLatest(messages, id, k, Some(0)) && messages[k].entry == b.found.value;
      assert messages[k] in messages && messages[k] == Registration(b.found.value);
    }
  }
}
