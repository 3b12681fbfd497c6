/**
 * The event handlers of graph-indexer/src/franky.ts over a store of users, devices and agents. Saving an entity that
 * exists merges the fields that were set into it.
 */
module Indexer {
  import opened Common

  datatype Wallet = Wallet(serverWalletAddress: string, encryptedPrivateKey: string, privateKeyHash: string)

  datatype User = User(wallet: Option<Wallet>, createdAt: int, updatedAt: int)

  datatype Device = Device(owner: string, deviceMetadata: string, hostingFee: int, createdAt: int, updatedAt: int)

  /** What AgentCreated says of an agent besides its device and owner. */
  datatype Profile = Profile(tokenId: int, subdomain: string, perApiCallFee: int, characterConfig: string, isPublic: bool)

  datatype Agent = Agent(deviceAddress: string, owner: string, profile: Profile, keyHash: Option<string>, createdAt: int, updatedAt: int)

  datatype Event =
    | AgentCreated(agentAddress: string, deviceAddress: string, owner: string, profile: Profile, timestamp: int)
    | ApiKeyRegenerated(agentAddress: string, keyHash: string, timestamp: int)
    | DeviceRegistered(owner: string, deviceAddress: string, deviceMetadata: string, hostingFee: int, timestamp: int)
    | ServerWalletConfigured(walletAddress: string, wallet: Wallet, timestamp: int)
    | FrankyAgentsNftCreated(timestamp: int)

  datatype Store = Store(users: map<string, User>, devices: map<string, Device>, agents: map<string, Agent>)

  const EMPTY := Store(map[], map[], map[])

  // ---------------------------------------------------------------- one event

  function NextUsers(s: Store, e: Event): map<string, User> {
    match e
    case DeviceRegistered(owner, _, _, _, time) =>
      if owner in s.users then s.users else s.users[owner := User(None, time, time)]
    case ServerWalletConfigured(id, wallet, time) =>
      s.users[id := User(Some(wallet), if id in s.users then s.users[id].createdAt else time, time)]
    case _ => s.users
  }

  function NextDevices(s: Store, e: Event): map<string, Device> {
    match e
    case DeviceRegistered(owner, id, metadata, fee, time) => s.devices[id := Device(owner, metadata, fee, time, time)]
    case _ => s.devices
  }

  function NextAgents(s: Store, e: Event): map<string, Agent> {
    match e
    case AgentCreated(id, device, owner, profile, time) =>
      if device in s.devices && owner in s.users
      then s.agents[id := Agent(device, owner, profile, if id in s.agents then s.agents[id].keyHash else None, time, time)]
      else s.agents
    case ApiKeyRegenerated(id, keyHash, time) =>
      if id in s.agents then s.agents[id := s.agents[id].(keyHash := Some(keyHash), updatedAt := time)] else s.agents
    case _ => s.agents
  }

  function Next(s: Store, e: Event): Store {
    Store(NextUsers(s, e), NextDevices(s, e), NextAgents(s, e))
  }

  function After(history: seq<Event>): Store {
    if history == [] then EMPTY else Next(After(history[..|history| - 1]), history[|history| - 1])
  }

  class Subgraph {
    var users: map<string, User>
    var devices: map<string, Device>
    var agents: map<string, Agent>

    function View(): Store
      reads this
    {
      Store(users, devices, agents)
    }

    constructor ()
      ensures View() == EMPTY
    {
      users, devices, agents := map[], map[], map[];
    }

    method HandleAgentCreated(e: Event)
      requires e.AgentCreated?
      modifies this
      ensures View() == Next(old(View()), e)
    {
      if e.deviceAddress in devices && e.owner in users {
        var keyHash := if e.agentAddress in agents then agents[e.agentAddress].keyHash else None;
        agents := agents[e.agentAddress := Agent(e.deviceAddress, e.owner, e.profile, keyHash, e.timestamp, e.timestamp)];
      }
    }

    method HandleApiKeyRegenerated(e: Event)
      requires e.ApiKeyRegenerated?
      modifies this
      ensures View() == Next(old(View()), e)
    {
      if e.agentAddress in agents {
        var agent := agents[e.agentAddress];
        agent := agent.(keyHash := Some(e.keyHash));
        agent := agent.(updatedAt := e.timestamp);
        agents := agents[e.agentAddress := agent];
      }
    }

    method HandleDeviceRegistered(e: Event)
      requires e.DeviceRegistered?
      modifies this
      ensures View() == Next(old(View()), e)
    {
      if e.owner !in users {
        users := users[e.owner := User(None, e.timestamp, e.timestamp)];
      }
      devices := devices[e.deviceAddress := Device(e.owner, e.deviceMetadata, e.hostingFee, e.timestamp, e.timestamp)];
    }

    method HandleServerWalletConfigured(e: Event)
      requires e.ServerWalletConfigured?
      modifies this
      ensures View() == Next(old(View()), e)
    {
      var user := User(None, e.timestamp, e.timestamp);
      if e.walletAddress in users {
        user := users[e.walletAddress];
      }
      user := user.(wallet := Some(e.wallet), updatedAt := e.timestamp);
      users := users[e.walletAddress := user];
    }

    method HandleFrankyAgentsNftCreated(e: Event)
      requires e.FrankyAgentsNftCreated?
      ensures View() == Next(old(View()), e)
    {
    }
  }

  // ---------------------------------------------------------------- what is stored

  predicate CreatesUser(e: Event, id: string) {
    (e.DeviceRegistered? && e.owner == id) || (e.ServerWalletConfigured? && e.walletAddress == id)
  }

  predicate CreatesDevice(e: Event, id: string) {
    e.DeviceRegistered? && e.deviceAddress == id
  }

  /** The user of an address was created by one of the first n events. */
  predicate UserBefore(history: seq<Event>, n: nat, id: string) {
    exists i :: 0 <= i < n && i < |history| && CreatesUser(history[i], id)
  }

  predicate DeviceBefore(history: seq<Event>, n: nat, id: string) {
    exists i :: 0 <= i < n && i < |history| && CreatesDevice(history[i], id)
  }

  /** Event i creates the agent, and its device and its owner's user were created before. */
  predicate Supported(history: seq<Event>, i: nat, id: string) {
    && i < |history| && history[i].AgentCreated? && history[i].agentAddress == id
    && DeviceBefore(history, i, history[i].deviceAddress) && UserBefore(history, i, history[i].owner)
  }

  lemma BeforeMore(init: seq<Event>, e: Event, n: nat, id: string)
    requires n <= |init| + 1
    ensures UserBefore(init + [e], n, id) <==> UserBefore(init, n, id) || (n == |init| + 1 && CreatesUser(e, id))
    ensures DeviceBefore(init + [e], n, id) <==> DeviceBefore(init, n, id) || (n == |init| + 1 && CreatesDevice(e, id))
  {
    var all := init + [e];
    assert forall i :: 0 <= i < |init| ==> all[i] == init[i];
    assert all[|init|] == e;
    if UserBefore(init, n, id) {
      var i :| 0 <= i < n && i < |init| && CreatesUser(init[i], id);
      assert CreatesUser(all[i], id);
    }
    if DeviceBefore(init, n, id) {
      var i :| 0 <= i < n && i < |init| && CreatesDevice(init[i], id);
      assert CreatesDevice(all[i], id);
    }
  }

  /** Users and devices are stored exactly when an event created them. */
  lemma {:induction false} StoredIff(history: seq<Event>, id: string)
    ensures id in After(history).users <==> UserBefore(history, |history|, id)
    ensures id in After(history).devices <==> DeviceBefore(history, |history|, id)
  {
    if history != [] {
      var init, e := history[..|history| - 1], history[|history| - 1];
      assert history == init + [e];
      StoredIff(init, id);
      BeforeMore(init, e, |history|, id);
      BeforeAll(init, |history|, id);
    }
  }

  lemma BeforeAll(history: seq<Event>, n: nat, id: string)
    requires n >= |history|
    ensures UserBefore(history, n, id) <==> UserBefore(history, |history|, id)
    ensures DeviceBefore(history, n, id) <==> DeviceBefore(history, |history|, id)
  {
  }

  ghost predicate SomeSupported(history: seq<Event>, id: string) {
    exists i: nat :: Supported(history, i, id)
  }

  lemma SupportedMore(init: seq<Event>, e: Event, i: nat, id: string)
    requires i < |init|
    ensures Supported(init + [e], i, id) <==> Supported(init, i, id)
  {
    assert (init + [e])[i] == init[i];
    if init[i].AgentCreated? {
      BeforeMore(init, e, i, init[i].deviceAddress);
      BeforeMore(init, e, i, init[i].owner);
    }
  }

  lemma SupportedLast(init: seq<Event>, e: Event, id: string)
    ensures Supported(init + [e], |init|, id) <==>
              e.AgentCreated? && e.agentAddress == id && e.deviceAddress in After(init).devices && e.owner in After(init).users
  {
    assert (init + [e])[|init|] == e;
    if e.AgentCreated? {
      BeforeMore(init, e, |init|, e.deviceAddress);
      BeforeMore(init, e, |init|, e.owner);
      StoredIff(init, e.deviceAddress);
      StoredIff(init, e.owner);
    }
  }

  /** An agent is stored exactly when some AgentCreated for it came after its device and its owner's user were created. */
  lemma {:induction false} AgentStoredIff(history: seq<Event>, id: string)
    ensures id in After(history).agents <==> SomeSupported(history, id)
  {
    if history != [] {
      var init, e := history[..|history| - 1], history[|history| - 1];
      assert history == init + [e];
      AgentStoredIff(init, id);
      SupportedLast(init, e, id);
      if SomeSupported(init, id) {
        var i: nat :| Supported(init, i, id);
        SupportedMore(init, e, i, id);
      }
      if SomeSupported(history, id) {
        var i: nat :| Supported(history, i, id);
        if i < |init| { SupportedMore(init, e, i, id); }
      }
    }
  }

  // ---------------------------------------------------------------- references and times

  ghost predicate Resolves(s: Store) {
    && (forall id <- s.devices :: s.devices[id].owner in s.users)
    && (forall id <- s.agents :: s.agents[id].deviceAddress in s.devices && s.agents[id].owner in s.users)
  }

  lemma ResolvesStep(s: Store, e: Event)
    requires Resolves(s)
    ensures Resolves(Next(s, e))
  {
  }

  /** Every stored device's owner is stored, and every stored agent's device and owner. */
  lemma {:induction false} ReferencesResolve(history: seq<Event>)
    ensures Resolves(After(history))
  {
    if history != [] {
      ReferencesResolve(history[..|history| - 1]);
      ResolvesStep(After(history[..|history| - 1]), history[|history| - 1]);
    }
  }

  /** The first event that creates the user, or the number of events. */
  function FirstCreation(history: seq<Event>, id: string): (k: nat)
    ensures k <= |history|
  {
    if history == [] then 0
    else
      var k := FirstCreation(history[..|history| - 1], id);
      if k < |history| - 1 || CreatesUser(history[|history| - 1], id) then k else k + 1
  }

  /** A user was created at the time of the first event that mentions it as one, whatever came after. */
  lemma {:induction false} CreatedAtIsFirst(history: seq<Event>, id: string)
    ensures id in After(history).users <==> FirstCreation(history, id) < |history|
    ensures id in After(history).users ==> After(history).users[id].createdAt == history[FirstCreation(history, id)].timestamp
  {
    if history != [] { CreatedAtIsFirst(history[..|history| - 1], id); }
  }

  /** Later events never change when a user was created. */
  lemma {:induction false} CreatedAtNeverChanges(history: seq<Event>, more: seq<Event>, id: string)
    requires id in After(history).users
    ensures id in After(history + more).users
    ensures After(history + more).users[id].createdAt == After(history).users[id].createdAt
  {
    if more == [] {
      assert history + more == history;
    } else {
      CreatedAtNeverChanges(history, more[..|more| - 1], id);
      assert (history + more)[..|history + more| - 1] == history + more[..|more| - 1];
    }
  }

  predicate NonDecreasing(history: seq<Event>) {
    forall i, j :: 0 <= i < j < |history| ==> history[i].timestamp <= history[j].timestamp
  }

  /** No entity was updated before it was created, nor after a given time. */
  ghost predicate TimesInOrder(s: Store, now: int) {
    && (forall id <- s.users :: s.users[id].createdAt <= s.users[id].updatedAt <= now)
    && (forall id <- s.devices :: s.devices[id].createdAt <= s.devices[id].updatedAt <= now)
    && (forall id <- s.agents :: s.agents[id].createdAt <= s.agents[id].updatedAt <= now)
  }

  lemma TimesStep(s: Store, e: Event, now: int)
    requires TimesInOrder(s, now) && now <= e.timestamp
    ensures TimesInOrder(Next(s, e), e.timestamp)
  {
  }

  lemma {:induction false} CreatedBeforeUpdated(history: seq<Event>)
    requires NonDecreasing(history) && history != []
    ensures TimesInOrder(After(history), history[|history| - 1].timestamp)
  {
    var init, e := history[..|history| - 1], history[|history| - 1];
    if init == [] {
      assert After(init) == EMPTY;
      TimesStep(EMPTY, e, e.timestamp);
    } else {
      CreatedBeforeUpdated(init);
      TimesStep(After(init), e, init[|init| - 1].timestamp);
    }
  }

  // ---------------------------------------------------------------- the last word

  /** The device as its last registration describes it. */
  function LastRegistration(history: seq<Event>, id: string): Option<Device> {
    if history == [] then None
    else
      var e := history[|history| - 1];
      if CreatesDevice(e, id) then Some(Device(e.owner, e.deviceMetadata, e.hostingFee, e.timestamp, e.timestamp))
      else LastRegistration(history[..|history| - 1], id)
  }

  function LastWallet(history: seq<Event>, id: string): Option<Wallet> {
    if history == [] then None
    else
      var e := history[|history| - 1];
      if e.ServerWalletConfigured? && e.walletAddress == id then Some(e.wallet) else LastWallet(history[..|history| - 1], id)
  }

  /** The last key generated for the agent after some supported creation. */
  ghost function LastKey(history: seq<Event>, id: string): Option<string> {
    if history == [] then None
    else
      var init, e := history[..|history| - 1], history[|history| - 1];
      if e.ApiKeyRegenerated? && e.agentAddress == id && SomeSupported(init, id) then Some(e.keyHash) else LastKey(init, id)
  }

  /** Devices, wallets and keys are those of the last event about them; creating an agent again keeps its key. */
  lemma {:induction false} LastWriterWins(history: seq<Event>, id: string)
    ensures var s := After(history);
            && (if id in s.devices then LastRegistration(history, id) == Some(s.devices[id]) else LastRegistration(history, id) == None)
            && (if id in s.users then LastWallet(history, id) == s.users[id].wallet else LastWallet(history, id) == None)
            && (if id in s.agents then LastKey(history, id) == s.agents[id].keyHash else LastKey(history, id) == None)
  {
    if history != [] {
      LastWriterWins(history[..|history| - 1], id);
      AgentStoredIff(history[..|history| - 1], id);
    }
  }

  /** The last AgentCreated for the agent that came after its device and its owner's user were created. */
  ghost function LastCreation(history: seq<Event>, id: string): (e: Option<Event>)
    ensures e.Some? ==> e.value.AgentCreated?
  {
    if history == [] then None
    else if Supported(history, |history| - 1, id) then Some(history[|history| - 1])
    else LastCreation(history[..|history| - 1], id)
  }

  /** The time of the last event that wrote the agent: a supported creation, or a key generated after one. */
  ghost function LastAgentTime(history: seq<Event>, id: string): Option<int> {
    if history == [] then None
    else
      var init, e := history[..|history| - 1], history[|history| - 1];
      if Supported(history, |init|, id) || (e.ApiKeyRegenerated? && e.agentAddress == id && SomeSupported(init, id))
      then Some(e.timestamp) else LastAgentTime(init, id)
  }

  /** The time of the last event that wrote the user: one that creates it, or one that sets its wallet. */
  function LastUserTime(history: seq<Event>, id: string): Option<int> {
    if history == [] then None
    else
      var init, e := history[..|history| - 1], history[|history| - 1];
      if (e.ServerWalletConfigured? && e.walletAddress == id) || (e.DeviceRegistered? && e.owner == id && !UserBefore(init, |init|, id))
      then Some(e.timestamp) else LastUserTime(init, id)
  }

  /**
   * After every history a stored agent is what the last supported AgentCreated for it says, field for field, but for its key
   * and its time of update, which is the time of the last event that wrote it.
   */
  lemma {:induction false} AgentIsLastCreated(history: seq<Event>, id: string)
    ensures var agents, c := After(history).agents, LastCreation(history, id);
            if id in agents
            then c.Some? && var e, a := c.value, agents[id];
                 && e.agentAddress == id && a.deviceAddress == e.deviceAddress && a.owner == e.owner && a.profile == e.profile
                 && a.createdAt == e.timestamp && Some(a.updatedAt) == LastAgentTime(history, id)
            else c == None && LastAgentTime(history, id) == None
  {
    if history != [] {
      var init, e := history[..|history| - 1], history[|history| - 1];
      assert history == init + [e];
      AgentIsLastCreated(init, id);
      SupportedLast(init, e, id);
      AgentStoredIff(init, id);
    }
  }

  /** After every history a stored user was updated at the time of the last event that wrote it. */
  lemma {:induction false} UserTimeIsLast(history: seq<Event>, id: string)
    ensures var users := After(history).users;
            LastUserTime(history, id) == if id in users then Some(users[id].updatedAt) else None
  {
    if history != [] {
      UserTimeIsLast(history[..|history| - 1], id);
      StoredIff(history[..|history| - 1], id);
    }
  }
}
