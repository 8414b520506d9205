/**
 * The agent manager. It keeps one agent object per key `${userId}-${agentNumber}` in a
 * JavaScript `Map`, which iterates its keys in insertion order: `keys` is that order and
 * `agents` the entries. Agents are built through the registry and stored only once their
 * `initialize` returned; the configuration database is a `ConfigStore` value, the clock an
 * integer parameter and the process heap size a parameter handed on to the agents.
 */
module Manager {
  import opened Wrappers
  import opened Json
  import opened Protocol
  import opened McpAgent
  import opened Agents
  import Registry
  import Strings
  import SA = SystemArchitecture

  /** `${userId}-${agentNumber}`. */
  function AgentKey(userId: string, agentNumber: int): string {
    userId + "-" + Strings.IntToString(agentNumber)
  }

  /** The prefix `getUserAgents(userId)` looks for. */
  function UserPrefix(userId: string): string {
    userId + "-"
  }

  /** Every key of a user starts with that user's prefix. */
  lemma OwnKeyMatches(userId: string, agentNumber: int)
    ensures UserPrefix(userId) <= AgentKey(userId, agentNumber)
  {
    assert AgentKey(userId, agentNumber) == UserPrefix(userId) + Strings.IntToString(agentNumber);
  }

  /**
   * The prefix test is on the raw key, so the agents of a user whose name extends `userId-`
   * are listed too: user `u` also sees the agents of user `u-x`.
   */
  lemma LongerUserMatches(userId: string, other: string, agentNumber: int)
    requires UserPrefix(userId) <= other
    ensures UserPrefix(userId) <= AgentKey(other, agentNumber)
  {
    var p := UserPrefix(userId);
    var k := AgentKey(other, agentNumber);
    assert k == other + ("-" + Strings.IntToString(agentNumber));
    assert k[..|p|] == other[..|p|];
  }

  /**
   * The `agents` table as `pool.query` answers it: `Unavailable` when the query is rejected,
   * otherwise the `config` column of the row for each user and agent number that has one.
   */
  datatype ConfigStore = Unavailable | Rows(rows: map<(string, int), Value>)

  /**
   * The configuration `initializeAgent` hands to the agent: the given one when it is truthy,
   * otherwise `result.rows[0]?.config || {}`; `None` when that query is rejected.
   */
  function ConfigFor(config: Option<Value>, store: ConfigStore, userId: string, agentNumber: int): (c: Option<Value>)
    ensures c.None? <==> !Truthy(config) && store.Unavailable?
    ensures c.Some? ==> Truthy(c)
    ensures Truthy(config) ==> c == config
    ensures !Truthy(config) && store.Rows? && (userId, agentNumber) in store.rows
              && Truthy(Some(store.rows[(userId, agentNumber)])) ==>
              c == Some(store.rows[(userId, agentNumber)])
    ensures !Truthy(config) && store.Rows? && ((userId, agentNumber) !in store.rows
              || !Truthy(Some(store.rows[(userId, agentNumber)]))) ==>
              c == Some(Obj([]))
  {
    if Truthy(config) then config
    else if store.Unavailable? then None
    else if (userId, agentNumber) in store.rows && Truthy(Some(store.rows[(userId, agentNumber)])) then
      Some(store.rows[(userId, agentNumber)])
    else Some(Obj([]))
  }

  /** The response `executeCommand` gives when the lazy initialisation failed. */
  function FailedToInitialize(agentNumber: int): Response {
    Response(false, None, Some("Agent not initialized and failed to initialize"), Some(Metadata(None, Some(agentNumber), None)))
  }

  const NotInitializedReply := "Agent not initialized. Please try again."

  /** The keys of `ks` that start with `prefix`, in order. */
  function Matching(ks: seq<string>, prefix: string): (r: seq<string>)
    ensures forall k :: k in r <==> k in ks && prefix <= k
  {
    if ks == [] then []
    else Matching(ks[..|ks| - 1], prefix) + (if prefix <= ks[|ks| - 1] then [ks[|ks| - 1]] else [])
  }

  /** `getInfo()` of the agent under each key of `ks` that has one, in order. */
  function InfosOf(ks: seq<string>, agents: map<string, Agent>): seq<AgentInfo>
    reads agents.Values
  {
    if ks == [] then []
    else
      var k := ks[|ks| - 1];
      InfosOf(ks[..|ks| - 1], agents) + (if k in agents then [agents[k].GetInfo()] else [])
  }

  lemma MatchingSnoc(ks: seq<string>, k: string, prefix: string)
    ensures Matching(ks + [k], prefix) == Matching(ks, prefix) + (if prefix <= k then [k] else [])
  {
    assert (ks + [k])[..|ks|] == ks;
  }

  lemma InfosOfSnoc(ks: seq<string>, k: string, agents: map<string, Agent>)
    ensures InfosOf(ks + [k], agents) == InfosOf(ks, agents) + (if k in agents then [agents[k].GetInfo()] else [])
  {
    assert (ks + [k])[..|ks|] == ks;
  }

  /** When every key has an agent, there is one snapshot per key, each the agent's own. */
  lemma {:induction false} InfosOfAll(ks: seq<string>, agents: map<string, Agent>)
    requires forall k :: k in ks ==> k in agents
    ensures |InfosOf(ks, agents)| == |ks|
    ensures forall i :: 0 <= i < |ks| ==> InfosOf(ks, agents)[i] == agents[ks[i]].GetInfo()
  {
    if ks != [] {
      var front := ks[..|ks| - 1];
      assert forall k :: k in front ==> k in ks;
      InfosOfAll(front, agents);
      assert ks == front + [ks[|ks| - 1]];
      InfosOfSnoc(front, ks[|ks| - 1], agents);
    }
  }

  /** Adding an agent under a key that `ks` does not hold leaves the snapshots of `ks` as they were. */
  lemma {:induction false} InfosOfOther(ks: seq<string>, agents: map<string, Agent>, key: string, a: Agent)
    requires key !in ks
    ensures InfosOf(ks, agents[key := a]) == InfosOf(ks, agents)
  {
    if ks != [] {
      assert forall k :: k in ks[..|ks| - 1] ==> k in ks;
      InfosOfOther(ks[..|ks| - 1], agents, key, a);
    }
  }

  /** The position in `ks` of the first key whose agent is named `to`. */
  function RouteIndex(ks: seq<string>, agents: map<string, Agent>, to: string): (r: Option<nat>)
    ensures r.Some? ==> r.value < |ks| && ks[r.value] in agents && agents[ks[r.value]].name == to
    ensures r.Some? ==> forall j :: 0 <= j < r.value ==> !(ks[j] in agents && agents[ks[j]].name == to)
    ensures r.None? ==> forall j :: 0 <= j < |ks| ==> !(ks[j] in agents && agents[ks[j]].name == to)
  {
    if ks == [] then None
    else if ks[0] in agents && agents[ks[0]].name == to then Some(0)
    else
      var r := RouteIndex(ks[1..], agents, to);
      if r.None? then None else Some(r.value + 1)
  }

  /** `keys` without `key`: `Map.delete` keeps the order of the others. */
  function Without(ks: seq<string>, key: string): (r: seq<string>)
    ensures forall k :: k in r <==> k in ks && k != key
  {
    if ks == [] then []
    else (if ks[0] == key then [] else [ks[0]]) + Without(ks[1..], key)
  }

  /** Deleting an absent key leaves the order as it was. */
  lemma {:induction false} WithoutAbsent(ks: seq<string>, key: string)
    requires key !in ks
    ensures Without(ks, key) == ks
  {
    if ks != [] {
      assert key !in ks[1..];
      WithoutAbsent(ks[1..], key);
      assert ks == [ks[0]] + ks[1..];
    }
  }

  /** No key occurs twice. */
  predicate Distinct(ks: seq<string>) {
    ks == [] || (ks[0] !in ks[1..] && Distinct(ks[1..]))
  }

  /** Appending a new key keeps the keys distinct. */
  lemma {:induction false} DistinctAppend(ks: seq<string>, key: string)
    requires Distinct(ks) && key !in ks
    ensures Distinct(ks + [key])
  {
    if ks != [] {
      assert (ks + [key])[1..] == ks[1..] + [key];
      DistinctAppend(ks[1..], key);
    }
  }

  /** Deleting a key keeps the keys distinct. */
  lemma {:induction false} WithoutDistinct(ks: seq<string>, key: string)
    requires Distinct(ks)
    ensures Distinct(Without(ks, key))
  {
    if ks != [] {
      var rest := Without(ks[1..], key);
      WithoutDistinct(ks[1..], key);
      if ks[0] != key {
        assert ([ks[0]] + rest)[1..] == rest;
      } else {
        assert Without(ks, key) == rest;
      }
    }
  }

  /** What `getInfo` shows of a freshly initialised agent of class `kind`. */
  function FreshInfo(kind: Kind): AgentInfo {
    Info(NumberOf(kind), NameOf(kind), DescriptionOf(kind), true, CommandsOf(kind))
  }

  /** The response a just-initialised agent of class `kind` gives to `cmd`: its action runs on empty records and fresh metrics. */
  function FreshResponse(kind: Kind, cmd: Command, env: SA.Env): Response {
    var d := Dispatch(kind, [], [], SA.InitialMetrics, env.now, cmd.action, cmd.parameters, env);
    Respond(NumberOf(kind), d.0, env.now - cmd.timestamp)
  }

  /** An agent that `initialize` has just set up answers with `FreshResponse`. */
  lemma FreshExecuted(agent: Agent, cmd: Command, env: SA.Env)
    requires agent.isInitialized && agent.connections == [] && agent.messageLog == []
    requires agent.metrics == SA.InitialMetrics && agent.startTime == env.now
    ensures agent.Executed(cmd, env) == Returned(FreshResponse(agent.kind, cmd, env))
  {
  }

  /** The state `initialize` leaves a newly built agent in, configured with `config` at `now`. */
  predicate JustSetUp(a: Agent, config: Value, now: int)
    reads a
  {
    && a.startTime == now && a.config == config && a.isInitialized && a.voiceCommands == CommandsOf(a.kind)
    && a.memory == map[] && a.monitors == (if a.kind.SystemArchitectureAgent? then 1 else 0)
    && a.events == [StatusEvent(a.agentNumber, Idle, NoDetails, now)]
    && a.connections == [] && a.messageLog == [] && a.metrics == SA.InitialMetrics
  }

  /**
   * The state of an agent of class `kind` that `initialize` set up with `config` at `env.now`
   * and that has then run `cmd` once in `env`, answering `r`.
   */
  predicate RanOnce(a: Agent, kind: Kind, agentNumber: int, config: Value, cmd: Command, env: SA.Env, r: Response)
    reads a
  {
    && a.kind == kind && a.agentNumber == agentNumber && a.startTime == env.now && a.config == config
    && a.isInitialized && a.voiceCommands == CommandsOf(kind) && a.memory == map[]
    && a.monitors == (if kind.SystemArchitectureAgent? then 1 else 0)
    && a.connections == [] && a.messageLog == []
    && a.metrics == MetricsAfter(kind, SA.InitialMetrics, env.now, cmd.action, env)
    && a.events == [StatusEvent(agentNumber, Idle, NoDetails, env.now)]
                    + [StatusEvent(agentNumber, Executing, ActionDetails(cmd.action), env.now), SettledOf(agentNumber, r, env.now)]
  }

  class AgentManager {
    /** The keys in insertion order, as the `Map` iterates them. */
    var keys: seq<string>
    var agents: map<string, Agent>

    /** Each key once, one object per key, and every stored agent initialised. */
    ghost predicate Valid()
      reads this, agents.Values
    {
      && (forall k :: k in agents <==> k in keys)
      && Distinct(keys)
      && (forall k, k' :: k in agents && k' in agents && k != k' ==> agents[k] != agents[k'])
      && (forall k :: k in agents ==> agents[k].Valid() && agents[k].isInitialized)
    }

    constructor ()
      ensures Valid() && keys == [] && agents == map[]
    {
      keys := [];
      agents := map[];
    }

    /** `getUserAgents('system')`, the snapshot the system architecture agent reads. */
    function SystemInfos(): seq<AgentInfo>
      reads this, agents.Values
    {
      InfosOf(Matching(keys, UserPrefix("system")), agents)
    }

    /** The environment an agent runs its action in: the clock, the `system` agents and the heap size. */
    function EnvAt(now: int, heapUsed: nat): SA.Env
      reads this, agents.Values
    {
      SA.Env(now, SystemInfos(), heapUsed)
    }

    /**
     * `initializeAgent(userId, agentNumber, config)`: `true` at once for a key already present;
     * `false` when the registry has no class for the number or the configuration query is
     * rejected; otherwise a new agent is built, initialised with the given or the stored
     * configuration and stored last.
     */
    method InitializeAgent(userId: string, agentNumber: int, config: Option<Value>, store: ConfigStore, now: int)
      returns (ok: bool)
      requires Valid()
      modifies this
      ensures Valid()
      ensures ok <==> AgentKey(userId, agentNumber) in old(agents)
                      || (Registry.Implementation(agentNumber).Some? && ConfigFor(config, store, userId, agentNumber).Some?)
      ensures AgentKey(userId, agentNumber) in old(agents) || Registry.Implementation(agentNumber).None?
              || ConfigFor(config, store, userId, agentNumber).None? ==>
                keys == old(keys) && agents == old(agents)
      ensures var key := AgentKey(userId, agentNumber);
              key !in old(agents) && Registry.Implementation(agentNumber).Some?
              && ConfigFor(config, store, userId, agentNumber).Some? ==>
                && keys == old(keys) + [key] && key in agents && agents == old(agents)[key := agents[key]]
                && fresh(agents[key]) && agents[key].kind == Registry.Implementation(agentNumber).value
                && agents[key].agentNumber == agentNumber && agents[key].startTime == now
                && Some(agents[key].config) == ConfigFor(config, store, userId, agentNumber)
                && agents[key].voiceCommands == CommandsOf(agents[key].kind)
                && agents[key].events == [StatusEvent(agentNumber, Idle, NoDetails, now)]
                && agents[key].connections == [] && agents[key].messageLog == []
                && agents[key].metrics == SA.InitialMetrics
                && agents[key].memory == map[] && agents[key].isInitialized
                && agents[key].monitors == (if agents[key].kind.SystemArchitectureAgent? then 1 else 0)
    {
      var key := AgentKey(userId, agentNumber);
      if key in agents {
        return true;
      }
      var agent := Registry.CreateAgent(agentNumber, now);
      if agent == null {
        return false;
      }
      var resolved := ConfigFor(config, store, userId, agentNumber);
      if resolved.None? {
        return false;
      }
      var r := agent.Initialize(resolved.value, now);
      if r.Returned? {
        DistinctAppend(keys, key);
        agents := agents[key := agent];
        keys := keys + [key];
      }
      ok := r.Returned?;
    }

    /**
     * `executeCommand(userId, agentNumber, command)`: the stored agent's `execute`; a missing
     * key is first initialised from the store, and a failed initialisation gives a failed
     * response instead. Stored agents are initialised, so no call throws.
     */
    method ExecuteCommand(userId: string, agentNumber: int, cmd: Command, store: ConfigStore, now: int, heapUsed: nat)
      returns (r: Response)
      requires Valid()
      modifies this, agents.Values
      ensures Valid()
      ensures var key := AgentKey(userId, agentNumber);
              key in old(agents) ==>
                && Returned(r) == old(agents[key].Executed(cmd, EnvAt(now, heapUsed)))
                && keys == old(keys) && agents == old(agents)
                && agents[key].Performed(cmd, old(EnvAt(now, heapUsed)), Returned(r))
      ensures AgentKey(userId, agentNumber) !in old(agents)
              && (Registry.Implementation(agentNumber).None? || store.Unavailable?) ==>
                r == FailedToInitialize(agentNumber) && keys == old(keys) && agents == old(agents)
      ensures var key := AgentKey(userId, agentNumber);
              var kind := Registry.Implementation(agentNumber);
              key !in old(agents) && kind.Some? && store.Rows? ==>
                var systemInfos := old(SystemInfos()) + (if UserPrefix("system") <= key then [FreshInfo(kind.value)] else []);
                var env := SA.Env(now, systemInfos, heapUsed);
                && r == FreshResponse(kind.value, cmd, env)
                && keys == old(keys) + [key] && key in agents && fresh(agents[key])
                && agents == old(agents)[key := agents[key]]
                && RanOnce(agents[key], kind.value, agentNumber, ConfigFor(None, store, userId, agentNumber).value, cmd, env, r)
      ensures forall k :: k in old(agents) && k != AgentKey(userId, agentNumber) ==> unchanged(old(agents)[k])
    {
      var key := AgentKey(userId, agentNumber);
      if key in agents {
        r := ExecuteStored(key, cmd, EnvAt(now, heapUsed));
      } else {
        r := ExecuteNew(userId, agentNumber, cmd, store, now, heapUsed);
      }
    }

    /** The lazy path of `executeCommand`: initialise the agent from the store, then run the command on it. */
    method ExecuteNew(userId: string, agentNumber: int, cmd: Command, store: ConfigStore, now: int, heapUsed: nat)
      returns (r: Response)
      requires Valid() && AgentKey(userId, agentNumber) !in agents
      modifies this
      ensures Valid()
      ensures Registry.Implementation(agentNumber).None? || store.Unavailable? ==>
                r == FailedToInitialize(agentNumber) && keys == old(keys) && agents == old(agents)
      ensures var key := AgentKey(userId, agentNumber);
              var kind := Registry.Implementation(agentNumber);
              kind.Some? && store.Rows? ==>
                var systemInfos := old(SystemInfos()) + (if UserPrefix("system") <= key then [FreshInfo(kind.value)] else []);
                var env := SA.Env(now, systemInfos, heapUsed);
                && r == FreshResponse(kind.value, cmd, env)
                && keys == old(keys) + [key] && key in agents && fresh(agents[key])
                && agents == old(agents)[key := agents[key]]
                && RanOnce(agents[key], kind.value, agentNumber, ConfigFor(None, store, userId, agentNumber).value, cmd, env, r)
    {
      var initialized := InitializeFromStore(userId, agentNumber, store, now);
      if !initialized {
        return FailedToInitialize(agentNumber);
      }
      var key := AgentKey(userId, agentNumber);
      ghost var kind := Registry.Implementation(agentNumber).value;
      r := ExecuteInitialized(key, cmd, now, heapUsed, kind, agentNumber, ConfigFor(None, store, userId, agentNumber).value,
                              old(SystemInfos()) + (if UserPrefix("system") <= key then [FreshInfo(kind)] else []));
    }

    /** `initializeAgent(userId, agentNumber)` for a missing key, with the `system` snapshot it leaves behind. */
    method InitializeFromStore(userId: string, agentNumber: int, store: ConfigStore, now: int) returns (ok: bool)
      requires Valid() && AgentKey(userId, agentNumber) !in agents
      modifies this
      ensures Valid()
      ensures ok <==> Registry.Implementation(agentNumber).Some? && store.Rows?
      ensures !ok ==> keys == old(keys) && agents == old(agents)
      ensures var key := AgentKey(userId, agentNumber);
              ok ==>
                && keys == old(keys) + [key] && key in agents && fresh(agents[key])
                && agents == old(agents)[key := agents[key]]
                && agents[key].kind == Registry.Implementation(agentNumber).value && agents[key].agentNumber == agentNumber
                && JustSetUp(agents[key], ConfigFor(None, store, userId, agentNumber).value, now)
                && SystemInfos() == old(SystemInfos()) + (if UserPrefix("system") <= key then [FreshInfo(agents[key].kind)] else [])
    {
      var key := AgentKey(userId, agentNumber);
      ok := InitializeAgent(userId, agentNumber, None, store, now);
      if ok {
        SystemInfosAfterInsert(key);
        assert agents[key].GetInfo() == FreshInfo(agents[key].kind);
      }
    }

    /** `agent.execute(command)` on an agent that `initialize` has just set up. */
    method ExecuteInitialized(key: string, cmd: Command, now: int, heapUsed: nat,
                              ghost kind: Kind, ghost agentNumber: int, ghost config: Value, ghost infos: seq<AgentInfo>)
      returns (r: Response)
      requires Valid() && key in agents && agents[key].kind == kind && agents[key].agentNumber == agentNumber
      requires JustSetUp(agents[key], config, now) && SystemInfos() == infos
      modifies agents[key]
      ensures Valid() && keys == old(keys) && agents == old(agents)
      ensures r == FreshResponse(kind, cmd, SA.Env(now, infos, heapUsed))
      ensures RanOnce(agents[key], kind, agentNumber, config, cmd, SA.Env(now, infos, heapUsed), r)
    {
      var env := EnvAt(now, heapUsed);
      FreshExecuted(agents[key], cmd, env);
      r := ExecuteStored(key, cmd, env);
    }

    /** `agent.execute(command)` for a stored agent, in an environment holding the current `system` snapshot. */
    method ExecuteStored(key: string, cmd: Command, env: SA.Env) returns (r: Response)
      requires Valid() && key in agents
      modifies agents[key]
      ensures Valid()
      ensures Returned(r) == old(agents[key].Executed(cmd, env))
      ensures agents[key].Performed(cmd, env, Returned(r))
      ensures forall k :: k in agents && k != key ==> unchanged(agents[k])
    {
      var agent := agents[key];
      var o := agent.Execute(cmd, env);
      r := o.value;
      OthersKeepValid(agent);
    }

    /** Only `changed`, which stays valid and initialised, was touched since the call began. */
    twostate lemma OthersKeepValid(changed: Agent)
      requires old(Valid()) && keys == old(keys) && agents == old(agents)
      requires changed.Valid() && changed.isInitialized
      requires forall k :: k in agents && agents[k] != changed ==> unchanged(agents[k])
      ensures Valid()
    {
      forall k | k in agents
        ensures agents[k].Valid() && agents[k].isInitialized
      {
        if agents[k] != changed {
          assert old(agents[k].Valid()) && old(agents[k].isInitialized);
        }
      }
    }

    /** The `system` snapshot after the key `key` was added last, in terms of the snapshot before. */
    twostate lemma SystemInfosAfterInsert(key: string)
      requires key !in old(keys) && keys == old(keys) + [key] && key in agents
      requires agents == old(agents)[key := agents[key]]
      requires forall k :: k in old(agents) ==> unchanged(old(agents)[k])
      ensures SystemInfos() == old(SystemInfos()) + (if UserPrefix("system") <= key then [agents[key].GetInfo()] else [])
    {
      var p := UserPrefix("system");
      var oldAgents := old(agents);
      MatchingSnoc(old(keys), key, p);
      var before := Matching(old(keys), p);
      if p <= key {
        InfosOfSnoc(before, key, agents);
      } else {
        assert Matching(keys, p) == before;
      }
      InfosOfOther(before, oldAgents, key, agents[key]);
      forall o | o in oldAgents.Values
        ensures unchanged(o)
      {
        var k :| k in oldAgents && oldAgents[k] == o;
      }
      assert InfosOf(before, oldAgents) == old(InfosOf(before, oldAgents));
    }

    /** `processVoiceCommand(userId, agentNumber, text)`: no lazy initialisation here. */
    method ProcessVoiceCommand(userId: string, agentNumber: int, text: string, now: int, heapUsed: nat)
      returns (reply: string)
      requires Valid()
      modifies agents.Values
      ensures Valid()
      ensures var key := AgentKey(userId, agentNumber);
              key !in agents ==> reply == NotInitializedReply && unchanged(agents.Values)
      ensures var key := AgentKey(userId, agentNumber);
              key in agents ==> reply == old(agents[key].VoiceReply(text, EnvAt(now, heapUsed)))
      ensures var key := AgentKey(userId, agentNumber);
              key in old(agents) && Parse(old(agents[key].voiceCommands), text, now).None? ==> unchanged(agents[key])
      ensures var key := AgentKey(userId, agentNumber);
              key in old(agents) && Parse(old(agents[key].voiceCommands), text, now).Some? ==>
                var c := Parse(old(agents[key].voiceCommands), text, now);
                agents[key].Performed(c.value, old(EnvAt(now, heapUsed)), old(agents[key].Executed(c.value, EnvAt(now, heapUsed))))
      ensures forall k :: k in old(agents) && k != AgentKey(userId, agentNumber) ==> unchanged(old(agents)[k])
    {
      var key := AgentKey(userId, agentNumber);
      if key !in agents {
        return NotInitializedReply;
      }
      var agent := agents[key];
      reply := agent.ProcessVoiceCommand(text, EnvAt(now, heapUsed));
      OthersKeepValid(agent);
    }

    /** `shutdownAgent(userId, agentNumber)`: clean the agent up and forget its key; nothing for an absent key. */
    method ShutdownAgent(userId: string, agentNumber: int)
      requires Valid()
      modifies this, agents.Values
      ensures Valid()
      ensures var key := AgentKey(userId, agentNumber);
              && agents == old(agents) - {key} && keys == Without(old(keys), key)
              && (key in old(agents) ==> !old(agents)[key].isInitialized && old(agents)[key].memory == map[])
      ensures forall k :: k in agents ==> unchanged(agents[k])
    {
      var key := AgentKey(userId, agentNumber);
      if key in agents {
        var agent := agents[key];
        agent.Cleanup();
        WithoutDistinct(keys, key);
        agents := agents - {key};
        keys := Without(keys, key);
      } else {
        assert agents - {key} == agents;
        WithoutAbsent(keys, key);
      }
    }

    /** `shutdownAllAgents()`: every agent, in map order, is cleaned up and its key deleted. */
    method ShutdownAllAgents()
      requires Valid()
      modifies this, agents.Values
      ensures Valid() && keys == [] && agents == map[]
      ensures forall k :: k in old(agents) ==> !old(agents)[k].isInitialized && old(agents)[k].memory == map[]
    {
      var entries := keys;
      var i := 0;
      while i < |entries|
        invariant 0 <= i <= |entries|
        invariant keys == entries[i..] && Distinct(keys)
        invariant forall k :: k in agents <==> k in keys
        invariant forall k :: k in agents ==> k in old(agents) && agents[k] == old(agents)[k]
        invariant forall k :: k in agents ==> unchanged(agents[k])
        invariant forall j :: 0 <= j < i ==> entries[j] in old(agents)
        invariant forall j :: 0 <= j < i ==> !old(agents)[entries[j]].isInitialized && old(agents)[entries[j]].memory == map[]
      {
        ShutdownFirst();
        i := i + 1;
      }
    }

    /** One step of `shutdownAllAgents()`: clean up the agent of the first key and delete the key. */
    method ShutdownFirst()
      requires keys != [] && Distinct(keys) && (forall k :: k in agents <==> k in keys)
      requires agents[keys[0]].Valid()
      modifies this, agents[keys[0]]
      ensures keys == old(keys[1..]) && Distinct(keys) && agents == old(agents) - {old(keys[0])}
      ensures !old(agents[keys[0]]).isInitialized && old(agents[keys[0]]).memory == map[]
    {
      var agent := agents[keys[0]];
      agent.Cleanup();
      agents := agents - {keys[0]};
      keys := keys[1..];
    }

    /** `getAgentInfo(userId, agentNumber)`: `null` exactly when the key is absent. */
    function GetAgentInfo(userId: string, agentNumber: int): (r: Option<AgentInfo>)
      reads this, agents.Values
      ensures r.None? <==> AgentKey(userId, agentNumber) !in agents
      ensures r.Some? ==> r.value == agents[AgentKey(userId, agentNumber)].GetInfo()
    {
      var key := AgentKey(userId, agentNumber);
      if key in agents then Some(agents[key].GetInfo()) else None
    }

    /** `getUserAgents(userId)`: the snapshots of the keys starting with `userId-`, in map order. */
    method GetUserAgents(userId: string) returns (infos: seq<AgentInfo>)
      requires Valid()
      ensures infos == InfosOf(Matching(keys, UserPrefix(userId)), agents)
    {
      var prefix := UserPrefix(userId);
      infos := [];
      var i := 0;
      while i < |keys|
        invariant 0 <= i <= |keys|
        invariant infos == InfosOf(Matching(keys[..i], prefix), agents)
      {
        var key := keys[i];
        assert key in agents;
        assert keys[..i + 1] == keys[..i] + [key];
        MatchingSnoc(keys[..i], key, prefix);
        if prefix <= key {
          InfosOfSnoc(Matching(keys[..i], prefix), key, agents);
          infos := infos + [agents[key].GetInfo()];
        } else {
          assert Matching(keys[..i + 1], prefix) == Matching(keys[..i], prefix);
        }
        assert infos == InfosOf(Matching(keys[..i + 1], prefix), agents);
        i := i + 1;
      }
      assert keys[..|keys|] == keys;
    }

    /**
     * The delivery step of the `message` listener: the first key, of any user, whose agent is
     * named `message.to` receives the message; with no such key it is dropped.
     */
    method RouteMessage(message: Message, now: int)
      requires Valid()
      modifies agents.Values
      ensures Valid()
      ensures RouteIndex(keys, agents, message.to).None? ==> unchanged(agents.Values)
      ensures var t := RouteIndex(keys, agents, message.to);
              t.Some? ==> agents[keys[t.value]].Received(message, now)
                          && forall k :: k in agents && k != keys[t.value] ==> unchanged(agents[k])
    {
      var i := 0;
      while i < |keys| && agents[keys[i]].name != message.to
        invariant 0 <= i <= |keys|
        invariant forall j :: 0 <= j < i ==> agents[keys[j]].name != message.to
      {
        i := i + 1;
      }
      if i < |keys| {
        var target := agents[keys[i]];
        assert RouteIndex(keys, agents, message.to) == Some(i);
        target.ReceiveMessage(message, now);
        OthersKeepValid(target);
      }
    }
  }
}
