/**
 * The agent objects. One class stands for the closed family of agents the registry can build
 * (the business intelligence agent and the system architecture agent); `kind` says which one
 * an object is. The fields are those of the abstract base class (configuration, the
 * initialised flag, the voice commands, the TTL memory) together with the records of the
 * system architecture agent (connection counter, message log, metrics, the `message`
 * listeners its monitoring attaches), which stay empty for the business intelligence agent.
 * Every `status` event an agent emits is appended to `events`.
 */
module Agents {
  import opened Wrappers
  import opened Json
  import opened Protocol
  import opened McpAgent
  import BI = BusinessIntelligence
  import SA = SystemArchitecture

  /** The implementation classes of the registry. */
  datatype Kind = BusinessIntelligenceAgent | SystemArchitectureAgent

  function NumberOf(kind: Kind): int {
    match kind
    case BusinessIntelligenceAgent => BI.AgentNumber
    case SystemArchitectureAgent => SA.AgentNumber
  }

  function NameOf(kind: Kind): string {
    match kind
    case BusinessIntelligenceAgent => BI.Name
    case SystemArchitectureAgent => SA.Name
  }

  function DescriptionOf(kind: Kind): string {
    match kind
    case BusinessIntelligenceAgent => BI.Description
    case SystemArchitectureAgent => SA.Description
  }

  /** The voice commands `initialize` registers. */
  function CommandsOf(kind: Kind): seq<VoicePattern> {
    match kind
    case BusinessIntelligenceAgent => BI.VoiceCommands
    case SystemArchitectureAgent => SA.VoiceCommands
  }

  /** The actions `execute` accepts. */
  function ActionsOf(kind: Kind): set<string> {
    match kind
    case BusinessIntelligenceAgent => BI.Actions
    case SystemArchitectureAgent => SA.Actions
  }

  /**
   * The `switch` inside the `try` of `execute`: the result of the action (or the message of
   * the error it throws) and the metrics afterwards. The business intelligence agent works on
   * its fixed sample table and keeps no metrics.
   */
  function Dispatch(kind: Kind, conns: seq<SA.Connection>, log: seq<Message>, metrics: SA.Metrics, startTime: int,
                    action: string, params: map<string, Value>, env: SA.Env): (r: (Outcome<Value>, SA.Metrics))
    ensures action !in ActionsOf(kind) ==> r == (Threw("Unknown action: " + action), metrics)
    ensures r.1 == MetricsAfter(kind, metrics, startTime, action, env)
  {
    match kind
    case BusinessIntelligenceAgent => (BI.Run(BI.SampleData, action, params), metrics)
    case SystemArchitectureAgent => SA.Run(conns, log, metrics, startTime, action, env)
  }

  /**
   * The metrics an action leaves behind: the system architecture agent refreshes them for
   * `get_diagram` and `get_metrics`; every other action leaves them alone.
   */
  function MetricsAfter(kind: Kind, metrics: SA.Metrics, startTime: int, action: string, env: SA.Env): SA.Metrics {
    if kind.SystemArchitectureAgent? && (action == "get_diagram" || action == "get_metrics")
    then SA.UpdatedMetrics(metrics, startTime, env)
    else metrics
  }

  /** The response `execute` builds from the outcome of the `switch`; `elapsed` is the execution time. */
  function Respond(agentNumber: int, o: Outcome<Value>, elapsed: int): Response {
    var metadata := Some(Metadata(Some(elapsed), Some(agentNumber), None));
    match o
    case Returned(data) => Response(true, Some(data), None, metadata)
    case Threw(message) => Response(false, None, Some(message), metadata)
  }

  /** The closing `status` event read off a response: `idle` if it succeeded, otherwise `error` with its message. */
  function SettledOf(agentNumber: int, r: Response, now: int): StatusEvent {
    if r.success then StatusEvent(agentNumber, Idle, NoDetails, now)
    else StatusEvent(agentNumber, Error, ErrorDetails(if r.error.Some? then r.error.value else ""), now)
  }

  /** The agent's own `formatVoiceResponse`; `None` when it throws. */
  function FormatVoiceOf(kind: Kind, r: Response): Option<string> {
    match kind
    case BusinessIntelligenceAgent => BI.FormatVoice(r)
    case SystemArchitectureAgent => SA.FormatVoice(r)
  }

  /** The `try` of `processVoiceCommand`: a throw from `execute` or from the formatter becomes a fixed sentence. */
  function VoiceText(kind: Kind, o: Outcome<Response>): string {
    match o
    case Threw(_) => VoiceErrorReply
    case Returned(r) =>
      match FormatVoiceOf(kind, r)
      case None => VoiceErrorReply
      case Some(s) => s
  }

  /**
   * An error thrown inside the `try` of `execute` (an unknown action, a period with no data)
   * becomes a failed response carrying the message, and read aloud it is `Error: <message>`.
   */
  lemma FailureReply(kind: Kind, agentNumber: int, message: string, elapsed: int)
    requires message != []
    ensures var r := Respond(agentNumber, Threw(message), elapsed);
            && !r.success && r.error == Some(message) && r.data.None?
            && r.metadata == Some(Metadata(Some(elapsed), Some(agentNumber), None))
            && VoiceText(kind, Returned(r)) == "Error: " + message
  {
    var r := Respond(agentNumber, Threw(message), elapsed);
    assert FormatVoiceOf(kind, r) == Some(FormatDefault(r));
  }

  /**
   * The closing event reports the handler's outcome: `idle` after a result, `error` with the
   * thrown message after a throw, stamped with the agent's number and the clock.
   */
  lemma SettledReportsOutcome(agentNumber: int, o: Outcome<Value>, now: int, elapsed: int)
    ensures var e := SettledOf(agentNumber, Respond(agentNumber, o, elapsed), now);
            && e.agentNumber == agentNumber && e.timestamp == now
            && (o.Returned? ==> e.status == Idle && e.details == NoDetails)
            && (o.Threw? ==> e.status == Error && e.details == ErrorDetails(o.message))
  {
  }

  class Agent {
    const kind: Kind
    const agentNumber: int := NumberOf(kind)
    const name: string := NameOf(kind)
    const description: string := DescriptionOf(kind)
    /** The clock reading when the object was built; the system architecture agent's uptime counts from it. */
    const startTime: int
    var config: Value
    var isInitialized: bool
    var voiceCommands: seq<VoicePattern>
    var memory: map<string, MemoryEntry>
    /** The `status` events emitted so far, oldest first. */
    var events: seq<StatusEvent>
    /** How many `message` listeners the monitoring has attached: one per `initialize` of a system architecture agent. */
    var monitors: nat
    var connections: seq<SA.Connection>
    var messageLog: seq<Message>
    var metrics: SA.Metrics

    ghost predicate Valid()
      reads this
    {
      && SA.UniquePairs(connections)
      && |messageLog| <= SA.LogLimit
      && (kind.BusinessIntelligenceAgent? ==> monitors == 0 && connections == [] && messageLog == [])
    }

    /** `new AgentClass()`: not initialised, no voice commands, empty memory and records. */
    constructor (kind: Kind, now: int)
      ensures Valid() && this.kind == kind && startTime == now
      ensures config == Obj([]) && !isInitialized && voiceCommands == [] && memory == map[] && events == []
      ensures monitors == 0 && connections == [] && messageLog == [] && metrics == SA.InitialMetrics
    {
      this.kind := kind;
      startTime := now;
      config := Obj([]);
      isInitialized := false;
      voiceCommands := [];
      memory := map[];
      events := [];
      monitors := 0;
      connections := [];
      messageLog := [];
      metrics := SA.InitialMetrics;
    }

    /** `getInfo()`. */
    function GetInfo(): AgentInfo
      reads this
    {
      Info(agentNumber, name, description, isInitialized, voiceCommands)
    }

    /**
     * `initialize(config)`: a falsy configuration is refused by `validateConfig`; otherwise the
     * configuration and the voice commands are stored, the system architecture agent attaches
     * one more monitoring listener, the flag is set and `idle` is emitted. A second call is not
     * refused.
     */
    method Initialize(config: Value, now: int) returns (r: Outcome<()>)
      requires Valid()
      modifies this
      ensures Valid()
      ensures !Truthy(Some(config)) ==> r == Threw(ConfigRequired) && unchanged(this)
      ensures Truthy(Some(config)) ==>
                && r == Returned(())
                && this.config == config && isInitialized && voiceCommands == CommandsOf(kind)
                && events == old(events) + [StatusEvent(agentNumber, Idle, NoDetails, now)]
                && monitors == old(monitors) + (if kind.SystemArchitectureAgent? then 1 else 0)
                && memory == old(memory) && connections == old(connections)
                && messageLog == old(messageLog) && metrics == old(metrics)
    {
      if !Truthy(Some(config)) {
        return Threw(ConfigRequired);
      }
      this.config := config;
      voiceCommands := CommandsOf(kind);
      if kind.SystemArchitectureAgent? {
        monitors := monitors + 1;
      }
      isInitialized := true;
      events := events + [StatusEvent(agentNumber, Idle, NoDetails, now)];
      r := Returned(());
    }

    /** What `execute(cmd)` returns in the current state: the `checkInitialized` error, or a response. */
    function Executed(cmd: Command, env: SA.Env): Outcome<Response>
      reads this
    {
      if !isInitialized then Threw(NotInitializedMessage(name))
      else
        var d := Dispatch(kind, connections, messageLog, metrics, startTime, cmd.action, cmd.parameters, env);
        Returned(Respond(agentNumber, d.0, env.now - cmd.timestamp))
    }

    /**
     * The state `execute(cmd)` leaves: nothing changes before initialisation; otherwise
     * `executing` and then `idle` or `error` are emitted and the metrics are those the action
     * updated.
     */
    twostate predicate Performed(cmd: Command, env: SA.Env, r: Outcome<Response>)
      reads this
    {
      if !old(isInitialized) then unchanged(this)
      else
        && r.Returned?
        && metrics == MetricsAfter(kind, old(metrics), startTime, cmd.action, env)
        && events == old(events) + [StatusEvent(agentNumber, Executing, ActionDetails(cmd.action), env.now),
                                     SettledOf(agentNumber, r.value, env.now)]
        && isInitialized && config == old(config) && voiceCommands == old(voiceCommands)
        && memory == old(memory) && monitors == old(monitors)
        && connections == old(connections) && messageLog == old(messageLog)
    }

    /**
     * `execute(cmd)`. The system architecture agent builds its connection map and its flow
     * patterns with loops; the result is the one `Dispatch` specifies.
     */
    method Execute(cmd: Command, env: SA.Env) returns (r: Outcome<Response>)
      requires Valid()
      modifies this
      ensures Valid()
      ensures r == old(Executed(cmd, env))
      ensures Performed(cmd, env, r)
    {
      if !isInitialized {
        return Threw(NotInitializedMessage(name));
      }
      // The handler reads none of the records the status events and the metrics live in,
      // so running it first gives the same records as announcing `executing` first.
      var o, updated := Compute(cmd.action, cmd.parameters, env);
      var executing := StatusEvent(agentNumber, Executing, ActionDetails(cmd.action), env.now);
      var response := Respond(agentNumber, o, env.now - cmd.timestamp);
      events, metrics := events + [executing, SettledOf(agentNumber, response, env.now)], updated;
      r := Returned(response);
    }

    /**
     * The `switch` of `execute` on the current records. The system architecture agent builds
     * its connection map and its flow patterns with loops.
     */
    method Compute(action: string, params: map<string, Value>, env: SA.Env) returns (o: Outcome<Value>, updated: SA.Metrics)
      ensures (o, updated) == Dispatch(kind, connections, messageLog, metrics, startTime, action, params, env)
    {
      if kind.SystemArchitectureAgent? && action == "get_connections" {
        var connectionMap := SA.BuildConnectionMap(connections);
        SA.RunConnections(connections, messageLog, metrics, startTime, env);
        return Returned(SA.ConnectionsValue(connections, connectionMap)), metrics;
      } else if kind.SystemArchitectureAgent? && action == "get_data_flow" {
        var patterns := SA.AnalyzeFlowPatterns(messageLog);
        SA.RunDataFlow(connections, messageLog, metrics, startTime, env);
        return Returned(SA.DataFlowValue(messageLog, patterns)), metrics;
      }
      var d := Dispatch(kind, connections, messageLog, metrics, startTime, action, params, env);
      return d.0, d.1;
    }

    /**
     * `parseVoiceCommand(text)`: entries in registration order, each entry's patterns in list
     * order; the first match returns. Captured groups become `param1..paramN` and the entry's
     * static parameters are copied over them.
     */
    method ParseVoiceCommand(text: string, now: int) returns (c: Option<Command>)
      ensures c == Parse(voiceCommands, text, now)
    {
      var found := FirstEntryMatch(voiceCommands, Normalize(text));
      if found.None? {
        return None;
      }
      var (i, caps) := found.value;
      var parameters := CapturedParameters(caps);
      c := Some(Command(voiceCommands[i].action, parameters + voiceCommands[i].parameters,
                        map["voiceCommand" := Str(text)], "voice-user", "voice-" + Strings.IntToString(now), now));
    }

    /** What `processVoiceCommand(text)` answers in the current state. */
    function VoiceReply(text: string, env: SA.Env): string
      reads this
    {
      match Parse(voiceCommands, text, env.now)
      case None => NotUnderstood(voiceCommands)
      case Some(cmd) => VoiceText(kind, Executed(cmd, env))
    }

    /**
     * `processVoiceCommand(text)`: text no pattern matches is answered with the available
     * commands and changes nothing; a parsed command is executed and its response formatted,
     * and a throw in either step becomes the fixed error sentence.
     */
    method ProcessVoiceCommand(text: string, env: SA.Env) returns (reply: string)
      requires Valid()
      modifies this
      ensures Valid()
      ensures reply == old(VoiceReply(text, env))
      ensures Parse(old(voiceCommands), text, env.now).None? ==> unchanged(this)
      ensures var c := Parse(old(voiceCommands), text, env.now);
              c.Some? ==> Performed(c.value, env, old(Executed(c.value, env)))
    {
      var command := ParseVoiceCommand(text, env.now);
      if command.None? {
        return NotUnderstood(voiceCommands);
      }
      var response := Execute(command.value, env);
      reply := VoiceText(kind, response);
    }

    /**
     * `cleanup()`: the flag is cleared, the memory emptied and every listener removed; the
     * system architecture agent also empties its connections and its log (its metrics stay).
     */
    method Cleanup()
      requires Valid()
      modifies this
      ensures Valid()
      ensures !isInitialized && memory == map[] && monitors == 0 && connections == [] && messageLog == []
      ensures config == old(config) && voiceCommands == old(voiceCommands) && events == old(events)
      ensures metrics == old(metrics)
    {
      isInitialized := false;
      memory := map[];
      monitors := 0;
      connections := [];
      messageLog := [];
    }

    /** `saveMemory(key, value, ttl)`; an absent ttl is 0. */
    method SaveMemory(key: string, value: Value, ttl: int, now: int)
      modifies this
      ensures memory == Saved(old(memory), key, value, ttl, now)
      ensures isInitialized == old(isInitialized) && voiceCommands == old(voiceCommands) && events == old(events)
      ensures config == old(config) && monitors == old(monitors) && connections == old(connections)
      ensures messageLog == old(messageLog) && metrics == old(metrics)
    {
      memory := memory[key := MemoryEntry(value, now, ttl)];
      CleanupMemory(now);
    }

    /** `getMemory(key)`: the value, or nothing for a missing or expired key (which is then deleted). */
    method GetMemory(key: string, now: int) returns (v: Option<Value>)
      modifies this
      ensures (v, memory) == Read(old(memory), key, now)
      ensures isInitialized == old(isInitialized) && voiceCommands == old(voiceCommands) && events == old(events)
      ensures config == old(config) && monitors == old(monitors) && connections == old(connections)
      ensures messageLog == old(messageLog) && metrics == old(metrics)
    {
      if key !in memory {
        return None;
      }
      var entry := memory[key];
      if Expired(entry, now) {
        memory := memory - {key};
        return None;
      }
      return Some(entry.value);
    }

    /** `cleanupMemory()`: delete every expired entry, one key at a time. */
    method CleanupMemory(now: int)
      modifies this
      ensures memory == Swept(old(memory), now)
      ensures isInitialized == old(isInitialized) && voiceCommands == old(voiceCommands) && events == old(events)
      ensures config == old(config) && monitors == old(monitors) && connections == old(connections)
      ensures messageLog == old(messageLog) && metrics == old(metrics)
    {
      var pending := memory.Keys;
      while pending != {}
        invariant pending <= old(memory).Keys
        invariant forall k :: k in memory <==> k in old(memory) && (k in pending || !Expired(old(memory)[k], now))
        invariant forall k :: k in memory ==> memory[k] == old(memory)[k]
        invariant isInitialized == old(isInitialized) && voiceCommands == old(voiceCommands) && events == old(events)
        invariant config == old(config) && monitors == old(monitors) && connections == old(connections)
        invariant messageLog == old(messageLog) && metrics == old(metrics)
        decreases pending
      {
        var key :| key in pending;
        if Expired(memory[key], now) {
          memory := memory - {key};
        }
        pending := pending - {key};
      }
      assert memory.Keys == Swept(old(memory), now).Keys;
    }

    /** `logMessage(message)`: stamp, append, keep the newest entries; one more message in the metrics. */
    method LogMessage(message: Message, now: int)
      requires Valid() && kind.SystemArchitectureAgent?
      modifies this
      ensures Valid()
      ensures messageLog == SA.Logged(old(messageLog), message.(timestamp := now))
      ensures metrics == old(metrics).(totalMessages := old(metrics).totalMessages + 1)
      ensures isInitialized == old(isInitialized) && voiceCommands == old(voiceCommands) && events == old(events)
      ensures config == old(config) && monitors == old(monitors) && connections == old(connections)
      ensures memory == old(memory)
    {
      messageLog := SA.Logged(messageLog, message.(timestamp := now));
      metrics := metrics.(totalMessages := metrics.totalMessages + 1);
    }

    /** `updateConnections(from, to)`: find the pair and bump it, or append it with count 1. */
    method UpdateConnections(from: string, to: string)
      requires Valid() && kind.SystemArchitectureAgent?
      modifies this
      ensures Valid()
      ensures connections == SA.Bumped(old(connections), from, to)
      ensures isInitialized == old(isInitialized) && voiceCommands == old(voiceCommands) && events == old(events)
      ensures config == old(config) && monitors == old(monitors) && messageLog == old(messageLog)
      ensures memory == old(memory) && metrics == old(metrics)
    {
      SA.BumpedUnique(connections, from, to);
      connections := BumpConnection(connections, from, to);
    }

    /**
     * The state after a `message` event reaches the agent: each monitoring listener logs the
     * stamped message and counts its pair. Nothing else changes. `LoggedTimesNewest` and
     * `BumpedTimesCounts` say what the log and the counts then hold.
     */
    twostate predicate Received(message: Message, now: int)
      reads this
    {
      var stamped := message.(timestamp := now);
      && monitors == old(monitors)
      && messageLog == LoggedTimes(old(messageLog), stamped, monitors)
      && connections == BumpedTimes(old(connections), message.from, message.to, monitors)
      && metrics == old(metrics).(totalMessages := old(metrics).totalMessages + monitors)
      && isInitialized == old(isInitialized) && voiceCommands == old(voiceCommands) && events == old(events)
      && config == old(config) && memory == old(memory)
    }

    /** `emit('message', message)` on this agent, as far as its own monitoring listeners go. */
    method ReceiveMessage(message: Message, now: int)
      requires Valid()
      modifies this
      ensures Valid()
      ensures Received(message, now)
    {
      // Every monitoring listener runs `logMessage` and then `updateConnections` on the same
      // message, and counts one message in the metrics.
      var stamped := message.(timestamp := now);
      BumpedTimesCounts(connections, message.from, message.to, monitors);
      LoggedTimesNewest(messageLog, stamped, monitors);
      messageLog, connections := Listen(messageLog, connections, stamped, monitors);
      metrics := metrics.(totalMessages := metrics.totalMessages + monitors);
    }
  }

  /**
   * The `count` monitoring listeners of one `message` event, one after the other: each logs the
   * stamped message and counts its pair.
   */
  method Listen(log: seq<Message>, conns: seq<SA.Connection>, stamped: Message, count: nat)
    returns (log': seq<Message>, conns': seq<SA.Connection>)
    ensures log' == LoggedTimes(log, stamped, count)
    ensures conns' == BumpedTimes(conns, stamped.from, stamped.to, count)
  {
    log', conns' := log, conns;
    var n := 0;
    while n < count
      invariant 0 <= n <= count
      invariant log' == LoggedTimes(log, stamped, n)
      invariant conns' == BumpedTimes(conns, stamped.from, stamped.to, n)
    {
      log' := SA.Logged(log', stamped);
      conns' := BumpConnection(conns', stamped.from, stamped.to);
      n := n + 1;
    }
  }

  /** The outer loop of `parseVoiceCommand`: the entries in registration order, the first match wins. */
  method FirstEntryMatch(cmds: seq<VoicePattern>, normalized: string) returns (found: Option<(nat, seq<string>)>)
    ensures found == FirstMatch(cmds, normalized)
  {
    var i := 0;
    while i < |cmds|
      invariant 0 <= i <= |cmds|
      invariant forall i' :: 0 <= i' < i ==> MatchEntry(cmds[i'].patterns, normalized).None?
    {
      var m := FirstPatternMatch(cmds[i].patterns, normalized);
      if m.Some? {
        FirstMatchAt(cmds, normalized, i);
        return Some((i, m.value));
      }
      i := i + 1;
    }
    return None;
  }

  /** The inner loop of `parseVoiceCommand`: the patterns of one entry in list order, the first match wins. */
  method FirstPatternMatch(patterns: seq<Pattern>, normalized: string) returns (m: Option<seq<string>>)
    ensures m == MatchEntry(patterns, normalized)
  {
    var j := 0;
    while j < |patterns|
      invariant 0 <= j <= |patterns|
      invariant forall j' :: 0 <= j' < j ==> MatchPattern(patterns[j'], normalized).None?
    {
      m := MatchPattern(patterns[j], normalized);
      if m.Some? {
        MatchEntryFirst(patterns, normalized, j);
        return;
      }
      j := j + 1;
    }
    MatchEntryNone(patterns, normalized);
    return None;
  }

  /** `n` copies of `m`. */
  function Copies(m: Message, n: nat): (r: seq<Message>)
    ensures |r| == n
    ensures forall i :: 0 <= i < n ==> r[i] == m
  {
    if n == 0 then [] else Copies(m, n - 1) + [m]
  }

  /** The search of `updateConnections`: bump the pair's record, or append one with count 1. */
  method BumpConnection(conns: seq<SA.Connection>, from: string, to: string) returns (r: seq<SA.Connection>)
    ensures r == SA.Bumped(conns, from, to)
  {
    var i := 0;
    while i < |conns| && !SA.SamePair(conns[i], from, to)
      invariant 0 <= i <= |conns|
      invariant forall k :: 0 <= k < i ==> !SA.SamePair(conns[k], from, to)
    {
      i := i + 1;
    }
    if i < |conns| {
      assert SA.FindPair(conns, from, to) == Some(i);
      r := conns[i := conns[i].(count := conns[i].count + 1)];
    } else {
      r := conns + [SA.Connection(from, to, 1)];
    }
  }

  /** The log after `n` listeners have each logged `m`. */
  function LoggedTimes(log: seq<Message>, m: Message, n: nat): seq<Message> {
    if n == 0 then log else SA.Logged(LoggedTimes(log, m, n - 1), m)
  }

  /** `n` loggings of `m` keep the newest `LogLimit` entries of the log followed by `n` copies of `m`. */
  lemma {:induction false} LoggedTimesNewest(log: seq<Message>, m: Message, n: nat)
    requires |log| <= SA.LogLimit
    ensures LoggedTimes(log, m, n) == SA.Newest(log + Copies(m, n))
  {
    if n > 0 {
      LoggedTimesNewest(log, m, n - 1);
      SA.LoggedNewest(log + Copies(m, n - 1), m);
      assert log + Copies(m, n) == log + Copies(m, n - 1) + [m];
    }
  }

  /** The connection records after `n` listeners have each counted a message from `from` to `to`. */
  function BumpedTimes(conns: seq<SA.Connection>, from: string, to: string, n: nat): seq<SA.Connection> {
    if n == 0 then conns else SA.Bumped(BumpedTimes(conns, from, to, n - 1), from, to)
  }

  /** `n` updates add `n` to the pair's count and to the total, and leave every other pair alone. */
  lemma {:induction false} BumpedTimesCounts(conns: seq<SA.Connection>, from: string, to: string, n: nat)
    requires SA.UniquePairs(conns)
    ensures SA.UniquePairs(BumpedTimes(conns, from, to, n))
    ensures SA.CountOf(BumpedTimes(conns, from, to, n), from, to) == SA.CountOf(conns, from, to) + n
    ensures forall a, b :: (a, b) != (from, to) ==>
                             SA.CountOf(BumpedTimes(conns, from, to, n), a, b) == SA.CountOf(conns, a, b)
    ensures SA.TotalCount(BumpedTimes(conns, from, to, n)) == SA.TotalCount(conns) + n
  {
    if n > 0 {
      BumpedTimesCounts(conns, from, to, n - 1);
      SA.BumpedCounts(BumpedTimes(conns, from, to, n - 1), from, to);
    }
  }

  /** `param1`, `param2`, ... for the captured groups, filled one group at a time. */
  method CapturedParameters(caps: seq<string>) returns (parameters: map<string, Value>)
    ensures parameters == CaptureParams(caps)
  {
    parameters := map[];
    var k := 0;
    while k < |caps|
      invariant 0 <= k <= |caps|
      invariant parameters == CaptureParams(caps[..k])
    {
      assert caps[..k + 1][..k] == caps[..k];
      parameters := parameters[ParamKey(k + 1) := Str(caps[k])];
      k := k + 1;
    }
    assert caps[..k] == caps;
  }

  /** The first matching entry decides the command. */
  lemma FirstMatchAt(cmds: seq<VoicePattern>, text: string, i: nat)
    requires i < |cmds| && MatchEntry(cmds[i].patterns, text).Some?
    requires forall i' :: 0 <= i' < i ==> MatchEntry(cmds[i'].patterns, text).None?
    ensures FirstMatch(cmds, text) == Some((i, MatchEntry(cmds[i].patterns, text).value))
  {
    var r := FirstMatch(cmds, text);
    assert r.Some?;
    assert r.value.0 == i;
  }

  // ----- the business intelligence agent's voice commands ------------------------------

  /** Lower-case text without white space at either end is its own normalisation. */
  lemma NormalizedAsIs(t: string)
    requires forall i :: 0 <= i < |t| ==> !Strings.IsUpper(t[i])
    requires t != [] ==> !Strings.IsSpace(t[0]) && !Strings.IsSpace(t[|t| - 1])
    ensures Normalize(t) == t
  {
    Strings.LowerOfLower(t);
    Strings.TrimUntouched(t);
  }

  /** A phrase holding, once lower-cased, a character the text lacks does not match it. */
  lemma PhraseMissing(t: string, p: Pattern, j: nat)
    requires p.Phrase? && j < |p.text| && Strings.LowerChar(p.text[j]) !in t
    ensures MatchPattern(p, t).None?
  {
    Strings.NotContainsMissingChar(t, Strings.Lower(p.text), j);
  }

  /** An entry of phrases each holding (at `at[i]`) a letter the text lacks does not match. */
  lemma EntryMissing(ps: seq<Pattern>, t: string, at: seq<nat>)
    requires |at| == |ps|
    requires forall i :: 0 <= i < |ps| ==>
               ps[i].Phrase? && at[i] < |ps[i].text| && Strings.LowerChar(ps[i].text[at[i]]) !in t
    ensures MatchEntry(ps, t).None?
  {
    forall i | 0 <= i < |ps|
      ensures MatchPattern(ps[i], t).None?
    {
      PhraseMissing(t, ps[i], at[i]);
    }
    MatchEntryNone(ps, t);
  }

  /** A phrase in lower case that the text starts with matches, capturing nothing. */
  lemma PhraseAtStart(t: string, p: Pattern)
    requires p.Phrase? && Strings.Lower(p.text) == p.text && Strings.StartsWith(t, p.text)
    ensures MatchPattern(p, t) == Some([])
  {
    assert Strings.OccursAt(t, p.text, 0);
    Strings.ContainsAt(t, p.text, 0);
  }

  /** `<prefix>(.*)`, in lower case, on text that starts with the prefix captures the rest of the line. */
  lemma PrefixCaptures(t: string, p: Pattern, rest: string)
    requires p.PhraseThenRest? && Strings.Lower(p.prefix) == p.prefix && t == p.prefix + rest
    requires forall k :: 0 <= k < |rest| ==> !Strings.IsLineTerminator(rest[k])
    ensures MatchPattern(p, t) == Some([rest])
  {
    assert t[0..|p.prefix|] == p.prefix;
    assert Strings.IndexOf(t, p.prefix, 0) == Some(0);
    assert t[|p.prefix|..] == rest;
    assert LineEnd(rest) == |rest| && rest[..|rest|] == rest;
    assert MatchPattern(p, t) == Some([rest[..LineEnd(rest)]]);
  }

  /** Normalised text that entry `i` matches, and no earlier entry, parses to entry `i`'s command. */
  lemma ParseAt(cmds: seq<VoicePattern>, t: string, i: nat, caps: seq<string>, now: int)
    requires Normalize(t) == t && i < |cmds|
    requires forall j :: 0 <= j < i ==> MatchEntry(cmds[j].patterns, t).None?
    requires MatchEntry(cmds[i].patterns, t) == Some(caps)
    ensures var c := Parse(cmds, t, now);
            c.Some? && c.value.action == cmds[i].action && c.value.parameters == CaptureParams(caps) + cmds[i].parameters
  {
    FirstMatchAt(cmds, t, i);
    assert FirstMatch(cmds, Normalize(t)) == Some((i, caps));
  }

  /** A single captured group is `param1`. */
  lemma OneCapture(x: string)
    ensures CaptureParams([x]) == map["param1" := Str(x)]
  {
    assert Strings.NatToString(1) == "1";
    assert ParamKey(1) == "param1";
    assert [x][..0] == [];
  }

  /** The business intelligence agent's first three entries: their actions and (empty) static parameters. */
  lemma FirstEntries()
    ensures BI.VoiceCommands[0].action == "get_revenue" && BI.VoiceCommands[0].parameters == map[]
    ensures BI.VoiceCommands[2].action == "get_revenue_period" && BI.VoiceCommands[2].parameters == map[]
  {
  }

  /** Text starting with "show revenue" matches the first entry. */
  lemma RevenueEntryMatches(t: string)
    requires Strings.StartsWith(t, "show revenue")
    ensures MatchEntry(BI.VoiceCommands[0].patterns, t) == Some([])
  {
    var ps := BI.VoiceCommands[0].patterns;
    Strings.LowerOfLower(ps[0].text);
    PhraseAtStart(t, ps[0]);
  }

  /** Text without 'w', 'd' and 'i' misses every phrase of the first entry. */
  lemma RevenueEntrySkipped(t: string)
    requires 'w' !in t && 'd' !in t && 'i' !in t
    ensures MatchEntry(BI.VoiceCommands[0].patterns, t).None?
  {
    EntryMissing(BI.VoiceCommands[0].patterns, t, [3, 0, 1, 2]);
  }

  /** Text without 'w', 'd' and 'p' misses every phrase of the second entry. */
  lemma ExpensesEntrySkipped(t: string)
    requires 'w' !in t && 'd' !in t && 'p' !in t
    ensures MatchEntry(BI.VoiceCommands[1].patterns, t).None?
  {
    EntryMissing(BI.VoiceCommands[1].patterns, t, [3, 0, 1]);
  }

  /** "revenue for <rest>" is captured by the period entry's first pattern. */
  lemma PeriodEntryCaptures(t: string, rest: string)
    requires t == "revenue for " + rest
    requires forall k :: 0 <= k < |rest| ==> !Strings.IsLineTerminator(rest[k])
    ensures MatchEntry(BI.VoiceCommands[2].patterns, t) == Some([rest])
  {
    var p := BI.VoiceCommands[2].patterns[0];
    Strings.LowerOfLower(p.prefix);
    PrefixCaptures(t, p, rest);
  }

  /**
   * Normalised text starting with "show revenue" parses to the first entry, `get_revenue`,
   * without parameters, whatever follows: "show revenue for march" never reaches the period entry.
   */
  lemma RevenueRequest(t: string, now: int)
    requires Normalize(t) == t && Strings.StartsWith(t, "show revenue")
    ensures var c := Parse(BI.VoiceCommands, t, now);
            c.Some? && c.value.action == "get_revenue" && c.value.parameters == map[]
  {
    RevenueEntryMatches(t);
    ParseAt(BI.VoiceCommands, t, 0, [], now);
    FirstEntries();
  }

  /** The letters of the period prefix. */
  lemma PeriodPrefixLetters()
    ensures 'w' !in "revenue for " && 'd' !in "revenue for " && 'i' !in "revenue for " && 'p' !in "revenue for "
    ensures forall k :: 0 <= k < |"revenue for "| ==> !Strings.IsUpper("revenue for "[k])
    ensures !Strings.IsSpace("revenue for "[0])
  {
  }

  /** "revenue for <rest>" is normalised text without the letters 'w', 'd', 'i' and 'p' when `rest` is. */
  lemma PeriodText(rest: string)
    requires rest != [] && !Strings.IsSpace(rest[|rest| - 1])
    requires forall k :: 0 <= k < |rest| ==> !Strings.IsUpper(rest[k])
    requires 'w' !in rest && 'd' !in rest && 'i' !in rest && 'p' !in rest
    ensures var t := "revenue for " + rest;
            Normalize(t) == t && 'w' !in t && 'd' !in t && 'i' !in t && 'p' !in t
  {
    var t := "revenue for " + rest;
    PeriodPrefixLetters();
    assert forall k :: 0 <= k < |t| ==> !Strings.IsUpper(t[k]) by {
      forall k | 0 <= k < |t|
        ensures !Strings.IsUpper(t[k])
      {
        if k >= 12 { assert t[k] == rest[k - 12]; }
      }
    }
    NormalizedAsIs(t);
  }

  /**
   * "revenue for <rest>", where `rest` is lower-case text on one line without trailing white
   * space and without the letters 'w', 'd', 'i' and 'p' (one from each phrase of the first two
   * entries), parses to `get_revenue_period` with `rest` as `param1`.
   */
  lemma PeriodRequest(rest: string, now: int)
    requires rest != [] && !Strings.IsSpace(rest[|rest| - 1])
    requires forall k :: 0 <= k < |rest| ==> !Strings.IsUpper(rest[k]) && !Strings.IsLineTerminator(rest[k])
    requires 'w' !in rest && 'd' !in rest && 'i' !in rest && 'p' !in rest
    ensures var c := Parse(BI.VoiceCommands, "revenue for " + rest, now);
            c.Some? && c.value.action == "get_revenue_period" && c.value.parameters == map["param1" := Str(rest)]
  {
    var t := "revenue for " + rest;
    PeriodText(rest);
    RevenueEntrySkipped(t);
    ExpensesEntrySkipped(t);
    PeriodEntryCaptures(t, rest);
    forall j | 0 <= j < 2
      ensures MatchEntry(BI.VoiceCommands[j].patterns, t).None?
    {
      if j == 0 {} else {}
    }
    ParseAt(BI.VoiceCommands, t, 2, [rest], now);
    FirstEntries();
    OneCapture(rest);
  }

  /** "show revenue for march" is claimed by `get_revenue`, the earlier entry. */
  lemma ShowRevenueForMarch(now: int)
    ensures var c := Parse(BI.VoiceCommands, "show revenue for march", now);
            c.Some? && c.value.action == "get_revenue" && c.value.parameters == map[]
  {
    NormalizedAsIs("show revenue for march");
    RevenueRequest("show revenue for march", now);
  }

  /** "revenue for march" reaches `get_revenue_period`, and its `(.*)` group becomes `param1`. */
  lemma RevenueForMarch(now: int)
    ensures var c := Parse(BI.VoiceCommands, "revenue for march", now);
            c.Some? && c.value.action == "get_revenue_period" && c.value.parameters == map["param1" := Str("march")]
  {
    assert "revenue for march" == "revenue for " + "march";
    PeriodRequest("march", now);
  }
}
