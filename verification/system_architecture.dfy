/**
 * Agent #31, System Architecture: what the agent records about inter-agent traffic (a
 * de-duplicated connection counter, a bounded message log, a metrics record) and the views
 * its five actions compute from that record, with the sentences its voice replies are made
 * of. The fields themselves live in `Agents.Agent`; this module holds what is computed from
 * them.
 */
module SystemArchitecture {
  import opened Wrappers
  import opened Strings
  import opened Json
  import opened Protocol
  import opened McpAgent

  const AgentNumber := 31
  const Name := "System Architecture"
  const Description := "Real-time system visualization and monitoring"

  /** The voice commands `initialize` registers, in registration order. */
  const VoiceCommands: seq<VoicePattern> := [
    VoicePattern([Phrase("show system diagram"), Phrase("display architecture"), Phrase("system overview")],
                 "get_diagram", map[], "Display system architecture diagram"),
    VoicePattern([Phrase("system health"), Phrase("performance metrics"), Phrase("system status")],
                 "get_metrics", map[], "Show system performance metrics"),
    VoicePattern([Phrase("show connections"), Phrase("agent connections"), Phrase("communication map")],
                 "get_connections", map[], "Display agent communication paths"),
    VoicePattern([Phrase("show data flow"), Phrase("trace data"), Phrase("data pipeline")],
                 "get_data_flow", map[], "Show how data flows through the system"),
    VoicePattern([Phrase("active agents"), Phrase("running agents"), Phrase("agent status")],
                 "get_active_agents", map[], "List all active agents")
  ]

  /** The actions `execute` dispatches on. */
  const Actions: set<string> :=
    {"get_diagram", "get_metrics", "get_connections", "get_data_flow", "get_active_agents"}

  /** How many messages the log keeps. */
  const LogLimit := 1000
  /** How many log entries `getDataFlow` shows. */
  const RecentLimit := 20
  /** How many slow entries `identifyBottlenecks` reports. */
  const BottleneckLimit := 10
  /** How many flow patterns `analyzeFlowPatterns` reports. */
  const PatternLimit := 5
  /** A logged message is slow when its duration exceeds this many milliseconds. */
  const SlowMs := 1000

  function Min(a: int, b: int): int { if a <= b then a else b }

  // ----- the connection counter ------------------------------------------------------------

  /** A directed sender/receiver pair and how many messages went along it (its type is always `message`). */
  datatype Connection = Connection(from: string, to: string, count: nat)

  predicate SamePair(c: Connection, from: string, to: string) {
    c.from == from && c.to == to
  }

  /** `connections.find(c => c.from === from && c.to === to)`, as an index. */
  function FindPair(conns: seq<Connection>, from: string, to: string): (r: Option<nat>)
    ensures r.None? <==> forall i :: 0 <= i < |conns| ==> !SamePair(conns[i], from, to)
    ensures r.Some? ==> r.value < |conns| && SamePair(conns[r.value], from, to)
    ensures r.Some? ==> forall i :: 0 <= i < r.value ==> !SamePair(conns[i], from, to)
  {
    if conns == [] then None
    else if SamePair(conns[0], from, to) then Some(0)
    else
      var tail := conns[1..];
      assert forall i :: 1 <= i < |conns| ==> tail[i - 1] == conns[i];
      match FindPair(tail, from, to)
      case None => None
      case Some(i) => Some(i + 1)
  }

  /** How many messages the counter holds for a pair (0 when it has none). */
  function CountOf(conns: seq<Connection>, from: string, to: string): nat {
    match FindPair(conns, from, to)
    case None => 0
    case Some(i) => conns[i].count
  }

  /** `updateConnections(from, to)`: bump the pair's count, or append it with count 1. */
  function Bumped(conns: seq<Connection>, from: string, to: string): (r: seq<Connection>)
    ensures |r| == |conns| + (if FindPair(conns, from, to).None? then 1 else 0)
    ensures forall i :: 0 <= i < |conns| && !SamePair(conns[i], from, to) ==> r[i] == conns[i]
  {
    match FindPair(conns, from, to)
    case Some(i) => conns[i := conns[i].(count := conns[i].count + 1)]
    case None => conns + [Connection(from, to, 1)]
  }

  /** No pair occurs twice. */
  predicate UniquePairs(conns: seq<Connection>) {
    forall i, j :: 0 <= i < j < |conns| ==> !SamePair(conns[j], conns[i].from, conns[i].to)
  }

  /** The sum of all counts. */
  function TotalCount(conns: seq<Connection>): nat {
    if conns == [] then 0 else conns[0].count + TotalCount(conns[1..])
  }

  lemma {:induction false} TotalCountAppend(conns: seq<Connection>, c: Connection)
    ensures TotalCount(conns + [c]) == TotalCount(conns) + c.count
  {
    if conns != [] {
      assert (conns + [c])[1..] == conns[1..] + [c];
      TotalCountAppend(conns[1..], c);
    }
  }

  lemma {:induction false} TotalCountUpdate(conns: seq<Connection>, i: nat, c: Connection)
    requires i < |conns|
    ensures TotalCount(conns[i := c]) == TotalCount(conns) - conns[i].count + c.count
  {
    if i > 0 {
      assert conns[i := c][1..] == conns[1..][i - 1 := c];
      TotalCountUpdate(conns[1..], i - 1, c);
    }
  }

  /** An update never creates a second entry for a pair. */
  lemma BumpedUnique(conns: seq<Connection>, from: string, to: string)
    requires UniquePairs(conns)
    ensures UniquePairs(Bumped(conns, from, to))
  {
  }

  /** An update adds one message in total. */
  lemma BumpedTotal(conns: seq<Connection>, from: string, to: string)
    ensures TotalCount(Bumped(conns, from, to)) == TotalCount(conns) + 1
  {
    match FindPair(conns, from, to)
    case Some(i) => TotalCountUpdate(conns, i, conns[i].(count := conns[i].count + 1));
    case None => TotalCountAppend(conns, Connection(from, to, 1));
  }

  /** An update adds one message to its own pair. */
  lemma BumpedOwn(conns: seq<Connection>, from: string, to: string)
    ensures CountOf(Bumped(conns, from, to), from, to) == CountOf(conns, from, to) + 1
  {
    var r := Bumped(conns, from, to);
    match FindPair(conns, from, to)
    case Some(i) =>
      assert SamePair(r[i], from, to);
      assert forall k :: 0 <= k < i ==> r[k] == conns[k];
      assert FindPair(r, from, to) == Some(i);
    case None =>
      assert SamePair(r[|conns|], from, to);
      assert forall k :: 0 <= k < |conns| ==> r[k] == conns[k];
      assert FindPair(r, from, to) == Some(|conns|);
  }

  /** An update leaves the count of every other pair alone. */
  lemma BumpedOthers(conns: seq<Connection>, from: string, to: string, a: string, b: string)
    requires (a, b) != (from, to)
    ensures CountOf(Bumped(conns, from, to), a, b) == CountOf(conns, a, b)
  {
    var r := Bumped(conns, from, to);
    assert forall k :: 0 <= k < |conns| ==> (SamePair(r[k], a, b) <==> SamePair(conns[k], a, b));
    match FindPair(conns, a, b)
    case None =>
      assert FindPair(r, a, b).None?;
    case Some(k) =>
      assert forall j :: 0 <= j <= k ==> r[j].from == conns[j].from && r[j].to == conns[j].to;
      assert FindPair(r, a, b) == Some(k);
  }

  /**
   * One update adds exactly one message to its own pair and leaves every other pair's count
   * alone; pairs stay unique and the counts grow by one in total.
   */
  lemma BumpedCounts(conns: seq<Connection>, from: string, to: string)
    requires UniquePairs(conns)
    ensures UniquePairs(Bumped(conns, from, to))
    ensures CountOf(Bumped(conns, from, to), from, to) == CountOf(conns, from, to) + 1
    ensures forall a, b :: (a, b) != (from, to) ==> CountOf(Bumped(conns, from, to), a, b) == CountOf(conns, a, b)
    ensures TotalCount(Bumped(conns, from, to)) == TotalCount(conns) + 1
  {
    BumpedUnique(conns, from, to);
    BumpedOwn(conns, from, to);
    BumpedTotal(conns, from, to);
    forall a, b | (a, b) != (from, to)
      ensures CountOf(Bumped(conns, from, to), a, b) == CountOf(conns, a, b)
    {
      BumpedOthers(conns, from, to, a, b);
    }
  }

  /** The counter after a sequence of updates, starting from an empty one (as after `cleanup`). */
  function Counter(pairs: seq<(string, string)>): seq<Connection> {
    if pairs == [] then []
    else Bumped(Counter(pairs[..|pairs| - 1]), pairs[|pairs| - 1].0, pairs[|pairs| - 1].1)
  }

  /** Every pair occurs once in the counter, and the counts sum to the number of updates. */
  lemma {:induction false} CounterInvariant(pairs: seq<(string, string)>)
    ensures UniquePairs(Counter(pairs))
    ensures TotalCount(Counter(pairs)) == |pairs|
  {
    if pairs != [] {
      CounterInvariant(pairs[..|pairs| - 1]);
      BumpedCounts(Counter(pairs[..|pairs| - 1]), pairs[|pairs| - 1].0, pairs[|pairs| - 1].1);
    }
  }

  /**
   * `getMostActiveConnection`: `reduce((prev, cur) => prev && prev.count > cur.count ? prev : cur, null)`,
   * as an index: a connection with the largest count, the last such one on a tie.
   */
  function MostActive(conns: seq<Connection>): (r: Option<nat>)
    ensures r.None? <==> conns == []
    ensures r.Some? ==> r.value < |conns|
    ensures r.Some? ==> forall j :: 0 <= j < |conns| ==> conns[j].count <= conns[r.value].count
    ensures r.Some? ==> forall j :: r.value < j < |conns| ==> conns[j].count < conns[r.value].count
  {
    if conns == [] then None
    else
      var last := |conns| - 1;
      match MostActive(conns[..last])
      case None => Some(last)
      case Some(p) => if conns[p].count > conns[last].count then Some(p) else Some(last)
  }

  // ----- the message log -------------------------------------------------------------------

  /** `logMessage`: append, then keep the newest `LogLimit` entries. */
  function Logged(log: seq<Message>, m: Message): (r: seq<Message>)
    ensures |r| == Min(|log| + 1, LogLimit)
    ensures r[|r| - 1] == m
  {
    var appended := log + [m];
    if |appended| > LogLimit then appended[|appended| - LogLimit..] else appended
  }

  /** The log after logging `ms` in order, starting from an empty one. */
  function LogOf(ms: seq<Message>): seq<Message> {
    if ms == [] then [] else Logged(LogOf(ms[..|ms| - 1]), ms[|ms| - 1])
  }

  /** The newest `LogLimit` entries of `ms` (all of them while there are fewer). */
  function Newest(ms: seq<Message>): (r: seq<Message>)
    ensures |r| == Min(|ms|, LogLimit)
    ensures |ms| <= LogLimit ==> r == ms
  {
    ms[|ms| - Min(|ms|, LogLimit)..]
  }

  /** Logging one more message into a log that holds the newest entries of `ms` gives the newest of `ms + [m]`. */
  lemma LoggedNewest(ms: seq<Message>, m: Message)
    ensures Logged(Newest(ms), m) == Newest(ms + [m])
  {
    if |ms| >= LogLimit {
      var start := |ms| - LogLimit;
      assert Newest(ms) == ms[start..];
      assert (ms[start..] + [m])[1..] == ms[start + 1..] + [m];
      assert (ms + [m])[start + 1..] == ms[start + 1..] + [m];
    }
  }

  /** The log always holds exactly the newest `LogLimit` messages logged since it was empty. */
  lemma {:induction false} LogKeepsNewest(ms: seq<Message>)
    ensures LogOf(ms) == Newest(ms)
  {
    if ms != [] {
      var init := ms[..|ms| - 1];
      LogKeepsNewest(init);
      LoggedNewest(init, ms[|ms| - 1]);
      assert init + [ms[|ms| - 1]] == ms;
    }
  }

  /** `messageLog.slice(-20)`. */
  function RecentFlow(log: seq<Message>): (r: seq<Message>)
    ensures |r| == Min(|log|, RecentLimit)
    ensures r == log[|log| - |r|..]
  {
    log[|log| - Min(|log|, RecentLimit)..]
  }

  /** `log.duration && log.duration > 1000`. */
  predicate Slow(m: Message) {
    m.duration.Some? && m.duration.value > SlowMs
  }

  /** The slow entries, in log order. */
  function SlowEntries(log: seq<Message>): (r: seq<Message>)
    ensures |r| <= |log|
    ensures forall i :: 0 <= i < |r| ==> Slow(r[i]) && r[i] in log
  {
    if log == [] then []
    else SlowEntries(log[..|log| - 1]) + (if Slow(log[|log| - 1]) then [log[|log| - 1]] else [])
  }

  /** Every slow entry of the log is among the slow entries. */
  lemma {:induction false} SlowEntriesComplete(log: seq<Message>)
    ensures forall i :: 0 <= i < |log| && Slow(log[i]) ==> log[i] in SlowEntries(log)
  {
    if log != [] {
      SlowEntriesComplete(log[..|log| - 1]);
      assert forall i :: 0 <= i < |log| - 1 ==> log[i] == log[..|log| - 1][i];
    }
  }

  /** `identifyBottlenecks`: the newest `BottleneckLimit` slow entries, in log order. */
  function Bottlenecks(log: seq<Message>): (r: seq<Message>)
    ensures |r| == Min(|SlowEntries(log)|, BottleneckLimit)
    ensures r == SlowEntries(log)[|SlowEntries(log)| - |r|..]
    ensures forall i :: 0 <= i < |r| ==> Slow(r[i]) && r[i] in log
  {
    var slow := SlowEntries(log);
    slow[|slow| - Min(|slow|, BottleneckLimit)..]
  }

  // ----- uptime ------------------------------------------------------------------------------

  /** JavaScript's `a % b` for a positive `b`: the remainder has the sign of `a`. */
  function JsRem(a: int, b: nat): (r: int)
    requires b > 0
    ensures a >= 0 ==> 0 <= r < b
    ensures a < 0 ==> -(b as int) < r <= 0
  {
    if a >= 0 then a % b else -((-a) % b)
  }

  /**
   * The parts `formatUptime(seconds)` prints: `Math.floor(s / 3600)` hours,
   * `Math.floor((s % 3600) / 60)` minutes and `s % 60` seconds.
   */
  function UptimeSplit(seconds: int): (int, int, int) {
    (seconds / 3600, JsRem(seconds, 3600) / 60, JsRem(seconds, 60))
  }

  /** `formatUptime(seconds)`: `<h>h <m>m <sec>s`. */
  function FormatUptime(seconds: int): string {
    var (hours, minutes, secs) := UptimeSplit(seconds);
    IntToString(hours) + "h " + IntToString(minutes) + "m " + IntToString(secs) + "s"
  }

  /** For a non-negative uptime the three parts recombine to it, with minutes and seconds below 60. */
  lemma UptimeParts(seconds: nat)
    ensures var (h, m, s) := UptimeSplit(seconds);
            h >= 0 && 0 <= m < 60 && 0 <= s < 60 && h * 3600 + m * 60 + s == seconds
  {
    var q := seconds % 3600;
    var h := seconds / 3600;
    var m := q / 60;
    assert seconds == h * 3600 + q;
    assert q == m * 60 + q % 60;
    assert seconds == (h * 60 + m) * 60 + q % 60;
    DivUnique(seconds, h * 60 + m, q % 60);
  }

  /** The uptime text reads back the hours, minutes and seconds it was made of. */
  lemma FormatUptimeOf(h: nat, m: nat, sec: nat)
    requires m < 60 && sec < 60
    ensures FormatUptime(h * 3600 + m * 60 + sec)
            == NatToString(h) + "h " + NatToString(m) + "m " + NatToString(sec) + "s"
  {
    UptimeSplitOf(h, m, sec);
  }

  /** Splitting an uptime recovers the hours, minutes and seconds it was made of. */
  lemma UptimeSplitOf(h: nat, m: nat, sec: nat)
    requires m < 60 && sec < 60
    ensures UptimeSplit(h * 3600 + m * 60 + sec) == (h, m, sec)
  {
    var x := h * 3600 + m * 60 + sec;
    DivUnique3600(x, h, m * 60 + sec);
    DivUnique(m * 60 + sec, m, sec);
    assert x == (h * 60 + m) * 60 + sec;
    DivUnique(x, h * 60 + m, sec);
  }

  /** Division by 3600 is determined by any quotient/remainder pair. */
  lemma DivUnique3600(x: int, k: int, r: int)
    requires x == k * 3600 + r && 0 <= r < 3600
    ensures x % 3600 == r && x / 3600 == k
  {
  }

  /** Division by 60 is determined by any quotient/remainder pair. */
  lemma DivUnique(x: int, k: int, r: int)
    requires x == k * 60 + r && 0 <= r < 60
    ensures x % 60 == r && x / 60 == k
  {
  }

  // ----- agent numbers -----------------------------------------------------------------------

  /** `AGENT_NAMES` in key order: every known agent number with its display name. */
  const AgentNames: seq<(int, string)> := [
    (1, "Business Intelligence"), (7, "Web Scraping"), (8, "Social Media"), (15, "Invoicing"),
    (18, "Research"), (29, "Publishing"), (30, "System Rules"), (31, "System Architecture"),
    (32, "Password Vault"), (33, "Personal Directory")
  ]

  /** `getAgentNumber(name)`: the number of the first entry with that name, 0 when there is none. */
  function AgentNumberOf(name: string): (n: int)
    ensures n == 0 <==> forall i :: 0 <= i < |AgentNames| ==> AgentNames[i].1 != name
  {
    NumberIn(AgentNames, name)
  }

  function NumberIn(entries: seq<(int, string)>, name: string): (n: int)
    requires forall i :: 0 <= i < |entries| ==> entries[i].0 > 0
    ensures n == 0 <==> forall i :: 0 <= i < |entries| ==> entries[i].1 != name
    ensures n != 0 ==> exists i :: 0 <= i < |entries| && entries[i] == (n, name)
  {
    if entries == [] then 0
    else if entries[0].1 == name then entries[0].0
    else NumberIn(entries[1..], name)
  }

  /** In a table whose names are distinct up to `i`, the name at `i` looks up its own number. */
  lemma {:induction false} NumberInAt(entries: seq<(int, string)>, i: nat)
    requires forall k :: 0 <= k < |entries| ==> entries[k].0 > 0
    requires i < |entries| && forall j :: 0 <= j < i ==> entries[j].1 != entries[i].1
    ensures NumberIn(entries, entries[i].1) == entries[i].0
  {
    if i > 0 {
      NumberInAt(entries[1..], i - 1);
    }
  }

  /** Every known name maps back to its own number. */
  lemma AgentNumberOfNames()
    ensures forall i :: 0 <= i < |AgentNames| ==> AgentNumberOf(AgentNames[i].1) == AgentNames[i].0
  {
    forall i | 0 <= i < |AgentNames|
      ensures AgentNumberOf(AgentNames[i].1) == AgentNames[i].0
    {
      assert forall j :: 0 <= j < i ==> AgentNames[j].1 != AgentNames[i].1;
      NumberInAt(AgentNames, i);
    }
  }

  // ----- keyed entries --------------------------------------------------------------------

  /** The position of key `k` in a list of entries (a plain object's own keys, in insertion order). */
  function KeyIndex<V>(entries: seq<(string, V)>, k: string): (r: Option<nat>)
    ensures r.None? <==> forall i :: 0 <= i < |entries| ==> entries[i].0 != k
    ensures r.Some? ==> r.value < |entries| && entries[r.value].0 == k
    ensures r.Some? ==> forall i :: 0 <= i < r.value ==> entries[i].0 != k
  {
    if entries == [] then None
    else if entries[0].0 == k then Some(0)
    else
      var tail := entries[1..];
      assert forall i :: 1 <= i < |entries| ==> tail[i - 1] == entries[i];
      match KeyIndex(tail, k)
      case None => None
      case Some(i) => Some(i + 1)
  }

  predicate DistinctKeys<V>(entries: seq<(string, V)>) {
    forall i, j :: 0 <= i < j < |entries| ==> entries[i].0 != entries[j].0
  }

  predicate Distinct(s: seq<string>) {
    forall i, j :: 0 <= i < j < |s| ==> s[i] != s[j]
  }

  // ----- the connection map ----------------------------------------------------------------

  /** `Record<string, string[]>`: each sender with the receivers it has reached. */
  type Adjacency = seq<(string, seq<string>)>

  /** One step of `buildConnectionMap`: create the sender's list if needed, then add the receiver unless present. */
  function AddEdge(m: Adjacency, from: string, to: string): Adjacency {
    match KeyIndex(m, from)
    case None => m + [(from, [to])]
    case Some(i) => if to in m[i].1 then m else m[i := (from, m[i].1 + [to])]
  }

  /** `buildConnectionMap()` over the connections in list order. */
  function ConnectionMapOf(conns: seq<Connection>): Adjacency {
    if conns == [] then []
    else AddEdge(ConnectionMapOf(conns[..|conns| - 1]), conns[|conns| - 1].from, conns[|conns| - 1].to)
  }

  /** Each sender appears once and lists each receiver once. */
  predicate WellFormedMap(m: Adjacency) {
    DistinctKeys(m) && forall k :: 0 <= k < |m| ==> Distinct(m[k].1)
  }

  predicate HasEdge(m: Adjacency, from: string, to: string) {
    exists k :: 0 <= k < |m| && m[k].0 == from && to in m[k].1
  }

  lemma AddEdgeProps(m: Adjacency, from: string, to: string)
    requires WellFormedMap(m)
    ensures WellFormedMap(AddEdge(m, from, to))
    ensures forall a, b :: HasEdge(AddEdge(m, from, to), a, b) <==> HasEdge(m, a, b) || (a, b) == (from, to)
  {
    var r := AddEdge(m, from, to);
    match KeyIndex(m, from)
    case None =>
      assert r[|m|].0 == from && to in r[|m|].1;
      forall a, b | HasEdge(r, a, b)
        ensures HasEdge(m, a, b) || (a, b) == (from, to)
      {
        var k :| 0 <= k < |r| && r[k].0 == a && b in r[k].1;
        if k < |m| { assert m[k] == r[k]; }
      }
      forall a, b | HasEdge(m, a, b)
        ensures HasEdge(r, a, b)
      {
        var k :| 0 <= k < |m| && m[k].0 == a && b in m[k].1;
        assert r[k] == m[k];
      }
    case Some(i) =>
      if to !in m[i].1 {
        assert r[i].0 == from && to in r[i].1;
        forall a, b | HasEdge(r, a, b)
          ensures HasEdge(m, a, b) || (a, b) == (from, to)
        {
          var k :| 0 <= k < |r| && r[k].0 == a && b in r[k].1;
          if k != i { assert m[k] == r[k]; }
          else if b != to { assert b in m[i].1; }
        }
        forall a, b | HasEdge(m, a, b)
          ensures HasEdge(r, a, b)
        {
          var k :| 0 <= k < |m| && m[k].0 == a && b in m[k].1;
          assert b in r[k].1;
        }
      }
  }

  /**
   * The connection map lists every sender once, each of its receivers once, and holds exactly
   * the pairs of the connection list.
   */
  lemma {:induction false} ConnectionMapExact(conns: seq<Connection>)
    ensures WellFormedMap(ConnectionMapOf(conns))
    ensures forall a, b :: HasEdge(ConnectionMapOf(conns), a, b) <==>
                           exists i :: 0 <= i < |conns| && SamePair(conns[i], a, b)
  {
    if conns != [] {
      var init := conns[..|conns| - 1];
      var last := conns[|conns| - 1];
      ConnectionMapExact(init);
      AddEdgeProps(ConnectionMapOf(init), last.from, last.to);
      forall a, b
        ensures HasEdge(ConnectionMapOf(conns), a, b) <==> exists i :: 0 <= i < |conns| && SamePair(conns[i], a, b)
      {
        if HasEdge(ConnectionMapOf(init), a, b) {
          var i :| 0 <= i < |init| && SamePair(init[i], a, b);
          assert SamePair(conns[i], a, b);
        }
        if exists i :: 0 <= i < |conns| && SamePair(conns[i], a, b) {
          var i :| 0 <= i < |conns| && SamePair(conns[i], a, b);
          if i < |init| { assert SamePair(init[i], a, b); }
        }
      }
    }
  }

  /** `buildConnectionMap`, filling the dictionary connection by connection. */
  method BuildConnectionMap(conns: seq<Connection>) returns (m: Adjacency)
    ensures m == ConnectionMapOf(conns)
  {
    m := [];
    var i := 0;
    while i < |conns|
      invariant 0 <= i <= |conns|
      invariant m == ConnectionMapOf(conns[..i])
    {
      assert conns[..i + 1][..i] == conns[..i];
      m := AddEdge(m, conns[i].from, conns[i].to);
      i := i + 1;
    }
    assert conns[..|conns|] == conns;
  }

  // ----- flow patterns ---------------------------------------------------------------------

  /** `${log.action}` for a logged message (a missing action reads as `undefined`). */
  function ActionText(a: Option<string>): string {
    if a.None? then "undefined" else a.value
  }

  /** The pattern of two consecutive log entries: `<prev action> -> <action>`. */
  function PairKey(prev: Message, next: Message): string {
    ActionText(prev.action) + " -> " + ActionText(next.action)
  }

  /** Pattern counts, in first-seen order. */
  type Tally = seq<(string, nat)>

  /** `patterns[k] = (patterns[k] || 0) + 1`. */
  function Counted(t: Tally, k: string): Tally {
    match KeyIndex(t, k)
    case None => t + [(k, 1)]
    case Some(i) => t[i := (k, t[i].1 + 1)]
  }

  /** How often pattern `k` has been counted (0 when it has not). */
  function KeyCount(t: Tally, k: string): nat {
    match KeyIndex(t, k)
    case None => 0
    case Some(i) => t[i].1
  }

  function SumCounts(t: Tally): nat {
    if t == [] then 0 else SumCounts(t[..|t| - 1]) + t[|t| - 1].1
  }

  /** The counts `analyzeFlowPatterns` collects over the whole log. */
  function PairCounts(log: seq<Message>): Tally {
    if |log| < 2 then []
    else Counted(PairCounts(log[..|log| - 1]), PairKey(log[|log| - 2], log[|log| - 1]))
  }

  /** How many consecutive pairs of the log have pattern `k`. */
  function Transitions(log: seq<Message>, k: string): nat {
    if |log| < 2 then 0
    else Transitions(log[..|log| - 1], k) + (if PairKey(log[|log| - 2], log[|log| - 1]) == k then 1 else 0)
  }

  lemma {:induction false} SumCountsUpdate(t: Tally, i: nat, e: (string, nat))
    requires i < |t|
    ensures SumCounts(t[i := e]) == SumCounts(t) - t[i].1 + e.1
  {
    if i < |t| - 1 {
      assert t[i := e][..|t| - 1] == t[..|t| - 1][i := e];
      SumCountsUpdate(t[..|t| - 1], i, e);
    } else {
      assert t[i := e][..|t| - 1] == t[..|t| - 1];
    }
  }

  /** Counting one pattern keeps the keys distinct and adds one to the total. */
  lemma CountedSum(t: Tally, k: string)
    requires DistinctKeys(t)
    ensures DistinctKeys(Counted(t, k))
    ensures SumCounts(Counted(t, k)) == SumCounts(t) + 1
  {
    match KeyIndex(t, k)
    case None =>
      assert Counted(t, k)[..|t|] == t;
    case Some(i) =>
      SumCountsUpdate(t, i, (k, t[i].1 + 1));
  }

  /** Counting one pattern adds one to it and leaves every other pattern's count alone. */
  lemma CountedKeyCount(t: Tally, k: string)
    ensures forall j :: KeyCount(Counted(t, k), j) == KeyCount(t, j) + (if j == k then 1 else 0)
  {
    var r := Counted(t, k);
    assert forall x :: 0 <= x < |t| ==> r[x].0 == t[x].0;
    match KeyIndex(t, k)
    case None =>
      assert r[|t|].0 == k;
      assert KeyIndex(r, k) == Some(|t|);
    case Some(i) =>
      assert KeyIndex(r, k) == Some(i);
    forall j | j != k
      ensures KeyCount(r, j) == KeyCount(t, j)
    {
      match KeyIndex(t, j)
      case None => assert KeyIndex(r, j).None?;
      case Some(x) => assert KeyIndex(r, j) == Some(x);
    }
  }

  /**
   * The collected counts name each pattern once, give each the number of consecutive pairs
   * that have it, and sum to the log length minus one.
   */
  lemma {:induction false} PairCountsExact(log: seq<Message>)
    ensures DistinctKeys(PairCounts(log))
    ensures forall k :: KeyCount(PairCounts(log), k) == Transitions(log, k)
    ensures SumCounts(PairCounts(log)) == if log == [] then 0 else |log| - 1
  {
    if |log| >= 2 {
      var init := log[..|log| - 1];
      PairCountsExact(init);
      assert init[|init| - 1] == log[|log| - 2];
      CountedSum(PairCounts(init), PairKey(log[|log| - 2], log[|log| - 1]));
      CountedKeyCount(PairCounts(init), PairKey(log[|log| - 2], log[|log| - 1]));
    }
  }

  /** Non-increasing counts. */
  predicate SortedByCount(t: Tally) {
    forall i, j :: 0 <= i < j < |t| ==> t[i].1 >= t[j].1
  }

  /** Insert `x` after every entry with a count at least as large (this keeps the sort stable). */
  function Insert(sorted: Tally, x: (string, nat)): (r: Tally)
    ensures multiset(r) == multiset(sorted) + multiset{x}
    ensures |r| == |sorted| + 1
  {
    if sorted == [] || sorted[|sorted| - 1].1 >= x.1 then sorted + [x]
    else
      var init := sorted[..|sorted| - 1];
      assert sorted == init + [sorted[|sorted| - 1]];
      Insert(init, x) + [sorted[|sorted| - 1]]
  }

  lemma {:induction false} InsertSorted(sorted: Tally, x: (string, nat))
    requires SortedByCount(sorted)
    ensures SortedByCount(Insert(sorted, x))
  {
    if !(sorted == [] || sorted[|sorted| - 1].1 >= x.1) {
      var init := sorted[..|sorted| - 1];
      InsertSorted(init, x);
      InsertBound(init, x, sorted[|sorted| - 1].1);
    }
  }

  /** Inserting keeps a lower bound every entry meets. */
  lemma {:induction false} InsertBound(sorted: Tally, x: (string, nat), b: nat)
    requires forall i :: 0 <= i < |sorted| ==> sorted[i].1 >= b
    requires x.1 >= b
    ensures forall i :: 0 <= i < |Insert(sorted, x)| ==> Insert(sorted, x)[i].1 >= b
  {
    if !(sorted == [] || sorted[|sorted| - 1].1 >= x.1) {
      InsertBound(sorted[..|sorted| - 1], x, b);
    }
  }


  /** `Object.entries(patterns).sort((a, b) => b[1] - a[1])`: a stable sort by descending count. */
  function SortByCount(t: Tally): (r: Tally)
    ensures multiset(r) == multiset(t)
    ensures |r| == |t|
  {
    if t == [] then []
    else
      assert t == t[..|t| - 1] + [t[|t| - 1]];
      Insert(SortByCount(t[..|t| - 1]), t[|t| - 1])
  }

  lemma {:induction false} SortByCountSorted(t: Tally)
    ensures SortedByCount(SortByCount(t))
  {
    if t != [] {
      SortByCountSorted(t[..|t| - 1]);
      InsertSorted(SortByCount(t[..|t| - 1]), t[|t| - 1]);
    }
  }

  /** `analyzeFlowPatterns()`: the `PatternLimit` most frequent patterns. */
  function FlowPatternsOf(log: seq<Message>): Tally {
    var sorted := SortByCount(PairCounts(log));
    sorted[..Min(PatternLimit, |sorted|)]
  }

  /** The reported patterns are at most five, in descending order of count. */
  lemma FlowPatternsSorted(log: seq<Message>)
    ensures |FlowPatternsOf(log)| == Min(PatternLimit, |PairCounts(log)|)
    ensures SortedByCount(FlowPatternsOf(log))
  {
    SortByCountSorted(PairCounts(log));
  }

  /** The reported patterns are collected ones, with their collected counts. */
  lemma FlowPatternsCollected(log: seq<Message>)
    ensures multiset(FlowPatternsOf(log)) <= multiset(PairCounts(log))
  {
    var sorted := SortByCount(PairCounts(log));
    var n := Min(PatternLimit, |sorted|);
    assert sorted == sorted[..n] + sorted[n..];
    assert multiset(sorted) == multiset(sorted[..n]) + multiset(sorted[n..]);
  }

  /** No pattern left out of the report was seen more often than a reported one. */
  lemma FlowPatternsTop(log: seq<Message>, x: (string, nat), i: nat)
    requires x in PairCounts(log) && x !in FlowPatternsOf(log) && i < |FlowPatternsOf(log)|
    ensures x.1 <= FlowPatternsOf(log)[i].1
  {
    var sorted := SortByCount(PairCounts(log));
    var top := FlowPatternsOf(log);
    SortByCountSorted(PairCounts(log));
    assert x in multiset(sorted);
    var j :| 0 <= j < |sorted| && sorted[j] == x;
    assert forall k :: 0 <= k < |top| ==> top[k] == sorted[k];
    assert j >= |top|;
  }

  /** `analyzeFlowPatterns`, counting the log entry by entry (`forEach` with its index). */
  method AnalyzeFlowPatterns(log: seq<Message>) returns (top: Tally)
    ensures top == FlowPatternsOf(log)
  {
    var counts: Tally := [];
    var index := 0;
    while index < |log|
      invariant 0 <= index <= |log|
      invariant counts == PairCounts(log[..index])
    {
      if index > 0 {
        var prefix := log[..index + 1];
        assert prefix[..|prefix| - 1] == log[..index];
        assert prefix[|prefix| - 2] == log[index - 1];
        counts := Counted(counts, PairKey(log[index - 1], log[index]));
      }
      index := index + 1;
    }
    assert log[..|log|] == log;
    var sorted := SortByCount(counts);
    top := sorted[..Min(PatternLimit, |sorted|)];
  }

  // ----- metrics -------------------------------------------------------------------------

  /** The agent's `SystemMetrics` record (memory in whole megabytes, uptime in seconds). */
  datatype Metrics = Metrics(
    activeAgents: int,
    totalMessages: int,
    avgResponseTime: int,
    memoryUsage: int,
    uptime: int,
    websocketConnections: int)

  const InitialMetrics := Metrics(0, 0, 0, 0, 0, 0)

  /**
   * What the actions read from outside the agent: the clock, the info of the manager's
   * `system` agents (`agentManager.getUserAgents('system')`) and the process heap in bytes.
   */
  datatype Env = Env(now: int, systemAgents: seq<AgentInfo>, heapUsed: nat)

  const BytesPerMb := 1048576

  /** `updateMetrics()` for an agent started at `startTime`. */
  function UpdatedMetrics(m: Metrics, startTime: int, env: Env): (r: Metrics)
    ensures r.activeAgents == |env.systemAgents|
    ensures 0 <= (env.now - startTime) - 1000 * r.uptime < 1000
    ensures 2 * env.heapUsed - BytesPerMb < 2 * r.memoryUsage * BytesPerMb <= 2 * env.heapUsed + BytesPerMb
    ensures r.totalMessages == m.totalMessages && r.avgResponseTime == m.avgResponseTime
    ensures r.websocketConnections == m.websocketConnections
  {
    m.(activeAgents := |env.systemAgents|,
       uptime := (env.now - startTime) / 1000,
       memoryUsage := RoundQuotient(env.heapUsed, BytesPerMb))
  }

  /** `calculateMessagesPerMinute()`: messages over uptime minutes, rounded; 0 before a full second. */
  function MessagesPerMinute(m: Metrics): (n: int)
    ensures m.uptime <= 0 ==> n == 0
    ensures m.uptime > 0 ==> 120 * m.totalMessages - m.uptime < 2 * n * m.uptime <= 120 * m.totalMessages + m.uptime
  {
    if m.uptime > 0 then RoundQuotient(60 * m.totalMessages, m.uptime) else 0
  }

  // ----- the values the actions return ---------------------------------------------------

  function MetricsValue(m: Metrics): Value {
    Obj([("activeAgents", Int(m.activeAgents)), ("totalMessages", Int(m.totalMessages)),
         ("avgResponseTime", Int(m.avgResponseTime)), ("memoryUsage", Int(m.memoryUsage)),
         ("uptime", Int(m.uptime)), ("websocketConnections", Int(m.websocketConnections))])
  }

  function FormattedMetrics(m: Metrics): Value {
    Obj([("uptime", Str(FormatUptime(m.uptime))),
         ("memory", Str(IntToString(m.memoryUsage) + " MB")),
         ("responseTime", Str(IntToString(m.avgResponseTime) + " ms"))])
  }

  /** The `current` part of `getSystemMetrics()`. */
  function CurrentValue(m: Metrics): Value {
    Obj([("activeAgents", Int(m.activeAgents)), ("totalMessages", Int(m.totalMessages)),
         ("avgResponseTime", Int(m.avgResponseTime)), ("uptime", Int(m.uptime)),
         ("websocketConnections", Int(m.websocketConnections)), ("formatted", FormattedMetrics(m))])
  }

  /** The `performance` part of `getSystemMetrics()`. */
  function PerformanceValue(m: Metrics): Value {
    Obj([("messagesPerMinute", Int(MessagesPerMinute(m))), ("avgProcessingTime", Int(m.avgResponseTime)),
         ("errorRate", Int(0))])
  }

  /** `getSystemMetrics()` once the metrics are updated to `m`. */
  function MetricsReport(m: Metrics): Value {
    Obj([("current", CurrentValue(m)), ("performance", PerformanceValue(m))])
  }

  /**
   * The fixed text of the Mermaid template, line by line: the head runs up to the place of
   * the agent nodes inside the `Agents` subgraph, the middle from there to the place of the
   * agent connections, the tail from there to the end. The template's blank lines hold four
   * spaces.
   */
  const HeadLines: seq<string> := [
    "graph TB",
    "    subgraph Frontend", "      UI[Web UI]", "      Voice[Voice Interface]", "      State[State Management]", "    end",
    "    ",
    "    subgraph WebSocket", "      WS[WebSocket Server]", "      Auth[JWT Auth]", "    end",
    "    ",
    "    subgraph Backend", "      AM[Agent Manager]", "      API[REST API]", "    end",
    "    ",
    "    subgraph Agents", "      "]
  const MiddleLines: seq<string> := [
    "", "    end",
    "    ",
    "    subgraph Database", "      PG[(PostgreSQL)]", "      Redis[(Redis Cache)]", "    end",
    "    ",
    "    UI --> WS", "    Voice --> WS", "    State --> WS", "    WS --> Auth", "    WS --> AM",
    "    API --> AM", "    AM --> Agents", "    API --> PG", "    AM --> Redis",
    "    ",
    "    "]
  const TailLines: seq<string> := [
    "",
    "    ",
    "    style UI fill:#f9f,stroke:#333,stroke-width:2px",
    "    style Voice fill:#bbf,stroke:#333,stroke-width:2px",
    "    style WS fill:#fbb,stroke:#333,stroke-width:2px",
    "    style AM fill:#bfb,stroke:#333,stroke-width:2px"]

  /** The fixed text around the generated lines: before the nodes, between nodes and edges, after the edges. */
  datatype Frame = Frame(head: string, middle: string, tail: string)

  /** The frame `generateSystemDiagram` sets its lines in, each part its template lines joined by newlines. */
  const Template := Frame(Join(HeadLines, "\n"), Join(MiddleLines, "\n"), Join(TailLines, "\n"))

  /** `generateAgentNodes` joins its lines with this; `generateAgentConnections` with the shorter one. */
  const NodeSeparator := "\n      "
  const EdgeSeparator := "\n    "

  /** `A<number>[<name>]` for one running agent. */
  function NodeLine(a: AgentInfo): string {
    "A" + IntToString(a.agentNumber) + "[" + a.name + "]"
  }

  /** `A<from> -->|<count> msgs| A<to>`, the agents named by their numbers (0 for an unknown name). */
  function EdgeLine(c: Connection): string {
    "A" + IntToString(AgentNumberOf(c.from)) + " -->|" + NatToString(c.count) + " msgs| A" + IntToString(AgentNumberOf(c.to))
  }

  /** One node line per agent, in order. */
  function NodeLines(agents: seq<AgentInfo>): (r: seq<string>)
    ensures |r| == |agents| && forall i :: 0 <= i < |agents| ==> r[i] == NodeLine(agents[i])
  {
    seq(|agents|, i requires 0 <= i < |agents| => NodeLine(agents[i]))
  }

  /** One edge line per connection, in order. */
  function EdgeLines(conns: seq<Connection>): (r: seq<string>)
    ensures |r| == |conns| && forall j :: 0 <= j < |conns| ==> r[j] == EdgeLine(conns[j])
  {
    seq(|conns|, j requires 0 <= j < |conns| => EdgeLine(conns[j]))
  }

  /** Node lines and edge lines set in a frame: it opens with the frame's head and closes with its tail. */
  function Framed(f: Frame, nodes: seq<string>, edges: seq<string>): (d: string)
    ensures |d| == |f.head| + |Join(nodes, NodeSeparator)| + |f.middle| + |Join(edges, EdgeSeparator)| + |f.tail|
    ensures d[..|f.head|] == f.head && d[|d| - |f.tail|..] == f.tail
  {
    Pieces(f.head, Join(nodes, NodeSeparator), f.middle, Join(edges, EdgeSeparator), f.tail);
    f.head + Join(nodes, NodeSeparator) + f.middle + Join(edges, EdgeSeparator) + f.tail
  }

  /** The template opens with the Mermaid header `graph TB`. */
  lemma TemplateOpens()
    ensures |Template.head| >= 8 && Template.head[..8] == "graph TB"
  {
    JoinItemAt(HeadLines, "\n", 0);
    assert HeadLines[0] == "graph TB";
  }

  /**
   * `generateSystemDiagram`'s Mermaid text from the rendered node and edge lines: the
   * template's frame around them, so it opens with the template's head, whose first line is
   * `graph TB`, and closes with the template's tail.
   */
  function DiagramText(nodes: seq<string>, edges: seq<string>): (d: string)
    ensures |Template.head| + |Template.tail| <= |d|
    ensures d[..|Template.head|] == Template.head && d[|d| - |Template.tail|..] == Template.tail
    ensures d[..8] == "graph TB"
  {
    var d := Framed(Template, nodes, edges);
    TemplateOpens();
    PrefixOfPrefix(d, Template.head, 8);
    d
  }

  /**
   * The `i`-th node line sits after the frame's head, at its place after the earlier nodes
   * and their separators, and ends before the frame's middle.
   */
  lemma NodeLineAt(f: Frame, nodes: seq<string>, edges: seq<string>, i: nat)
    requires i < |nodes|
    ensures var k := |f.head| + JoinOffset(nodes, NodeSeparator, i);
            k + |nodes[i]| <= |f.head| + |Join(nodes, NodeSeparator)| && OccursAt(Framed(f, nodes, edges), nodes[i], k)
  {
    Pieces(f.head, Join(nodes, NodeSeparator), f.middle, Join(edges, EdgeSeparator), f.tail);
    ItemAfter(f.head, nodes, NodeSeparator, f.middle + Join(edges, EdgeSeparator) + f.tail, i);
  }

  /** The frame's middle sits right after the node lines. */
  lemma MiddleAt(f: Frame, nodes: seq<string>, edges: seq<string>)
    ensures OccursAt(Framed(f, nodes, edges), f.middle, |f.head| + |Join(nodes, NodeSeparator)|)
  {
    Pieces(f.head, Join(nodes, NodeSeparator), f.middle, Join(edges, EdgeSeparator), f.tail);
    SliceOfMiddle(f.head + Join(nodes, NodeSeparator), f.middle, Join(edges, EdgeSeparator) + f.tail, 0, |f.middle|);
  }

  /**
   * The `j`-th edge line sits after the frame's middle, at its place after the earlier edges
   * and their separators, and ends before the frame's tail.
   */
  lemma EdgeLineAt(f: Frame, nodes: seq<string>, edges: seq<string>, j: nat)
    requires j < |edges|
    ensures var k := |f.head| + |Join(nodes, NodeSeparator)| + |f.middle| + JoinOffset(edges, EdgeSeparator, j);
            k + |edges[j]| <= |Framed(f, nodes, edges)| - |f.tail| && OccursAt(Framed(f, nodes, edges), edges[j], k)
  {
    ItemAfterThree(f.head, Join(nodes, NodeSeparator), f.middle, edges, EdgeSeparator, f.tail, j);
    JoinItemAt(edges, EdgeSeparator, j);
  }

  /**
   * In the diagram, the `i`-th agent node stands at its place in the `Agents` subgraph, after
   * the template's head and before the end of the node lines.
   */
  lemma DiagramNodeAt(nodes: seq<string>, edges: seq<string>, i: nat)
    requires i < |nodes|
    ensures var k := |Template.head| + JoinOffset(nodes, NodeSeparator, i);
            k + |nodes[i]| <= |Template.head| + |Join(nodes, NodeSeparator)| && OccursAt(DiagramText(nodes, edges), nodes[i], k)
  {
    NodeLineAt(Template, nodes, edges, i);
  }

  /**
   * The `j`-th connection stands after the node lines and the template's fixed edges, at its
   * place among the connections, and before the template's tail: every node comes before it.
   */
  lemma DiagramEdgeAt(nodes: seq<string>, edges: seq<string>, j: nat)
    requires j < |edges|
    ensures var k := |Template.head| + |Join(nodes, NodeSeparator)| + |Template.middle| + JoinOffset(edges, EdgeSeparator, j);
            k + |edges[j]| <= |DiagramText(nodes, edges)| - |Template.tail| && OccursAt(DiagramText(nodes, edges), edges[j], k)
  {
    EdgeLineAt(Template, nodes, edges, j);
  }

  function DiagramObject(diagram: string, metrics: Value): Value {
    Obj([("diagram", Str(diagram)), ("type", Str("mermaid")), ("metrics", metrics)])
  }

  /** `generateSystemDiagram()` once the metrics are updated to `m`. */
  function DiagramValue(agents: seq<AgentInfo>, conns: seq<Connection>, m: Metrics): Value {
    DiagramObject(DiagramText(NodeLines(agents), EdgeLines(conns)), MetricsValue(m))
  }

  function ConnectionValue(c: Connection): Value {
    Obj([("from", Str(c.from)), ("to", Str(c.to)), ("type", Str("message")), ("count", Int(c.count))])
  }

  function MostActiveValue(conns: seq<Connection>): Value {
    match MostActive(conns)
    case None => Null
    case Some(i) => ConnectionValue(conns[i])
  }

  function AdjacencyValue(m: Adjacency): Value {
    Obj(seq(|m|, k requires 0 <= k < |m| =>
          (m[k].0, Arr(seq(|m[k].1|, j requires 0 <= j < |m[k].1| => Str(m[k].1[j]))))))
  }

  function ConnectionsObject(connections: seq<Value>, total: nat, mostActive: Value, connectionMap: Value): Value {
    Obj([("connections", Arr(connections)), ("totalConnections", Int(total)),
         ("mostActive", mostActive), ("connectionMap", connectionMap)])
  }

  /** `getAgentConnections()`, given the connection map built from `conns`. */
  function ConnectionsValue(conns: seq<Connection>, connectionMap: Adjacency): Value {
    ConnectionsObject(seq(|conns|, i requires 0 <= i < |conns| => ConnectionValue(conns[i])), |conns|,
                      MostActiveValue(conns), AdjacencyValue(connectionMap))
  }

  /** The optional fields of a logged message (an absent one is left out). */
  function ActionField(m: Message): seq<(string, Value)> {
    if m.action.Some? then [("action", Str(m.action.value))] else []
  }

  function DurationField(m: Message): seq<(string, Value)> {
    if m.duration.Some? then [("duration", Int(m.duration.value))] else []
  }

  function FlowEntryValue(m: Message): Value {
    Obj([("from", Str(m.from)), ("to", Str(m.to))] + ActionField(m) + DurationField(m))
  }

  function BottleneckValue(m: Message): Value {
    Obj(ActionField(m) + DurationField(m))
  }

  function PatternValue(e: (string, nat)): Value {
    Obj([("pattern", Str(e.0)), ("count", Int(e.1))])
  }

  /** `getDataFlow()`, given the flow patterns computed from `log`. */
  function DataFlowValue(log: seq<Message>, patterns: Tally): Value {
    var recent := RecentFlow(log);
    var slow := Bottlenecks(log);
    Obj([("recentFlow", Arr(seq(|recent|, i requires 0 <= i < |recent| => FlowEntryValue(recent[i])))),
         ("patterns", Arr(seq(|patterns|, i requires 0 <= i < |patterns| => PatternValue(patterns[i])))),
         ("bottlenecks", Arr(seq(|slow|, i requires 0 <= i < |slow| => BottleneckValue(slow[i]))))])
  }

  function ActiveAgentValue(a: AgentInfo): Value {
    Obj([("number", Int(a.agentNumber)), ("name", Str(a.name)),
         ("status", Str(if a.isInitialized then "active" else "inactive")), ("voiceEnabled", Bool(a.voiceEnabled))])
  }

  function ActiveAgentsObject(count: nat, agents: seq<Value>): Value {
    Obj([("count", Int(count)), ("agents", Arr(agents))])
  }

  /** One entry per agent, in order. */
  function ActiveAgentItems(agents: seq<AgentInfo>): (r: seq<Value>)
    ensures |r| == |agents|
    ensures forall i :: 0 <= i < |agents| ==> r[i] == ActiveAgentValue(agents[i])
  {
    if agents == [] then [] else [ActiveAgentValue(agents[0])] + ActiveAgentItems(agents[1..])
  }

  /** `getActiveAgents()`. */
  function ActiveAgentsValue(agents: seq<AgentInfo>): Value {
    ActiveAgentsObject(|agents|, ActiveAgentItems(agents))
  }

  /**
   * The `execute` dispatch on the agent's record: the result (or the message of the error
   * thrown) and the metrics afterwards, which `get_diagram` and `get_metrics` refresh first.
   */
  function Run(conns: seq<Connection>, log: seq<Message>, metrics: Metrics, startTime: int, action: string, env: Env)
    : (r: (Outcome<Value>, Metrics))
    ensures r.0.Threw? <==> action !in Actions
    ensures r.0.Threw? ==> r.0.message == "Unknown action: " + action
    ensures r.1 == if action == "get_diagram" || action == "get_metrics" then UpdatedMetrics(metrics, startTime, env) else metrics
  {
    var updated := UpdatedMetrics(metrics, startTime, env);
    if action == "get_diagram" then (Returned(DiagramValue(env.systemAgents, conns, updated)), updated)
    else if action == "get_metrics" then (Returned(MetricsReport(updated)), updated)
    else if action == "get_connections" then (Returned(ConnectionsValue(conns, ConnectionMapOf(conns))), metrics)
    else if action == "get_data_flow" then (Returned(DataFlowValue(log, FlowPatternsOf(log))), metrics)
    else if action == "get_active_agents" then (Returned(ActiveAgentsValue(env.systemAgents)), metrics)
    else (Threw("Unknown action: " + action), metrics)
  }

  /** `get_connections` reports the counter and the map built from it, and leaves the metrics alone. */
  lemma RunConnections(conns: seq<Connection>, log: seq<Message>, metrics: Metrics, startTime: int, env: Env)
    ensures Run(conns, log, metrics, startTime, "get_connections", env)
            == (Returned(ConnectionsValue(conns, ConnectionMapOf(conns))), metrics)
  {
  }

  /** `get_data_flow` reports the log and its flow patterns, and leaves the metrics alone. */
  lemma RunDataFlow(conns: seq<Connection>, log: seq<Message>, metrics: Metrics, startTime: int, env: Env)
    ensures Run(conns, log, metrics, startTime, "get_data_flow", env)
            == (Returned(DataFlowValue(log, FlowPatternsOf(log))), metrics)
  {
  }

  /** `get_diagram` refreshes the metrics, then draws the manager's system agents and the counted connections. */
  lemma RunDiagram(conns: seq<Connection>, log: seq<Message>, metrics: Metrics, startTime: int, env: Env)
    ensures var updated := UpdatedMetrics(metrics, startTime, env);
            Run(conns, log, metrics, startTime, "get_diagram", env)
            == (Returned(DiagramValue(env.systemAgents, conns, updated)), updated)
  {
  }

  /** `get_metrics` refreshes the metrics and reports them. */
  lemma RunMetrics(conns: seq<Connection>, log: seq<Message>, metrics: Metrics, startTime: int, env: Env)
    ensures var updated := UpdatedMetrics(metrics, startTime, env);
            Run(conns, log, metrics, startTime, "get_metrics", env) == (Returned(MetricsReport(updated)), updated)
  {
  }

  /** `get_active_agents` lists the manager's system agents, and leaves the metrics alone. */
  lemma RunActiveAgents(conns: seq<Connection>, log: seq<Message>, metrics: Metrics, startTime: int, env: Env)
    ensures Run(conns, log, metrics, startTime, "get_active_agents", env)
            == (Returned(ActiveAgentsValue(env.systemAgents)), metrics)
  {
  }

  // ----- the fields of the returned values --------------------------------------------------

  /** The diagram result: the Mermaid text of the agents and connections, its type and the metrics. */
  lemma DiagramValueFields(agents: seq<AgentInfo>, conns: seq<Connection>, m: Metrics)
    ensures var d := DiagramValue(agents, conns, m);
            && Get(d, "diagram") == Some(Str(DiagramText(NodeLines(agents), EdgeLines(conns))))
            && Get(d, "type") == Some(Str("mermaid"))
            && GetOpt(Get(d, "metrics"), "activeAgents") == Some(Int(m.activeAgents))
            && GetOpt(Get(d, "metrics"), "memoryUsage") == Some(Int(m.memoryUsage))
            && GetOpt(Get(d, "metrics"), "uptime") == Some(Int(m.uptime))
  {
    DiagramObjectFields(DiagramText(NodeLines(agents), EdgeLines(conns)), MetricsValue(m));
    MetricsValueFields(m);
  }

  lemma DiagramObjectFields(diagram: string, metrics: Value)
    ensures Get(DiagramObject(diagram, metrics), "diagram") == Some(Str(diagram))
    ensures Get(DiagramObject(diagram, metrics), "type") == Some(Str("mermaid"))
    ensures Get(DiagramObject(diagram, metrics), "metrics") == Some(metrics)
  {
    FieldAt(DiagramObject(diagram, metrics).fields, "type", 1);
    FieldAt(DiagramObject(diagram, metrics).fields, "metrics", 2);
  }

  lemma MetricsValueFields(m: Metrics)
    ensures Get(MetricsValue(m), "activeAgents") == Some(Int(m.activeAgents))
    ensures Get(MetricsValue(m), "memoryUsage") == Some(Int(m.memoryUsage))
    ensures Get(MetricsValue(m), "uptime") == Some(Int(m.uptime))
  {
    FieldAt(MetricsValue(m).fields, "memoryUsage", 3);
    FieldAt(MetricsValue(m).fields, "uptime", 4);
  }

  /** One connection as reported: its pair, the type `message` and its count. */
  lemma ConnectionValueFields(c: Connection)
    ensures Get(ConnectionValue(c), "from") == Some(Str(c.from))
    ensures Get(ConnectionValue(c), "to") == Some(Str(c.to))
    ensures Get(ConnectionValue(c), "type") == Some(Str("message"))
    ensures Get(ConnectionValue(c), "count") == Some(Int(c.count))
  {
    var v := ConnectionValue(c);
    FieldAt(v.fields, "to", 1);
    FieldAt(v.fields, "type", 2);
    FieldAt(v.fields, "count", 3);
  }

  /**
   * The connections result: every counted connection in order, their number, the most active
   * one (`null` when there is none) and the connection map.
   */
  lemma ConnectionsValueFields(conns: seq<Connection>, connectionMap: Adjacency)
    ensures var d := ConnectionsValue(conns, connectionMap);
            && Get(d, "connections").Some? && Get(d, "connections").value.Arr?
            && |Get(d, "connections").value.items| == |conns|
            && (forall i :: 0 <= i < |conns| ==>
                  && Get(Get(d, "connections").value.items[i], "from") == Some(Str(conns[i].from))
                  && Get(Get(d, "connections").value.items[i], "to") == Some(Str(conns[i].to))
                  && Get(Get(d, "connections").value.items[i], "count") == Some(Int(conns[i].count)))
            && Get(d, "totalConnections") == Some(Int(|conns|))
            && (conns == [] <==> Get(d, "mostActive") == Some(Null))
            && (conns != [] ==> Get(d, "mostActive") == Some(ConnectionValue(conns[MostActive(conns).value])))
            && Get(d, "connectionMap") == Some(AdjacencyValue(connectionMap))
  {
    var items := seq(|conns|, i requires 0 <= i < |conns| => ConnectionValue(conns[i]));
    ConnectionsObjectFields(items, |conns|, MostActiveValue(conns), AdjacencyValue(connectionMap));
    MostActiveValueNull(conns);
    forall i | 0 <= i < |conns|
      ensures Get(items[i], "from") == Some(Str(conns[i].from))
      ensures Get(items[i], "to") == Some(Str(conns[i].to))
      ensures Get(items[i], "count") == Some(Int(conns[i].count))
    {
      ConnectionValueFields(conns[i]);
    }
  }

  lemma ConnectionsObjectFields(connections: seq<Value>, total: nat, mostActive: Value, connectionMap: Value)
    ensures var d := ConnectionsObject(connections, total, mostActive, connectionMap);
            && Get(d, "connections") == Some(Arr(connections))
            && Get(d, "totalConnections") == Some(Int(total))
            && Get(d, "mostActive") == Some(mostActive)
            && Get(d, "connectionMap") == Some(connectionMap)
  {
    var fields := ConnectionsObject(connections, total, mostActive, connectionMap).fields;
    FieldAt(fields, "totalConnections", 1);
    FieldAt(fields, "mostActive", 2);
    FieldAt(fields, "connectionMap", 3);
  }

  /** The most active entry is `null` exactly when there are no connections. */
  lemma MostActiveValueNull(conns: seq<Connection>)
    ensures conns == [] <==> MostActiveValue(conns) == Null
    ensures conns != [] ==> MostActiveValue(conns) == ConnectionValue(conns[MostActive(conns).value])
  {
  }

  /**
   * The data-flow result: the newest messages with their pairs, the patterns with their counts,
   * and the slow entries with their durations, each in order.
   */
  lemma DataFlowValueFields(log: seq<Message>, patterns: Tally)
    ensures var d := DataFlowValue(log, patterns);
            var recent, slow := RecentFlow(log), Bottlenecks(log);
            && Get(d, "recentFlow").Some? && Get(d, "recentFlow").value.Arr?
            && |Get(d, "recentFlow").value.items| == |recent|
            && (forall i :: 0 <= i < |recent| ==>
                  && Get(Get(d, "recentFlow").value.items[i], "from") == Some(Str(recent[i].from))
                  && Get(Get(d, "recentFlow").value.items[i], "to") == Some(Str(recent[i].to)))
            && Get(d, "patterns").Some? && Get(d, "patterns").value.Arr?
            && |Get(d, "patterns").value.items| == |patterns|
            && (forall i :: 0 <= i < |patterns| ==>
                  && Get(Get(d, "patterns").value.items[i], "pattern") == Some(Str(patterns[i].0))
                  && Get(Get(d, "patterns").value.items[i], "count") == Some(Int(patterns[i].1)))
            && Get(d, "bottlenecks").Some? && Get(d, "bottlenecks").value.Arr?
            && |Get(d, "bottlenecks").value.items| == |slow|
            && (forall i :: 0 <= i < |slow| ==>
                  Get(Get(d, "bottlenecks").value.items[i], "duration") == Some(Int(slow[i].duration.value)))
  {
    var d := DataFlowValue(log, patterns);
    var recent, slow := RecentFlow(log), Bottlenecks(log);
    FieldAt(d.fields, "patterns", 1);
    FieldAt(d.fields, "bottlenecks", 2);
    forall i | 0 <= i < |recent|
      ensures Get(FlowEntryValue(recent[i]), "to") == Some(Str(recent[i].to))
    {
      FieldAt(FlowEntryValue(recent[i]).fields, "to", 1);
    }
    forall i | 0 <= i < |patterns|
      ensures Get(PatternValue(patterns[i]), "count") == Some(Int(patterns[i].1))
    {
      FieldAt(PatternValue(patterns[i]).fields, "count", 1);
    }
    forall i | 0 <= i < |slow|
      ensures Get(BottleneckValue(slow[i]), "duration") == Some(Int(slow[i].duration.value))
    {
      var m := slow[i];
      FieldAt(BottleneckValue(m).fields, "duration", |ActionField(m)|);
    }
  }

  /**
   * The active-agents result: their number, and one entry per agent in order with its number,
   * name, `active` exactly when it is initialised, and its voice flag.
   */
  lemma ActiveAgentsValueFields(agents: seq<AgentInfo>)
    ensures var d := ActiveAgentsValue(agents);
            && Get(d, "count") == Some(Int(|agents|))
            && Get(d, "agents").Some? && Get(d, "agents").value.Arr?
            && |Get(d, "agents").value.items| == |agents|
            && forall i :: 0 <= i < |agents| ==>
                 var a := Get(d, "agents").value.items[i];
                 && Get(a, "number") == Some(Int(agents[i].agentNumber))
                 && Get(a, "name") == Some(Str(agents[i].name))
                 && (Get(a, "status") == Some(Str("active")) <==> agents[i].isInitialized)
                 && Get(a, "voiceEnabled") == Some(Bool(agents[i].voiceEnabled))
  {
    var d := ActiveAgentsValue(agents);
    FieldAt(d.fields, "agents", 1);
    var items := ActiveAgentItems(agents);
    forall i | 0 <= i < |agents|
      ensures Get(items[i], "number") == Some(Int(agents[i].agentNumber))
      ensures Get(items[i], "name") == Some(Str(agents[i].name))
      ensures Get(items[i], "status") == Some(Str("active")) <==> agents[i].isInitialized
      ensures Get(items[i], "voiceEnabled") == Some(Bool(agents[i].voiceEnabled))
    {
      ActiveAgentValueFields(agents[i]);
    }
  }

  /** One listed agent: its number, its name, `active` exactly when it is initialised, and its voice flag. */
  lemma ActiveAgentValueFields(a: AgentInfo)
    ensures Get(ActiveAgentValue(a), "number") == Some(Int(a.agentNumber))
    ensures Get(ActiveAgentValue(a), "name") == Some(Str(a.name))
    ensures Get(ActiveAgentValue(a), "status") == Some(Str("active")) <==> a.isInitialized
    ensures Get(ActiveAgentValue(a), "voiceEnabled") == Some(Bool(a.voiceEnabled))
  {
    var v := ActiveAgentValue(a);
    FieldAt(v.fields, "name", 1);
    FieldAt(v.fields, "status", 2);
    FieldAt(v.fields, "voiceEnabled", 3);
    assert |"inactive"| != |"active"|;
  }

  // ----- voice replies ---------------------------------------------------------------------

  const DiagramReply :=
    "I've generated the system architecture diagram. You can see how all agents and components are connected."
  const GenericReply := "System architecture data retrieved successfully."

  /**
   * The agent's `formatVoiceResponse`: a failure reads as the base agent's reply; otherwise a
   * sentence chosen by which fields the data has. `None` stands for a TypeError thrown by a
   * read through `null` or `undefined`.
   */
  function FormatVoice(r: Response): (s: Option<string>)
    ensures !r.success ==> s == Some(FormatDefault(r))
    ensures r.success && Nullish(r.data) ==> s.None?
    ensures r.success && !Nullish(r.data) ==> s == FormatData(r.data.value)
  {
    if !r.success then Some(FormatDefault(r))
    else if Nullish(r.data) then None
    else FormatData(r.data.value)
  }

  /** The checks on the data in the order `formatVoiceResponse` tests them: diagram, current metrics, connections, agents. */
  function FormatData(data: Value): Option<string> {
    var current := Get(data, "current");
    if Truthy(Get(data, "diagram")) then Some(DiagramReply)
    else if Truthy(current) && Get(current.value, "activeAgents").Some? then StatusSentence(current.value)
    else if Truthy(Get(data, "connections")) then Some(ConnectionsSentence(data))
    else if Truthy(Get(data, "agents")) then AgentsSentence(data.fields)
    else Some(GenericReply)
  }

  function StatusSentence(current: Value): Option<string> {
    var f := Get(current, "formatted");
    if Nullish(f) then None
    else
      Some("System status: " + Show(Get(current, "activeAgents")) + " active agents, "
           + Show(Get(f.value, "uptime")) + " uptime, " + Show(Get(f.value, "memory")) + " memory usage, "
           + Show(Get(f.value, "responseTime")) + " average response time.")
  }

  function ConnectionsSentence(data: Value): string {
    var most := Get(data, "mostActive");
    "There are " + Show(Get(data, "totalConnections")) + " agent connections. "
    + (if most.Some? then MostActiveText(most.value) else "")
  }

  /** `data.agents.map(a => a.name).join(', ')` in its sentence; `map` on a non-array throws. */
  function AgentsSentence(fields: seq<(string, Value)>): Option<string> {
    var agents := Field(fields, "agents");
    if agents.None? || !agents.value.Arr? then None
    else
      match Names(agents.value.items)
      case None => None
      case Some(names) =>
        Some(Show(Field(fields, "count")) + " agents are currently active: " + Join(names, ", ") + ".")
  }

  /** `items.map(a => a.name)` as `join` reads it: a `null` item throws, a missing name is empty. */
  function Names(items: seq<Value>): Option<seq<string>> {
    if items == [] then Some([])
    else if items[0].Null? then None
    else
      match Names(items[1..])
      case None => None
      case Some(rest) =>
        var name := Get(items[0], "name");
        Some([if Nullish(name) then "" else ShowValue(name.value)] + rest)
  }

  function Succeeded(data: Value): Response {
    Response(true, Some(data), None, None)
  }

  /** A successful `get_diagram` reads as the fixed diagram sentence. */
  lemma DiagramReplies(agents: seq<AgentInfo>, conns: seq<Connection>, m: Metrics)
    ensures FormatVoice(Succeeded(DiagramValue(agents, conns, m))) == Some(DiagramReply)
  {
    var d := DiagramText(NodeLines(agents), EdgeLines(conns));
    assert d != [];
    DiagramShape(d, MetricsValue(m));
  }

  /** Data with a non-empty `diagram` reads as the diagram sentence. */
  lemma DiagramShape(diagram: string, metrics: Value)
    requires diagram != []
    ensures FormatVoice(Succeeded(DiagramObject(diagram, metrics))) == Some(DiagramReply)
  {
  }

  /** The sentence for data whose `current` has `activeAgents` and `formatted` (and no diagram). */
  lemma StatusShape(data: Value, current: Value, f: Value)
    requires !Truthy(Get(data, "diagram")) && Get(data, "current") == Some(current) && current.Obj?
    requires Get(current, "activeAgents").Some? && Get(current, "formatted") == Some(f) && !f.Null?
    ensures FormatVoice(Succeeded(data))
            == Some("System status: " + Show(Get(current, "activeAgents")) + " active agents, "
                    + Show(Get(f, "uptime")) + " uptime, " + Show(Get(f, "memory")) + " memory usage, "
                    + Show(Get(f, "responseTime")) + " average response time.")
  {
  }

  /**
   * `getSystemMetrics()`: the current counters and their formatted forms, and the performance
   * figures: messages per minute, the average response time as processing time, no errors.
   */
  lemma MetricsReportFields(m: Metrics)
    ensures Get(MetricsReport(m), "diagram").None?
    ensures Get(MetricsReport(m), "current") == Some(CurrentValue(m))
    ensures Get(CurrentValue(m), "activeAgents") == Some(Int(m.activeAgents))
    ensures Get(CurrentValue(m), "formatted") == Some(FormattedMetrics(m))
    ensures Get(MetricsReport(m), "performance") == Some(PerformanceValue(m))
  {
    ReportParts(m);
    CurrentParts(m);
  }

  lemma ReportParts(m: Metrics)
    ensures Get(MetricsReport(m), "diagram").None?
    ensures Get(MetricsReport(m), "current") == Some(CurrentValue(m))
    ensures Get(MetricsReport(m), "performance") == Some(PerformanceValue(m))
  {
    FieldAt(MetricsReport(m).fields, "performance", 1);
  }

  lemma CurrentParts(m: Metrics)
    ensures Get(CurrentValue(m), "activeAgents") == Some(Int(m.activeAgents))
    ensures Get(CurrentValue(m), "formatted") == Some(FormattedMetrics(m))
  {
    FieldAt(CurrentValue(m).fields, "formatted", 5);
  }

  /** The current counters report the messages handled and the uptime in seconds. */
  lemma CurrentValueFields(m: Metrics)
    ensures Get(CurrentValue(m), "totalMessages") == Some(Int(m.totalMessages))
    ensures Get(CurrentValue(m), "uptime") == Some(Int(m.uptime))
  {
    FieldAt(CurrentValue(m).fields, "totalMessages", 1);
    FieldAt(CurrentValue(m).fields, "uptime", 3);
  }

  /** The performance figures: messages per minute, the average response time as processing time, no errors. */
  lemma PerformanceFields(m: Metrics)
    ensures Get(PerformanceValue(m), "messagesPerMinute") == Some(Int(MessagesPerMinute(m)))
    ensures Get(PerformanceValue(m), "avgProcessingTime") == Some(Int(m.avgResponseTime))
    ensures Get(PerformanceValue(m), "errorRate") == Some(Int(0))
  {
    FieldAt(PerformanceValue(m).fields, "avgProcessingTime", 1);
    FieldAt(PerformanceValue(m).fields, "errorRate", 2);
  }

  lemma FormattedMetricsFields(m: Metrics)
    ensures Show(Get(FormattedMetrics(m), "uptime")) == FormatUptime(m.uptime)
    ensures Show(Get(FormattedMetrics(m), "memory")) == IntToString(m.memoryUsage) + " MB"
    ensures Show(Get(FormattedMetrics(m), "responseTime")) == IntToString(m.avgResponseTime) + " ms"
  {
    FieldAt(FormattedMetrics(m).fields, "memory", 1);
    FieldAt(FormattedMetrics(m).fields, "responseTime", 2);
  }

  /** A successful `get_metrics` reads out the active agents, uptime, memory and response time. */
  lemma MetricsReplies(m: Metrics)
    ensures FormatVoice(Succeeded(MetricsReport(m)))
            == Some("System status: " + IntToString(m.activeAgents) + " active agents, " + FormatUptime(m.uptime)
                    + " uptime, " + (IntToString(m.memoryUsage) + " MB") + " memory usage, "
                    + (IntToString(m.avgResponseTime) + " ms") + " average response time.")
  {
    MetricsReportFields(m);
    FormattedMetricsFields(m);
    StatusShape(MetricsReport(m), CurrentValue(m), FormattedMetrics(m));
    ShowInt(m.activeAgents);
  }

  lemma ShowInt(n: int)
    ensures Show(Some(Int(n))) == IntToString(n)
  {
  }

  /** Data with no diagram and no current metrics but with connections reads as the connections sentence. */
  lemma ConnectionsDataShape(data: Value, total: nat, mostActive: Value)
    requires Get(data, "diagram").None? && Get(data, "current").None? && Truthy(Get(data, "connections"))
    requires Get(data, "totalConnections") == Some(Int(total)) && Get(data, "mostActive") == Some(mostActive)
    ensures FormatVoice(Succeeded(data))
            == Some("There are " + NatToString(total) + " agent connections. " + MostActiveText(mostActive))
  {
    ShowInt(total);
  }

  /** The sentence for a connections report: the count, then the most active connection if there is one. */
  lemma ConnectionsShape(connections: seq<Value>, total: nat, mostActive: Value, connectionMap: Value)
    ensures FormatVoice(Succeeded(ConnectionsObject(connections, total, mostActive, connectionMap)))
            == Some("There are " + NatToString(total) + " agent connections. " + MostActiveText(mostActive))
  {
    var fields := ConnectionsObject(connections, total, mostActive, connectionMap).fields;
    FieldAt(fields, "connections", 0);
    FieldAt(fields, "totalConnections", 1);
    FieldAt(fields, "mostActive", 2);
    assert Field(fields, "diagram").None? && Field(fields, "current").None?;
    ConnectionsDataShape(ConnectionsObject(connections, total, mostActive, connectionMap), total, mostActive);
  }

  /** The tail of the connections sentence, given the `mostActive` entry. */
  function MostActiveText(most: Value): string {
    if Truthy(Some(most)) then
      "The most active connection is between " + Show(Get(most, "from")) + " and "
      + Show(Get(most, "to")) + " with " + Show(Get(most, "count")) + " messages."
    else ""
  }

  /** The reading of one connection as the most active. */
  lemma MostActiveShape(c: Connection)
    ensures MostActiveText(ConnectionValue(c))
            == "The most active connection is between " + c.from + " and " + c.to
               + " with " + NatToString(c.count) + " messages."
  {
    var v := ConnectionValue(c);
    FieldAt(v.fields, "from", 0);
    FieldAt(v.fields, "to", 1);
    FieldAt(v.fields, "count", 3);
  }

  /** A successful `get_connections` counts the connections and names the most active one, if any. */
  lemma ConnectionsReplies(conns: seq<Connection>, connectionMap: Adjacency)
    ensures FormatVoice(Succeeded(ConnectionsValue(conns, connectionMap)))
            == Some("There are " + NatToString(|conns|) + " agent connections. "
                    + match MostActive(conns)
                      case None => ""
                      case Some(i) =>
                        "The most active connection is between " + conns[i].from + " and " + conns[i].to
                        + " with " + NatToString(conns[i].count) + " messages.")
  {
    ConnectionsShape(seq(|conns|, i requires 0 <= i < |conns| => ConnectionValue(conns[i])), |conns|,
                     MostActiveValue(conns), AdjacencyValue(connectionMap));
    MostActiveTextOf(conns);
  }

  /** The most active connection, if any, as the connections sentence names it. */
  lemma MostActiveTextOf(conns: seq<Connection>)
    ensures MostActiveText(MostActiveValue(conns))
            == match MostActive(conns)
               case None => ""
               case Some(i) =>
                 "The most active connection is between " + conns[i].from + " and " + conns[i].to
                 + " with " + NatToString(conns[i].count) + " messages."
  {
    match MostActive(conns)
    case None =>
    case Some(i) => MostActiveShape(conns[i]);
  }

  /** A successful `get_data_flow` has none of the fields the formatter looks for. */
  lemma DataFlowReplies(log: seq<Message>, patterns: Tally)
    ensures FormatVoice(Succeeded(DataFlowValue(log, patterns))) == Some(GenericReply)
  {
  }

  /** One step of `Names`: a non-null item contributes its name. */
  lemma NamesCons(items: seq<Value>)
    requires items != [] && !items[0].Null? && Names(items[1..]).Some?
    ensures Names(items)
            == Some([if Nullish(Get(items[0], "name")) then "" else ShowValue(Get(items[0], "name").value)]
                    + Names(items[1..]).value)
  {
  }

  /** The agents' names, in order. */
  function NameList(agents: seq<AgentInfo>): (r: seq<string>)
    ensures |r| == |agents|
    ensures forall i :: 0 <= i < |agents| ==> r[i] == agents[i].name
  {
    if agents == [] then [] else [agents[0].name] + NameList(agents[1..])
  }

  /** The names of the agents as `getActiveAgents` lists them. */
  lemma {:induction false} NamesOfAgents(agents: seq<AgentInfo>)
    ensures Names(ActiveAgentItems(agents)) == Some(NameList(agents))
  {
    if agents != [] {
      var items := ActiveAgentItems(agents);
      NamesOfAgents(agents[1..]);
      assert items[1..] == ActiveAgentItems(agents[1..]);
      FieldAt(items[0].fields, "name", 1);
      NamesCons(items);
    }
  }

  /** Data with only `count` and `agents` among the fields looked for reads as the agents sentence. */
  lemma AgentsDataShape(data: Value, count: nat, items: seq<Value>, names: seq<string>)
    requires data.Obj? && Get(data, "diagram").None? && Get(data, "current").None? && Get(data, "connections").None?
    requires Get(data, "agents") == Some(Arr(items)) && Get(data, "count") == Some(Int(count))
    requires Names(items) == Some(names)
    ensures FormatVoice(Succeeded(data))
            == Some(NatToString(count) + " agents are currently active: " + Join(names, ", ") + ".")
  {
    ShowInt(count);
  }

  /** The sentence for an agent list: the count, then the names joined by commas. */
  lemma AgentsShape(count: nat, agents: seq<Value>, names: seq<string>)
    requires Names(agents) == Some(names)
    ensures FormatVoice(Succeeded(ActiveAgentsObject(count, agents)))
            == Some(NatToString(count) + " agents are currently active: " + Join(names, ", ") + ".")
  {
    var fields := ActiveAgentsObject(count, agents).fields;
    FieldAt(fields, "count", 0);
    FieldAt(fields, "agents", 1);
    assert Field(fields, "diagram").None? && Field(fields, "current").None? && Field(fields, "connections").None?;
    AgentsDataShape(ActiveAgentsObject(count, agents), count, agents, names);
  }

  /** A successful `get_active_agents` counts the agents and lists their names. */
  lemma ActiveAgentsReplies(agents: seq<AgentInfo>)
    ensures FormatVoice(Succeeded(ActiveAgentsValue(agents)))
            == Some(NatToString(|agents|) + " agents are currently active: " + Join(NameList(agents), ", ") + ".")
  {
    NamesOfAgents(agents);
    AgentsShape(|agents|, ActiveAgentItems(agents), NameList(agents));
  }
}
