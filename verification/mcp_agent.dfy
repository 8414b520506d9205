/**
 * The behaviour every agent inherits from the abstract agent base class: voice-text parsing,
 * the default voice reply, the list of available commands, the TTL memory and the payloads of
 * the events it emits. The state these work on lives in `Agents.Agent`.
 */
module McpAgent {
  import opened Wrappers
  import opened Strings
  import opened Json
  import opened Protocol

  // ----- voice parsing ------------------------------------------------------------

  /** `text.toLowerCase().trim()`. */
  function Normalize(text: string): string {
    Trim(Lower(text))
  }

  /** Index of the first line terminator in `s`, or `|s|`: where `(.*)` stops. */
  function LineEnd(s: string): (n: nat)
    ensures n <= |s|
    ensures forall k :: 0 <= k < n ==> !IsLineTerminator(s[k])
    ensures n < |s| ==> IsLineTerminator(s[n])
  {
    if s == [] || IsLineTerminator(s[0]) then 0 else 1 + LineEnd(s[1..])
  }

  /**
   * `text.match(new RegExp(source, 'i'))` on normalised (lower-case) text: `None` when there is
   * no match, otherwise the captured groups. The leftmost occurrence of the phrase is used and
   * `(.*)` captures the rest of that line.
   */
  function MatchPattern(p: Pattern, text: string): (r: Option<seq<string>>)
    ensures p.Phrase? ==> (r.Some? <==> Contains(text, Lower(p.text)))
    ensures p.PhraseThenRest? ==> (r.Some? <==> Contains(text, Lower(p.prefix)))
    ensures r.Some? ==> |r.value| == (if p.Phrase? then 0 else 1)
  {
    match p
    case Phrase(t) => if Contains(text, Lower(t)) then Some([]) else None
    case PhraseThenRest(pre) =>
      match IndexOf(text, Lower(pre), 0)
      case None => None
      case Some(i) =>
        var rest := text[i + |pre|..];
        Some([rest[..LineEnd(rest)]])
  }

  /** The first pattern of one entry that matches, with its captures. */
  function MatchEntry(ps: seq<Pattern>, text: string): Option<seq<string>> {
    if ps == [] then None
    else
      var m := MatchPattern(ps[0], text);
      if m.Some? then m else MatchEntry(ps[1..], text)
  }

  /** The patterns of an entry are tried in list order: the first one that matches decides. */
  lemma {:induction false} MatchEntryFirst(ps: seq<Pattern>, text: string, j: nat)
    requires j < |ps| && MatchPattern(ps[j], text).Some?
    requires forall j' :: 0 <= j' < j ==> MatchPattern(ps[j'], text).None?
    ensures MatchEntry(ps, text) == MatchPattern(ps[j], text)
  {
    if j > 0 {
      assert MatchPattern(ps[0], text).None?;
      assert forall j' :: 0 <= j' < j - 1 ==> ps[1..][j'] == ps[j' + 1];
      MatchEntryFirst(ps[1..], text, j - 1);
    }
  }

  /** An entry matches exactly when one of its patterns does. */
  lemma {:induction false} MatchEntryNone(ps: seq<Pattern>, text: string)
    ensures MatchEntry(ps, text).None? <==> forall j :: 0 <= j < |ps| ==> MatchPattern(ps[j], text).None?
  {
    if ps != [] {
      assert forall j :: 0 < j < |ps| ==> ps[1..][j - 1] == ps[j];
      MatchEntryNone(ps[1..], text);
    }
  }

  /**
   * Entries are tried in registration order and the first entry with a matching pattern wins:
   * the result names that entry and its captures, and no earlier entry matches.
   */
  function FirstMatch(cmds: seq<VoicePattern>, text: string): (r: Option<(nat, seq<string>)>)
    ensures r.Some? ==> r.value.0 < |cmds|
                        && MatchEntry(cmds[r.value.0].patterns, text) == Some(r.value.1)
                        && forall j :: 0 <= j < r.value.0 ==> MatchEntry(cmds[j].patterns, text).None?
    ensures r.None? <==> forall j :: 0 <= j < |cmds| ==> MatchEntry(cmds[j].patterns, text).None?
  {
    if cmds == [] then None
    else
      var m := MatchEntry(cmds[0].patterns, text);
      if m.Some? then Some((0, m.value))
      else
        var tail := cmds[1..];
        assert forall j :: 1 <= j < |cmds| ==> tail[j - 1] == cmds[j];
        var rest := FirstMatch(tail, text);
        if rest.None? then None
        else Some((rest.value.0 + 1, rest.value.1))
  }

  /** The parameter name of the `n`-th captured group. */
  function ParamKey(n: nat): string {
    "param" + NatToString(n)
  }

  lemma ParamKeyInjective(a: nat, b: nat)
    requires ParamKey(a) == ParamKey(b)
    ensures a == b
  {
    assert ParamKey(a)[5..] == NatToString(a);
    assert ParamKey(b)[5..] == NatToString(b);
    NatToStringInjective(a, b);
  }

  /** `param1`, `param2`, ... for the captured groups, in group order. */
  function CaptureParams(caps: seq<string>): (m: map<string, Value>)
    ensures forall n :: 1 <= n <= |caps| ==> ParamKey(n) in m && m[ParamKey(n)] == Str(caps[n - 1])
    decreases |caps|
  {
    if caps == [] then map[]
    else
      var n := |caps|;
      var prev := CaptureParams(caps[..n - 1]);
      assert forall j :: 1 <= j < n ==> ParamKey(j) != ParamKey(n) by {
        forall j | 1 <= j < n ensures ParamKey(j) != ParamKey(n) {
          if ParamKey(j) == ParamKey(n) { ParamKeyInjective(j, n); }
        }
      }
      prev[ParamKey(n) := Str(caps[n - 1])]
  }

  /** The names of the first `count` groups. */
  function ParamKeys(count: nat): (r: set<string>)
    ensures forall n :: 1 <= n <= count ==> ParamKey(n) in r
  {
    if count == 0 then {} else ParamKeys(count - 1) + {ParamKey(count)}
  }

  /** The captured parameters have no key besides `param1` to `param<count>`. */
  lemma {:induction false} CaptureParamsKeys(caps: seq<string>)
    ensures CaptureParams(caps).Keys == ParamKeys(|caps|)
    decreases |caps|
  {
    if caps != [] {
      CaptureParamsKeys(caps[..|caps| - 1]);
    }
  }

  /** Those names are exactly `param1` to `param<count>`. */
  lemma {:induction false} ParamKeysExactly(count: nat, k: string)
    requires k in ParamKeys(count)
    ensures exists n :: 1 <= n <= count && k == ParamKey(n)
  {
    if k != ParamKey(count) {
      ParamKeysExactly(count - 1, k);
      var n :| 1 <= n <= count - 1 && k == ParamKey(n);
    }
  }

  /**
   * `parseVoiceCommand`: the command for the first matching pattern. Captures become
   * `paramN`; the entry's static parameters are copied over them (`Object.assign`).
   * `now` is the clock reading used for the request id and the timestamp.
   */
  function Parse(cmds: seq<VoicePattern>, text: string, now: int): Option<Command> {
    match FirstMatch(cmds, Normalize(text))
    case None => None
    case Some((i, caps)) =>
      Some(Command(
        cmds[i].action,
        CaptureParams(caps) + cmds[i].parameters,
        map["voiceCommand" := Str(text)],
        "voice-user",
        "voice-" + IntToString(now),
        now))
  }

  /**
   * What a parsed command holds: the winning entry's action, the original (un-normalised) text,
   * the static parameters over the captured ones, and the captured ones for every other key.
   */
  lemma ParseResult(cmds: seq<VoicePattern>, text: string, now: int)
    ensures Parse(cmds, text, now).None? <==>
              forall j :: 0 <= j < |cmds| ==> MatchEntry(cmds[j].patterns, Normalize(text)).None?
    ensures Parse(cmds, text, now).Some? ==>
              var c := Parse(cmds, text, now).value;
              var (i, caps) := FirstMatch(cmds, Normalize(text)).value;
              && c.action == cmds[i].action
              && c.context == map["voiceCommand" := Str(text)]
              && (forall k :: k in cmds[i].parameters ==> c.parameters[k] == cmds[i].parameters[k])
              && (forall k :: k in CaptureParams(caps) && k !in cmds[i].parameters ==>
                               c.parameters[k] == CaptureParams(caps)[k])
              && (forall j :: 0 <= j < i ==> MatchEntry(cmds[j].patterns, Normalize(text)).None?)
  {
  }

  // ----- voice replies --------------------------------------------------------------

  /** The base `formatVoiceResponse`. */
  function FormatDefault(r: Response): (s: string)
    ensures !r.success ==> s == "Error: " + (if r.error.Some? && r.error.value != [] then r.error.value else "Operation failed")
    ensures r.success && r.data.Some? && r.data.value.Str? ==> s == r.data.value.s
    ensures r.success && !(r.data.Some? && r.data.value.Str?) ==> s == "Operation completed successfully."
  {
    if !r.success then
      "Error: " + (if r.error.Some? && r.error.value != [] then r.error.value else "Operation failed")
    else if r.data.Some? && r.data.value.Str? then r.data.value.s
    else "Operation completed successfully."
  }

  /** The first pattern of each entry, joined by ", " (an entry without patterns adds ""). */
  function FirstPatterns(cmds: seq<VoicePattern>): (r: seq<string>)
    ensures |r| == |cmds|
    ensures forall i :: 0 <= i < |cmds| ==>
              r[i] == (if cmds[i].patterns == [] then "" else Source(cmds[i].patterns[0]))
  {
    if cmds == [] then []
    else [if cmds[0].patterns == [] then "" else Source(cmds[0].patterns[0])] + FirstPatterns(cmds[1..])
  }

  /** `getAvailableCommands`: the joined first patterns, or a fixed sentence when that is empty. */
  function AvailableCommands(cmds: seq<VoicePattern>): (s: string)
    ensures cmds == [] ==> s == "No voice commands available"
    ensures |cmds| == 1 ==>
              s == (if cmds[0].patterns == [] || Source(cmds[0].patterns[0]) == [] then "No voice commands available"
                    else Source(cmds[0].patterns[0]))
    ensures |cmds| >= 2 ==> s == Join(FirstPatterns(cmds), ", ")
  {
    var joined := Join(FirstPatterns(cmds), ", ");
    JoinEmpty(FirstPatterns(cmds), ", ");
    if joined == [] then "No voice commands available" else joined
  }

  /** The reply when no pattern matches. */
  function NotUnderstood(cmds: seq<VoicePattern>): string {
    "I didn't understand that command. Available commands: " + AvailableCommands(cmds)
  }

  /** The reply when `execute` throws while a voice command is processed. */
  const VoiceErrorReply := "I encountered an error processing your request. Please try again."

  // ----- memory ---------------------------------------------------------------------

  /** An entry with a truthy ttl expires once strictly more than `ttl` seconds have passed. */
  predicate Expired(e: MemoryEntry, now: int) {
    e.ttl != 0 && now - e.timestamp > e.ttl * 1000
  }

  /** `cleanupMemory`: the entries that have not expired at `now`. */
  function Swept(m: map<string, MemoryEntry>, now: int): (r: map<string, MemoryEntry>)
    ensures forall k :: k in r <==> k in m && !Expired(m[k], now)
    ensures forall k :: k in r ==> r[k] == m[k]
  {
    map k | k in m && !Expired(m[k], now) :: m[k]
  }

  /** `saveMemory(k, v, ttl)`: store `{v, now, ttl}` under `k`, then sweep. */
  function Saved(m: map<string, MemoryEntry>, k: string, v: Value, ttl: int, now: int): map<string, MemoryEntry> {
    Swept(m[k := MemoryEntry(v, now, ttl)], now)
  }

  /** `getMemory(k)`: the value read and the memory afterwards (an expired entry is deleted). */
  function Read(m: map<string, MemoryEntry>, k: string, now: int): (r: (Option<Value>, map<string, MemoryEntry>))
    ensures k !in m ==> r == (None, m)
    ensures k in m && Expired(m[k], now) ==> r == (None, m - {k})
    ensures k in m && !Expired(m[k], now) ==> r == (Some(m[k].value), m)
  {
    if k !in m then (None, m)
    else if Expired(m[k], now) then (None, m - {k})
    else (Some(m[k].value), m)
  }

  /**
   * After a save, the saved entry is there (unless a negative ttl makes it expire at once),
   * every other unexpired entry survives unchanged and every expired one is gone.
   */
  lemma SaveKeepsLive(m: map<string, MemoryEntry>, k: string, v: Value, ttl: int, now: int)
    ensures var m' := Saved(m, k, v, ttl, now);
            && (k in m' <==> ttl >= 0)
            && (k in m' ==> m'[k] == MemoryEntry(v, now, ttl) && Read(m', k, now).0 == Some(v))
            && (forall j :: j != k && j in m && !Expired(m[j], now) ==> j in m' && m'[j] == m[j])
            && (forall j :: j in m' ==> !Expired(m'[j], now))
  {
  }

  /** Reading an expired key returns nothing and deletes it, so a second read also returns nothing. */
  lemma ExpiredReadTwice(m: map<string, MemoryEntry>, k: string, now: int, later: int)
    requires k in m && Expired(m[k], now)
    ensures Read(m, k, now).0 == None
    ensures Read(Read(m, k, now).1, k, later) == (None, Read(m, k, now).1)
  {
  }

  /** An entry without a ttl is returned however much time has passed. */
  lemma NoTtlNeverExpires(m: map<string, MemoryEntry>, k: string, v: Value, now: int, later: int)
    ensures Read(Saved(m, k, v, 0, now), k, later).0 == Some(v)
  {
  }

  // ----- lifecycle and events ----------------------------------------------------------

  /** The message of the error `checkInitialized` throws. */
  function NotInitializedMessage(name: string): string {
    "Agent " + name + " is not initialized"
  }

  /** The message `validateConfig` throws for a missing configuration. */
  const ConfigRequired := "Configuration is required"

  /** The `voiceCommands` part of `getInfo`: patterns and `description || action`. */
  function PatternInfos(cmds: seq<VoicePattern>): (r: seq<PatternInfo>)
    ensures |r| == |cmds|
    ensures forall i :: 0 <= i < |cmds| ==>
              (r[i].patterns == cmds[i].patterns
               && r[i].description == (if cmds[i].description != [] then cmds[i].description else cmds[i].action))
  {
    if cmds == [] then []
    else [PatternInfo(cmds[0].patterns, if cmds[0].description != [] then cmds[0].description else cmds[0].action)]
         + PatternInfos(cmds[1..])
  }

  /** `getInfo` from an agent's identity and state. */
  function Info(agentNumber: int, name: string, description: string, isInitialized: bool, cmds: seq<VoicePattern>): (i: AgentInfo)
    ensures i.voiceEnabled <==> cmds != []
    ensures i.isInitialized == isInitialized && i.agentNumber == agentNumber && i.name == name
    ensures i.description == description && i.voiceCommands == PatternInfos(cmds)
  {
    AgentInfo(agentNumber, name, description, isInitialized, |cmds| > 0, PatternInfos(cmds))
  }

  /** The payload `sendMessage(to, data)` emits as a `message` event. */
  function MessagePayload(from: string, to: string, data: Value, now: int): (m: Message)
    ensures m.from == from && m.to == to && m.data == data
    ensures m.action.None? && m.duration.None?
  {
    Message(from, to, data, now, None, None)
  }
}
