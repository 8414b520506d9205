/** The records exchanged between callers, the manager and the agents. */
module Protocol {
  import opened Wrappers
  import opened Json

  /** A structured request; `timestamp` is milliseconds since the epoch. */
  datatype Command = Command(
    action: string,
    parameters: map<string, Value>,
    context: map<string, Value>,
    userId: string,
    requestId: string,
    timestamp: int)

  /** The optional `metadata` of a response; each agent fills in a different subset. */
  datatype Metadata = Metadata(
    executionTime: Option<int>,
    agentNumber: Option<int>,
    resourcesUsed: Option<seq<string>>)

  /** `{success, data?, error?, metadata?}`. */
  datatype Response = Response(
    success: bool,
    data: Option<Value>,
    error: Option<string>,
    metadata: Option<Metadata>)

  /** What a call that may throw produced: a value, or the message of the thrown `Error`. */
  datatype Outcome<+T> = Returned(value: T) | Threw(message: string)

  /**
   * A voice pattern. Every pattern the agents register is either a literal phrase or a
   * literal phrase followed by the capture group `(.*)`; both are matched case-insensitively
   * anywhere in the text.
   */
  datatype Pattern = Phrase(text: string) | PhraseThenRest(prefix: string)

  /** The regular-expression source text of a pattern. */
  function Source(p: Pattern): string {
    match p
    case Phrase(t) => t
    case PhraseThenRest(pre) => pre + "(.*)"
  }

  /** One registered voice command: its synonyms, the action they trigger and static parameters. */
  datatype VoicePattern = VoicePattern(
    patterns: seq<Pattern>,
    action: string,
    parameters: map<string, Value>,
    description: string)

  /** The three values of the `status` event. */
  datatype Status = Idle | Executing | Error

  datatype Details = NoDetails | ActionDetails(action: string) | ErrorDetails(error: string)

  /** The payload of an agent's `status` event. */
  datatype StatusEvent = StatusEvent(agentNumber: int, status: Status, details: Details, timestamp: int)

  /**
   * The payload of an agent's `message` event. `sendMessage` fills the first four fields; the
   * log of the system architecture agent also reads `action` and `duration` when present.
   */
  datatype Message = Message(
    from: string,
    to: string,
    data: Value,
    timestamp: int,
    action: Option<string>,
    duration: Option<int>)

  /** One entry of an agent's memory; `ttl` is in seconds and 0 stands for "no ttl". */
  datatype MemoryEntry = MemoryEntry(value: Value, timestamp: int, ttl: int)

  datatype PatternInfo = PatternInfo(patterns: seq<Pattern>, description: string)

  /** The snapshot `getInfo` returns. */
  datatype AgentInfo = AgentInfo(
    agentNumber: int,
    name: string,
    description: string,
    isInitialized: bool,
    voiceEnabled: bool,
    voiceCommands: seq<PatternInfo>)
}
