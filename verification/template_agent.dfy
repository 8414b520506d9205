/**
 * The agent template new agents are generated from: one voice command entry, one action
 * (`example_action`), a configuration check on `apiKeys.exampleKey`, substring-based voice
 * parsing and its own voice reply format.
 */
module Template {
  import opened Wrappers
  import opened Strings
  import opened Json
  import opened Protocol
  import McpAgent

  const ExampleAction := "example_action"
  const MissingKey := "Missing required API key: exampleKey"
  const NotUnderstood := "I didn't understand that command. Please try again."
  const SuccessPrefix := "Operation completed successfully. "
  const FailurePrefix := "I encountered an error: "

  /** The single entry `registerVoiceCommands` installs. */
  const TemplateCommands: seq<VoicePattern> :=
    [VoicePattern([Phrase("example command"), Phrase("do something")], ExampleAction, map[], "Execute an example action")]

  // ----- configuration ------------------------------------------------------------

  /** `config.apiKeys?.exampleKey` is truthy. */
  predicate HasExampleKey(config: Value) {
    Truthy(GetOpt(Get(config, "apiKeys"), "exampleKey"))
  }

  /** `validateConfig(config)`: throws exactly when the example key is missing or falsy. */
  function ValidateConfig(config: Value): (r: Outcome<()>)
    ensures r.Returned? <==> HasExampleKey(config)
    ensures r.Threw? ==> r.message == MissingKey
  {
    if HasExampleKey(config) then Returned(()) else Threw(MissingKey)
  }

  // ----- execution ----------------------------------------------------------------

  /** What a thrown value is: an `Error` carries a message, anything else does not. */
  datatype Thrown = ErrorObject(message: string) | OtherValue

  /** How an action handler ended: with a response, or by throwing. */
  datatype HandlerResult = Completed(response: Response) | Raised(thrown: Thrown)

  /** The `error` the `catch` clause of `execute` reports for a thrown value. */
  function CaughtError(t: Thrown): (e: string)
    ensures t.ErrorObject? ==> e == t.message
    ensures t.OtherValue? ==> e == "Unknown error"
  {
    match t
    case ErrorObject(m) => m
    case OtherValue => "Unknown error"
  }

  /**
   * `handleExampleAction(command)`: a successful response whose data holds the fixed message
   * and the current time (a `Date`, which `JSON.stringify` writes as its ISO text `isoNow`).
   */
  function HandleExampleAction(cmd: Command, isoNow: string): (r: Response)
    ensures r.success && r.error.None? && r.data.Some?
    ensures Get(r.data.value, "message") == Some(Str("Example action completed"))
    ensures Get(r.data.value, "timestamp") == Some(Str(isoNow))
    ensures r.metadata == Some(Metadata(Some(100), None, Some(["example-resource"])))
  {
    var message := ("message", Str("Example action completed"));
    var timestamp := ("timestamp", Str(isoNow));
    Field2(message, timestamp, "message");
    Field2(message, timestamp, "timestamp");
    Response(
      true,
      Some(Obj([message, timestamp])),
      None,
      Some(Metadata(Some(100), None, Some(["example-resource"]))))
  }

  /**
   * `execute(command)` with the action handler `handler`: `example_action` goes to the handler,
   * any other action fails with `Unknown action: <action>`, and a throw from the handler
   * becomes a failed response carrying the caught error. Nothing escapes.
   */
  function ExecuteWith(cmd: Command, handler: Command -> HandlerResult): (r: Response)
    ensures r.success <==> cmd.action == ExampleAction && handler(cmd).Completed? && handler(cmd).response.success
    ensures cmd.action != ExampleAction ==> r.error == Some("Unknown action: " + cmd.action) && r.data.None?
    ensures cmd.action == ExampleAction && handler(cmd).Raised? ==>
              r.error == Some(CaughtError(handler(cmd).thrown)) && r.data.None? && r.metadata.None?
  {
    if cmd.action == ExampleAction then
      match handler(cmd)
      case Completed(response) => response
      case Raised(t) => Response(false, None, Some(CaughtError(t)), None)
    else
      Response(false, None, Some("Unknown action: " + cmd.action), None)
  }

  /** `execute(command)` with the template's own handler, which never throws. */
  function Execute(cmd: Command, isoNow: string): Response {
    ExecuteWith(cmd, c => Completed(HandleExampleAction(c, isoNow)))
  }

  /** `example_action` succeeds with the fixed message and a positive execution time. */
  lemma ExampleActionSucceeds(cmd: Command, isoNow: string)
    requires cmd.action == ExampleAction
    ensures var r := Execute(cmd, isoNow);
            && r.success && Get(r.data.value, "message") == Some(Str("Example action completed"))
            && r.metadata.Some? && r.metadata.value.executionTime.Some? && r.metadata.value.executionTime.value > 0
  {
    var r := HandleExampleAction(cmd, isoNow);
    assert Execute(cmd, isoNow) == r;
  }

  /** Any other action fails without throwing, and the error names the action. */
  lemma UnknownActionFails(cmd: Command, isoNow: string)
    requires cmd.action != ExampleAction
    ensures var r := Execute(cmd, isoNow);
            !r.success && r.error == Some("Unknown action: " + cmd.action)
  {
  }

  /** A handler that throws an `Error` yields a failed response carrying exactly its message. */
  lemma HandlerErrorReported(cmd: Command, message: string)
    requires cmd.action == ExampleAction
    ensures var r := ExecuteWith(cmd, _ => Raised(ErrorObject(message)));
            !r.success && r.error == Some(message)
  {
  }

  // ----- voice --------------------------------------------------------------------

  /** Some pattern of the entry occurs, as plain text, in `text` (`includes`, not a regular expression). */
  predicate Mentions(patterns: seq<Pattern>, text: string) {
    exists j :: 0 <= j < |patterns| && Contains(text, Source(patterns[j]))
  }

  /** The first entry, in registration order, one of whose patterns occurs in `text`. */
  function FirstMentioned(cmds: seq<VoicePattern>, text: string): (r: Option<nat>)
    ensures r.Some? ==> r.value < |cmds| && Mentions(cmds[r.value].patterns, text)
                        && forall i :: 0 <= i < r.value ==> !Mentions(cmds[i].patterns, text)
    ensures r.None? <==> forall i :: 0 <= i < |cmds| ==> !Mentions(cmds[i].patterns, text)
  {
    if cmds == [] then None
    else if Mentions(cmds[0].patterns, text) then Some(0)
    else
      var tail := cmds[1..];
      assert forall i :: 1 <= i < |cmds| ==> tail[i - 1] == cmds[i];
      var rest := FirstMentioned(tail, text);
      if rest.None? then None else Some(rest.value + 1)
  }

  /** The command a voice match builds: the entry's action and empty parameters. */
  function VoiceCommand(action: string, now: int): Command {
    Command(action, map[], map[], "voice-user", "voice-" + IntToString(now), now)
  }

  /** `parseVoiceCommand(text)` over the entries `cmds`. */
  function Parse(cmds: seq<VoicePattern>, text: string, now: int): Option<Command> {
    match FirstMentioned(cmds, McpAgent.Normalize(text))
    case None => None
    case Some(i) => Some(VoiceCommand(cmds[i].action, now))
  }

  /** `JSON.stringify(x)` inside a template literal: `undefined` stays `undefined`. */
  function JsonText(x: Option<Value>): string {
    match x
    case None => "undefined"
    case Some(v) => Stringify(v)
  }

  /** `${response.error}`. */
  function ErrorText(e: Option<string>): string {
    match e
    case None => "undefined"
    case Some(s) => s
  }

  /**
   * `formatVoiceResponse(response)`: a success reads "Operation completed successfully. "
   * followed by the JSON of the data, a failure "I encountered an error: " followed by the
   * error; the opening words alone tell the two apart.
   */
  function FormatVoiceResponse(r: Response): (s: string)
    ensures r.success <==> StartsWith(s, SuccessPrefix)
    ensures !r.success <==> StartsWith(s, FailurePrefix)
    ensures r.success ==> s[|SuccessPrefix|..] == JsonText(r.data)
    ensures !r.success ==> s[|FailurePrefix|..] == ErrorText(r.error)
  {
    if r.success then
      var s := SuccessPrefix + JsonText(r.data);
      assert s[0] == 'O' != FailurePrefix[0];
      s
    else
      var s := FailurePrefix + ErrorText(r.error);
      assert s[0] == 'I' != SuccessPrefix[0];
      s
  }

  /** What `processVoiceCommand(text)` answers for the entries `cmds`. */
  function VoiceReply(cmds: seq<VoicePattern>, text: string, now: int, isoNow: string): string {
    match Parse(cmds, text, now)
    case None => NotUnderstood
    case Some(cmd) => FormatVoiceResponse(Execute(cmd, isoNow))
  }

  /**
   * With the template's entry registered, text mentioning either phrase (in any letter case)
   * is answered with a success, and any other text with the fixed sentence.
   */
  lemma TemplateVoiceReply(text: string, now: int, isoNow: string)
    ensures var reply := VoiceReply(TemplateCommands, text, now, isoNow);
            && (Mentions(TemplateCommands[0].patterns, McpAgent.Normalize(text)) ==> StartsWith(reply, SuccessPrefix))
            && (!Mentions(TemplateCommands[0].patterns, McpAgent.Normalize(text)) ==> reply == NotUnderstood)
  {
    var t := McpAgent.Normalize(text);
    if Mentions(TemplateCommands[0].patterns, t) {
      assert FirstMentioned(TemplateCommands, t) == Some(0);
      ExampleActionSucceeds(VoiceCommand(ExampleAction, now), isoNow);
    } else {
      assert FirstMentioned(TemplateCommands, t).None?;
    }
  }

  /** Parsing lower-cases first, so the reply does not depend on the letter case of the text. */
  lemma VoiceReplyIgnoresCase(cmds: seq<VoicePattern>, text: string, now: int, isoNow: string)
    ensures VoiceReply(cmds, Lower(text), now, isoNow) == VoiceReply(cmds, text, now, isoNow)
  {
    LowerIdempotent(text);
  }

  /** Upper-case text is matched too: "DO SOMETHING" is answered with a success. */
  lemma UpperCasePhraseSucceeds(text: string, now: int, isoNow: string)
    requires text == "DO SOMETHING"
    ensures StartsWith(VoiceReply(TemplateCommands, text, now, isoNow), SuccessPrefix)
  {
    UpperCaseNormalized(text);
    ContainsAt(McpAgent.Normalize(text), Source(TemplateCommands[0].patterns[1]), 0);
    TemplateVoiceReply(text, now, isoNow);
  }

  lemma UpperCaseNormalized(text: string)
    requires text == "DO SOMETHING"
    ensures McpAgent.Normalize(text) == "do something"
  {
    UpperCaseLowered(text);
    TrimUntouched("do something");
  }

  lemma UpperCaseLowered(text: string)
    requires text == "DO SOMETHING"
    ensures Lower(text) == "do something"
  {
    var t := "do something";
    assert forall i :: 0 <= i < |t| ==> Lower(text)[i] == t[i];
  }

  /** "random gibberish" mentions neither phrase (it has no `x` and no `t`) and is not understood. */
  lemma GibberishNotUnderstood(text: string, now: int, isoNow: string)
    requires text == "random gibberish"
    ensures VoiceReply(TemplateCommands, text, now, isoNow) == NotUnderstood
  {
    GibberishNormalized(text);
    NoExampleCommand(text);
    NoDoSomething(text);
    var patterns := TemplateCommands[0].patterns;
    assert Source(patterns[0]) == "example command" && Source(patterns[1]) == "do something";
    assert !Mentions(patterns, text);
    TemplateVoiceReply(text, now, isoNow);
  }

  lemma GibberishNormalized(text: string)
    requires text == "random gibberish"
    ensures McpAgent.Normalize(text) == text
  {
    LowerOfLower(text);
    TrimUntouched(text);
  }

  lemma NoExampleCommand(text: string)
    requires text == "random gibberish"
    ensures !Contains(text, "example command")
  {
    NotContainsMissingChar(text, "example command", 1);
  }

  lemma NoDoSomething(text: string)
    requires text == "random gibberish"
    ensures !Contains(text, "do something")
  {
    NotContainsMissingChar(text, "do something", 7);
  }

  /** The outer loop of `parseVoiceCommand`: the entries in registration order, the first hit wins. */
  method FirstEntryMentioned(cmds: seq<VoicePattern>, normalized: string) returns (found: Option<nat>)
    ensures found == FirstMentioned(cmds, normalized)
  {
    var i := 0;
    while i < |cmds|
      invariant 0 <= i <= |cmds|
      invariant forall i' :: 0 <= i' < i ==> !Mentions(cmds[i'].patterns, normalized)
    {
      var hit := AnyPatternMentioned(cmds[i].patterns, normalized);
      if hit {
        FirstMentionedAt(cmds, normalized, i);
        return Some(i);
      }
      i := i + 1;
    }
    return None;
  }

  /** An entry that is mentioned, after entries that are not, is the first mentioned one. */
  lemma FirstMentionedAt(cmds: seq<VoicePattern>, text: string, i: nat)
    requires i < |cmds| && Mentions(cmds[i].patterns, text)
    requires forall i' :: 0 <= i' < i ==> !Mentions(cmds[i'].patterns, text)
    ensures FirstMentioned(cmds, text) == Some(i)
  {
    var r := FirstMentioned(cmds, text);
    assert r.Some?;
    assert r.value == i;
  }

  /** The inner loop of `parseVoiceCommand`: the patterns of one entry in list order, tested with `includes`. */
  method AnyPatternMentioned(patterns: seq<Pattern>, normalized: string) returns (hit: bool)
    ensures hit <==> Mentions(patterns, normalized)
  {
    var j := 0;
    while j < |patterns|
      invariant 0 <= j <= |patterns|
      invariant forall j' :: 0 <= j' < j ==> !Contains(normalized, Source(patterns[j']))
    {
      if Contains(normalized, Source(patterns[j])) {
        return true;
      }
      j := j + 1;
    }
    return false;
  }

  /** The agent template: its configuration and its registered voice commands. */
  class TemplateAgent {
    const agentNumber: int := 99
    const name: string := "Template Agent"
    const description: string := "Template for creating new agents"

    var config: Value
    var voiceCommands: seq<VoicePattern>

    constructor ()
      ensures config == Obj([]) && voiceCommands == []
    {
      config := Obj([]);
      voiceCommands := [];
    }

    /**
     * `initialize(config)`: a configuration without the example key is rejected before
     * anything is stored; otherwise the configuration is stored and the template's voice
     * command entry registered.
     */
    method Initialize(config: Value) returns (r: Outcome<()>)
      modifies this
      ensures r == ValidateConfig(config)
      ensures r.Threw? ==> this.config == old(this.config) && voiceCommands == old(voiceCommands)
      ensures r.Returned? ==> this.config == config && voiceCommands == TemplateCommands
    {
      r := ValidateConfig(config);
      if r.Threw? {
        return;
      }
      this.config := config;
      voiceCommands := TemplateCommands;
    }

    /**
     * `parseVoiceCommand(text)`: every entry in registration order, each of its patterns in
     * list order, tested with `includes` on the normalised text; the first hit returns.
     */
    method ParseVoiceCommand(text: string, now: int) returns (c: Option<Command>)
      ensures c == Parse(voiceCommands, text, now)
    {
      var found := FirstEntryMentioned(voiceCommands, McpAgent.Normalize(text));
      if found.None? {
        return None;
      }
      c := Some(VoiceCommand(voiceCommands[found.value].action, now));
    }

    /** `processVoiceCommand(text)`: unmatched text gets the fixed sentence, a match the formatted response. */
    method ProcessVoiceCommand(text: string, now: int, isoNow: string) returns (reply: string)
      ensures reply == VoiceReply(voiceCommands, text, now, isoNow)
    {
      var command := ParseVoiceCommand(text, now);
      if command.None? {
        return NotUnderstood;
      }
      reply := FormatVoiceResponse(Execute(command.value, isoNow));
    }

    /** `cleanup()`: there are no resources to release, so it resolves whatever state the agent is in. */
    method Cleanup() returns (r: Outcome<()>)
      ensures r == Returned(())
    {
      r := Returned(());
    }
  }

  /** The configuration the template's tests use passes the check; one with empty `apiKeys` does not. */
  lemma TestConfigurations()
    ensures HasExampleKey(Obj([("apiKeys", Obj([("exampleKey", Str("test-api-key-12345"))])),
                               ("voiceEnabled", Bool(true))]))
    ensures !HasExampleKey(Obj([("apiKeys", Obj([])), ("voiceEnabled", Bool(true))]))
  {
  }
}
