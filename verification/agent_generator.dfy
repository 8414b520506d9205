/**
 * The command-line scaffolding tool that creates a new agent from the agent template: the
 * prompt validators, the defaulting of the collected options, the names and paths derived
 * from the agent name, the placeholder substitution, the specification text and the file
 * rewriting loop. The file system is a map from repository-relative paths to file contents.
 */
module AgentGenerator {
  import opened Wrappers
  import opened Strings

  // ----- prompts and options ------------------------------------------------------------

  /** What an `inquirer` validator answers: accept, or the message shown before asking again. */
  datatype Validation = Accept | Reject(message: string)

  /** The validator of the agent-number prompt. */
  function ValidateNumber(input: int): (v: Validation)
    ensures v.Accept? <==> 1 <= input <= 100
    ensures v.Reject? ==> v.message == "Agent number must be between 1 and 100"
  {
    if input < 1 || input > 100 then Reject("Agent number must be between 1 and 100") else Accept
  }

  /** The validator of the agent-name prompt: an empty or blank name is refused. */
  function ValidateName(input: string): (v: Validation)
    ensures v.Accept? <==> Trim(input) != []
    ensures v.Reject? ==> v.message == "Agent name is required"
  {
    if input == [] || |Trim(input)| == 0 then Reject("Agent name is required") else Accept
  }

  /**
   * The parsed command line: `--number` (after `parseInt`; a missing or unparsable number is
   * `None`), `--name`, `--description` and `voice`, which `--no-voice` turns off.
   */
  datatype CliOptions = CliOptions(number: Option<int>, name: Option<string>, description: Option<string>, voice: bool)

  /** The prompt answers; a question that was not asked has no answer. */
  datatype Answers = Answers(number: Option<int>, name: Option<string>, description: Option<string>)

  /** The collected configuration; an `undefined` number or name stays `None`. */
  datatype AgentOptions = AgentOptions(number: Option<int>, name: Option<string>, description: string, voiceEnabled: bool)

  /** JavaScript truthiness of an optional number and of an optional string. */
  predicate NumberGiven(n: Option<int>) { n.Some? && n.value != 0 }
  predicate TextGiven(s: Option<string>) { s.Some? && s.value != [] }

  /** `a || b` for numbers and for strings. */
  function OrNumber(a: Option<int>, b: Option<int>): Option<int> { if NumberGiven(a) then a else b }
  function OrText(a: Option<string>, b: Option<string>): Option<string> { if TextGiven(a) then a else b }

  /**
   * The answers a prompt session can produce: a question is asked exactly when its option is
   * missing or falsy (`when: !options.x`), and the answers that reach the program passed
   * their validators.
   */
  predicate PromptAnswers(options: CliOptions, answers: Answers) {
    && (answers.number.Some? <==> !NumberGiven(options.number))
    && (answers.number.Some? ==> ValidateNumber(answers.number.value).Accept?)
    && (answers.name.Some? <==> !TextGiven(options.name))
    && (answers.name.Some? ==> ValidateName(answers.name.value).Accept?)
    && (answers.description.Some? <==> !TextGiven(options.description))
  }

  /** `${x}` for an optional number. */
  function NumberText(n: Option<int>): string {
    if n.None? then "undefined" else IntToString(n.value)
  }

  /** `${x}` for an optional string. */
  function NameText(s: Option<string>): string {
    if s.None? then "undefined" else s.value
  }

  /**
   * `agentConfig`: each option wins over its answer; the description falls back to
   * `<name> agent`; voice is on unless `--no-voice` was given.
   */
  function ResolveOptions(options: CliOptions, answers: Answers): (c: AgentOptions)
    ensures NumberGiven(options.number) ==> c.number == options.number
    ensures !NumberGiven(options.number) ==> c.number == answers.number
    ensures TextGiven(options.name) ==> c.name == options.name
    ensures !TextGiven(options.name) ==> c.name == answers.name
    ensures c.description != []
    ensures c.voiceEnabled == options.voice
  {
    var name := OrText(options.name, answers.name);
    var description := OrText(OrText(options.description, answers.description), Some(NameText(name) + " agent"));
    AgentOptions(OrNumber(options.number, answers.number), name, description.value, options.voice)
  }

  /**
   * After a prompt session the number and the name are always defined: a prompted number
   * lies in 1..100 and a prompted name is not blank.
   */
  lemma PromptedOptionsDefined(options: CliOptions, answers: Answers)
    requires PromptAnswers(options, answers)
    ensures var c := ResolveOptions(options, answers);
            && c.number.Some? && c.name.Some?
            && (!NumberGiven(options.number) ==> 1 <= c.number.value <= 100)
            && (!TextGiven(options.name) ==> Trim(c.name.value) != [])
            && (TextGiven(options.description) ==> c.description == options.description.value)
  {
  }

  /** Without a description option or answer, the description is the name followed by " agent". */
  lemma DefaultDescription(options: CliOptions, answers: Answers)
    requires !TextGiven(options.description) && !TextGiven(answers.description)
    ensures ResolveOptions(options, answers).description == NameText(ResolveOptions(options, answers).name) + " agent"
  {
  }

  // ----- names and paths -----------------------------------------------------------------

  predicate NoUpper(s: string) { forall i :: 0 <= i < |s| ==> !IsUpper(s[i]) }

  /** `agentDirName`: the name lower-cased, each white-space run replaced by one `-`. */
  function DirName(name: string): (d: string)
    ensures NoSpace(d) && NoUpper(d)
  {
    var d := ReplaceSpaceRuns(Lower(name), "-");
    ReplaceSpaceRunsNoSpace(Lower(name), "-");
    ReplaceSpaceRunsNoUpper(Lower(name), "-");
    d
  }

  /** A name without white space only has its letters lower-cased. */
  lemma DirNameOfWord(name: string)
    requires NoSpace(name)
    ensures DirName(name) == Lower(name)
  {
    forall i | 0 <= i < |name| ensures !IsSpace(Lower(name)[i]) {
      LowerKeepsSpace(name[i]);
    }
    ReplaceSpaceRunsNone(Lower(name), "-");
  }

  /** Each maximal white-space run of the name, however long, becomes exactly one `-`. */
  lemma DirNameOfRun(a: string, w: string, b: string)
    requires NoSpace(a)
    requires |w| > 0 && forall k :: 0 <= k < |w| ==> IsSpace(w[k])
    requires b == [] || !IsSpace(b[0])
    ensures DirName(a + w + b) == Lower(a) + "-" + DirName(b)
  {
    var la, lw, lb := Lower(a), Lower(w), Lower(b);
    assert Lower(a + w + b) == la + lw + lb;
    forall i | 0 <= i < |a| ensures !IsSpace(la[i]) {
      LowerKeepsSpace(a[i]);
    }
    forall k | 0 <= k < |w| ensures IsSpace(lw[k]) {
      LowerKeepsSpace(w[k]);
    }
    if b != [] {
      LowerKeepsSpace(b[0]);
    }
    ReplaceSpaceRunsSplit(la, lw, lb, "-");
  }

  /** `agentClassName`: the name with every white-space run removed, i.e. its non-space characters. */
  function ClassName(name: string): (c: string)
    ensures c == NonSpace(name)
    ensures NoSpace(c)
  {
    RemoveSpaceRunsFilters(name);
    ReplaceSpaceRunsNoSpace(name, "");
    ReplaceSpaceRuns(name, "")
  }

  /** Replacing white-space runs by a separator without upper-case letters introduces none. */
  lemma {:induction false} ReplaceSpaceRunsNoUpper(s: string, sep: string)
    requires NoUpper(s) && NoUpper(sep)
    ensures NoUpper(ReplaceSpaceRuns(s, sep))
    decreases |s|
  {
    if s == [] {
    } else if IsSpace(s[0]) {
      var n := LeadingSpaces(s);
      ReplaceSpaceRunsNoUpper(s[n..], sep);
      var rest := ReplaceSpaceRuns(s[n..], sep);
      assert ReplaceSpaceRuns(s, sep) == sep + rest;
    } else {
      ReplaceSpaceRunsNoUpper(s[1..], sep);
      var rest := ReplaceSpaceRuns(s[1..], sep);
      assert ReplaceSpaceRuns(s, sep) == [s[0]] + rest;
    }
  }

  const TemplateDir := "agents/agent-template"
  const TemplateFiles: seq<string> := ["index.ts", "README.md", "config.schema.json", "test.template.ts"]
  const TestTemplate := "test.template.ts"

  /** `targetPath`, relative to the repository root. */
  function TargetPath(dir: string): string { "backend/src/agents/" + dir }

  /** `String(number).padStart(2, '0')`. */
  function SpecNumber(n: Option<int>): string { PadStart2(NumberText(n)) }

  /** The directory the specifications are written to. */
  const SpecDir := "agents/specifications"

  /** `specPath`, relative to the repository root: a file of the specifications directory, outside every agent directory. */
  function SpecPath(n: Option<int>, dir: string): (p: string)
    ensures Under(p, SpecDir) && !Under(p, TargetPath(dir))
  {
    var file := SpecNumber(n) + "-" + dir + ".md";
    InsideDir(SpecDir, file);
    FirstCharDiffers(SpecDir + "/" + file, TargetPath(dir) + "/");
    SpecDir + "/" + file
  }

  /** `dir/rest` lies inside `dir`. */
  lemma InsideDir(dir: string, rest: string)
    ensures Under(dir + "/" + rest, dir)
  {
    assert (dir + "/" + rest)[..|dir + "/"|] == dir + "/";
  }

  /** Paths that start with different characters are not one inside the other. */
  lemma FirstCharDiffers(p: string, q: string)
    requires p != [] && q != [] && p[0] != q[0]
    ensures !StartsWith(p, q)
  {
    if |q| <= |p| {
      assert p[..|q|][0] != q[0];
    }
  }

  /** A leading zero does not change the value of a digit string. */
  lemma {:induction false} LeadingZeroValue(s: string)
    requires forall i :: 0 <= i < |s| ==> IsDigit(s[i])
    ensures DigitsValue("0" + s) == DigitsValue(s)
    decreases |s|
  {
    if s != [] {
      var z := "0" + s;
      assert z[..|z| - 1] == "0" + s[..|s| - 1];
      assert z[|z| - 1] == s[|s| - 1];
      LeadingZeroValue(s[..|s| - 1]);
    } else {
      assert DigitsValue("0") == DigitsValue([]) * 10 + DigitValue('0');
    }
  }

  /** The number in a specification file name has at least two digits and reads back as the agent number. */
  lemma SpecNumberRoundTrip(n: nat)
    ensures var t := SpecNumber(Some(n));
            && |t| >= 2 && (forall i :: 0 <= i < |t| ==> IsDigit(t[i])) && DigitsValue(t) == n
  {
    var s := NatToString(n);
    NatToStringRoundTrip(n);
    if |s| < 2 {
      assert SpecNumber(Some(n)) == "0" + s;
      LeadingZeroValue(s);
    }
  }

  // ----- placeholder substitution --------------------------------------------------------------

  /**
   * The five rewrites applied to each template file, in this order: the class name, the
   * display name, the directory name, the agent number and the description.
   */
  function Substitute(content: string, number: Option<int>, name: string, description: string): string {
    var c1 := ReplaceAll(content, "TemplateAgent", ClassName(name) + "Agent");
    var c2 := ReplaceAll(c1, "Template Agent", name);
    var c3 := ReplaceAll(c2, "template-agent", DirName(name));
    var c4 := ReplaceAll(c3, NumberLine, "agentNumber = " + NumberText(number));
    ReplaceAll(c4, "Template for creating new agents", description)
  }

  /** The template's agent-number line. */
  const NumberLine := "agentNumber = 99"

  /** A line without `T` and `p` holds none of the first three placeholders. */
  lemma FirstPlaceholdersAbsent(line: string)
    requires 'T' !in line && 'p' !in line
    ensures !Contains(line, "TemplateAgent") && !Contains(line, "Template Agent")
    ensures !Contains(line, "template-agent")
  {
    MissingChar(line, "TemplateAgent", 0);
    MissingChar(line, "Template Agent", 0);
    MissingChar(line, "template-agent", 3);
  }

  /** The rewritten number line holds no description placeholder. */
  lemma NumberTextFree(prefix: string, digits: string)
    requires 'T' !in prefix
    requires forall k :: 0 <= k < |digits| ==> IsDigit(digits[k])
    ensures !Contains(prefix + digits, "Template for creating new agents")
  {
    var r := prefix + digits;
    forall k | 0 <= k < |r| ensures r[k] != 'T' {
      if k < |prefix| { assert r[k] == prefix[k] && prefix[k] in prefix; } else { assert r[k] == digits[k - |prefix|]; }
    }
    NotContainsMissingChar(r, "Template for creating new agents", 0);
  }

  /** A line that is the template's agent-number line becomes the new agent's: `agentNumber = <n>`. */
  lemma SubstituteNumberLine(line: string, n: nat, name: string, description: string)
    requires line == NumberLine
    ensures Substitute(line, Some(n), name, description) == "agentNumber = " + NatToString(n)
  {
    FirstPlaceholdersAbsent(line);
    ReplaceAllAbsent(line, "TemplateAgent", ClassName(name) + "Agent");
    ReplaceAllAbsent(line, "Template Agent", name);
    ReplaceAllAbsent(line, "template-agent", DirName(name));
    var r := "agentNumber = " + NatToString(n);
    ReplaceAllWhole(line, r);
    NumberTextFree("agentNumber = ", NatToString(n));
    ReplaceAllAbsent(r, "Template for creating new agents", description);
  }

  /** A file without any placeholder is written back unchanged. */
  lemma SubstituteWithoutPlaceholders(content: string, number: Option<int>, name: string, description: string)
    requires !Contains(content, "TemplateAgent") && !Contains(content, "Template Agent")
    requires !Contains(content, "template-agent") && !Contains(content, NumberLine)
    requires !Contains(content, "Template for creating new agents")
    ensures Substitute(content, number, name, description) == content
  {
    ReplaceAllAbsent(content, "TemplateAgent", ClassName(name) + "Agent");
    ReplaceAllAbsent(content, "Template Agent", name);
    ReplaceAllAbsent(content, "template-agent", DirName(name));
    ReplaceAllAbsent(content, NumberLine, "agentNumber = " + NumberText(number));
    ReplaceAllAbsent(content, "Template for creating new agents", description);
  }

  // ----- the specification text ------------------------------------------------------------

  /** The line under "## Voice Commands". */
  function VoiceLine(voiceEnabled: bool): (s: string)
    ensures voiceEnabled <==> s == "- TODO: List voice commands"
    ensures !voiceEnabled <==> s == "- Voice commands disabled"
  {
    if voiceEnabled then "- TODO: List voice commands" else "- Voice commands disabled"
  }

  /** The heading above the description. */
  const OverviewHeading := "\n## Overview\n"

  /** The capabilities section, between the description and the voice heading. */
  const CapabilitiesSection := "\n\n## Capabilities\n- TODO: List agent capabilities\n\n"

  /** The heading above the voice line. */
  const VoiceHeading := "## Voice Commands\n"

  /** The fixed text after the voice line: the configuration skeleton and the status checklist. */
  const SpecStatus := "\n\n## Configuration\n```json\n{\n  \"apiKeys\": {\n    // Required API keys\n  },\n"
    + "  \"settings\": {\n    // Agent settings\n  }\n}\n```\n\n## Implementation Status\n"
    + "- [ ] Base implementation\n- [ ] Voice command processing\n- [ ] External API integration\n"
    + "- [ ] Unit tests\n- [ ] Integration tests\n- [ ] Documentation\n"

  /** The title line of the specification. */
  function SpecTitle(number: Option<int>, name: string): string {
    "# Agent #" + NumberText(number) + ": " + name + "\n"
  }

  /** The generated specification document. */
  function SpecContent(number: Option<int>, name: string, description: string, voiceEnabled: bool): string {
    SpecTitle(number, name) + OverviewHeading + description + CapabilitiesSection + VoiceHeading
    + VoiceLine(voiceEnabled) + SpecStatus
  }

  /** Where the parts of a document made of seven consecutive parts lie. */
  lemma DocumentParts(title: string, overview: string, description: string, capabilities: string,
                      heading: string, voice: string, status: string)
    ensures var s := title + overview + description + capabilities + heading + voice + status;
            && StartsWith(s, title)
            && OccursAt(s, description, |title| + |overview|)
            && OccursAt(s, heading + voice, |title| + |overview| + |description| + |capabilities|)
            && s[|s| - |status|..] == status
  {
    var s := title + overview + description + capabilities + heading + voice + status;
    var i := |title| + |overview|;
    var j := i + |description| + |capabilities|;
    assert s[..|title|] == title;
    assert s[i..i + |description|] == description;
    assert s[j..j + |heading + voice|] == heading + voice;
  }

  /**
   * The specification opens with its title line, carries the description under "## Overview",
   * sets the voice line right under "## Voice Commands" and closes with the status checklist.
   */
  lemma SpecContentLayout(number: Option<int>, name: string, description: string, voiceEnabled: bool)
    ensures var s := SpecContent(number, name, description, voiceEnabled);
            && StartsWith(s, SpecTitle(number, name))
            && OccursAt(s, description, |SpecTitle(number, name)| + |OverviewHeading|)
            && OccursAt(s, VoiceHeading + VoiceLine(voiceEnabled),
                        |SpecTitle(number, name)| + |OverviewHeading| + |description| + |CapabilitiesSection|)
            && s[|s| - |SpecStatus|..] == SpecStatus
  {
    DocumentParts(SpecTitle(number, name), OverviewHeading, description, CapabilitiesSection,
                  VoiceHeading, VoiceLine(voiceEnabled), SpecStatus);
  }

  /** The voice flag always shows in the document: the two settings give different texts. */
  lemma SpecContentVoiceMatters(number: Option<int>, name: string, description: string)
    ensures SpecContent(number, name, description, true) != SpecContent(number, name, description, false)
  {
    assert |VoiceLine(true)| != |VoiceLine(false)|;
  }

  // ----- the file system ----------------------------------------------------------------------

  type Files = map<string, string>

  /** `k` lies inside the directory `dir`. */
  predicate Under(k: string, dir: string) { StartsWith(k, dir + "/") }

  /**
   * `fs.pathExists(dir)` for a directory: it is one of the known directories (which may be
   * empty), or some file lies inside it.
   */
  predicate DirExists(files: Files, dirs: set<string>, dir: string) {
    dir in dirs || exists k :: k in files && Under(k, dir)
  }

  /** `fs.pathExists(p)`: a file or a directory is at `p`. */
  predicate PathExists(files: Files, dirs: set<string>, p: string) {
    p in files || DirExists(files, dirs, p)
  }

  /** A path inside `dir` starts with the same character as `dir`. */
  lemma UnderFirstChar(k: string, dir: string)
    requires dir != [] && Under(k, dir)
    ensures k[0] == dir[0]
  {
    assert k[..|dir| + 1][0] == k[0];
  }

  /** Where `fs.copy(src, dst)` puts the file `k` of `src`. */
  function MovedTo(k: string, src: string, dst: string): (r: string)
    requires Under(k, src)
    ensures Under(r, dst)
  {
    assert k[|src|..][..1] == k[..|src| + 1][|src|..] == "/";
    assert (dst + k[|src|..])[..|dst + "/"|] == dst + "/";
    dst + k[|src|..]
  }

  /** The file `rest` of `src` is copied to the file `rest` of `dst`. */
  lemma MovedToRest(rest: string, src: string, dst: string)
    ensures Under(src + "/" + rest, src) && MovedTo(src + "/" + rest, src, dst) == dst + "/" + rest
  {
    var k := src + "/" + rest;
    assert k[..|src + "/"|] == src + "/";
    assert k[|src|..] == "/" + rest;
  }

  /** Different files of `src` are copied to different places. */
  lemma MovedToInjective(k1: string, k2: string, src: string, dst: string)
    requires Under(k1, src) && Under(k2, src) && MovedTo(k1, src, dst) == MovedTo(k2, src, dst)
    ensures k1 == k2
  {
    assert k1[..|src|] == src by { assert k1[..|src|] == k1[..|src| + 1][..|src|]; }
    assert k2[..|src|] == src by { assert k2[..|src|] == k2[..|src| + 1][..|src|]; }
    assert k1[|src|..] == MovedTo(k1, src, dst)[|dst|..];
    assert k2[|src|..] == MovedTo(k2, src, dst)[|dst|..];
    assert k1 == k1[..|src|] + k1[|src|..];
    assert k2 == k2[..|src|] + k2[|src|..];
  }

  /** No two files of `src` are copied to the same place. */
  lemma CopiesInjective(files: Files, src: string, dst: string)
    ensures forall k1, k2 :: (k1 in files && Under(k1, src) && k2 in files && Under(k2, src)
                             && MovedTo(k1, src, dst) == MovedTo(k2, src, dst)) ==> k1 == k2
  {
    forall k1, k2 | k1 in files && Under(k1, src) && k2 in files && Under(k2, src)
                    && MovedTo(k1, src, dst) == MovedTo(k2, src, dst)
      ensures k1 == k2
    {
      MovedToInjective(k1, k2, src, dst);
    }
  }

  /** `fs.copy(src, dst)`: every file inside `src` is copied to the same place inside `dst`. */
  function Copied(files: Files, src: string, dst: string): (r: Files)
    ensures forall k :: k in files ==> k in r
    ensures forall k :: k in r && !Under(k, dst) ==> k in files && r[k] == files[k]
    ensures forall rest :: src + "/" + rest in files ==> dst + "/" + rest in r && r[dst + "/" + rest] == files[src + "/" + rest]
  {
    CopiesInjective(files, src, dst);
    var copies := map k | k in files && Under(k, src) :: MovedTo(k, src, dst) := files[k];
    assert forall rest :: src + "/" + rest in files ==> dst + "/" + rest in copies && copies[dst + "/" + rest] == files[src + "/" + rest] by {
      forall rest | src + "/" + rest in files
        ensures dst + "/" + rest in copies && copies[dst + "/" + rest] == files[src + "/" + rest]
      {
        MovedToRest(rest, src, dst);
      }
    }
    files + copies
  }

  /** The directories after `fs.copy(src, dst)`: `dst` and a copy of every directory inside `src`. */
  function CopiedDirs(dirs: set<string>, src: string, dst: string): (r: set<string>)
    ensures dirs <= r && dst in r
    ensures forall d :: d in r && d != dst && !Under(d, dst) ==> d in dirs
  {
    dirs + {dst} + (set d | d in dirs && Under(d, src) :: MovedTo(d, src, dst))
  }

  /** `fs.rename(from, to)`. */
  function Renamed(files: Files, from: string, to: string): Files
    requires from in files
  {
    (files - {from})[to := files[from]]
  }

  /** One turn of the rewriting loop: rewrite the file if it was copied, and rename the test file. */
  function RewriteStep(files: Files, target: string, file: string, number: Option<int>, name: string, description: string): Files {
    var path := target + "/" + file;
    if path !in files then files
    else
      var updated := files[path := Substitute(files[path], number, name, description)];
      if file == TestTemplate then Renamed(updated, path, target + "/" + DirName(name) + ".test.ts") else updated
  }

  /** The rewriting loop over the first file names `names`. */
  function RewriteAll(files: Files, target: string, names: seq<string>, number: Option<int>, name: string, description: string): Files
  {
    if names == [] then files
    else RewriteStep(RewriteAll(files, target, names[..|names| - 1], number, name, description),
                     target, names[|names| - 1], number, name, description)
  }

  /** How a run of `generateAgent` ends. */
  datatype Outcome = Generated | TargetExists(target: string) | NameUndefined | TemplateMissing | SpecDirMissing

  /**
   * Copying into `target` and rewriting there leaves the specifications directory as it was:
   * it exists afterwards exactly when it existed before.
   */
  lemma SpecDirKept(files: Files, dirs: set<string>, dir: string, number: Option<int>, name: string, description: string)
    ensures var target := TargetPath(dir);
            var r := RewriteAll(Copied(files, TemplateDir, target), target, TemplateFiles, number, name, description);
            DirExists(r, CopiedDirs(dirs, TemplateDir, target), SpecDir) <==> DirExists(files, dirs, SpecDir)
  {
    var target := TargetPath(dir);
    var copied := Copied(files, TemplateDir, target);
    var r := RewriteAll(copied, target, TemplateFiles, number, name, description);
    var newDirs := CopiedDirs(dirs, TemplateDir, target);
    RewriteAllInside(copied, target, TemplateFiles, number, name, description);
    assert target[0] == 'b' && SpecDir[0] == 'a';
    forall k | Under(k, SpecDir) ensures !Under(k, target) {
      UnderFirstChar(k, SpecDir);
      if Under(k, target) { UnderFirstChar(k, target); }
    }
    if SpecDir in newDirs {
      if SpecDir !in dirs { UnderFirstChar(SpecDir, target); }
    }
    if exists k :: k in r && Under(k, SpecDir) {
      var k :| k in r && Under(k, SpecDir);
      assert k in files;
    }
    if exists k :: k in files && Under(k, SpecDir) {
      var k :| k in files && Under(k, SpecDir);
      assert k in r;
    }
  }

  /**
   * `generateAgent(config)`: an undefined name throws on `toLowerCase` before anything is
   * touched; anything at the target path stops the run with nothing written; a missing
   * template makes `fs.copy` reject, with nothing written; otherwise the template is copied
   * and its files rewritten, and the specification is written when its directory exists. When
   * it does not, `fs.writeFile` rejects and the agent directory stays as written.
   */
  function Generation(files: Files, dirs: set<string>, config: AgentOptions): (r: (Outcome, Files, set<string>))
    ensures r.0.Generated? <==>
              && config.name.Some? && !PathExists(files, dirs, TargetPath(DirName(config.name.value)))
              && DirExists(files, dirs, TemplateDir) && DirExists(files, dirs, SpecDir)
    ensures r.0.SpecDirMissing? <==>
              && config.name.Some? && !PathExists(files, dirs, TargetPath(DirName(config.name.value)))
              && DirExists(files, dirs, TemplateDir) && !DirExists(files, dirs, SpecDir)
    ensures !r.0.Generated? && !r.0.SpecDirMissing? ==> r.1 == files && r.2 == dirs
  {
    if config.name.None? then (NameUndefined, files, dirs)
    else
      var name := config.name.value;
      var target := TargetPath(DirName(name));
      if PathExists(files, dirs, target) then (TargetExists(target), files, dirs)
      else if !DirExists(files, dirs, TemplateDir) then (TemplateMissing, files, dirs)
      else
        var newDirs := CopiedDirs(dirs, TemplateDir, target);
        var rewritten := RewriteAll(Copied(files, TemplateDir, target), target, TemplateFiles,
                                    config.number, name, config.description);
        SpecDirKept(files, dirs, DirName(name), config.number, name, config.description);
        if !DirExists(rewritten, newDirs, SpecDir) then (SpecDirMissing, rewritten, newDirs)
        else (Generated, rewritten[SpecPath(config.number, DirName(name)) := SpecContent(config.number, name, config.description, config.voiceEnabled)], newDirs)
  }

  /** The rewriting loop changes nothing outside the target directory. */
  lemma {:induction false} RewriteAllInside(files: Files, target: string, names: seq<string>, number: Option<int>, name: string, description: string)
    ensures var r := RewriteAll(files, target, names, number, name, description);
            forall k :: !Under(k, target) ==> (k in r <==> k in files) && (k in files ==> r[k] == files[k])
  {
    if names != [] {
      var prefix := names[..|names| - 1];
      RewriteAllInside(files, target, prefix, number, name, description);
      var file := names[|names| - 1];
      assert Under(target + "/" + file, target) by {
        assert (target + "/" + file)[..|target + "/"|] == target + "/";
      }
      var dir := DirName(name);
      assert Under(target + "/" + dir + ".test.ts", target) by {
        assert (target + "/" + dir + ".test.ts")[..|target + "/"|] == target + "/";
      }
    }
  }

  /** Whatever the outcome, every file outside the new agent directory and the new specification keeps its content. */
  lemma GenerationKeepsOtherFiles(files: Files, dirs: set<string>, config: AgentOptions, k: string)
    requires k in files
    requires config.name.Some? ==> !Under(k, TargetPath(DirName(config.name.value)))
    requires config.name.Some? ==> k != SpecPath(config.number, DirName(config.name.value))
    ensures var r := Generation(files, dirs, config).1;
            k in r && r[k] == files[k]
  {
    if config.name.Some? {
      var name := config.name.value;
      var target := TargetPath(DirName(name));
      if !PathExists(files, dirs, target) && DirExists(files, dirs, TemplateDir) {
        var copied := Copied(files, TemplateDir, target);
        RewriteAllInside(copied, target, TemplateFiles, config.number, name, config.description);
      }
    }
  }

  /** A turn of the rewriting loop for another file name leaves the file `k` alone. */
  lemma {:induction false} RewriteAllOtherFile(files: Files, target: string, names: seq<string>, number: Option<int>, name: string, description: string, k: string)
    requires forall j :: 0 <= j < |names| ==> k != target + "/" + names[j]
    requires TestTemplate in names ==> k != target + "/" + DirName(name) + ".test.ts"
    ensures var r := RewriteAll(files, target, names, number, name, description);
            (k in r <==> k in files) && (k in files ==> r[k] == files[k])
  {
    if names != [] {
      var prefix := names[..|names| - 1];
      assert forall j :: 0 <= j < |prefix| ==> prefix[j] == names[j];
      assert TestTemplate in prefix ==> TestTemplate in names;
      RewriteAllOtherFile(files, target, prefix, number, name, description, k);
    }
  }

  /** The rewriting loop leaves the rewritten test file under the agent's own test-file name. */
  lemma RewriteAllRenamesTest(copied: Files, target: string, number: Option<int>, name: string, description: string)
    requires target + "/" + TestTemplate in copied
    ensures var r := RewriteAll(copied, target, TemplateFiles, number, name, description);
            var renamed := target + "/" + DirName(name) + ".test.ts";
            && renamed in r && r[renamed] == Substitute(copied[target + "/" + TestTemplate], number, name, description)
            && target + "/" + TestTemplate !in r
  {
    var path := target + "/" + TestTemplate;
    var first := TemplateFiles[..3];
    assert first == ["index.ts", "README.md", "config.schema.json"];
    RewriteAllOtherFile(copied, target, first, number, name, description, path);
    assert TemplateFiles[..|TemplateFiles| - 1] == first;
    var mid := RewriteAll(copied, target, first, number, name, description);
    assert RewriteAll(copied, target, TemplateFiles, number, name, description)
        == RewriteStep(mid, target, TestTemplate, number, name, description);
    TestFileRenamedAway(target, DirName(name));
  }

  /** The agent's test file is not the template's. */
  lemma TestFileRenamedAway(target: string, dir: string)
    ensures target + "/" + TestTemplate != target + "/" + dir + ".test.ts"
  {
    var from := target + "/" + TestTemplate;
    var to := target + "/" + dir + ".test.ts";
    if |from| == |to| {
      assert |dir| == 8;
      assert from[|target| + 9] == 'p';
      assert to[|target| + 9] == '.';
    }
  }

  /** Past the copy, the files are the rewritten copy, with or without the specification. */
  lemma GenerationPastCopy(files: Files, dirs: set<string>, config: AgentOptions)
    requires config.name.Some? && !PathExists(files, dirs, TargetPath(DirName(config.name.value)))
    requires DirExists(files, dirs, TemplateDir)
    ensures var name := config.name.value;
            var rewritten := RewriteAll(Copied(files, TemplateDir, TargetPath(DirName(name))), TargetPath(DirName(name)),
                                        TemplateFiles, config.number, name, config.description);
            var r := Generation(files, dirs, config).1;
            r == rewritten || r == rewritten[SpecPath(config.number, DirName(name)) := SpecContent(config.number, name, config.description, config.voiceEnabled)]
  {
  }

  /**
   * When the template has a test file, a run that gets past the copy leaves its rewritten
   * content under the agent's own test-file name, and no file of the template's name in the
   * agent directory, whether the specification is then written or not.
   */
  lemma GenerationRenamesTest(files: Files, dirs: set<string>, config: AgentOptions)
    requires config.name.Some? && !PathExists(files, dirs, TargetPath(DirName(config.name.value)))
    requires TemplateDir + "/" + TestTemplate in files
    ensures var r := Generation(files, dirs, config).1;
            var name := config.name.value;
            var target := TargetPath(DirName(name));
            var renamed := target + "/" + DirName(name) + ".test.ts";
            && renamed in r
            && r[renamed] == Substitute(files[TemplateDir + "/" + TestTemplate], config.number, name, config.description)
            && target + "/" + TestTemplate !in r
  {
    var name := config.name.value;
    var dir := DirName(name);
    var target := TargetPath(dir);
    InsideDir(TemplateDir, TestTemplate);
    assert DirExists(files, dirs, TemplateDir);
    var copied := Copied(files, TemplateDir, target);
    assert target + "/" + TestTemplate in copied;
    RewriteAllRenamesTest(copied, target, config.number, name, config.description);
    GenerationPastCopy(files, dirs, config);
    var spec := SpecPath(config.number, dir);
    UnderFirstChar(spec, SpecDir);
    assert spec[0] == 'a' && (target + "/" + dir + ".test.ts")[0] == 'b' && (target + "/" + TestTemplate)[0] == 'b';
  }

  /** Anything at the target path, a file or a directory, stops the run before anything is written. */
  lemma ExistingTargetUntouched(files: Files, dirs: set<string>, config: AgentOptions)
    requires config.name.Some? && PathExists(files, dirs, TargetPath(DirName(config.name.value)))
    ensures Generation(files, dirs, config) == (TargetExists(TargetPath(DirName(config.name.value))), files, dirs)
  {
  }

  /** A missing template makes the copy reject before anything is written. */
  lemma MissingTemplateUntouched(files: Files, dirs: set<string>, config: AgentOptions)
    requires config.name.Some? && !PathExists(files, dirs, TargetPath(DirName(config.name.value)))
    requires !DirExists(files, dirs, TemplateDir)
    ensures Generation(files, dirs, config) == (TemplateMissing, files, dirs)
  {
  }

  /**
   * Without the specifications directory the run fails at the last write: the agent
   * directory exists, and no specification is written.
   */
  lemma MissingSpecDirKeepsAgent(files: Files, dirs: set<string>, config: AgentOptions)
    requires config.name.Some? && !PathExists(files, dirs, TargetPath(DirName(config.name.value)))
    requires DirExists(files, dirs, TemplateDir) && !DirExists(files, dirs, SpecDir)
    ensures var (outcome, r, rdirs) := Generation(files, dirs, config);
            && outcome == SpecDirMissing
            && TargetPath(DirName(config.name.value)) in rdirs
            && SpecPath(config.number, DirName(config.name.value)) !in r
  {
    var name := config.name.value;
    var dir := DirName(name);
    var target := TargetPath(dir);
    var spec := SpecPath(config.number, dir);
    var copied := Copied(files, TemplateDir, target);
    RewriteAllInside(copied, target, TemplateFiles, config.number, name, config.description);
    assert spec !in files;
  }

  /** A successful run writes the specification with the voice line the configuration asks for. */
  lemma GenerationWritesSpec(files: Files, dirs: set<string>, config: AgentOptions)
    requires config.name.Some? && !PathExists(files, dirs, TargetPath(DirName(config.name.value)))
    requires DirExists(files, dirs, TemplateDir) && DirExists(files, dirs, SpecDir)
    ensures var (outcome, r, _) := Generation(files, dirs, config);
            var path := SpecPath(config.number, DirName(config.name.value));
            && outcome == Generated && path in r
            && r[path] == SpecContent(config.number, config.name.value, config.description, config.voiceEnabled)
  {
  }

  /** The workspace the generator writes into: its files and its directories. */
  class Workspace {
    var files: Files
    var dirs: set<string>

    constructor (files: Files, dirs: set<string>)
      ensures this.files == files && this.dirs == dirs
    {
      this.files := files;
      this.dirs := dirs;
    }

    /** `generateAgent(config)`. */
    method GenerateAgent(config: AgentOptions) returns (outcome: Outcome)
      modifies this
      ensures (outcome, files, dirs) == Generation(old(files), old(dirs), config)
    {
      if config.name.None? {
        return NameUndefined;
      }
      var name := config.name.value;
      var target := TargetPath(DirName(name));
      if PathExists(files, dirs, target) {
        return TargetExists(target);
      }
      if !DirExists(files, dirs, TemplateDir) {
        return TemplateMissing;
      }
      files := Copied(files, TemplateDir, target);
      dirs := CopiedDirs(dirs, TemplateDir, target);
      RewriteFiles(target, TemplateFiles, config.number, name, config.description);
      if !DirExists(files, dirs, SpecDir) {
        return SpecDirMissing;
      }
      files := files[SpecPath(config.number, DirName(name)) := SpecContent(config.number, name, config.description, config.voiceEnabled)];
      outcome := Generated;
    }

    /** The loop over the template file names, one file per turn. */
    method RewriteFiles(target: string, names: seq<string>, number: Option<int>, name: string, description: string)
      modifies this
      ensures files == RewriteAll(old(files), target, names, number, name, description)
      ensures dirs == old(dirs)
    {
      ghost var copied := files;
      var i := 0;
      while i < |names|
        invariant 0 <= i <= |names|
        invariant files == RewriteAll(copied, target, names[..i], number, name, description)
        invariant dirs == old(dirs)
      {
        RewriteFile(target, names[i], number, name, description);
        assert names[..i + 1][..i] == names[..i] && names[..i + 1][i] == names[i];
        assert RewriteAll(copied, target, names[..i + 1], number, name, description)
            == RewriteStep(RewriteAll(copied, target, names[..i], number, name, description),
                           target, names[i], number, name, description);
        i := i + 1;
      }
      assert names[..|names|] == names;
    }

    /** One turn: rewrite the copied file, and give the test file the agent's name. */
    method RewriteFile(target: string, file: string, number: Option<int>, name: string, description: string)
      modifies this
      ensures files == RewriteStep(old(files), target, file, number, name, description)
      ensures dirs == old(dirs)
    {
      var path := target + "/" + file;
      if path in files {
        files := files[path := Substitute(files[path], number, name, description)];
        if file == TestTemplate {
          files := Renamed(files, path, target + "/" + DirName(name) + ".test.ts");
        }
      }
    }
  }
}
