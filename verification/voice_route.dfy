/**
 * The web front end's mock voice endpoint: the request text is lower-cased and routed by a
 * fixed chain of tests to a navigation, an execution on the active agent, or a help reply.
 */
module VoiceRoute {
  import opened Wrappers
  import opened Strings

  /** The `action` of a routing result. */
  datatype RouteAction = Navigate | Execute | Help

  /** `{text, action, agentNumber}`; `agentNumber` is `null` only for help. */
  datatype VoiceResult = VoiceResult(text: string, action: RouteAction, agentNumber: Option<int>)

  /** The values of the shared agent-number table. */
  const AgentNumbers: set<int> := {1, 7, 8, 15, 18, 29, 30, 31, 32, 33}

  const HelpText := "I didn't understand that command. Try saying 'Show agent 1' or 'Open revenue dashboard'"

  /** The alternatives of the navigation pattern `(?:show|open|go to|agent)\s*(\d+)`, in order. */
  const NavKeywords: seq<string> := ["show", "open", "go to", "agent"]

  // ----- the navigation pattern -------------------------------------------------------

  /** The number of decimal digits at the start of `t`. */
  function DigitRun(t: string): (n: nat)
    ensures n <= |t|
    ensures forall k :: 0 <= k < n ==> IsDigit(t[k])
    ensures n < |t| ==> !IsDigit(t[n])
  {
    if t == [] || !IsDigit(t[0]) then 0 else 1 + DigitRun(t[1..])
  }

  /** The keyword of the navigation pattern that `t` starts with; the keywords start with different letters. */
  function KeywordAt(t: string): (k: Option<string>)
    ensures k.Some? ==> k.value in NavKeywords && StartsWith(t, k.value)
    ensures k.None? ==> forall i :: 0 <= i < |NavKeywords| ==> !StartsWith(t, NavKeywords[i])
  {
    if StartsWith(t, "show") then Some("show")
    else if StartsWith(t, "open") then Some("open")
    else if StartsWith(t, "go to") then Some("go to")
    else if StartsWith(t, "agent") then Some("agent")
    else None
  }

  /**
   * The pattern matched at the start of `t`: a keyword, any white space, then one or more
   * digits, all of which the greedy `(\d+)` captures.
   */
  function NavigationAt(t: string): (r: Option<string>)
    ensures r.Some? ==> r.value != [] && forall k :: 0 <= k < |r.value| ==> IsDigit(r.value[k])
    ensures KeywordAt(t).None? ==> r.None?
  {
    match KeywordAt(t)
    case None => None
    case Some(key) =>
      var rest := t[|key|..];
      var afterSpace := rest[LeadingSpaces(rest)..];
      var digits := afterSpace[..DigitRun(afterSpace)];
      if digits == [] then None else Some(digits)
  }

  /** The navigation pattern matched at position `q` of `s`. */
  function MatchAt(s: string, q: nat): Option<string>
    requires q <= |s|
  {
    NavigationAt(s[q..])
  }

  /**
   * The leftmost position of `s`, at or after `from`, at which the navigation pattern
   * matches, as `String.prototype.match` finds it.
   */
  function NavigationIndex(s: string, from: nat): (r: Option<nat>)
    requires from <= |s|
    ensures r.Some? ==> from <= r.value <= |s| && MatchAt(s, r.value).Some?
                        && forall q :: from <= q < r.value ==> MatchAt(s, q).None?
    ensures r.None? <==> forall q :: from <= q <= |s| ==> MatchAt(s, q).None?
    decreases |s| - from
  {
    if MatchAt(s, from).Some? then Some(from)
    else if from == |s| then None
    else NavigationIndex(s, from + 1)
  }

  /** `command.match(...)?.[1]`: the digits captured by the leftmost match, if any. */
  function NavigationDigits(command: string): (d: Option<string>)
    ensures d.Some? ==> d.value != [] && forall k :: 0 <= k < |d.value| ==> IsDigit(d.value[k])
  {
    match NavigationIndex(command, 0)
    case None => None
    case Some(p) => MatchAt(command, p)
  }

  /** The agent the leftmost navigation match names, when it is a known agent. */
  function NavigationTarget(command: string): (n: Option<int>)
    ensures n.Some? ==> n.value in AgentNumbers
  {
    match NavigationDigits(command)
    case None => None
    case Some(d) => if DigitsValue(d) in AgentNumbers then Some(DigitsValue(d)) else None
  }

  // ----- routing ------------------------------------------------------------------------

  /** The keyword groups `processVoiceCommand` checks, in order: each opens one agent. */
  predicate RevenueWords(command: string) { Contains(command, "revenue") || Contains(command, "income") }
  predicate ScrapingWords(command: string) { Contains(command, "scrape") || Contains(command, "extract") }
  predicate SocialWords(command: string) { Contains(command, "social") || Contains(command, "post") }
  predicate ArchitectureWords(command: string) { Contains(command, "architecture") || Contains(command, "system") }

  predicate AnyKeyword(command: string) {
    RevenueWords(command) || ScrapingWords(command) || SocialWords(command) || ArchitectureWords(command)
  }

  /** The reply for an active agent: the command echoed back under the agent's number. */
  function ExecuteText(agent: int, command: string): string {
    "Processing command for agent " + IntToString(agent) + ": " + command
  }

  /**
   * The keyword checks, in order, and then the active-agent and help fallbacks. A keyword
   * group navigates to its own agent among 1, 7, 8 and 31; without any keyword a truthy
   * active agent gets the command echoed back, and otherwise the help reply is given.
   */
  function KeywordRoute(command: string, activeAgent: Option<int>): (r: VoiceResult)
    ensures r.action.Navigate? <==> AnyKeyword(command)
    ensures r.action.Navigate? ==> r.agentNumber.Some? && r.agentNumber.value in {1, 7, 8, 31}
    ensures r.action.Execute? <==> !AnyKeyword(command) && activeAgent.Some? && activeAgent.value != 0
    ensures r.action.Execute? ==> r.agentNumber == activeAgent && r.text == ExecuteText(activeAgent.value, command)
    ensures r.action.Help? ==> r == VoiceResult(HelpText, Help, None)
  {
    if RevenueWords(command) then
      VoiceResult("Showing revenue dashboard", Navigate, Some(1))
    else if ScrapingWords(command) then
      VoiceResult("Opening web scraping agent", Navigate, Some(7))
    else if SocialWords(command) then
      VoiceResult("Opening social media manager", Navigate, Some(8))
    else if ArchitectureWords(command) then
      VoiceResult("Showing system architecture", Navigate, Some(31))
    else if activeAgent.Some? && activeAgent.value != 0 then
      VoiceResult(ExecuteText(activeAgent.value, command), Execute, activeAgent)
    else
      VoiceResult(HelpText, Help, None)
  }

  /**
   * `processVoiceCommand(command, activeAgent)`: a navigation match naming a known agent
   * opens it; otherwise the keyword checks decide. `activeAgent` is a number or `null`.
   */
  function ProcessVoiceCommand(command: string, activeAgent: Option<int>): (r: VoiceResult)
    ensures r.action.Navigate? ==> r.agentNumber.Some? && r.agentNumber.value in AgentNumbers
    ensures r.action.Execute? ==> r.agentNumber == activeAgent && activeAgent.Some? && activeAgent.value != 0
    ensures r.action.Execute? ==> r.text == ExecuteText(activeAgent.value, command)
    ensures r.action.Help? <==> r.agentNumber.None?
  {
    match NavigationTarget(command)
    case Some(n) => VoiceResult("Opening agent " + IntToString(n), Navigate, Some(n))
    case None => KeywordRoute(command, activeAgent)
  }

  /**
   * The `POST` handler's routing step: the text is lower-cased first, so an execution
   * echoes the lower-cased text.
   */
  function HandleVoiceText(text: string, activeAgent: Option<int>): (r: VoiceResult)
    ensures r.action.Navigate? ==> r.agentNumber.Some? && r.agentNumber.value in AgentNumbers
    ensures r.action.Execute? ==> r.agentNumber == activeAgent && activeAgent.Some?
                                  && r.text == ExecuteText(activeAgent.value, Lower(text))
  {
    ProcessVoiceCommand(Lower(text), activeAgent)
  }

  // ----- properties ------------------------------------------------------------------------

  /** A navigation match naming a known agent always wins, whatever keywords the text holds. */
  lemma KnownNumberNavigates(command: string, activeAgent: Option<int>)
    requires NavigationDigits(command).Some? && DigitsValue(NavigationDigits(command).value) in AgentNumbers
    ensures var n := DigitsValue(NavigationDigits(command).value);
            ProcessVoiceCommand(command, activeAgent) == VoiceResult("Opening agent " + IntToString(n), Navigate, Some(n))
  {
  }

  /** An unknown number in the leftmost match falls through to the keyword checks; no later match is tried. */
  lemma UnknownNumberFallsThrough(command: string, activeAgent: Option<int>)
    requires NavigationDigits(command).Some? && DigitsValue(NavigationDigits(command).value) !in AgentNumbers
    ensures ProcessVoiceCommand(command, activeAgent) == KeywordRoute(command, activeAgent)
  {
  }

  /** Text mentioning revenue or income, without a known-agent match, opens agent 1 whatever else it mentions. */
  lemma RevenueFirst(command: string, activeAgent: Option<int>)
    requires NavigationTarget(command).None?
    requires RevenueWords(command)
    ensures ProcessVoiceCommand(command, activeAgent) == VoiceResult("Showing revenue dashboard", Navigate, Some(1))
  {
  }

  /** Scrape or extract, with no known-agent match and no revenue word, opens agent 7. */
  lemma ScrapingSecond(command: string, activeAgent: Option<int>)
    requires NavigationTarget(command).None?
    requires !RevenueWords(command) && ScrapingWords(command)
    ensures ProcessVoiceCommand(command, activeAgent) == VoiceResult("Opening web scraping agent", Navigate, Some(7))
  {
  }

  /** Social or post, with no known-agent match and no earlier group, opens agent 8. */
  lemma SocialThird(command: string, activeAgent: Option<int>)
    requires NavigationTarget(command).None?
    requires !RevenueWords(command) && !ScrapingWords(command) && SocialWords(command)
    ensures ProcessVoiceCommand(command, activeAgent) == VoiceResult("Opening social media manager", Navigate, Some(8))
  {
  }

  /** Architecture or system, with no known-agent match and no earlier group, opens agent 31. */
  lemma ArchitectureFourth(command: string, activeAgent: Option<int>)
    requires NavigationTarget(command).None?
    requires !RevenueWords(command) && !ScrapingWords(command) && !SocialWords(command)
    requires ArchitectureWords(command)
    ensures ProcessVoiceCommand(command, activeAgent) == VoiceResult("Showing system architecture", Navigate, Some(31))
  {
  }

  /**
   * Without a known-agent match and without any keyword, a truthy active agent gets an
   * execution and a missing or zero one gets help.
   */
  lemma Fallback(command: string, activeAgent: Option<int>)
    requires NavigationTarget(command).None?
    requires !AnyKeyword(command)
    ensures var r := ProcessVoiceCommand(command, activeAgent);
            && (activeAgent.Some? && activeAgent.value != 0 <==> r.action.Execute?)
            && (r.action.Execute? ==> r.agentNumber == activeAgent && r.text == ExecuteText(activeAgent.value, command))
            && (!r.action.Execute? ==> r == VoiceResult(HelpText, Help, None))
  {
  }

  /** The endpoint ignores letter case: upper- and lower-case text route alike. */
  lemma HandleIgnoresCase(text: string, activeAgent: Option<int>)
    ensures HandleVoiceText(Lower(text), activeAgent) == HandleVoiceText(text, activeAgent)
  {
    LowerIdempotent(text);
  }
}
