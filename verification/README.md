# Paios agent host, modelled in Dafny

Paios hosts voice-driven "agents" on behalf of many users. This project models the host's core
and proves properties of the model.

- **The agent base class** (`McpAgent`, `mcp-agent.ts`) covers:
  - voice parsing: lower-case and trim the text, then try the registered patterns in order, first match wins; captured groups become `param1`, `param2`, …;
  - the default reply formatter and the list of available commands;
  - the TTL memory cache;
  - `getInfo` and the payload of `sendMessage`.
- **The two concrete agents** share one class, `Agents.Agent`, tagged by a `Kind`. The agent hierarchy is closed: the registry knows exactly these two classes.
  - `BusinessIntelligence` works on its fixed monthly sample table. It covers revenue, expenses, a named period, profit, growth, metrics and the voice sentences.
  - `SystemArchitecture` keeps a connection counter, a bounded message log and system metrics. It covers the diagram, the metrics report, connections, data flow, active agents and the voice sentences.
  - The imperative parts are methods with loops: parsing, the connection search, listener delivery, sweeping the memory, building the connection map and analysing flow patterns.
- **The registry** (`Registry`, `implementations/index.ts`) maps agent numbers 1 and 31 to their classes.
- **The agent manager** (`Manager.AgentManager`) is a class. It keeps the `Map` of live agents keyed by `<userId>-<agentNumber>`, in insertion order, and implements:
  - initialisation, with the configuration taken from the store when none is given;
  - lazy initialisation on `executeCommand`;
  - voice routing, shutdown, the info queries, and delivery of inter-agent messages by agent name.
- **The template agent** (`Template`, `agents/agent-template/index.ts`) is the scaffold new agents are generated from. Its own `includes`-based parser is modelled too.
- **The front end's mock voice endpoint** (`VoiceRoute`) holds the navigation regex, the keyword chain and the fallbacks.
- **The agent generator** (`AgentGenerator`) models:
  - prompt validation and option resolution;
  - the directory and class names;
  - copying the template, rewriting the placeholders, renaming the test file and writing the specification file.

  The file system is a `map` from path to content, held by a `Workspace` class.

Time, the process's memory figures and the configuration store are parameters. An agent receives the manager's snapshot of the `system` user's agents with them. JSON values are the `Json.Value` datatype. A JavaScript throw is `Protocol.Outcome.Threw`.

Some behaviours of the code worth knowing:

- Agents are keyed by the string `<userId>-<agentNumber>`. `getUserAgents(u)` therefore also lists the agents of any user whose name starts with `u-` (`Manager.LongerUserMatches`).
- `initialize` on an agent that is already initialised is not refused. It re-registers the commands, and the system architecture agent attaches one more monitoring listener each time (the `monitors` count).
- The base formatter returns the data itself when it is a string, and a fixed sentence otherwise. It has no JSON fallback.
- A memory entry with a ttl of 0 never expires, because the ttl is tested for truthiness. A negative ttl makes the entry expire at once.
- The generator replaces five placeholders; the fifth is the template's description.

## Model

| member | source | states |
|---|---|---|
| `McpAgent.LineEnd` | backend/src/agents/base/mcp-agent.ts:60-61 | where `(.*)` stops: the first line terminator, none before it |
| `McpAgent.MatchPattern` | backend/src/agents/base/mcp-agent.ts:60-63 | a pattern matches exactly when its lower-cased literal part occurs in the text; a phrase captures nothing, `prefix(.*)` captures one group |
| `McpAgent.MatchEntryFirst` | backend/src/agents/base/mcp-agent.ts:59-63 | within one entry the first matching pattern, in list order, decides |
| `McpAgent.MatchEntryNone` | backend/src/agents/base/mcp-agent.ts:59-63 | an entry fails to match exactly when every one of its patterns fails |
| `McpAgent.FirstMatch` | backend/src/agents/base/mcp-agent.ts:58-88 | the winning entry matches and no earlier entry does; no winner exactly when no entry matches |
| `McpAgent.ParamKeyInjective` | backend/src/agents/base/mcp-agent.ts:68-69 | different group numbers give different `paramN` keys |
| `McpAgent.CaptureParams` | backend/src/agents/base/mcp-agent.ts:64-71 | group `n` (from 1) is stored under `param<n>` |
| `McpAgent.ParamKeys` | backend/src/agents/base/mcp-agent.ts:67-69 | the key set holds `param1` to `param<count>` |
| `McpAgent.ParamKeysExactly` | backend/src/agents/base/mcp-agent.ts:67-69 | every key of that set is some `param<n>` with `n` from 1 to the count |
| `McpAgent.CaptureParamsKeys` | backend/src/agents/base/mcp-agent.ts:64-71 | the captured parameters have exactly the keys `param1` to `param<n>` for `n` groups, nothing else |
| `McpAgent.ParseResult` | backend/src/agents/base/mcp-agent.ts:55-89 | `null` exactly when no entry matches the normalised text; otherwise the command has the winning entry's action, the original text as context, and parameters where the static ones override the captured ones |
| `McpAgent.FormatDefault` | backend/src/agents/base/mcp-agent.ts:92-103 | a failure reads `Error: <error or "Operation failed">`; string data is returned as is; anything else is the fixed success sentence |
| `McpAgent.FirstPatterns` | backend/src/agents/base/mcp-agent.ts:107-109 | one item per entry, that entry's first pattern |
| `McpAgent.AvailableCommands` | backend/src/agents/base/mcp-agent.ts:106-112 | the first patterns joined by ", ", or the fixed sentence when that text is empty |
| `McpAgent.Swept` | backend/src/agents/base/mcp-agent.ts:152-160 | exactly the unexpired entries remain, unchanged |
| `McpAgent.Read` | backend/src/agents/base/mcp-agent.ts:137-149 | missing key: nothing, memory unchanged; expired: nothing and the key is deleted; live: its value, memory unchanged |
| `McpAgent.SaveKeepsLive` | backend/src/agents/base/mcp-agent.ts:125-134 | after a save the entry is there and readable unless its ttl is negative; other live entries survive unchanged; no expired entry survives |
| `McpAgent.ExpiredReadTwice` | backend/src/agents/base/mcp-agent.ts:143-146 | an expired read returns nothing and evicts the key, so a later read also returns nothing and changes nothing |
| `McpAgent.NoTtlNeverExpires` | backend/src/agents/base/mcp-agent.ts:143 | an entry saved without a ttl is read back however late |
| `McpAgent.PatternInfos` | backend/src/agents/base/mcp-agent.ts:207-210 | one item per entry, with its patterns and `description` or else `action` |
| `McpAgent.Info` | backend/src/agents/base/mcp-agent.ts:200-212 | the agent's identity, description and flag; the voice commands listed entry by entry; voice is enabled exactly when some command is registered |
| `McpAgent.MessagePayload` | backend/src/agents/base/mcp-agent.ts:115-122 | the emitted message carries the sender, the target and the data |
| `Registry.Implementation` | backend/src/agents/implementations/index.ts:7-14 | a registered class belongs to the number it is registered under |
| `Registry.ImplementationTable` | backend/src/agents/implementations/index.ts:7-14 | 1 gives the business intelligence agent, 31 the system architecture agent, and every other number nothing |
| `Registry.ImplementationOfNumber` | backend/src/agents/implementations/index.ts:7-14 | each class is found again under its own agent number |
| `Registry.CreateAgent` | backend/src/agents/implementations/index.ts:17-25 | `null` exactly for an unregistered number; otherwise a fresh, uninitialised agent of the registered class with empty memory and records |
| `Agents.Dispatch` | backend/src/agents/implementations/business-intelligence.ts:81-102 | an action outside the agent's set throws `Unknown action: <action>` and keeps the metrics; the metrics change only when the system architecture agent refreshes them |
| `Agents.FailureReply` | backend/src/agents/implementations/business-intelligence.ts:113-125 | a throw in the handler becomes a failed response with the message, the execution time and the agent number, read aloud as `Error: <message>` |
| `Agents.SettledReportsOutcome` | backend/src/agents/implementations/business-intelligence.ts:104-114 | the closing status event is `idle` after a result and `error` with the message after a throw |
| `Agents.Agent.constructor` | backend/src/agents/base/mcp-agent.ts:21-29 | a new agent is uninitialised, with no commands, empty memory, no listeners and empty records |
| `Agents.Agent.Initialize` | backend/src/agents/implementations/system-architecture.ts:40-79 | a falsy configuration is refused and nothing changes; otherwise the configuration and the kind's command list are stored, the agent is initialised, one `idle` event is emitted, and the system architecture agent gets one more listener |
| `Agents.Agent.Execute` | backend/src/agents/implementations/system-architecture.ts:81-130 | an uninitialised agent throws and nothing changes; otherwise `executing` is emitted, then the dispatched response and its closing event, and only the metrics the action refreshes change |
| `Agents.Agent.Compute` | backend/src/agents/implementations/system-architecture.ts:88-106 | the loops that build the connection map and the flow patterns give what `Dispatch` specifies |
| `Agents.Agent.ParseVoiceCommand` | backend/src/agents/base/mcp-agent.ts:55-89 | the two nested loops return the command `Parse` specifies |
| `Agents.Agent.ProcessVoiceCommand` | backend/src/agents/base/mcp-agent.ts:36-52 | unparsed text gets the available-commands reply and changes nothing; parsed text is executed as specified and its formatted reply returned |
| `Agents.Agent.Cleanup` | backend/src/agents/implementations/system-architecture.ts:425-432 | the agent is uninitialised, with empty memory, no listeners, and no connections or log; its commands, configuration and metrics stay |
| `Agents.Agent.SaveMemory` | backend/src/agents/base/mcp-agent.ts:125-134 | the memory becomes the saved-and-swept map; nothing else changes |
| `Agents.Agent.GetMemory` | backend/src/agents/base/mcp-agent.ts:137-149 | value and memory as `Read` gives them; nothing else changes |
| `Agents.Agent.CleanupMemory` | backend/src/agents/base/mcp-agent.ts:152-160 | the deleting loop leaves exactly the unexpired entries; nothing else changes |
| `Agents.Agent.LogMessage` | backend/src/agents/implementations/system-architecture.ts:295-307 | the stamped message is appended and the newest 1000 kept; one more message counted |
| `Agents.Agent.UpdateConnections` | backend/src/agents/implementations/system-architecture.ts:309-324 | the pair's count is bumped, or the pair is appended with 1; nothing else changes |
| `Agents.Agent.ReceiveMessage` | backend/src/agents/implementations/system-architecture.ts:277-280 | each attached listener logs the message and counts its pair once |
| `Agents.Listen` | backend/src/agents/implementations/system-architecture.ts:277-280 | `n` listeners log the message `n` times and bump its pair `n` times |
| `Agents.FirstEntryMatch` | backend/src/agents/base/mcp-agent.ts:58-88 | the outer loop finds the first matching entry and its captures |
| `Agents.FirstPatternMatch` | backend/src/agents/base/mcp-agent.ts:59-63 | the inner loop finds the first matching pattern of the entry |
| `Agents.Copies` | backend/src/agents/implementations/system-architecture.ts:277-280 | `n` items, each of them the message |
| `Agents.BumpConnection` | backend/src/agents/implementations/system-architecture.ts:310-323 | the searching loop bumps or appends the pair as specified |
| `Agents.LoggedTimesNewest` | backend/src/agents/implementations/system-architecture.ts:295-304 | `n` loggings keep the newest 1000 of the old log followed by `n` copies |
| `Agents.BumpedTimesCounts` | backend/src/agents/implementations/system-architecture.ts:309-324 | `n` updates add `n` to the pair and to the total, leave other pairs alone, and keep pairs unique |
| `Agents.CapturedParameters` | backend/src/agents/base/mcp-agent.ts:67-71 | the `forEach` over the groups builds exactly the `paramN` map |
| `Agents.FirstMatchAt` | backend/src/agents/base/mcp-agent.ts:58-63 | an entry that matches, with no earlier match, is the one found |
| `Agents.NormalizedAsIs` | backend/src/agents/base/mcp-agent.ts:56 | lower-case text with no white space at either end is its own normalisation |
| `Agents.PhraseMissing` | backend/src/agents/base/mcp-agent.ts:60-61 | a phrase with a letter the text lacks does not match it |
| `Agents.EntryMissing` | backend/src/agents/base/mcp-agent.ts:59-63 | an entry whose phrases each have a letter the text lacks does not match |
| `Agents.PhraseAtStart` | backend/src/agents/base/mcp-agent.ts:60-61 | a lower-case phrase that starts the text matches, capturing nothing |
| `Agents.PrefixCaptures` | backend/src/agents/base/mcp-agent.ts:60-69 | `prefix(.*)` on one-line text that starts with the prefix captures the rest |
| `Agents.ParseAt` | backend/src/agents/base/mcp-agent.ts:58-83 | normalised text that entry `i` matches first parses to that entry's action, with the captures overridden by the static parameters |
| `Agents.OneCapture` | backend/src/agents/base/mcp-agent.ts:68-69 | one captured group becomes `param1` |
| `Agents.FirstEntries` | backend/src/agents/implementations/business-intelligence.ts:42-56 | the first and third entries are `get_revenue` and `get_revenue_period`, both without static parameters |
| `Agents.RevenueEntryMatches` | backend/src/agents/implementations/business-intelligence.ts:42-46 | text starting with "show revenue" matches the first entry |
| `Agents.RevenueEntrySkipped` | backend/src/agents/implementations/business-intelligence.ts:42-46 | text without `w`, `d` and `i` misses every phrase of the revenue entry |
| `Agents.ExpensesEntrySkipped` | backend/src/agents/implementations/business-intelligence.ts:47-51 | text without `w`, `d` and `p` misses every phrase of the expenses entry |
| `Agents.PeriodEntryCaptures` | backend/src/agents/implementations/business-intelligence.ts:52-56 | "revenue for <rest>" is captured by the period entry as `[rest]` |
| `Agents.RevenueRequest` | backend/src/agents/implementations/business-intelligence.ts:41-67 | text starting with "show revenue" parses to `get_revenue` whatever follows, so a month named after it is never seen |
| `Agents.PeriodPrefixLetters` | backend/src/agents/implementations/business-intelligence.ts:53 | the period prefix has none of the letters that rule out the earlier entries, and no upper case |
| `Agents.PeriodText` | backend/src/agents/implementations/business-intelligence.ts:53 | "revenue for <rest>" stays normalised and free of those letters when `rest` is |
| `Agents.PeriodRequest` | backend/src/agents/implementations/business-intelligence.ts:41-67 | "revenue for <rest>" parses to `get_revenue_period` with `param1 = rest` |
| `Agents.ShowRevenueForMarch` | backend/src/agents/implementations/business-intelligence.ts:42-56 | "show revenue for march" is claimed by `get_revenue`, the earlier entry |
| `Agents.RevenueForMarch` | backend/src/agents/implementations/business-intelligence.ts:52-56 | "revenue for march" reaches `get_revenue_period` with `param1 = "march"` |
| `Manager.OwnKeyMatches` | backend/src/agents/manager.ts:137-147 | every key of a user passes that user's prefix test |
| `Manager.LongerUserMatches` | backend/src/agents/manager.ts:141 | the keys of user `<u>-<x>` also pass user `u`'s prefix test |
| `Manager.ConfigFor` | backend/src/agents/manager.ts:37-44 | a truthy given configuration wins without a query; otherwise a rejected query gives nothing, and a completed one the stored configuration if it is truthy, else `{}`; a result is always truthy |
| `Manager.Matching` | backend/src/agents/manager.ts:140-144 | exactly the keys with the prefix, in map order |
| `Manager.MatchingSnoc` | backend/src/agents/manager.ts:140-144 | a key added last is listed last exactly when it has the prefix |
| `Manager.InfosOfSnoc` | backend/src/agents/manager.ts:140-144 | a key added last contributes its agent's info last |
| `Manager.InfosOfAll` | backend/src/agents/manager.ts:137-147 | one snapshot per key, each its own agent's |
| `Manager.InfosOfOther` | backend/src/agents/manager.ts:137-147 | storing an agent under another key leaves the listed snapshots alone |
| `Manager.RouteIndex` | backend/src/agents/manager.ts:162-165 | the first key whose agent has the target name, over all users; none exactly when no agent has it |
| `Manager.Without` | backend/src/agents/manager.ts:111 | deleting a key keeps the other keys |
| `Manager.WithoutAbsent` | backend/src/agents/manager.ts:111 | deleting an absent key changes nothing |
| `Manager.DistinctAppend` | backend/src/agents/manager.ts:53 | adding a new key keeps the keys distinct |
| `Manager.WithoutDistinct` | backend/src/agents/manager.ts:111 | deleting a key keeps the keys distinct |
| `Manager.FreshExecuted` | backend/src/agents/manager.ts:79-88 | an agent just initialised answers a command with the fresh-agent response |
| `Manager.AgentManager.constructor` | backend/src/agents/manager.ts:9-14 | the manager starts with no agents |
| `Manager.AgentManager.InitializeAgent` | backend/src/agents/manager.ts:20-61 | `true` exactly when the key exists, or the number is registered and the configuration resolves (given, or the query completes); an existing key, an unknown number or a rejected query changes nothing; otherwise a fresh agent is stored under the key, added last, initialised with the resolved configuration: empty memory and records, its class's commands, one `idle` event, and one monitoring listener for the system architecture agent |
| `Manager.AgentManager.ExecuteCommand` | backend/src/agents/manager.ts:63-92 | a stored agent answers as specified for the current `system` snapshot, the keys and map stay and the agent is left as `execute` specifies; an unknown number or a rejected query gives the fixed failed response and changes nothing; otherwise the key is added last with a new agent that was set up and ran the command once, answering as a fresh agent; every other agent is unchanged |
| `Manager.AgentManager.ExecuteNew` | backend/src/agents/manager.ts:67-88 | the lazy path: the failed response and no change for an unknown number or a rejected query; otherwise the new key is stored last, the map gains only it, and its agent was set up and ran the command once, in the snapshot that includes it when it is a `system` agent |
| `Manager.AgentManager.InitializeFromStore` | backend/src/agents/manager.ts:31-60 | success exactly for a registered number whose configuration query completes; then the key is appended with a fresh agent set up with the stored configuration, and the `system` snapshot gains its info exactly when it is a `system` key; otherwise nothing changes |
| `Manager.AgentManager.ExecuteInitialized` | backend/src/agents/manager.ts:88 | a just-initialised agent returns the fresh-agent response and ends having run the command once; keys and map stay |
| `Manager.AgentManager.ExecuteStored` | backend/src/agents/manager.ts:91 | a stored agent executes as specified; every other agent is unchanged |
| `Manager.AgentManager.OthersKeepValid` | backend/src/agents/manager.ts:91 | touching one agent keeps the manager's invariant |
| `Manager.AgentManager.SystemInfosAfterInsert` | backend/src/agents/manager.ts:53 | after a key is added, the `system` snapshot gains that agent's info exactly when the key is a `system` key |
| `Manager.AgentManager.ProcessVoiceCommand` | backend/src/agents/manager.ts:94-103 | a missing key gets the fixed "not initialized" reply with no lazy initialisation and nothing changes; otherwise the agent's voice reply, the agent unchanged for unparsed text and left as `execute` specifies for the parsed command; every other agent is unchanged |
| `Manager.AgentManager.ShutdownAgent` | backend/src/agents/manager.ts:105-114 | the key is removed and its agent cleaned up; an absent key changes nothing; other agents are untouched |
| `Manager.AgentManager.ShutdownAllAgents` | backend/src/agents/manager.ts:116-124 | every agent is cleaned up and the map ends empty |
| `Manager.AgentManager.ShutdownFirst` | backend/src/agents/manager.ts:117-120 | one step: the first key's agent is cleaned up and the key removed |
| `Manager.AgentManager.GetAgentInfo` | backend/src/agents/manager.ts:126-135 | `null` exactly for a missing key, otherwise that agent's info |
| `Manager.AgentManager.GetUserAgents` | backend/src/agents/manager.ts:137-147 | the infos of the keys with the `<userId>-` prefix, in map order |
| `Manager.AgentManager.RouteMessage` | backend/src/agents/manager.ts:158-174 | the first agent with the target name, of any user, receives the message; with none it is dropped and nothing changes |
| `VoiceRoute.DigitRun` | frontend/src/app/api/voice/route.ts:34 | the greedy `\d+`: every character before it is a digit and the next is not |
| `VoiceRoute.KeywordAt` | frontend/src/app/api/voice/route.ts:34 | the navigation keyword the text starts with, or none of them |
| `VoiceRoute.NavigationAt` | frontend/src/app/api/voice/route.ts:34 | a match at a position captures a non-empty run of digits, and needs a keyword there |
| `VoiceRoute.NavigationIndex` | frontend/src/app/api/voice/route.ts:34 | the leftmost matching position; none exactly when no position matches |
| `VoiceRoute.NavigationDigits` | frontend/src/app/api/voice/route.ts:34-36 | the captured group is a non-empty digit string |
| `VoiceRoute.NavigationTarget` | frontend/src/app/api/voice/route.ts:35-37 | a navigation target is always a known agent number |
| `VoiceRoute.KeywordRoute` | frontend/src/app/api/voice/route.ts:46-93 | navigation exactly when a keyword occurs, to agent 1, 7, 8 or 31; otherwise execution exactly for a truthy active agent, with the `Processing command for agent <n>: <command>` text; otherwise the fixed help reply |
| `VoiceRoute.ProcessVoiceCommand` | frontend/src/app/api/voice/route.ts:32-94 | navigation always names a known agent; an execution names the truthy active agent, with its fixed text; help exactly when no agent is named |
| `VoiceRoute.HandleVoiceText` | frontend/src/app/api/voice/route.ts:10-12 | the endpoint lower-cases the text; navigation names a known agent; an execution names the active agent and quotes the lower-cased command |
| `VoiceRoute.KnownNumberNavigates` | frontend/src/app/api/voice/route.ts:34-44 | a known number in the leftmost match opens that agent whatever keywords follow |
| `VoiceRoute.UnknownNumberFallsThrough` | frontend/src/app/api/voice/route.ts:35-46 | an unknown number falls through to the keyword chain; no later match is tried |
| `VoiceRoute.RevenueFirst` | frontend/src/app/api/voice/route.ts:47-53 | revenue or income wins over every later keyword: `Showing revenue dashboard`, navigating to agent 1 |
| `VoiceRoute.ScrapingSecond` | frontend/src/app/api/voice/route.ts:55-61 | without the first keywords, scrape or extract gives `Opening web scraping agent`, navigating to agent 7 |
| `VoiceRoute.SocialThird` | frontend/src/app/api/voice/route.ts:63-69 | without the earlier keywords, social or post gives `Opening social media manager`, navigating to agent 8 |
| `VoiceRoute.ArchitectureFourth` | frontend/src/app/api/voice/route.ts:71-77 | without the earlier keywords, architecture or system gives `Showing system architecture`, navigating to agent 31 |
| `VoiceRoute.Fallback` | frontend/src/app/api/voice/route.ts:79-93 | with no keyword, execution exactly for a truthy active agent, with its fixed text, otherwise the fixed help reply |
| `VoiceRoute.HandleIgnoresCase` | frontend/src/app/api/voice/route.ts:11 | the endpoint's answer does not depend on letter case |
| `BusinessIntelligence.TotalProfitIsDifference` | backend/src/agents/implementations/business-intelligence.ts:196-223 | when each month's profit is revenue minus expenses, so is the total |
| `BusinessIntelligence.SampleDataConsistent` | backend/src/agents/implementations/business-intelligence.ts:27-34 | every sample month's profit is its revenue minus its expenses, and so are the totals |
| `BusinessIntelligence.NonZeroGrowth` | backend/src/agents/implementations/business-intelligence.ts:226 | the filtered rates are non-zero and no more than the months |
| `BusinessIntelligence.NonZeroGrowthSum` | backend/src/agents/implementations/business-intelligence.ts:226-227 | dropping the zero rates does not change their sum |
| `BusinessIntelligence.BestIndex` | backend/src/agents/implementations/business-intelligence.ts:257-259 | a month with the highest profit, the earliest on a tie |
| `BusinessIntelligence.WorstIndex` | backend/src/agents/implementations/business-intelligence.ts:261-263 | a month with the lowest profit, the earliest on a tie |
| `BusinessIntelligence.FindMonth` | backend/src/agents/implementations/business-intelligence.ts:173-175 | the first month equal to the period ignoring case; none exactly when no month is |
| `BusinessIntelligence.RoundedTenths` | backend/src/agents/implementations/business-intelligence.ts:205 | the tenths `toFixed(1)` rounds to are the nearest ones, the larger on a tie |
| `BusinessIntelligence.ToFixed1` | backend/src/agents/implementations/business-intelligence.ts:205 | a zero denominator gives `Infinity`, `-Infinity` or `NaN` |
| `BusinessIntelligence.PeriodArg` | backend/src/agents/implementations/business-intelligence.ts:89 | a truthy `period` parameter wins, otherwise `param1` |
| `BusinessIntelligence.RevenuePeriod` | backend/src/agents/implementations/business-intelligence.ts:172-194 | success exactly for a string naming a month of a non-empty table, with that month's figures; a string naming no month throws `No data found for period: <p>` |
| `BusinessIntelligence.Run` | backend/src/agents/implementations/business-intelligence.ts:81-102 | an unknown action throws `Unknown action: <a>`; with the table empty every action throws; otherwise every known action but the period one succeeds |
| `BusinessIntelligence.RunActions` | backend/src/agents/implementations/business-intelligence.ts:81-102 | with data in the table, `get_revenue` and `get_expenses` return the amount result of their column, `get_profit`, `get_growth` and `get_metrics` their own results, each built from every row |
| `BusinessIntelligence.AmountDataFields` | backend/src/agents/implementations/business-intelligence.ts:128-170 | `getRevenue`/`getExpenses`: `current` is the last month with its figure and formatted amount; `total` is the column sum and its formatted text; `monthly` has one entry per row, in order, with its month and figure |
| `BusinessIntelligence.ProfitDataFields` | backend/src/agents/implementations/business-intelligence.ts:196-223 | `getProfit`: the last month's profit and margin, the total profit, the average as rounded money, and one entry per row with its month, profit and margin |
| `BusinessIntelligence.GrowthDataFields` | backend/src/agents/implementations/business-intelligence.ts:225-247 | `getGrowth`: the last month's growth, the average of the non-zero rates as text, the trend `improving` exactly when the last rate beats that average and `declining` otherwise, and one entry per row with its month and growth |
| `BusinessIntelligence.PeriodDataFields` | backend/src/agents/implementations/business-intelligence.ts:172-194 | `getRevenuePeriod` for a found month: its month, revenue, expenses, profit and growth, and the four formatted figures |
| `BusinessIntelligence.MetricsDataFields` | backend/src/agents/implementations/business-intelligence.ts:249-273 | `getMetrics`: the revenue, expenses and profit totals, and the months of the first most and the first least profitable rows |
| `BusinessIntelligence.FormatVoice` | backend/src/agents/implementations/business-intelligence.ts:275-302 | a failure reads as the base reply; success data that is `null` or `undefined` throws; otherwise the data's fields choose the sentence |
| `BusinessIntelligence.AmountReply` | backend/src/agents/implementations/business-intelligence.ts:283-291 | data with a truthy current amount and a total gets the amount sentence |
| `BusinessIntelligence.GrowthShapeReply` | backend/src/agents/implementations/business-intelligence.ts:293-295 | data whose current value has `growth` but no amount gets the growth sentence |
| `BusinessIntelligence.PlainShapeReply` | backend/src/agents/implementations/business-intelligence.ts:301 | data matching no branch gets the generic sentence |
| `BusinessIntelligence.PeriodShapeReply` | backend/src/agents/implementations/business-intelligence.ts:297-299 | data without `current` but with a truthy `month` gets the period sentence |
| `BusinessIntelligence.RevenueReply` | backend/src/agents/implementations/business-intelligence.ts:283-291 | the revenue reply names the last month, its revenue and the total |
| `BusinessIntelligence.RevenueZeroReply` | backend/src/agents/implementations/business-intelligence.ts:283-301 | a current month with zero revenue falls through to the generic sentence |
| `BusinessIntelligence.ExpensesReply` | backend/src/agents/implementations/business-intelligence.ts:283-291 | the expenses reply names the last month, its expenses and the total |
| `BusinessIntelligence.ProfitReply` | backend/src/agents/implementations/business-intelligence.ts:283-291 | the profit reply names the last month, its profit, its margin and the total |
| `BusinessIntelligence.GrowthReply` | backend/src/agents/implementations/business-intelligence.ts:293-295 | the growth reply names the last rate, the average and the trend, whatever the figures |
| `BusinessIntelligence.PeriodReply` | backend/src/agents/implementations/business-intelligence.ts:297-299 | the period reply names the month's four figures |
| `BusinessIntelligence.MetricsReply` | backend/src/agents/implementations/business-intelligence.ts:249-273 | the metrics result has none of the fields looked for and gets the generic sentence |
| `SystemArchitecture.FindPair` | backend/src/agents/implementations/system-architecture.ts:310-312 | the first connection with the pair; none exactly when no connection has it |
| `SystemArchitecture.Bumped` | backend/src/agents/implementations/system-architecture.ts:309-324 | the list grows only for a new pair, and connections of other pairs stay in place |
| `SystemArchitecture.BumpedUnique` | backend/src/agents/implementations/system-architecture.ts:309-324 | an update never creates a second record for a pair |
| `SystemArchitecture.BumpedTotal` | backend/src/agents/implementations/system-architecture.ts:309-324 | an update adds one to the total count |
| `SystemArchitecture.BumpedOwn` | backend/src/agents/implementations/system-architecture.ts:314-322 | an update adds one to its own pair |
| `SystemArchitecture.BumpedOthers` | backend/src/agents/implementations/system-architecture.ts:314-322 | an update leaves every other pair's count alone |
| `SystemArchitecture.BumpedCounts` | backend/src/agents/implementations/system-architecture.ts:309-324 | uniqueness, +1 on its own pair, others unchanged, total +1 |
| `SystemArchitecture.CounterInvariant` | backend/src/agents/implementations/system-architecture.ts:277-280 | after any sequence of messages, pairs are unique and the counts sum to the number of messages |
| `SystemArchitecture.MostActive` | backend/src/agents/implementations/system-architecture.ts:344-348 | none exactly for no connections; otherwise a largest count, the last such on a tie |
| `SystemArchitecture.Logged` | backend/src/agents/implementations/system-architecture.ts:295-304 | the log grows by one up to 1000 entries and ends with the new message |
| `SystemArchitecture.Newest` | backend/src/agents/implementations/system-architecture.ts:302-304 | the newest 1000 entries, or all of them while there are fewer |
| `SystemArchitecture.LoggedNewest` | backend/src/agents/implementations/system-architecture.ts:295-304 | logging into a bounded log keeps the newest of the longer history |
| `SystemArchitecture.LogKeepsNewest` | backend/src/agents/implementations/system-architecture.ts:295-304 | the log is always the newest 1000 messages logged since it was empty |
| `SystemArchitecture.RecentFlow` | backend/src/agents/implementations/system-architecture.ts:246 | the last 20 entries of the log |
| `SystemArchitecture.SlowEntries` | backend/src/agents/implementations/system-architecture.ts:385-386 | only slow entries (duration over 1000) of the log are kept |
| `SystemArchitecture.SlowEntriesComplete` | backend/src/agents/implementations/system-architecture.ts:385-386 | every slow entry is kept |
| `SystemArchitecture.Bottlenecks` | backend/src/agents/implementations/system-architecture.ts:383-395 | the newest 10 slow entries, in log order |
| `SystemArchitecture.JsRem` | backend/src/agents/implementations/system-architecture.ts:328-329 | JavaScript's `%`: the remainder has the sign of the dividend |
| `SystemArchitecture.UptimeParts` | backend/src/agents/implementations/system-architecture.ts:326-332 | hours, minutes and seconds recombine to the uptime, with minutes and seconds below 60 |
| `SystemArchitecture.UptimeSplitOf` | backend/src/agents/implementations/system-architecture.ts:326-332 | splitting `h` hours, `m` minutes and `s` seconds (`m`, `s` below 60) gives back exactly those three parts |
| `SystemArchitecture.FormatUptimeOf` | backend/src/agents/implementations/system-architecture.ts:326-332 | `formatUptime` of such an uptime reads `<h>h <m>m <s>s` |
| `SystemArchitecture.AgentNumberOf` | backend/src/agents/implementations/system-architecture.ts:205-208 | 0 exactly when no agent has the name |
| `SystemArchitecture.NumberIn` | backend/src/agents/implementations/system-architecture.ts:206-207 | a non-zero result is the number of an entry with that name |
| `SystemArchitecture.AgentNumberOfNames` | backend/src/agents/implementations/system-architecture.ts:205-208 | every known name maps back to its own number |
| `SystemArchitecture.KeyIndex` | backend/src/agents/implementations/system-architecture.ts:354-357 | the position of a sender in the map, the first one; none exactly when absent |
| `SystemArchitecture.AddEdgeProps` | backend/src/agents/implementations/system-architecture.ts:354-359 | one step keeps senders and receivers unique and adds exactly its edge |
| `SystemArchitecture.ConnectionMapExact` | backend/src/agents/implementations/system-architecture.ts:350-363 | the map lists each sender once, each receiver once, and exactly the pairs of the connections |
| `SystemArchitecture.BuildConnectionMap` | backend/src/agents/implementations/system-architecture.ts:350-363 | the `forEach` loop builds exactly that map |
| `SystemArchitecture.CountedSum` | backend/src/agents/implementations/system-architecture.ts:373 | counting a pattern keeps keys distinct and adds one to the sum |
| `SystemArchitecture.CountedKeyCount` | backend/src/agents/implementations/system-architecture.ts:373 | counting a pattern adds one to it and leaves the others alone |
| `SystemArchitecture.PairCountsExact` | backend/src/agents/implementations/system-architecture.ts:367-375 | each pattern is listed once, with the number of consecutive pairs that have it; counts sum to the log length minus one |
| `SystemArchitecture.Insert` | backend/src/agents/implementations/system-architecture.ts:378 | insertion adds exactly the new entry |
| `SystemArchitecture.InsertSorted` | backend/src/agents/implementations/system-architecture.ts:378 | insertion keeps descending order |
| `SystemArchitecture.SortByCount` | backend/src/agents/implementations/system-architecture.ts:377-378 | the sort is a permutation of the entries |
| `SystemArchitecture.SortByCountSorted` | backend/src/agents/implementations/system-architecture.ts:377-378 | the sort orders by descending count |
| `SystemArchitecture.FlowPatternsSorted` | backend/src/agents/implementations/system-architecture.ts:377-381 | at most five patterns, in descending order of count |
| `SystemArchitecture.FlowPatternsCollected` | backend/src/agents/implementations/system-architecture.ts:377-381 | the reported patterns are collected ones with their counts |
| `SystemArchitecture.FlowPatternsTop` | backend/src/agents/implementations/system-architecture.ts:377-381 | no pattern left out was seen more often than a reported one |
| `SystemArchitecture.AnalyzeFlowPatterns` | backend/src/agents/implementations/system-architecture.ts:365-381 | the counting loop over the log gives the specified top patterns |
| `SystemArchitecture.UpdatedMetrics` | backend/src/agents/implementations/system-architecture.ts:288-293 | the active count is the `system` user's agents; uptime is whole seconds, memory rounded megabytes; the rest is kept |
| `SystemArchitecture.MessagesPerMinute` | backend/src/agents/implementations/system-architecture.ts:334-337 | 0 before a full second; otherwise the nearest integer to messages per minute |
| `SystemArchitecture.NodeLines` | backend/src/agents/implementations/system-architecture.ts:188-193 | one `A<number>[<name>]` line per agent, in order |
| `SystemArchitecture.EdgeLines` | backend/src/agents/implementations/system-architecture.ts:195-203 | one `A<from> -->\|<count> msgs\| A<to>` line per connection, in order |
| `SystemArchitecture.Framed` | backend/src/agents/implementations/system-architecture.ts:137-178 | the lines set in a frame: its length, opening with the head, closing with the tail |
| `SystemArchitecture.TemplateOpens` | backend/src/agents/implementations/system-architecture.ts:137 | the template's text starts with `graph TB` |
| `SystemArchitecture.DiagramText` | backend/src/agents/implementations/system-architecture.ts:137-178 | the Mermaid text opens with the template's fixed lines up to the `Agents` subgraph, starting `graph TB`, and closes with its fixed style lines |
| `SystemArchitecture.NodeLineAt` | backend/src/agents/implementations/system-architecture.ts:154-156 | each node line sits after the head at its place among the joined nodes, before the middle |
| `SystemArchitecture.MiddleAt` | backend/src/agents/implementations/system-architecture.ts:156-173 | the fixed middle follows the node lines |
| `SystemArchitecture.EdgeLineAt` | backend/src/agents/implementations/system-architecture.ts:171-175 | each edge line sits after the middle at its place among the joined edges, before the tail |
| `SystemArchitecture.DiagramNodeAt` | backend/src/agents/implementations/system-architecture.ts:154-156 | in the diagram, node `i` sits inside the `Agents` subgraph at its place after the earlier nodes |
| `SystemArchitecture.DiagramEdgeAt` | backend/src/agents/implementations/system-architecture.ts:171-175 | in the diagram, connection `j` sits after every node and the fixed edges, at its place after the earlier connections, before the style lines |
| `Strings.JoinLength` | backend/src/agents/implementations/system-architecture.ts:192 | `join` has the items' lengths plus one separator between each two |
| `Strings.JoinItemAt` | backend/src/agents/implementations/system-architecture.ts:192 | item `i` of a `join` stands at its offset |
| `Strings.JoinSeparatorAt` | backend/src/agents/implementations/system-architecture.ts:192 | a separator follows every item but the last |
| `Strings.JoinOffsetIncreasing` | backend/src/agents/implementations/system-architecture.ts:192 | later items start after earlier items and their separators end: `join` keeps the order |
| `SystemArchitecture.ActiveAgentItems` | backend/src/agents/implementations/system-architecture.ts:266-271 | one item per agent, in order |
| `SystemArchitecture.Run` | backend/src/agents/implementations/system-architecture.ts:88-106 | a throw exactly for an unknown action, with `Unknown action: <a>`; only `get_diagram` and `get_metrics` refresh the metrics |
| `SystemArchitecture.RunConnections` | backend/src/agents/implementations/system-architecture.ts:236-243 | `get_connections` reports the counter and the map built from it |
| `SystemArchitecture.RunDataFlow` | backend/src/agents/implementations/system-architecture.ts:245-259 | `get_data_flow` reports the log and its flow patterns |
| `SystemArchitecture.RunDiagram` | backend/src/agents/implementations/system-architecture.ts:89-91 | `get_diagram` refreshes the metrics, then returns the diagram result for the `system` agents and the counted connections with the refreshed metrics |
| `SystemArchitecture.RunMetrics` | backend/src/agents/implementations/system-architecture.ts:92-94 | `get_metrics` refreshes the metrics and returns the report of the refreshed ones |
| `SystemArchitecture.RunActiveAgents` | backend/src/agents/implementations/system-architecture.ts:101-103 | `get_active_agents` returns the list of the `system` agents and leaves the metrics alone |
| `SystemArchitecture.DiagramValueFields` | backend/src/agents/implementations/system-architecture.ts:132-186 | the diagram result holds the Mermaid text of those agents and connections, the type `mermaid`, and the active agents, memory and uptime of the metrics |
| `SystemArchitecture.MetricsReportFields` | backend/src/agents/implementations/system-architecture.ts:210-234 | the metrics report has no `diagram`; `current` holds the active agents and the formatted figures; `performance` is the performance object |
| `SystemArchitecture.CurrentValueFields` | backend/src/agents/implementations/system-architecture.ts:213-216 | `current` reports the messages handled and the uptime in seconds |
| `SystemArchitecture.FormattedMetricsFields` | backend/src/agents/implementations/system-architecture.ts:218-222 | the formatted uptime is `formatUptime` of the uptime, memory `<n> MB`, response time `<n> ms` |
| `SystemArchitecture.PerformanceFields` | backend/src/agents/implementations/system-architecture.ts:224-228 | messages per minute, the average response time as processing time, and an error rate of 0 |
| `SystemArchitecture.ConnectionsValueFields` | backend/src/agents/implementations/system-architecture.ts:236-243 | every counted connection in order with its pair and count, their number, the most active one, `null` exactly when there is none, and the connection map |
| `SystemArchitecture.DataFlowValueFields` | backend/src/agents/implementations/system-architecture.ts:245-259 | the last 20 log entries in order with their pairs, the patterns with their counts, and the slow entries with their durations |
| `SystemArchitecture.ActiveAgentsValueFields` | backend/src/agents/implementations/system-architecture.ts:261-273 | the number of agents and one entry per agent, in order, with its number, name, status `active` exactly when it is initialised, and its voice flag |
| `SystemArchitecture.FormatVoice` | backend/src/agents/implementations/system-architecture.ts:397-423 | a failure reads as the base reply; `null` or `undefined` data throws; otherwise the data's fields choose the sentence |
| `SystemArchitecture.DiagramReplies` | backend/src/agents/implementations/system-architecture.ts:404-406 | a diagram result reads as the diagram sentence |
| `SystemArchitecture.DiagramShape` | backend/src/agents/implementations/system-architecture.ts:404-406 | any data with a non-empty diagram reads as the diagram sentence |
| `SystemArchitecture.StatusShape` | backend/src/agents/implementations/system-architecture.ts:408-410 | data with current active agents gets the status sentence from its formatted fields |
| `SystemArchitecture.MetricsReplies` | backend/src/agents/implementations/system-architecture.ts:408-410 | a metrics report reads out active agents, uptime, memory and response time |
| `SystemArchitecture.ConnectionsDataShape` | backend/src/agents/implementations/system-architecture.ts:412-416 | data with connections and no earlier field gets the connections sentence |
| `SystemArchitecture.ConnectionsShape` | backend/src/agents/implementations/system-architecture.ts:412-416 | the connections sentence gives the count, then the most active connection if any |
| `SystemArchitecture.MostActiveShape` | backend/src/agents/implementations/system-architecture.ts:414 | a most active connection is read as its two ends and its count |
| `SystemArchitecture.ConnectionsReplies` | backend/src/agents/implementations/system-architecture.ts:412-416 | a connections result counts the connections and names the most active one |
| `SystemArchitecture.MostActiveTextOf` | backend/src/agents/implementations/system-architecture.ts:344-348 | the phrase for the most active connection, or nothing without connections |
| `SystemArchitecture.DataFlowReplies` | backend/src/agents/implementations/system-architecture.ts:422 | a data-flow result gets the generic sentence |
| `SystemArchitecture.NameList` | backend/src/agents/implementations/system-architecture.ts:419 | the agents' names, in order |
| `SystemArchitecture.NamesOfAgents` | backend/src/agents/implementations/system-architecture.ts:266-271 | the listed items give back the agents' names |
| `SystemArchitecture.AgentsDataShape` | backend/src/agents/implementations/system-architecture.ts:418-420 | data with agents and no earlier field gets the agents sentence |
| `SystemArchitecture.AgentsShape` | backend/src/agents/implementations/system-architecture.ts:418-420 | the agents sentence gives the count and the names joined by commas |
| `SystemArchitecture.ActiveAgentsReplies` | backend/src/agents/implementations/system-architecture.ts:418-420 | an active-agents result counts the agents and lists their names |
| `Template.ValidateConfig` | agents/agent-template/index.ts:85-90 | throws exactly when `apiKeys.exampleKey` is missing or falsy, with the fixed message |
| `Template.CaughtError` | agents/agent-template/index.ts:49 | an `Error` gives its message, anything else `Unknown error` |
| `Template.HandleExampleAction` | agents/agent-template/index.ts:140-153 | success with the fixed message, the time, and the fixed metadata |
| `Template.ExecuteWith` | agents/agent-template/index.ts:28-55 | success exactly for `example_action` when the handler succeeds; another action fails naming it; a handler throw becomes a failed response with its error |
| `Template.ExampleActionSucceeds` | agents/agent-template/test.template.ts:43-57 | `example_action` succeeds with the fixed message and a positive execution time |
| `Template.UnknownActionFails` | agents/agent-template/test.template.ts:59-72 | any other action fails and the error names it |
| `Template.HandlerErrorReported` | agents/agent-template/test.template.ts:111-129 | a handler throwing an `Error` yields a failure with exactly its message |
| `Template.FirstMentioned` | agents/agent-template/index.ts:114-128 | the first entry one of whose patterns occurs in the text; none exactly when no entry's does |
| `Template.FormatVoiceResponse` | agents/agent-template/index.ts:131-137 | a success starts with the success words followed by the data's JSON; a failure with the error words followed by the error |
| `Template.TemplateVoiceReply` | agents/agent-template/index.ts:67-82 | text mentioning either phrase succeeds; any other text gets the fixed sentence |
| `Template.VoiceReplyIgnoresCase` | agents/agent-template/index.ts:112 | the reply does not depend on letter case |
| `Template.UpperCasePhraseSucceeds` | agents/agent-template/test.template.ts:92-96 | "DO SOMETHING" is answered with a success |
| `Template.GibberishNotUnderstood` | agents/agent-template/test.template.ts:86-90 | "random gibberish" is not understood |
| `Template.FirstEntryMentioned` | agents/agent-template/index.ts:114-128 | the outer loop finds the first mentioned entry |
| `Template.FirstMentionedAt` | agents/agent-template/index.ts:114-128 | a mentioned entry after unmentioned ones is the one found |
| `Template.AnyPatternMentioned` | agents/agent-template/index.ts:115-116 | the inner loop finds a hit exactly when some pattern occurs in the text |
| `Template.TemplateAgent.constructor` | agents/agent-template/index.ts:5-10 | the agent starts with an empty configuration and no commands |
| `Template.TemplateAgent.Initialize` | agents/agent-template/index.ts:12-26 | a configuration without the key is refused before anything is stored; otherwise it is stored and the template's entry registered |
| `Template.TemplateAgent.ParseVoiceCommand` | agents/agent-template/index.ts:110-129 | the nested loops return the specified command |
| `Template.TemplateAgent.ProcessVoiceCommand` | agents/agent-template/index.ts:67-82 | the reply is the specified one: the fixed sentence or the formatted response |
| `Template.TemplateAgent.Cleanup` | agents/agent-template/index.ts:57-64 | cleanup always resolves |
| `Template.TestConfigurations` | agents/agent-template/test.template.ts:10-35 | the test configuration passes validation, and the one with empty `apiKeys` does not |
| `AgentGenerator.ValidateNumber` | tools/development/agent-generator.ts:34-39 | accepted exactly within 1..100, otherwise the fixed message |
| `AgentGenerator.ValidateName` | tools/development/agent-generator.ts:46-51 | accepted exactly when not blank, otherwise the fixed message |
| `AgentGenerator.ResolveOptions` | tools/development/agent-generator.ts:61-66 | a given option wins over the answer; the description is never empty; voice follows `--no-voice` |
| `AgentGenerator.PromptedOptionsDefined` | tools/development/agent-generator.ts:28-66 | after the prompts the number and name are defined, a prompted number is in 1..100 and a prompted name is not blank |
| `AgentGenerator.DefaultDescription` | tools/development/agent-generator.ts:64 | with no description given, it is `<name> agent` |
| `AgentGenerator.DirName` | tools/development/agent-generator.ts:78 | the directory name has no white space and no upper case |
| `AgentGenerator.DirNameOfWord` | tools/development/agent-generator.ts:78 | a name without white space becomes its lower case |
| `AgentGenerator.DirNameOfRun` | tools/development/agent-generator.ts:78 | a maximal white-space run, however long, becomes one `-` between the lower-cased part before it and the directory name of the rest; with `DirNameOfWord` this fixes the directory name of every name |
| `Strings.ReplaceSpaceRunsSplit` | tools/development/agent-generator.ts:78 | `replace(/\s+/g, sep)` turns a space-free head, one maximal run and a rest into head, one `sep` and the rest's replacement |
| `Strings.ReplaceSpaceRunsNone` | tools/development/agent-generator.ts:78 | text without white space is left as it is |
| `AgentGenerator.ClassName` | tools/development/agent-generator.ts:79 | the class name is the name's non-space characters |
| `AgentGenerator.ReplaceSpaceRunsNoUpper` | tools/development/agent-generator.ts:78 | the `-` replacement introduces no upper case |
| `AgentGenerator.LeadingZeroValue` | tools/development/agent-generator.ts:83 | a leading zero does not change a digit string's value |
| `AgentGenerator.SpecNumberRoundTrip` | tools/development/agent-generator.ts:83 | the padded number has at least two digits and reads back as the agent number |
| `AgentGenerator.SubstituteWithoutPlaceholders` | tools/development/agent-generator.ts:102-107 | a file with no placeholder is written back unchanged |
| `AgentGenerator.SubstituteNumberLine` | tools/development/agent-generator.ts:103-107 | the template's `agentNumber = 99` line becomes `agentNumber = <n>` for the new agent's number |
| `AgentGenerator.SpecPath` | tools/development/agent-generator.ts:83 | the specification file lies in `agents/specifications/`, outside the new agent's directory |
| `AgentGenerator.SpecContentLayout` | tools/development/agent-generator.ts:120-150 | the document opens with `# Agent #<n>: <name>`, has the description under `## Overview`, the voice line right under `## Voice Commands`, and closes with the configuration skeleton and the status checklist |
| `AgentGenerator.SpecContentVoiceMatters` | tools/development/agent-generator.ts:129 | the two voice settings give different documents |
| `AgentGenerator.VoiceLine` | tools/development/agent-generator.ts:129 | the voice line is the TODO line exactly when voice is enabled, and the disabled line otherwise |
| `AgentGenerator.MovedTo` | tools/development/agent-generator.ts:92 | a copied file lands inside the target directory |
| `AgentGenerator.MovedToRest` | tools/development/agent-generator.ts:92 | `src/<rest>` is copied to `dst/<rest>` |
| `AgentGenerator.MovedToInjective` | tools/development/agent-generator.ts:92 | different source files land in different places |
| `AgentGenerator.CopiesInjective` | tools/development/agent-generator.ts:92 | no two template files are copied to the same place |
| `AgentGenerator.Copied` | tools/development/agent-generator.ts:92 | every file is kept; files outside the target are unchanged; each template file appears under the target with its content |
| `AgentGenerator.Generation` | tools/development/agent-generator.ts:75-167 | success exactly when the name is defined, nothing (file or directory) is at the target path, and the template and specifications directories exist; `SpecDirMissing` exactly when only the specifications directory is missing; every other failure leaves files and directories as they were |
| `AgentGenerator.SpecDirKept` | tools/development/agent-generator.ts:92-117 | copying into the target and rewriting there leave the specifications directory existing exactly when it did |
| `AgentGenerator.RewriteAllInside` | tools/development/agent-generator.ts:95-117 | the rewriting loop changes nothing outside the target directory |
| `AgentGenerator.GenerationKeepsOtherFiles` | tools/development/agent-generator.ts:75-167 | whatever the outcome, every file outside the new directory and the new specification keeps its content |
| `AgentGenerator.RewriteAllOtherFile` | tools/development/agent-generator.ts:97-117 | turns for other file names leave a file alone |
| `AgentGenerator.RewriteAllRenamesTest` | tools/development/agent-generator.ts:109-115 | the rewritten test file ends under the agent's test-file name and the template's test name is gone |
| `AgentGenerator.TestFileRenamedAway` | tools/development/agent-generator.ts:113 | the new test-file name differs from the template's |
| `AgentGenerator.GenerationRenamesTest` | tools/development/agent-generator.ts:95-117 | a run that gets past the copy leaves the rewritten test under the agent's own name and none under the template's, whether the specification is then written or not |
| `AgentGenerator.ExistingTargetUntouched` | tools/development/agent-generator.ts:86-89 | anything at the target path, a file or a directory, stops the run before anything is written |
| `AgentGenerator.MissingTemplateUntouched` | tools/development/agent-generator.ts:92 | a missing template makes `fs.copy` reject: `TemplateMissing`, with nothing written |
| `AgentGenerator.MissingSpecDirKeepsAgent` | tools/development/agent-generator.ts:92-152 | without the specifications directory the last write rejects: the agent directory stays, and no specification is written |
| `AgentGenerator.GenerationPastCopy` | tools/development/agent-generator.ts:92-152 | past the copy, the files are the rewritten copy, with the specification added or, when its write rejects, without it |
| `AgentGenerator.GenerationWritesSpec` | tools/development/agent-generator.ts:83-152 | with a defined name, nothing at the target path, and both the template and the specifications directories present, the run succeeds and writes the specification, with the configured voice line, at the specification path |
| `AgentGenerator.Workspace.constructor` | tools/development/agent-generator.ts:75-82 | the workspace holds the given files |
| `AgentGenerator.Workspace.GenerateAgent` | tools/development/agent-generator.ts:75-167 | the outcome, files and directories are the ones `Generation` specifies, the rejections of `fs.copy` and of the specification write included |
| `AgentGenerator.Workspace.RewriteFiles` | tools/development/agent-generator.ts:95-117 | the loop gives the specified rewrite of every listed file |
| `AgentGenerator.Workspace.RewriteFile` | tools/development/agent-generator.ts:98-116 | one turn rewrites the file and renames the test file |

## Left out

- Logging (`logger`, `console`), `process.exit` and the colours of the generator's output are not modelled. `updateAgentRegistry` only prints, so it is left out.
- The socket forwarding of `status` events and the `error` listener of the manager are left out. So is the `io` field.
- Time is a parameter, in milliseconds. The template agent's `Date` is its ISO text, also a parameter. The system architecture results leave their `timestamp` fields out altogether: the diagram object (system-architecture.ts:184), the data-flow entries (:250) and the bottleneck entries (:390).
- The configuration table is a `ConfigStore` parameter: either the rows the query returns or `Unavailable`, a rejected query.
- An agent reads `agentManager.getUserAgents('system')` from its environment parameter. The manager fills that in from its own map (`Manager.AgentManager.EnvAt`), so the agents and the manager see the same snapshot.
- `process.memoryUsage().heapUsed` is a parameter. `process.cpuUsage()`, the `setInterval` refresh and the `resources` object of `getSystemMetrics` are left out. `calculateErrorRate` is the constant 0.
- Concurrency is not modelled. `shutdownAllAgents` cleans the agents up one after another, in map order; its cleanups cannot throw.
- Re-emission of an inter-agent message by the receiver is not modelled. A delivered message reaches only the receiver's own monitoring listeners.
- Manager.AgentManager.ExecuteCommand: the branch where initialisation succeeds but the key is missing (manager.ts lines 80-86) cannot happen in the model, so it is not represented.
- Regular expressions: only the two shapes the agents register are modelled, a literal phrase and `prefix(.*)`. `toLowerCase` folds ASCII letters only.
- Floating point: growth rates are exact tenths, and the formatted averages and margins are exact rationals, rounded as `toFixed` would. The raw floating-point fields are left out of the results: the business intelligence `average.profit`, `average.growth` and `averageGrowth`, and the system metrics' `current.memoryUsage`. `toLocaleString`'s digit grouping is modelled as comma grouping of integers.
- McpAgent.Read: the ttl is a whole number of seconds (`int`); a fractional ttl is not modelled.
- BusinessIntelligence.ToFixed1: the contract states only the zero-denominator case; the digits of other quotients are not stated.
- Agents.PeriodRequest: it covers only continuations without the letters `w`, `d`, `i` and `p`, a sufficient condition for the earlier entries to miss.
- In the voice route, an `activeAgent` that is not a number or `null`, and the 500 reply for a malformed request body, are left out.
- A template configuration that is not an object, and the template's empty resource hooks, are left out.
- AgentGenerator.Generation: a plain file at the template path counts as a missing template, where `fs.copy` would copy that one file. Other file-system errors, such as permissions or a full disk, are not modelled.
- AgentGenerator.ValidateNumber: agent numbers are whole numbers (`int`). The `number` prompt also accepts a fraction such as `2.5`, which passes the 1..100 test and would reach `agentNumber = 2.5` and the file name `2.5-<dir>.md`; fractional answers are not modelled.
- The generator: numbers that `parseInt` or the prompt turn into `NaN` are not modelled; `$` patterns in replacement strings are not interpreted; `path.join` normalisation is reduced to joining with `/`.
