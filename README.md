# Jessit agent core in Dafny

Jessit is a desktop assistant. A user types a request. The agent sends it to
an LLM together with the list of installed skills. The LLM either answers
in text or asks for tool calls. The agent runs those calls one by one and
feeds the results back, for at most ten rounds. While it works, it reports
its progress (analysis, plan, executed steps, final result) to the chat
window.

This project models the deterministic parts of that system and proves
their properties:

- `agent.dfy` (module `Agent`) covers the tool-use turn of
  `JessitAgent.chat_with_tools` and the plain `chat`.
  - A turn is specified by a reference function `Turn`.
  - It has three terminals: text, the iteration limit, or an exception.
  - The imperative method `ChatWithTools` (with `ToolLoop`, `ToolRound` and
    `ExecuteCalls`) is proved equal to `Turn`.
  - Lemmas about `Turn` give:
    - the bound on LLM calls;
    - the order of steps and messages;
    - the shape of the progress-event trace;
    - the rule that the plan is recorded once.
  - The LLM and the skill executor are oracles passed in as functions. The
    LLM receives the index of the call in the turn. The executor receives the
    index of the step.
- `context.dfy` (module `Context`) is the sliding-window conversation log
  with its metadata dictionary, as a class. A ghost log of every appended
  message states what the window holds.
- `skill_manager.dfy` (module `Skills`) is the skill registry, as a class. A
  dictionary keeps its keys in insertion order, so the registry carries a
  key list next to its map.
- `safety.dfy` (module `Safety`) is the dangerous-command classifier. It
  models the regular expressions `\bword\b`, `\bword\s` and `\bword\s+flag\b`
  exactly, with ASCII case folding.
- `chat_window.dfy` (module `ChatWindow`) is the window's progress record:
  - its reset;
  - the reducer applied to each progress event;
  - the proof that a window fed the agent's events ends with the agent's own
    record.
- `path_utils.dfy` (module `PathUtils`) is the alias resolver of
  `resolve_path`. The home directory is symbolic. The regular expression
  `^(a|b)(.*)$` is modelled with its line-feed behaviour.
- `mouse_keyboard_controller.dfy` (module `Controller`) holds two things:
  - the per-step validation of the desktop-automation executor, with a
    device call recorded instead of performed;
  - the aggregation loop of `execute_steps`.
- `desktop_automation.dfy` (module `JsonExtract`) is
  `_extract_json_from_response`. It holds the two regular-expression
  searches, each as the leftmost match over all start positions.
- `market_pulse_observer.dfy` (module `MarketPulse`) holds the pure trend
  analysis:
  - topics;
  - narrative shifts;
  - recurring topics;
  - first appearances;
  - signal strength.
- `market_pulse_report.dfy` (module `MarketPulseReport`) holds the text of
  the report and the normalisation of the observer's `sources` argument.
- `values.dfy` and `text.dfy` hold shared helpers:
  - a Python-like dynamic value with truthiness;
  - whitespace and word-character classes;
  - ASCII lower-casing, strip, join and substring search.

Python sets have no defined iteration order. Wherever the code lists a set
(`list(set(topics))`, `list(new_topics)[:5]`), the model lists its members
in order of first occurrence. The properties proved about those lists are
ones that hold for any order: membership, no repetition and length.

## Model

| member | source | states |
|---|---|---|
| Context.WindowIsNewest | src/core/context.py:31-35 | The window has `min(len, max_history)` entries, and they are the newest ones in their original order. |
| Context.WindowStep | src/core/context.py:31-35 | Appending and then trimming a window gives the window of the extended log, so the stored list is always the newest `max_history` of all messages appended. |
| Context.LastOfWindow | src/core/context.py:41-43 | With a positive bound, the newest message kept is the last one appended. |
| Context.ForLlm | src/core/context.py:37-39 | The projection has the same length and order as the stored messages, and each entry keeps only the role and the content. |
| Context.ConversationContext.constructor | src/core/context.py:23-26 | A new context has no messages and empty metadata, and it keeps the given bound. |
| Context.ConversationContext.AddMessage | src/core/context.py:28-35 | The message (with metadata `None` stored as `{}`) is appended to the log. At most `max_history` messages remain, the newest is the new one, and the metadata is untouched. |
| Context.ConversationContext.GetMessages | src/core/context.py:37-39 | Returns the role/content projection of the stored messages. |
| Context.ConversationContext.GetLastMessage | src/core/context.py:41-43 | `None` exactly when there are no messages; otherwise the most recent message. |
| Context.ConversationContext.Clear | src/core/context.py:45-48 | Afterwards the messages and the metadata are both empty. |
| Context.ConversationContext.SetMetadata | src/core/context.py:50-52 | Updates the one key; a later `get_metadata` of that key returns the value, whatever default is given. |
| Context.ConversationContext.GetMetadata | src/core/context.py:54-56 | The stored value for a present key, the supplied default for an absent one. |
| Skills.LoadSkillFile | src/core/skill_manager.py:51-66 | Loading fails exactly when the file cannot be read or parsed. Absent fields default: name to the file stem, description and handler `""`, parameters and metadata `{}`, enabled `True`. Every field the file gives is kept as given. |
| Skills.ChainOrderSorted | src/core/skill_manager.py:39-43 | Files are enumerated with every `.json` before every `.yaml` before every `.yml`, and no other file is read. |
| Skills.LoadStepWellFormed | src/core/skill_manager.py:44-47 | One loading step keeps the keys unique, the map and key list in agreement, and every stored skill enabled and filed under its own name. |
| Skills.LoadAllWellFormed | src/core/skill_manager.py:39-49 | The whole loading loop keeps those invariants. |
| Skills.FailedFileSkipped | src/core/skill_manager.py:44-49 | A file that raises while loading leaves the registry as if it were absent; the other files still load. |
| Skills.LastEnabledWins | src/core/skill_manager.py:39-47 | A name is stored iff some enabled definition of it loads (or it was stored before). The stored definition is the last enabled one in enumeration order, and a later disabled one never removes it. |
| Skills.SkillManager.constructor | src/core/skill_manager.py:29-32 | The new registry is what loading the found files in chain order gives from empty, or empty when the directory is missing. |
| Skills.SkillManager.LoadSkills | src/core/skill_manager.py:34-49 | The loop over the files in chain order gives the reference fold `LoadFrom`, and the registry stays well formed. |
| Skills.SkillManager.GetSkill | src/core/skill_manager.py:68-70 | `None` exactly for an absent name; otherwise the stored definition. |
| Skills.SkillManager.ListSkills | src/core/skill_manager.py:72-74 | The stored definitions in insertion order, one per key; every one is enabled. |
| Skills.SkillManager.Reload | src/core/skill_manager.py:76-79 | The result is the registry loaded from empty, independent of the previous contents. |
| Skills.SkillManager.GetSkillsForLlm | src/core/skill_manager.py:81-91 | One `{name, description, parameters}` entry per stored skill, in insertion order. |
| Skills.EnabledSpecs | src/core/skill_manager.py:83-91 | The comprehension keeps at most every definition; when all are enabled it keeps each one, in order, projected to its three fields. |
| Safety.IsDangerousOperation | src/core/safety.py:9-43 | Any other tool, or a missing `command`, gives `(False, "")`. A non-string command raises. Otherwise the command is stripped; it is dangerous iff some deletion pattern is found in it, and the description is then `执行删除操作: ` followed by the stripped command. |
| Safety.AnyMatches | src/core/safety.py:33-38 | The early-return pattern loop is true iff one of the patterns is found. |
| Safety.FlagMatchIsWordMatch | src/core/safety.py:25-31 | Wherever `\bRemove-Item\s+flag\b` matches, `\bRemove-Item\b` matches at the same place. |
| Safety.FlagPatternsRedundant | src/core/safety.py:24-34 | The two `Remove-Item` flag patterns never change the verdict, because the first pattern is found whenever they are. |
| Safety.SearchIgnoresCase | src/core/safety.py:34 | A pattern is found in a command iff it is found in any ASCII case variant of it. |
| Safety.VerdictIgnoresCase | src/core/safety.py:33-34 | Whether a command is flagged does not depend on the case of its ASCII letters. |
| Safety.TrailingDelNotFlagged | src/core/safety.py:22-27 | `"del "` is stripped to `"del"`, which `\bdel\s` no longer matches, so it is not flagged. |
| Safety.DelWithArgumentFlagged | src/core/safety.py:22-38 | `" del x"` is flagged, and the description quotes the stripped command `del x`. |
| Safety.RmdirOnlyByItsOwnPattern | src/core/safety.py:26-29 | `\brm\b` does not match inside `rmdir x`; `\brmdir\s` does. |
| PathUtils.LineToEnd | src/utils/path_utils.py:42-53 | `(.*)$` captures text without a line feed, and drops at most one final line feed. It fails exactly when a line feed comes before the last character. |
| PathUtils.ReplaceTilde | src/utils/path_utils.py:62 | The replacement leaves no `~` when the home path has none, changes nothing without a `~`, and adds only characters of the input or of the home path. |
| PathUtils.ResolvePath | src/utils/path_utils.py:10-65 | A joined suffix is never empty and never starts or ends with `\`, `/` or a space. The fallback leaves no `~` when the home path has none. |
| PathUtils.FirstAliasIsFirst | src/utils/path_utils.py:52-54 | The alias scan finds nothing iff no alias matches. Otherwise its result is that of the first alias that matches, and every earlier alias fails. |
| PathUtils.ResolveIsFirstMatch | src/utils/path_utils.py:41-59 | The fallback is taken iff no alias matches. Otherwise the base is that of the first matching alias, with the trimmed suffix joined under it, or the base alone when the suffix is empty. |
| PathUtils.OnlyHomeAliasFor | src/utils/path_utils.py:41-48 | Input starting with `~` or `/` can match only the home alias. |
| PathUtils.PrefixNotSegment | src/utils/path_utils.py:42-58 | Matching is by prefix and ignores case: `desktopX` resolves to `X` under Desktop. |
| PathUtils.HomeAlone | src/utils/path_utils.py:48-59 | `~` alone resolves to the home directory itself. |
| PathUtils.HomeSuffixTrimmed | src/utils/path_utils.py:48-58 | `/home/docs/` resolves to `docs` under the home directory; the surrounding separators are trimmed. |
| PathUtils.LineFeedFallsBack | src/utils/path_utils.py:53-62 | A line feed inside the rest defeats `(.*)$`, so `~\nx` falls back to `~` replacement. |
| Controller.ExecuteClick | skills_available/desktop_automation/mouse_keyboard_controller.py:83-102 | Fails with the fixed message iff `x` or `y` is missing or `None`. Otherwise it clicks at `(x, y)` with `clicks` defaulting to 1 and `button` to `"left"`. |
| Controller.ExecuteType | skills_available/desktop_automation/mouse_keyboard_controller.py:104-122 | A falsy text fails with the fixed message and no device call. A non-empty string is written, and the action is `输入文本: ` with its first 20 characters and `...`. A non-empty list succeeds iff it has at most 50 items; a longer one fails on `text[:50] + "..."` before anything is written. A number, boolean or dictionary fails. A non-empty dictionary is written first iff it has at most 50 keys. |
| Controller.ExecuteKey | skills_available/desktop_automation/mouse_keyboard_controller.py:124-145 | Fails iff the key is missing or falsy. Otherwise it presses the key, with `presses` defaulting to 1. |
| Controller.ExecuteScroll | skills_available/desktop_automation/mouse_keyboard_controller.py:147-172 | Fails iff both `dx` and `dy` equal 0. Otherwise it scrolls by `dy`, moving to `(x, y)` first iff both are given. |
| Controller.ExecuteDrag | skills_available/desktop_automation/mouse_keyboard_controller.py:174-194 | The start is `x1 or x`, `y1 or y`, so a 0 falls back. Fails iff any of the four coordinates is `None`; otherwise it drags with button defaulting to `"left"`. |
| Controller.ExecuteStep | skills_available/desktop_automation/mouse_keyboard_controller.py:33-81 | Dispatches on `type`. Any other type fails with `未知的操作类型: <type>` and performs no device call. A success performs at least one. The only failure after a device call is a `type` step whose dictionary text was written. |
| Controller.CountSucceededBounds | skills_available/desktop_automation/mouse_keyboard_controller.py:220-230 | The success count is at most the number of steps, and it equals it exactly when every step succeeds. |
| Controller.ExecuteSteps | skills_available/desktop_automation/mouse_keyboard_controller.py:196-234 | Every step runs. The results are numbered 1..n in input order, `total_steps` is n, and `success_steps` counts the successes. `success` holds iff every step succeeded, so it is true for an empty list. |
| Controller.StepExamples | skills_available/desktop_automation/mouse_keyboard_controller.py:55-156 | A click without `x` fails, and a scroll with `dx` False and no `dy` fails. A non-string type is unknown. A click at `(0, 0)` succeeds, since only `None` is rejected. A list text of 51 items fails with the `list + str` error and writes nothing. A one-key dictionary text is written, then fails. |
| ChatWindow.Reduce | src/ui/chat_window.py:495-513 | `analysis_complete` changes only the analysis; `planning` replaces only the plan; `step_complete` appends exactly one step and keeps the earlier ones. `complete` and `error` set the final result, or replace the whole record when it is attached. Every other stage changes nothing. |
| ChatWindow.ProgressView.constructor | src/ui/chat_window.py:36-41 | The window starts with the empty record. |
| ChatWindow.ProgressView.Reset | src/ui/chat_window.py:229-236 | Starting a chat resets the record to empty analysis, plan, steps and final result. |
| ChatWindow.ProgressView.OnProgressUpdated | src/ui/chat_window.py:495-513 | The record after an event is the reducer applied to the record before it. |
| ChatWindow.ViewFollowsTurn | src/ui/chat_window.py:495-513 | A reset window fed a turn's events ends with exactly the agent's final record. Before the terminal event it shows that record with an empty final result. Even a window that was never reset ends with the agent's record. |
| Agent.StatusOf | src/core/agent.py:225 | A step is completed iff `success` is absent or truthy. |
| Agent.PlanOf | src/core/agent.py:172-177 | The plan has one `(tool_name, tool_args)` entry per call, in call order. |
| Agent.RunCalls | src/core/agent.py:189-248 | A round records between 0 and all of its calls as steps. It finishes iff every call was recorded. |
| Agent.JessitAgent.constructor | src/core/agent.py:16-25 | A new agent has an empty context with the default bound of 50, and a skill registry loaded from the skills directory. |
| Agent.JessitAgent.Chat | src/core/agent.py:77-107 | The user message goes into the context first. The LLM sees the system prompt followed by the context window. Streaming yields the chunks (then the error text if the provider raised); otherwise it yields the whole answer or the error text. The context then receives the answer, or only the error text. |
| Agent.JessitAgent.DescribeCalls | src/core/agent.py:149-156 | The analysis text is the header followed by one `- 调用工具: <name>` line per call. |
| Agent.JessitAgent.PlanCalls | src/core/agent.py:172-177 | The loop builds the plan of the round. |
| Agent.JessitAgent.ExecuteCalls | src/core/agent.py:189-248 | The loop over one round's calls gives the reference round `RunCalls`: messages, record, events and the error of a call that raised. |
| Agent.JessitAgent.ToolRound | src/core/agent.py:168-254 | One pass of the `while` loop continues the reference loop `RunRounds` at the next iteration, or ends it with the error raised. |
| Agent.JessitAgent.ToolLoop | src/core/agent.py:164-254 | The `while` loop gives the reference loop `RunRounds` from iteration 0. |
| Agent.JessitAgent.ChatWithTools | src/core/agent.py:109-289 | The user message is added before the first LLM call. The LLM sees the system prompt followed by the context window, and the skill list as tools. The reply and the events are those of the reference turn `Turn`. The context gains the reply afterwards, except at the iteration limit. |
| Agent.RunCallsKeeps | src/core/agent.py:187-248 | Executing a round's calls makes no LLM call, leaves the plan alone, and keeps the earlier steps. |
| Agent.RunRoundsLlmCalls | src/core/agent.py:167-254 | Each remaining round adds at most one LLM call. |
| Agent.TurnLlmCallsBounded | src/core/agent.py:139-254 | A turn calls the LLM at least once and at most 11 times. |
| Agent.RunCallsNoFailure | src/core/agent.py:189-248 | When no execution raises, every call of a round runs. |
| Agent.EndlessToolUseRunsOut | src/core/agent.py:164-254 | If every reply asks for tools and nothing raises, the loop stops at iteration 10, still holding a tool-use reply, after one LLM call per round. |
| Agent.EndlessToolUseHitsLimit | src/core/agent.py:164-277 | Such a turn makes 11 LLM calls, returns `错误：工具调用超过最大迭代次数` and adds nothing to the context. |
| Agent.RunCallsSteps | src/core/agent.py:188-227 | One execution step is appended per call, in call order. Each step carries the call's name, arguments and result, and the status that result implies. Earlier steps are kept, and a round cut short stops at the call whose execution raised. |
| Agent.ExchangesPaired | src/core/agent.py:205-246 | In the exchange list, position `2i` is the `tool_use` of call `i` and position `2i+1` is the `tool_result` with the same id and that call's result. |
| Agent.RunCallsMessages | src/core/agent.py:204-246 | Each executed call appends exactly its `tool_use` then its `tool_result` to the local message list. A call that raised leaves its `tool_use` unanswered. |
| Agent.RunCallsTrace | src/core/agent.py:189-234 | Executing calls keeps the trace shape: no terminal event, each `step_complete` right after the `executing` of the same tool, and the `step_complete` events carrying exactly the recorded steps. |
| Agent.RunRoundsTrace | src/core/agent.py:167-254 | The loop keeps the trace shape, with one `processing_results` per LLM call after the first. |
| Agent.TurnEndsTraceOk | src/core/agent.py:136-254 | The state in which a turn reaches its terminal starts with `analyzing` and has the trace shape. |
| Agent.TurnIsFinalStatePlusTerminal | src/core/agent.py:256-289 | A turn's events are those of its final state plus exactly one terminal event, which carries the final record. The final result is the returned text, and the context gets the returned text unless the limit was hit. |
| Agent.TurnTrace | src/core/agent.py:136-289 | The whole trace: `analyzing` first and exactly one `complete` or `error`, last, carrying the final record whose final result is the reply. Every `step_complete` directly follows its `executing`, and the steps match. There is one `processing_results` per LLM call after the first. |
| Agent.ToolUseSettlesAtLimit | src/core/agent.py:164-167 | A tool loop that stops while still holding a tool-use reply has run every remaining round, making one LLM call per round. |
| Agent.TurnTerminals | src/core/agent.py:256-289 | Which terminal ends a turn. A final text reply is returned, announced by `complete`, and goes to the context. A loop that stops on another reply returns the iteration-limit text with an `error` event and adds nothing to the context; if that reply is still a tool use, 11 LLM calls were made. An exception returns `发生错误: ` and its message with an `error` event, and that text goes to the context. |
| Agent.PlanRecordedOnce | src/core/agent.py:179-185 | Once a plan is recorded, later rounds never change it. |
| Agent.FirstRoundPlans | src/core/agent.py:172-185 | A first round with calls fixes the turn's plan to that round's plan. |
| JsonExtract.ExtractJson | skills_available/desktop_automation/desktop_automation.py:449-474 | A fenced block, when one is found, takes precedence; otherwise the bare-object search decides. Whatever is returned is a contiguous piece of the response that opens with `{` and closes with `}`. Nothing is returned iff neither pattern matches at any position. |
| JsonExtract.FirstCloseIsFirst | skills_available/desktop_automation/desktop_automation.py:462 | The lazy `.*?\}` stops at the first `}` that optional whitespace and a closing fence follow. |
| JsonExtract.FenceAtShape | skills_available/desktop_automation/desktop_automation.py:462-466 | A fenced match is the object that opens right after the fence, the optional `json` and the whitespace. It runs to the first `}` that whitespace and a fence follow. |
| JsonExtract.SearchFenceLeftmost | skills_available/desktop_automation/desktop_automation.py:462-466 | The fenced search returns the leftmost match, and nothing only when no position matches. |
| JsonExtract.ObjectEndExact | skills_available/desktop_automation/desktop_automation.py:469 | The scan for a bare object closes at `e` iff the brace depth stays 1 or 2 until `e` and returns to 0 there. |
| JsonExtract.ObjectAtExact | skills_available/desktop_automation/desktop_automation.py:469-472 | The bare-object match at a position is exactly the balanced object, nested at most two deep, that starts there. |
| JsonExtract.SearchObjectLeftmost | skills_available/desktop_automation/desktop_automation.py:469-472 | The bare-object search returns the leftmost match, and nothing only when no position matches. |
| JsonExtract.NoBackquoteNoFence | skills_available/desktop_automation/desktop_automation.py:462-472 | Without a backquote, the bare-object search decides. |
| JsonExtract.NoBraceNoJson | skills_available/desktop_automation/desktop_automation.py:462-474 | A response with no `{` gives `None`. |
| JsonExtract.FencedExample | skills_available/desktop_automation/desktop_automation.py:462-466 | ```` ```json{}``` ```` gives `{}`. |
| JsonExtract.TooDeepExample | skills_available/desktop_automation/desktop_automation.py:469-474 | `{{{}}}` is nested three deep, so the match starts at the second brace and gives `{{}}`. |
| MarketPulse.DistinctSpec | skills/market_pulse_observer/market_pulse_observer.py:523 | `list(set(xs))` holds exactly the members of `xs`, each once. |
| MarketPulse.MinusSpec | skills/market_pulse_observer/market_pulse_observer.py:532-541 | A set difference holds exactly the members of the first collection that are not in the second. |
| MarketPulse.WordsAreRuns | skills/market_pulse_observer/market_pulse_observer.py:513 | Every word `\b\w+\b` finds is a non-empty run of word characters. |
| MarketPulse.RankSortSorts | skills/market_pulse_observer/market_pulse_observer.py:519-520 | Ranking is a permutation of the items, in descending count order. |
| MarketPulse.MostCommonCounts | skills/market_pulse_observer/market_pulse_observer.py:519-520 | `most_common` returns members with their true counts, in descending count order. |
| MarketPulse.MostCommonIsTop | skills/market_pulse_observer/market_pulse_observer.py:519-520 | No member left out is counted more often than any member returned. |
| MarketPulse.MostCommonIsComplete | skills/market_pulse_observer/market_pulse_observer.py:519-520 | When fewer than `n` entries are returned, every member is among them. |
| MarketPulse.PhraseTopicsShape | skills/market_pulse_observer/market_pulse_observer.py:512-521 | Each of the at most 5 phrase topics is a bigram or trigram of the text, occurs at least twice, and ranks among the 10 most common. |
| MarketPulse.FoundInShape | skills/market_pulse_observer/market_pulse_observer.py:508-511 | The keywords found are exactly the listed keywords that occur as substrings of the lower-cased joined titles. |
| MarketPulse.TopicsShape | skills/market_pulse_observer/market_pulse_observer.py:492-523 | The topics have no repetition and number at most 24 + 5. A keyword is a topic iff it occurs in the text (or is a phrase topic). Every topic is a found keyword or a phrase topic. |
| MarketPulse.ExtractTopics | skills/market_pulse_observer/market_pulse_observer.py:492-523 | The loop over the keywords, followed by the phrase counting, gives the topics `Topics`. |
| MarketPulse.TopicsNoDups | skills/market_pulse_observer/market_pulse_observer.py:523 | The topic list has no repetitions. |
| MarketPulse.ShiftsBetweenShape | skills/market_pulse_observer/market_pulse_observer.py:532-545 | With history there are at most two lines. Each is present iff its set difference is non-empty, and it lists exactly min(5, size of the difference) distinct members of that difference. |
| MarketPulse.NarrativeShiftsShape | skills/market_pulse_observer/market_pulse_observer.py:525-545 | Without history the result is the single fixed message; otherwise the two-line shape above. |
| MarketPulse.RecurringCountsAreOne | skills/market_pulse_observer/market_pulse_observer.py:547-551 | There are at most 10 pairs, and every count is 1, because the topics are already without repetition. |
| MarketPulse.FindFirstAppearances | skills/market_pulse_observer/market_pulse_observer.py:553-571 | The loop gives the reference `FirstAppearances`, and at most 5 titles. |
| MarketPulse.FirstMeeting | skills/market_pulse_observer/market_pulse_observer.py:562-571 | The loop with its early exit gives the first five titles, in trend order, of the trends whose own topics meet the new ones. |
| MarketPulse.FirstAppearancesFirstRun | skills/market_pulse_observer/market_pulse_observer.py:555-556 | Without history, the result is the titles of the first five trends. |
| MarketPulse.FirstAppearancesMeet | skills/market_pulse_observer/market_pulse_observer.py:553-571 | With history, the result is the titles at the first five positions whose trend's own topics share a topic with the new topics, in increasing position order. |
| MarketPulse.SignalStrength | skills/market_pulse_observer/market_pulse_observer.py:573-602 | The strength is an integer in [1, 5]. |
| MarketPulse.CalculateSignalStrength | skills/market_pulse_observer/market_pulse_observer.py:573-602 | The accumulating score gives `SignalStrength`, and it never exceeds 4. |
| MarketPulse.RecurringBonusNeverFires | skills/market_pulse_observer/market_pulse_observer.py:596-600 | The recurring bonus never applies, because no recurring count reaches 3. |
| MarketPulse.HalfPointTruncated | skills/market_pulse_observer/market_pulse_observer.py:578-602 | Eleven trends from one source on a first run score 1.5 points, which `int` truncates to 1. |
| MarketPulseReport.Bar | skills/market_pulse_observer/market_pulse_observer.py:677 | The heat bar is `min(count, 10)` block characters. |
| MarketPulseReport.PadRight | skills/market_pulse_observer/market_pulse_observer.py:678 | `{topic:30s}` is the topic followed by spaces up to width 30, and it never cuts the topic. |
| MarketPulseReport.HeatLineColumn | skills/market_pulse_observer/market_pulse_observer.py:676-678 | A heat line starts with the topic, padded with spaces to a column at least 30 wide, then one space. |
| MarketPulseReport.HeatLineBar | skills/market_pulse_observer/market_pulse_observer.py:676-678 | After the column come exactly `min(count, 10)` blocks, then the count in brackets. |
| MarketPulseReport.GenerateReport | skills/market_pulse_observer/market_pulse_observer.py:645-706 | The report is the reference lines joined by line feeds. |
| MarketPulseReport.ShiftLines | skills/market_pulse_observer/market_pulse_observer.py:665-670 | The shift section, one bullet per shift, present only when there are shifts. |
| MarketPulseReport.HeatMapLines | skills/market_pulse_observer/market_pulse_observer.py:673-679 | The heat-map section, one heat line per topic, present only when there are recurring topics. |
| MarketPulseReport.FirstLines | skills/market_pulse_observer/market_pulse_observer.py:682-687 | The first-appearance section, numbered from 1, present only when there are first appearances. |
| MarketPulseReport.DetailLines | skills/market_pulse_observer/market_pulse_observer.py:690-701 | The detail section: one block per source, in first-occurrence order. |
| MarketPulseReport.GroupBySource | skills/market_pulse_observer/market_pulse_observer.py:692-694 | `by_source` maps each source that occurs to its trends in order, and its keys follow the order in which the sources first occur. |
| MarketPulseReport.BlockLines | skills/market_pulse_observer/market_pulse_observer.py:696-701 | A source block is the source name, then its first ten trends numbered from 1, each followed by its link when it has one. |
| MarketPulseReport.SourceBlockSize | skills/market_pulse_observer/market_pulse_observer.py:696-701 | A source block lists at most 10 trends: it has `1 + min(n, 10)` lines plus one per linked trend, and at most `1 + 2 * min(n, 10)`. |
| MarketPulseReport.GroupingPartitions | skills/market_pulse_observer/market_pulse_observer.py:692-696 | The groups neither lose nor repeat a trend: their sizes add up to the number of trends. |
| MarketPulseReport.OfSourceMembers | skills/market_pulse_observer/market_pulse_observer.py:692-694 | Every trend in a group is one of the trends and has that group's source. |
| MarketPulseReport.ReportLinesClassified | skills/market_pulse_observer/market_pulse_observer.py:645-706 | Every report line is plain text or the heading of a section that is present. |
| MarketPulseReport.HeadingInReport | skills/market_pulse_observer/market_pulse_observer.py:645-706 | A section heading appears in the report only as the heading of a present section. |
| MarketPulseReport.ShiftSectionPresentIff | skills/market_pulse_observer/market_pulse_observer.py:665-670 | The narrative-shift heading appears iff there are shifts. |
| MarketPulseReport.HeatSectionPresentIff | skills/market_pulse_observer/market_pulse_observer.py:673-679 | The heat-map heading appears iff there are recurring topics. |
| MarketPulseReport.FirstSectionPresentIff | skills/market_pulse_observer/market_pulse_observer.py:682-687 | The first-appearance heading appears iff there are first appearances. |
| MarketPulseReport.NormalizeSources | skills/market_pulse_observer/market_pulse_observer.py:736-772 | Without playwright the fixed error is returned. The observer goes on iff playwright is available and the argument is `None`, a dict, a non-JSON string or a JSON object. A dict is used as is. Any other value, given directly or parsed from JSON, gives the error naming its type. |
| MarketPulseReport.DefaultsPickTwo | skills/market_pulse_observer/market_pulse_observer.py:743-748 | `sources=None` gives the default flags, which select X and the financial news but not the AI media. |
| MarketPulseReport.SingleNamePicksOne | skills/market_pulse_observer/market_pulse_observer.py:751-766 | A string that is not JSON turns on exactly the source equal to its lower-cased value. |
| MarketPulseReport.CollectKeepsOrder | skills/market_pulse_observer/market_pulse_observer.py:785-817 | The result is exactly the trends of the collectors that the flags want and that returned, each collector's trends in one piece, in the order X, financial news, AI media. A collector that is switched off, or that raised, contributes nothing. |

## Left out

- File and network I/O is not modelled:
  - the LLM providers (`src/core/llm.py`) are an oracle function;
  - `SkillManager.execute_skill` is not defined in `src/core/skill_manager.py`, so it is an oracle from (step index, tool name, arguments) to a result or an exception;
  - the experience file read by the agent's constructor is dropped, and the system prompt is a parameter;
  - directory walking (`rglob`) and JSON/YAML parsing of skill files become a list of already-parsed files;
  - the Playwright collectors are modelled as optional trend lists; a browser that fails to start is modelled as all three collectors raising;
  - loading and saving the history, and writing the report file, are left out;
  - logging and `print` are left out.
- The progress callback is assumed not to raise. Its calls are modelled as the list of events the agent returns.
- Agent.JessitAgent.ChatWithTools: the `tool_result` message carries the result dictionary itself rather than its `str()` rendering. Python's container `repr` is not modelled.
- Controller.ExecuteStep / Controller.ExecuteType: a list or dictionary in a message is rendered as the placeholder `[...]` or `{...}`, not as Python's `repr`. This affects an unknown `type` that is a container (`未知的操作类型: ['click']` in the source) and the action of a list text (`输入文本: ['a', 'b']...`). The same holds for the coordinates and keys quoted in the other actions. Strings, integers, booleans and `None` are rendered as Python's `str()` renders them.
- The local `tool_results` list in the tool loop is never read by the source and is not modelled.
- `clear_context`, `get_context_messages` and `reload_skills` of the agent are one-line delegations to the modelled `Clear`, `GetMessages` and `Reload`, and they have no members of their own.
- Context.ConversationContext.constructor: requires `max_history >= 1`. With 0, the source's slice `[-0:]` keeps every message, so no bound holds. The creation timestamp of a message is not modelled.
- `src/ui/confirmation.py` is not part of this model: it is a cross-thread handshake, and the agent never calls it. The rest of `chat_window.py` (widgets, threads, panel rendering) is not modelled either.
- In the chat window, the record set by `complete`/`error` is the very dictionary the agent keeps. That aliasing is not modelled, because the agent no longer changes the dictionary once the terminal event is sent.
- Unicode:
  - case folding in `re.IGNORECASE`, `.lower()` and the path aliases is ASCII-only;
  - `\w` is taken as ASCII letters, digits, `_` and the CJK block U+4E00 to U+9FFF;
  - `\s` and `str.strip()` use a fixed whitespace set.
- `os.path.expandvars`, `expanduser` and `absolute()` in the fallback of `resolve_path` are not modelled. The fallback result is the input after `~` replacement.
- Python set iteration order and `Counter.most_common` tie order are modelled as first-occurrence order. Properties that depend on a particular order are not claimed.
- Floating point in `calculate_signal_strength` is modelled exactly in half points. `TrendAnalyzer` sentiment fields and the `AnalysisResult` fields not used by the report text are left out.
- The device calls of the step executor (pyautogui/pydirectinput, `time.sleep`) are recorded, not performed. Their timing arguments (`interval`, `duration`) are dropped. Exceptions are not modelled when they come from the device library itself, or from the arithmetic before it (`range(presses)`, `x2 - x1`). Only the exceptions that the argument types cause in the `type` handler are.
- Controller.ExecuteType: the dictionary-slice error is modelled with its Python 3.11 message, `unhashable type: 'slice'`. Python 3.12 raises `KeyError` there instead.
- `market_pulse_observer` after collection is left out: the no-trends error, the analysis pipeline wiring, saving and reporting. The pieces it calls are modelled.
- The screenshot, LLM and thread orchestration of `desktop_automation.py` are left out. Only `_extract_json_from_response` is modelled.
- Floats: the dynamic value has no float, so float coordinates, `dx: 0.0` and float tool arguments cannot be expressed.
- Agent.RunCalls: a tool-use reply is always well formed, with every call carrying an `id`, a `name` and an `input`. In the source, a missing `tool_calls`, `name`, `input` or `id` raises `KeyError` and ends the turn through the exception terminal. The analysis text's `未知工具` for a missing name is not reachable in the model.
- Agent.RunCalls: a skill result is always a dictionary. In the source, a result of another type makes `result.get` raise.
- Skills.LoadSkillFile: every field of a skill file is typed. A null or wrong-typed field cannot be expressed. In particular, a YAML `enabled:` with no value makes the source skip the skill, while the model can only read it as absent, which loads the skill.
