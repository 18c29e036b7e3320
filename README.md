# Crop-chat agent core, modelled in Dafny

This project models the core of a conversational farming assistant. A chat
request runs through a fixed workflow of nine nodes: chat history, triage,
farmer profile, sensors, weather, crop health, disease risk, lifecycle plan and
response. The nodes thread one shared state dictionary, and the conversation is
kept in an in-memory history store. Four pieces are modelled:

- **Chat-history store** (`HistoryTool`, `history.dfy`): the process-wide
  dictionary from `user_id + ":" + session_id` to a list of `{user, agent}`
  turns. `Store` is a class whose `logs` map is updated in place by
  `SaveChatTurn`. Reading the last `limit` turns (with Python's `[-limit:]`
  slice semantics for every integer `limit`) and rendering to prompt text are
  functions.
- **Response cleaner** (`ResponseCleaner`, `cleaner.dfy`): `clean_response` is
  written as a method with the source's loop over `splitlines()`. It is proved
  equal to the specification function `Clean`. The lemmas prove the output
  invariants: no `*`, no line break, no case-insensitive `Action:`, stripped.
  `splitlines()` is `SplitLines` in `cleaner.dfy`, and the case-insensitive
  match of `Action:` is `ActionCharAt` there. `str.strip`, `str.isspace` and
  `join` are in `TextUtil` (`text.dfy`), as are `lower` and substring `in`,
  which the triage node and the crop lookup use.
- **Workflow graph** (`WorkflowGraph`, `graph.dfy`): the nodes and edges that
  `_build_graph` declares, and each node's read and write footprint on the
  state. The lemmas cover the graph's shape: it is acyclic, every node lies on
  a path from the entry to `response`, and the fan-in points are as declared.
  They also show that each produced field has exactly one writer, and that
  every field a node reads comes from the initial state or from an ancestor.
- **State threading** (`Orchestrator`, `orchestrator.dfy`): the `State`
  dictionary, `_append_trace`, each node's defaulting rules and effect, and one
  run. `RunGraph` is a loop that applies the nodes in a topological order, each
  replacing the shared state. It is proved equal to `Expected`, the dataflow
  computed directly from the inputs. `RunLangGraphWorkflow` drives it against
  the history store. LLM replies and the profile, sensor and weather tools are
  uninterpreted functions in `Env`.
- **Crop-requirements lookup** (`KnowledgeBase`, `knowledge.dfy`):
  `get_crop_requirements` as a case-insensitive substring dispatch over three
  constant answers, with "corn" tested first.

`Wrappers` (`wrappers.dfy`) holds `Option` and `Result`.

### Behaviour of the code worth knowing

- The response node does not run `clean_response` on its reply.
  `orchestrator.py` never calls it, so the model's response node stores the raw
  reply.
- Cleaning `"- **Action:** do X\n- Point one\n* Point two"` returns `""`.
  The lines are joined into one line before `Action:.*` is removed, so the
  removal reaches the end of the whole reply. `BoldActionExample` and
  `BoldActionFirstClearsAll` prove this.
- History entries are `{user, agent}` turns, in insertion order, and retrieval
  is the list slice `[-limit:]`.
- Triage produces one lower-cased token, the first word of the reply.
- A blank triage reply raises, and so does a missing subscripted key. Either
  one ends the run (`Failure`).
- Trace entries are the nodes' notes: `history_loaded`, `intent=<x>`,
  `profile`, and so on.

## Model

| member | source | states |
|---|---|---|
| `TextUtil.Strip` | server/utils/response_cleaner.py:6 | `str.strip()`: the result is the infix left after removing whitespace at both ends; everything removed is whitespace, the result's ends are not, and it is empty exactly when the input is all whitespace |
| `TextUtil.Lower` | server/agents/agent_roles.py:53 | `str.lower()`: same length, each character lower-cased (ASCII letters) |
| `TextUtil.FirstWord` | server/agents/orchestrator.py:54 | `split()[0]`: absent exactly when the text is all whitespace; otherwise a non-empty whitespace-free word found right after the leading whitespace and ending at whitespace or at the end |
| `TextUtil.HasSubstring` | server/agents/agent_roles.py:53 | the executable `p in s` holds exactly when `p` occurs somewhere in `s` |
| `TextUtil.FirstWordOfLower` | server/agents/orchestrator.py:54 | a word taken from lower-cased text has no ASCII capitals |
| `TextUtil.StripUnchanged` | server/utils/response_cleaner.py:6 | `str.strip()` leaves a non-empty text whose first and last characters are not whitespace unchanged |
| `TextUtil.FirstWordOfInfix` | server/agents/orchestrator.py:54 | `split()` ignores whitespace around the text: an infix that drops only whitespace at both ends has the same first word as the whole |
| `TextUtil.FirstWordOfLowerStrip` | server/agents/orchestrator.py:54 | stripping before lower-casing does not change the first word: `strip().lower().split()[0]` and `lower().split()[0]` agree, including when there is none |
| `HistoryTool.Key` | server/agents/tools/history_tool.py:7 | `f"{user_id}:{session_id}"` (no contract of its own; `KeyParts` states its layout) |
| `HistoryTool.KeyParts` | server/agents/tools/history_tool.py:7 | the key is the user id, then `:` at index `len(user_id)`, then the session id |
| `HistoryTool.SliceFrom` | server/agents/tools/history_tool.py:8 | Python's `xs[start:]` for every integer `start` (no contract of its own; `LastTurns` states what the slice `[-limit:]` gives for every limit) |
| `HistoryTool.LogOf` | server/agents/tools/history_tool.py:8 | `dict.get(key, [])`: the key's list, or `[]` for a key never saved (no contract of its own; `UnsavedKeyReadsEmpty` and `Appended` state what it gives) |
| `HistoryTool.LastTurns` | server/agents/tools/history_tool.py:8 | `log[-limit:]` is a suffix of the log: `min(limit, n)` turns for `limit >= 1`, the whole log for `limit == 0`, and `n - min(-limit, n)` turns for a negative limit |
| `HistoryTool.Appended` | server/agents/tools/history_tool.py:10-15 | saving adds the key if absent, puts the turn at the end of that key's list, and leaves every other key's list unchanged |
| `HistoryTool.Store.constructor` | server/agents/tools/history_tool.py:4 | the store starts as the empty dictionary |
| `HistoryTool.Store.GetChatHistory` | server/agents/tools/history_tool.py:6-8 | a never-saved pair reads as `[]`; otherwise the read is the tail slice of the pair's list |
| `HistoryTool.Store.SaveChatTurn` | server/agents/tools/history_tool.py:10-15 | the map field gains `{user, agent}` at the end of the key's list, the key set gains the key, and every other key keeps its list |
| `HistoryTool.UnsavedKeyReadsEmpty` | server/agents/tools/history_tool.py:8 | a key that was never saved reads as the empty list for every limit |
| `HistoryTool.PositiveLimitIsTail` | server/agents/tools/history_tool.py:8 | with `limit >= 1` the read is the last `min(limit, n)` turns in insertion order, oldest first |
| `HistoryTool.NegativeLimitDropsFront` | server/agents/tools/history_tool.py:8 | a negative limit drops `-limit` turns from the front instead of keeping a tail |
| `HistoryTool.SaveThenRead` | server/agents/tools/history_tool.py:8-15 | after a save, a read with `limit >= 1` ends with the saved turn; it grows by one until the limit caps it |
| `HistoryTool.SaveLeavesOtherKeys` | server/agents/tools/history_tool.py:10-15 | a save leaves every read of another key unchanged |
| `HistoryTool.KeysCollide` | server/agents/tools/history_tool.py:7-11 | the distinct pairs `("a:b", "c")` and `("a", "b:c")` share one key and so one log |
| `HistoryTool.KeyInjectiveWithoutColon` | server/agents/tools/history_tool.py:7-11 | when user ids contain no `:`, the key determines the `(user, session)` pair |
| `HistoryTool.RenderHistory` | server/agents/tools/history_tool.py:17-19 | `"\n".join` of the rendered turns (no contract of its own; `RenderEmptyIff`, `RenderSnoc`, `RenderExtends` and `RenderNotInjective` state its behaviour) |
| `HistoryTool.RenderedTurns` | server/agents/tools/history_tool.py:19 | the comprehension renders each turn, in list order, as `"User: <u>\nAgent: <a>"` |
| `HistoryTool.RenderEmptyIff` | server/agents/tools/history_tool.py:17-19 | the rendering is `""` exactly for the empty history, and otherwise starts with `"User: "` |
| `HistoryTool.RenderSnoc` | server/agents/tools/history_tool.py:17-19 | rendering a history with one more turn appends `"\n"` and that turn's text |
| `HistoryTool.RenderExtends` | server/agents/tools/history_tool.py:17-19 | rendering two consecutive parts of a history joins their renderings with one `"\n"` |
| `HistoryTool.RenderNotInjective` | server/agents/tools/history_tool.py:17-19 | two different histories can render to the same text when a message contains `"\nAgent: "` |
| `ResponseCleaner.SplitLines` | server/utils/response_cleaner.py:5 | `splitlines()` yields lines that contain no line-boundary character; the four lemmas below fix the split of every text |
| `ResponseCleaner.SplitLinesEmpty` | server/utils/response_cleaner.py:5 | the empty text has no lines |
| `ResponseCleaner.SplitLinesLast` | server/utils/response_cleaner.py:5 | a non-empty text without a boundary is one line |
| `ResponseCleaner.SplitLinesBreak` | server/utils/response_cleaner.py:5 | each of the ten boundary characters of `splitlines()` (those of `IsLineBoundary`) (`\r` when no `\n` follows it) ends the first line, and the split goes on after it |
| `ResponseCleaner.SplitLinesCrLf` | server/utils/response_cleaner.py:5 | `"\r\n"` is one boundary: it ends one line and no empty line comes between |
| `ResponseCleaner.BulletRun` | server/utils/response_cleaner.py:9 | the leading run matched by `[\*\-\â€¢]+` is maximal and made only of the class's characters |
| `ResponseCleaner.StripBullet` | server/utils/response_cleaner.py:9 | `re.sub(r"^[\*\-\â€¢]+\s*", "", line)`: the result is a suffix of the line; without a leading bullet run the line is unchanged; otherwise the whole maximal run and then only whitespace is removed, and the result does not start with whitespace |
| `ResponseCleaner.DeleteStars` | server/utils/response_cleaner.py:10 | `re.sub(r"\*+", "", line)` leaves no `*` and keeps exactly the other characters |
| `ResponseCleaner.FindAction` | server/utils/response_cleaner.py:16 | finds the first index where a case-insensitive `Action:` starts, or reports that there is none |
| `ResponseCleaner.BeforeAction` | server/utils/response_cleaner.py:16 | the prefix of the text before the first case-insensitive `Action:`: it is the whole text or ends exactly where an `Action:` starts, no `Action:` starts inside it, and it contains none |
| `ResponseCleaner.RemoveActions` | server/utils/response_cleaner.py:16 | `re.sub(r"Action:.*", "", s, flags=re.I)` (no contract of its own; `RemoveActionsOneLine` and `CleanIsStrippedPrefix` state what it gives) |
| `ResponseCleaner.CleanedLines` | server/utils/response_cleaner.py:4-11 | the loop's `lines` (no contract of its own; `CleanedLinesHead`, `CleanedLinesSnoc` and `CleanHasNoStar` state what it holds) |
| `ResponseCleaner.CleanedLinesSnoc` | server/utils/response_cleaner.py:5-11 | one more raw line adds its cleaned form at the end of `lines` when it is not blank after stripping, and nothing when it is |
| `ResponseCleaner.Joined` | server/utils/response_cleaner.py:13 | `" ".join(lines)` (no contract of its own; `JoinedStartsWithFirstLine` and `CleanHasNoLineBoundary` state what it gives) |
| `ResponseCleaner.Clean` | server/utils/response_cleaner.py:3-18 | `clean_response` as a function (no contract of its own; the `Clean…` lemmas and `CleanResponse` state its properties) |
| `ResponseCleaner.CleanResponse` | server/utils/response_cleaner.py:3-18 | the loop computes `Clean(text)`; the output has no `*`, no line break and no case-insensitive `Action:`, and has no whitespace at either end |
| `ResponseCleaner.RemoveActionsOneLine` | server/utils/response_cleaner.py:13-16 | on text without `"\n"`, the `Action:.*` substitution keeps exactly what precedes the first match |
| `ResponseCleaner.CleanHasNoStar` | server/utils/response_cleaner.py:9-10 | the output contains no `*` |
| `ResponseCleaner.CleanHasNoLineBoundary` | server/utils/response_cleaner.py:5-13 | the output contains no line-break character |
| `ResponseCleaner.CleanIsStrippedPrefix` | server/utils/response_cleaner.py:13-16 | the output is the stripped prefix of the joined text before its first case-insensitive `Action:` |
| `ResponseCleaner.CleanHasNoAction` | server/utils/response_cleaner.py:16 | the output contains no case-insensitive `Action:` anywhere |
| `ResponseCleaner.CleanIsTrimmed` | server/utils/response_cleaner.py:16-18 | the output has no leading or trailing whitespace |
| `ResponseCleaner.CleanEmpty` | server/utils/response_cleaner.py:4-18 | empty input gives `""` |
| `ResponseCleaner.BulletOnlyLineKeptEmpty` | server/utils/response_cleaner.py:3-18 | for plain lines `a` and `b` and a bullet character `c`, `clean_response(a + "\n" + c + "\n" + b)` is `a + "  " + b`: the bullet-only line survives the blank-line test and becomes an empty segment, which gives a double space in the join (for example `"x\n-\ny"` cleans to `"x  y"`) |
| `ResponseCleaner.StripBulletRemovesOneRun` | server/utils/response_cleaner.py:9 | only one leading run is removed: `"- - x"` becomes `"- x"` |
| `ResponseCleaner.StripBulletAgain` | server/utils/response_cleaner.py:9-10 | the per-line cleaning of `"- x"` gives `"x"` |
| `ResponseCleaner.CleanNotIdempotent` | server/utils/response_cleaner.py:3-18 | `clean_response("- - x")` is `"- x"`, and cleaning that again gives `"x"`: the cleaning is not idempotent |
| `ResponseCleaner.BulletClassAsSpelled` | server/utils/response_cleaner.py:9 | the class is `*`, `-`, U+00E2, U+20AC, U+00A2: a real bullet U+2022 is kept, while a leading U+00E2 is stripped |
| `ResponseCleaner.CleanedLinesHead` | server/utils/response_cleaner.py:5-11 | a first raw line that is not blank becomes the first cleaned line |
| `ResponseCleaner.LeadingActionClearsAll` | server/utils/response_cleaner.py:13-16 | when the joined text starts with `Action:`, the output is `""` |
| `ResponseCleaner.BoldActionFirstClearsAll` | server/utils/response_cleaner.py:5-16 | a reply whose first line is `- **Action:**…` cleans to `""`, whatever lines follow |
| `ResponseCleaner.BoldActionExample` | server/utils/response_cleaner.py:3-18 | `"- **Action:** do X\n- Point one\n* Point two"` cleans to `""` |
| `WorkflowGraph.Reads` | server/agents/orchestrator.py:37-154 | the state keys each node function reads (no contract of its own; `ReadsComeFromAncestors`, `ReadsAvailableInOrder` and `StepReadsOnly` state what it means) |
| `WorkflowGraph.Writes` | server/agents/orchestrator.py:37-154 | the state keys each node function assigns (no contract of its own; `UniqueWriters` and `StepFootprint` state what it means) |
| `WorkflowGraph.NodesAreDistinct` | server/agents/orchestrator.py:160-169 | the nine registered nodes are all the nodes, each once, under distinct names |
| `WorkflowGraph.EdgesGoForward` | server/agents/orchestrator.py:171-183 | every declared edge goes forward in the run order, so that order is topological |
| `WorkflowGraph.PathClimbs` | server/agents/orchestrator.py:171-183 | along any walk the rank in the run order grows by at least one per edge |
| `WorkflowGraph.Acyclic` | server/agents/orchestrator.py:171-183 | no walk of one or more edges returns to its start |
| `WorkflowGraph.PathsAreShort` | server/agents/orchestrator.py:171-183 | no walk visits more than nine nodes |
| `WorkflowGraph.EntryHasNoUpstream` | server/agents/orchestrator.py:171-183 | the entry is `chat_history`, which has no upstream and no ancestor |
| `WorkflowGraph.AllNodesOnEntryToExitPaths` | server/agents/orchestrator.py:171-183 | every node is reachable from the entry and reaches `response` |
| `WorkflowGraph.ResponseIsTheOnlyExit` | server/agents/orchestrator.py:180-183 | `response` has an edge to `END`; it is the only node with one, and it has no other outgoing edge |
| `WorkflowGraph.FanIn` | server/agents/orchestrator.py:176-182 | `response` has exactly the upstreams crop health, disease prediction and lifecycle planning; `disease_prediction` has exactly sensor data and weather |
| `WorkflowGraph.UniqueWriters` | server/agents/orchestrator.py:37-154 | every field outside the initial state is written by exactly one node, and no node assigns an initial field |
| `WorkflowGraph.UnreadFields` | server/agents/orchestrator.py:37-154 | `intent` and `history` are written but read by no node |
| `WorkflowGraph.ReadsComeFromAncestors` | server/agents/orchestrator.py:37-183 | every field a node reads is in the initial state or is written by a proper graph ancestor of that node |
| `WorkflowGraph.ReadsAvailableInOrder` | server/agents/orchestrator.py:37-183 | in the sequential run order, every field a node reads is initial or written by an earlier node |
| `Orchestrator.LookupDetermines` | server/agents/orchestrator.py:13-27 | the record of optional slots is faithful to the dictionary: two states with the same key-to-value view are equal |
| `Orchestrator.CropOf` | server/agents/orchestrator.py:78-79 | the crop is the first element of `crops`, or `"unknown crop"` when crops are missing or empty |
| `Orchestrator.LocationOf` | server/agents/orchestrator.py:71 | the location is the profile's `location`, or `"Unknown"` when the profile or the key is missing |
| `Orchestrator.HistoryPrompt` | server/agents/orchestrator.py:39-41 | an empty history is summarised from `"No prior messages."`, and any other history from its rendering |
| `Orchestrator.AppendTrace` | server/agents/orchestrator.py:29-33 | `trace`, created if absent, gains exactly the note at its end; every other key keeps its value |
| `Orchestrator.IntentOf` | server/agents/orchestrator.py:53-56 | the intent token of a triage reply, absent when the reply is blank (no contract of its own; the three `Intent…` lemmas below state it) |
| `Orchestrator.IntentMatchesSource` | server/agents/orchestrator.py:54 | the intent the model takes, the first word of the lower-cased reply, is exactly `reply.strip().lower().split()[0]` |
| `Orchestrator.IntentBlankIff` | server/agents/orchestrator.py:53-54 | there is no intent (the node raises) exactly when the triage reply is all whitespace |
| `Orchestrator.IntentIsWord` | server/agents/orchestrator.py:54-56 | an intent is a non-empty word with no whitespace and no ASCII capitals |
| `Orchestrator.Initial` | server/agents/orchestrator.py:189 | the initial state holds exactly `user_id`, `session_id`, `message` and an empty `trace` |
| `Orchestrator.FinalOrFallback` | server/agents/orchestrator.py:191 | the result is `final_response` if set, else `"Sorry, something went wrong."` |
| `Orchestrator.HistoryReadIsStoreRead` | server/agents/orchestrator.py:38 | the chat-history node's read of the world's store is the store's `get_chat_history` with `limit=20` |
| `Orchestrator.ChatHistoryNode` | server/agents/orchestrator.py:37-45 | `chat_history_node` (no contract of its own; `ChatHistoryFootprint` states its effect) |
| `Orchestrator.FarmerInteractionNode` | server/agents/orchestrator.py:48-57 | `farmer_interaction_node` (no contract of its own; `FarmerInteractionFootprint` and `StepFails` state it) |
| `Orchestrator.FarmerProfileNode` | server/agents/orchestrator.py:59-62 | `farmer_profile_node` (no contract of its own; `FarmerProfileFootprint` states its effect) |
| `Orchestrator.SensorDataNode` | server/agents/orchestrator.py:65-68 | `sensor_data_node` (no contract of its own; `SensorDataFootprint` states its effect) |
| `Orchestrator.WeatherNode` | server/agents/orchestrator.py:70-74 | `weather_node` (no contract of its own; `WeatherFootprint` states its effect) |
| `Orchestrator.CropHealthNode` | server/agents/orchestrator.py:76-99 | `crop_health_node` (no contract of its own; `CropHealthFootprint` states its effect) |
| `Orchestrator.DiseasePredictionNode` | server/agents/orchestrator.py:103-115 | `disease_prediction_node` (no contract of its own; `DiseasePredictionFootprint` states its effect) |
| `Orchestrator.LifecyclePlanningNode` | server/agents/orchestrator.py:118-133 | `lifecycle_planning_node` (no contract of its own; `LifecyclePlanningFootprint` states its effect) |
| `Orchestrator.ResponseNode` | server/agents/orchestrator.py:137-154 | `response_synthesizer_node` (no contract of its own; `ResponseFootprint` states its effect) |
| `Orchestrator.Step` | server/agents/orchestrator.py:37-169 | runs the node registered under a name, a raised `KeyError` or `IndexError` becoming a `Failure` (no contract of its own; `StepFails`, `StepFootprint` and `StepReadsOnly` state it) |
| `Orchestrator.StepFails` | server/agents/orchestrator.py:37-154 | a node raises exactly when a key it subscripts is missing (the first such key, in reading order) or, for triage, when the reply is blank |
| `Orchestrator.StepFootprint` | server/agents/orchestrator.py:29-154 | a node that succeeds sets every key it writes and keeps every other key but `trace`; it appends its one note to `trace`; only `response` changes the store, by saving `{message, final_response}` under the session key |
| `Orchestrator.ChatHistoryFootprint` | server/agents/orchestrator.py:37-45 | `chat_history` sets `history` and `history_summary`, keeps everything else, and appends `history_loaded` |
| `Orchestrator.FarmerInteractionFootprint` | server/agents/orchestrator.py:48-57 | triage sets `intent`, keeps everything else, and appends `intent=<intent>` |
| `Orchestrator.FarmerProfileFootprint` | server/agents/orchestrator.py:59-62 | the profile node sets only `profile` and appends `profile` |
| `Orchestrator.SensorDataFootprint` | server/agents/orchestrator.py:65-68 | the sensor node sets only `sensors` and appends `sensors` |
| `Orchestrator.WeatherFootprint` | server/agents/orchestrator.py:70-74 | the weather node sets only `weather` and appends `weather` |
| `Orchestrator.CropHealthFootprint` | server/agents/orchestrator.py:76-99 | crop health sets only `crop_analysis` and appends `crop_analysis` |
| `Orchestrator.DiseasePredictionFootprint` | server/agents/orchestrator.py:103-115 | disease prediction sets only `disease_risk` and appends `disease_risk` |
| `Orchestrator.LifecyclePlanningFootprint` | server/agents/orchestrator.py:118-133 | lifecycle planning sets only `plan` and appends `plan` |
| `Orchestrator.ResponseFootprint` | server/agents/orchestrator.py:137-154 | the response node sets only `final_response`, appends `final`, and saves the turn `{message, final_response}` under the session key |
| `Orchestrator.StepReadsOnly` | server/agents/orchestrator.py:37-154 | what a node does depends only on the fields it reads and the store: two states that agree on those give the same error, or the same values under the written keys and the same store |
| `Orchestrator.WorkflowIsDataflow` | server/agents/orchestrator.py:157-191 | the sequential run of the nine nodes equals the dataflow computed directly from the inputs, with each value taken from the node that produces it and no default ever used |
| `Orchestrator.FullTraceFollowsOrder` | server/agents/orchestrator.py:29-154 | a full run's trace has nine notes, the i-th being that of the i-th node run |
| `Orchestrator.Expected` | server/agents/orchestrator.py:37-191 | the dataflow computed directly from the inputs, each value taken from the node that produces it (no contract of its own; `ExpectedPromise` states it, and `WorkflowIsDataflow` ties it to the run) |
| `Orchestrator.ExpectedPromise` | server/agents/orchestrator.py:186-191 | the dataflow fails only on a blank triage reply; otherwise it sets every state key, records nine notes in execution order and saves exactly one turn |
| `Orchestrator.RunOutcome` | server/agents/orchestrator.py:186-191 | every sequential run keeps that promise, so a successful run never returns the fallback text |
| `Orchestrator.RunGraph` | server/agents/orchestrator.py:184-190 | the loop that applies the nodes in topological order, stopping at the first raise, computes exactly the dataflow `Expected` |
| `Orchestrator.RunLangGraphWorkflow` | server/agents/orchestrator.py:188-191 | the reply is `final_response` (or the fallback), and the store gains exactly the saved turn; a run that raises returns its error and leaves the store unchanged |
| `KnowledgeBase.GetCropRequirements` | server/agents/agent_roles.py:48-58 | the corn answer exactly when the lower-cased name contains "corn"; the wheat answer exactly when it contains "wheat" but not "corn"; otherwise the no-data answer; always one of the three constants |
| `KnowledgeBase.AnswersDistinct` | server/agents/agent_roles.py:53-58 | the three answers are different strings |
| `KnowledgeBase.CornBeforeWheat` | server/agents/agent_roles.py:53-56 | `"corn and wheat"` gets the corn answer, because corn is tested first |
| `KnowledgeBase.SubstringNotWord` | server/agents/agent_roles.py:53-56 | matching is by substring: `"Popcorn"` gets the corn answer and `"Buckwheat"` the wheat answer |
| `KnowledgeBase.IgnoresCase` | server/agents/agent_roles.py:53-56 | `"CORN"` and `"Wheat"` are recognised |
| `KnowledgeBase.UnknownCrop` | server/agents/agent_roles.py:57-58 | a name with neither crop, like `"rice"`, gets the no-data answer |

## Left out

- LLM calls (`llm.ainvoke`, the `ChatGoogleGenerativeAI` client) and all prompt text. A reply is `Env.llm` applied to a `Prompt`, which is the sending node plus the values interpolated into it.
- The profile, sensor and weather tools. They return fixed records with wall-clock timestamps and random readings. Their results are the uninterpreted `Env.profileOf`, `Env.sensorsOf` and `Env.weatherAt`; only a profile's `location` and `crops` keys are modelled.
- The market-price tool (HTTP), the FastAPI route, start-up configuration, and the crewai agent and task definitions: these are I/O or framework configuration. `SensorTools.get_latest_sensor_data` returns a constant.
- Asynchronous execution, and how langgraph schedules parallel branches and merges the state dictionaries they return. The model runs the nodes one at a time in a topological order of the declared edges. `sensor_data` and `weather` are parallel branches, and each returns the whole state dictionary; what langgraph's merge of those two returns produces, or whether it rejects them as concurrent updates, is not modelled, so `RunOutcome`, `ExpectedPromise` and `RunLangGraphWorkflow` describe the sequential run only. The langgraph library is not part of this model.
- Exceptions raised by the LLM or by the tools. The modelled failures are a missing subscripted key (`KeyError`) and a blank triage reply (`IndexError`).
- Python's dynamic typing: the state holds each key at its annotated type. The Python `str()` rendering of dictionaries in prompts is not modelled.
- TextUtil.Lower: lower-cases ASCII letters only. Python's `str.lower` also lower-cases other letters. For the corn and wheat tests this changes nothing, because no non-ASCII character lower-cases into one of those letters. An intent token keeps its non-ASCII capitals.
