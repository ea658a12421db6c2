# aicli conversation engine — a Dafny model

This project models the conversation engine of `aicli`, a command-line AI agent. It also models
the command guards of the agent's git and shell tools.

The conversation engine is a small Redux-style store around an immutable `ConversationState`:

- **State** (`state.dfy`): messages, token usage, the context window and its fill ratio, and the
  state transitions `add_message`, `update_status`, `compact` and `update_metadata`.
- **Tokens** (`tokens.dfy`): the simple token counter (1.3 tokens per word, truncated, plus a
  2-token role framing, plus the rendered metadata and tool calls), and the cost of a message list.
- **Compaction** (`compaction.dfy`): the three compaction strategies (`chronological`,
  `semantic`, `tool_context`) and the compactor that looks them up by name. Each strategy is a
  function on the message list. The source's loops (the newest-first greedy scan, the
  important/regular split) are methods proved equal to those functions.
- **Context windows** (`contextwindows.dfy`): the `ContextWindowManager` class, which holds its
  counter, its default strategy and its compaction callbacks, computes the target
  `int(max_tokens * (1 - ratio))`, and reports utilization.
- **Reducing** (`reducing.dfy`): the conversation reducer, the validation and logging middleware,
  and the pipeline `_build_middleware_chain` builds from them.
- **State management** (`statemanagement.dfy`): the `StateManager` class, which holds the
  current state, its middleware and its subscribers, dispatches actions and notifies subscribers.
- **Conversations** (`conversations.dfy`): the `ConversationManager` façade. It charges every
  added message its own token cost and subscribes a handler that compacts the conversation
  whenever a change leaves it over the threshold. That handler dispatches from inside the
  notification, so dispatches nest; the model follows that recursion to a given depth.
- **Git tools** (`gittools.dfy`): the safe and dangerous subcommand sets, the parse and guard of
  `GitTool._run`, its report, and the analysis dispatch of `GitAnalysisTool._run`.
- **Shell tools** (`shelltools.dfy`): the `SafeShellTool` class (whitelist, danger patterns,
  guard order, output sections) and the test runner (framework check, output truncation, summary).

Supporting modules: `wrappers.dfy` (Option, Result), `pyseq.dfy` (Python slicing and list
comprehension filters), `pytext.dfy` (`str.split`, `str.strip`, `str.lower`, `in`, `join`, `str(n)`,
string order and `sorted` of a set of strings), `processes.dfy` (how a subprocess ended).

Floats are exact fractions. A dispatch made by the automatic-compaction handler reads the clock
one tick after the dispatch that triggered it. Clock readings, message ids, the outcome of a subprocess, and whether
a callback raises are all parameters. Callbacks and subscribers are handles (`nat`).

### Behaviour modelled as the code has it

Where the project's own description of the design and the code differ, the model follows the code:

- The token counter truncates, `int(words * 1.3)`. It does not round.
- The chronological strategy takes the recent window as `messages[-k:]`. For `k == 0` that slice
  is the whole list (`ChronologicalZeroRecent`).
- The system messages are collected from the whole list, and the recent window may contain some
  of them, so such a message is kept twice. A compaction can therefore cost more than its input
  (`ChronologicalRepeatsRecentSystem`, `ChronologicalCanGrow`). "Compaction never increases
  tokens" is proved only where it holds: when the system messages form a prefix
  (`ChronologicalSystemPrefix`), and outside the tool_context fallback (`ToolContextNeverGrows`).
- The middle slice is `messages[len(system):-k]`. It assumes the system messages come first;
  otherwise it can re-select a system message and skip older ones
  (`ChronologicalMisalignedMiddle`).
- The middleware list is meant to be applied first-outermost: with `[Validation, Logging]`,
  validation wraps logging, which wraps the reducer. `_build_middleware_chain` as written cannot
  run (see "Left out"); the pipeline is modelled as its loop evidently intends.
- `force_compaction` builds its report after its own dispatch. The "original messages" it reports
  are the state's messages after the compaction, and its `tokens_saved` reads the state after the
  compaction. When the compacted state needs no follow-up automatic compaction, the state after
  the call is exactly that compacted state, and the report gives the compacted list as the
  original and 0 tokens saved.
- No guard stops re-entrant automatic compaction. The model bounds the nesting by a `depth`
  parameter, which stands for the interpreter's recursion limit. The handler's dispatch reads the
  clock again, so its COMPACT_CONVERSATION always changes the update time and notifies the
  handler once more. A conversation the strategy cannot shrink compacts at every level until the
  bound is reached: one message of 200 words in a 200-token window is such a conversation
  (`ShortOverfullCompactsToItself`, and the last ensures of `Dispatch` and `AddMessage`).
- The tools' f-strings contain `\\n`, a literal backslash followed by `n`, not a newline. The
  model keeps those two characters.
- `SafeShellTool` checks the whitelist on the lower-cased first word, but it executes the words
  as given. A whitelist entry holding a capital letter can never match (`CapitalEntryNeverMatches`).
  The danger check is a plain substring search over the whole lower-cased command, so a file
  name that merely contains a pattern (`firewall.log`) blocks the command.

## Model

| member | source | states |
|---|---|---|
| State.CreateMessage | aicli/conversation/state.py:36-51 | a new message carries the given role, content and tool calls, the given id and clock reading; missing metadata becomes the empty dictionary |
| State.TokenUsage.Add | aicli/conversation/state.py:61-67 | each component of the sum exceeds the receiver's by the other usage's component |
| State.TokenUsageMonoid | aicli/conversation/state.py:61-67 | `add` is associative and commutative, and the zero usage is its identity |
| State.ContextWindow.Utilization | aicli/conversation/state.py:77-80 | utilization times `max_tokens` is `current_tokens` for a positive window; 0 otherwise |
| State.ContextWindow.NeedsCompaction | aicli/conversation/state.py:82-85 | compaction is needed iff `current * den >= num * max` for a positive window, and iff the threshold is at most 0 otherwise |
| State.CreateState | aicli/conversation/state.py:100-117 | a new state is active and empty, has a zero usage and a window of the given size holding 0 tokens, takes its metadata or `{}`, and is created and updated at the given time |
| State.ConversationState.AddMessage | aicli/conversation/state.py:119-134 | the message is appended; the count is added to both the total usage and the window; prompt and completion usage, window size and threshold are unchanged |
| State.ConversationState.UpdateStatus | aicli/conversation/state.py:136-142 | only the status and the update time change |
| State.ConversationState.Compact | aicli/conversation/state.py:144-154 | the messages and the window's count are replaced wholesale; window size, threshold and everything else outside the update time are unchanged |
| State.ConversationState.UpdateMetadata | aicli/conversation/state.py:156-163 | the key maps to the value, every other key keeps its presence and value, and nothing else outside the update time changes |
| Tokens.CountTokens | aicli/conversation/context_window.py:33-36 | the count is `floor(1.3 * words)`, and 0 exactly for text with no words |
| Tokens.MessageTokens | aicli/conversation/context_window.py:38-54 | a message costs at least its 2 framing tokens plus its content; exactly that when it has no metadata or tool calls |
| Tokens.TotalAppend | aicli/conversation/context_window.py:259-261 | the cost of a concatenation is the sum of the costs |
| Tokens.TotalPermutation | aicli/conversation/context_window.py:259-261 | reordering a message list does not change its cost |
| Tokens.SuffixCostsLess | aicli/conversation/context_window.py:259-261 | a suffix never costs more than its list |
| Tokens.SimpleTotalAtLeastFraming | aicli/conversation/context_window.py:38-54 | under the simple counter a list costs at least 2 tokens per message |
| Tokens.AddMessageKeepsAccounting | aicli/conversation/core.py:57-74 | charging a message its own cost keeps the window's count equal to the cost of the messages |
| Compaction.NewestFittingFits | aicli/conversation/context_window.py:159-168 | the greedy newest-first run fits the budget, unless it is empty |
| Compaction.NewestFittingMaximal | aicli/conversation/context_window.py:159-168 | unless every candidate was kept, adding the next older candidate would overflow the budget |
| Compaction.SelectNewestFitting | aicli/conversation/context_window.py:159-168 | the reversed scan with `insert(0, msg)` and `break` returns exactly the newest fitting run |
| Compaction.Chronological | aicli/conversation/context_window.py:132-133 | a list no longer than the recent window comes back unchanged |
| Compaction.ChronologicalShape | aicli/conversation/context_window.py:152-170 | with no budget left the result is system plus recent; otherwise system, the newest fitting middle run, recent |
| Compaction.ChronologicalCompaction | aicli/conversation/context_window.py:125-170 | the method returns the chronological strategy's list |
| Compaction.SemanticCompaction | aicli/conversation/context_window.py:172-181 | the semantic strategy returns exactly the chronological result |
| Compaction.ChronologicalKeepsRecent | aicli/conversation/context_window.py:141-170 | the result always ends with `messages[-k:]` |
| Compaction.ChronologicalNoBudget | aicli/conversation/context_window.py:152-155 | with no budget left, exactly the system and the recent messages survive |
| Compaction.ChronologicalFits | aicli/conversation/context_window.py:152-170 | with budget left after system and recent, the result fits the target |
| Compaction.SystemPrefix | aicli/conversation/context_window.py:136-139 | when the system messages are exactly the first `p`, the kept system block is that prefix |
| Compaction.ChronologicalSystemPrefix | aicli/conversation/context_window.py:136-170 | with the system messages as a prefix, the result is that prefix plus a contiguous tail, and never costs more than the input |
| Compaction.ChronologicalZeroRecent | aicli/conversation/context_window.py:142 | with `preserve_recent_messages == 0` every message is kept and the system messages twice |
| Compaction.ChronologicalRepeatsRecentSystem | aicli/conversation/context_window.py:136-170 | a system message that is also the newest message appears at least twice in the result |
| Compaction.ChronologicalCanGrow | aicli/conversation/context_window.py:112-121 | on two system messages with a recent window of 1, the result costs more than the input, so `tokens_saved` is negative |
| Compaction.ChronologicalMisalignedMiddle | aicli/conversation/context_window.py:158 | for `[user, system, user, user]` the middle re-selects the system message and drops the oldest user message though it fits |
| Compaction.InsertSorted | aicli/conversation/context_window.py:228 | inserting by timestamp keeps a list sorted |
| Compaction.SortByTimestampSpec | aicli/conversation/context_window.py:226-228 | the sort returns its input sorted by timestamp and as a permutation |
| Compaction.SortStable | aicli/conversation/context_window.py:228 | messages with equal timestamps keep their relative order, as Python's stable `sorted` does |
| Compaction.ToolContextOverShape | aicli/conversation/context_window.py:206-210 | when the important messages reach the target, the result is the chronological compaction of them alone |
| Compaction.ToolContextUnderShape | aicli/conversation/context_window.py:212-228 | otherwise the result is the sorted union of the important messages and the newest fitting regular run |
| Compaction.SplitImportant | aicli/conversation/context_window.py:190-199 | the classification loop puts each message in the important or the regular list, in order |
| Compaction.ToolContextCompaction | aicli/conversation/context_window.py:183-228 | the method returns the tool_context strategy's list |
| Compaction.ChronologicalKeepsProperty | aicli/conversation/context_window.py:125-170 | every message of a chronological result satisfies whatever every input message satisfies |
| Compaction.ToolContextOverBudget | aicli/conversation/context_window.py:206-210 | in the fallback every regular message is dropped and only important ones remain |
| Compaction.ToolContextUnderBudget | aicli/conversation/context_window.py:212-228 | the result is sorted by timestamp, is a permutation of the important plus the kept regular messages, fits the target, and keeps every important message |
| Compaction.SplitCost | aicli/conversation/context_window.py:190-204 | the important and the regular messages together cost what the whole list costs |
| Compaction.ToolContextNeverGrows | aicli/conversation/context_window.py:212-228 | outside the fallback the result never costs more than the input |
| Compaction.ApplyStrategy | aicli/conversation/context_window.py:90-110 | a strategy result exists exactly for a registered name |
| Compaction.Compact | aicli/conversation/context_window.py:98-121 | an unknown name fails with its message; otherwise the result carries the input, the strategy's list, the saved tokens as the difference of costs, and the name |
| ContextWindows.TruncDiv | aicli/conversation/context_window.py:288 | `int()` of a quotient truncates toward zero: bounds for non-negative and for negative numerators |
| ContextWindows.TargetWithinWindow | aicli/conversation/context_window.py:284-288 | for a ratio in [0, 1] and a non-negative window, the target lies between 0 and the window size |
| ContextWindows.DefaultTarget | aicli/conversation/context_window.py:241-248 | the default ratio gives 300 of 1000 tokens, and -3 for a window of -10 |
| ContextWindows.CompactionOutcomeSpec | aicli/conversation/context_window.py:278-311 | the outcome fails exactly for an unregistered name, with its message, and otherwise reports the cost of the list it returns |
| ContextWindows.CompactionOutcomeRestoresAccounting | aicli/conversation/context_window.py:310-311 | installing a successful outcome makes the window's count the cost of its messages |
| ContextWindows.DefaultOutcomeKeepsRecent | aicli/conversation/context_window.py:240-248 | the default strategy always succeeds and keeps the last five messages at the end |
| ContextWindows.GetUtilizationInfo | aicli/conversation/context_window.py:317-330 | the counts, window size, utilization, threshold and compaction flag are the state's window's own; available tokens are size minus count; the message count is the list length |
| ContextWindows.RoomBelowThreshold | aicli/conversation/context_window.py:317-330 | with a threshold of at most 1, a positive window that needs no compaction has tokens available |
| ContextWindows.ContextWindowManager.constructor | aicli/conversation/context_window.py:234-249 | a missing counter is the simple counter, a missing strategy the chronological default, and there are no callbacks |
| ContextWindows.ContextWindowManager.AddCompactionCallback | aicli/conversation/context_window.py:251-253 | the callback is appended |
| ContextWindows.ContextWindowManager.CompactConversation | aicli/conversation/context_window.py:278-311 | the result is the compaction outcome; on success every callback is called in order and each raising one is logged; an unknown strategy calls none |
| ContextWindows.ContextWindowManager.CheckAndCompact | aicli/conversation/context_window.py:263-276 | below the threshold nothing happens; otherwise the result and the notifications are those of a compaction, and an unknown strategy calls no callback |
| Reducing.Reduce | aicli/conversation/manager.py:57-94 | id and creation time never change, and an unknown action type leaves the state unchanged |
| Reducing.ReduceMissingFieldNoOp | aicli/conversation/manager.py:62-71 | ADD_MESSAGE without a message or UPDATE_STATUS without a status changes nothing |
| Reducing.ReduceAddMessage | aicli/conversation/manager.py:62-66 | ADD_MESSAGE appends and charges the given count, 0 when missing, to usage and window |
| Reducing.ReduceCompactAlwaysApplies | aicli/conversation/manager.py:73-76 | COMPACT_CONVERSATION always applies; missing fields mean no messages and 0 tokens |
| Reducing.ReduceMetadata | aicli/conversation/manager.py:78-82 | UPDATE_METADATA applies for any given key, also with a `None` value |
| Reducing.ReduceContextWindow | aicli/conversation/manager.py:84-92 | a missing or zero size is ignored; otherwise only the window size changes and the update time stays |
| Reducing.ChainOutcome | aicli/conversation/manager.py:207-237 | a middleware pipeline returns either the reducer's result or the state it started from |
| Reducing.LoggingTransparent | aicli/conversation/manager.py:100-113 | removing a logging middleware from anywhere in a pipeline does not change its result |
| Reducing.ValidationGuards | aicli/conversation/manager.py:119-158 | with validation in the pipeline an invalid action changes nothing, and a negative token count is never let through |
| Reducing.DefaultChainSpec | aicli/conversation/manager.py:271-282 | the default pipeline applies the reducer exactly when the action and the reduced state are valid |
| Reducing.EmptyChainIsReducer | aicli/conversation/manager.py:207-210 | without middleware the pipeline is the bare reducer |
| StateManagement.RemoveFirst | aicli/conversation/manager.py:185-187 | unsubscribing an absent callback changes nothing |
| StateManagement.RemoveFirstAt | aicli/conversation/manager.py:185-187 | unsubscribing drops the first occurrence and keeps the rest in order |
| StateManagement.RemoveFirstCount | aicli/conversation/manager.py:185-187 | unsubscribing a present callback drops exactly one occurrence |
| StateManagement.UnsubscribeTwiceIsSafe | aicli/conversation/manager.py:185-187 | a callback subscribed once is gone after one unsubscribe, and a second one changes nothing |
| StateManagement.StateManager.constructor | aicli/conversation/manager.py:164-174 | the manager starts with the given state and middleware and no subscribers |
| StateManagement.StateManager.Subscribe | aicli/conversation/manager.py:181-189 | the callback is appended and the state is unchanged |
| StateManagement.StateManager.Unsubscribe | aicli/conversation/manager.py:185-187 | the first occurrence of the callback is removed and the state is unchanged |
| StateManagement.StateManager.NotifySubscribers | aicli/conversation/manager.py:239-256 | every subscriber is called in order and every raising one is logged; one failure does not stop the others |
| StateManagement.StateManager.Dispatch | aicli/conversation/manager.py:191-205 | the new state is the pipeline's result; subscribers are notified exactly when it differs from the old state |
| StateManagement.StateManager.Reset | aicli/conversation/manager.py:258-260 | the state is replaced and the subscribers kept |
| StateManagement.DispatchKeepsTokensNonNegative | aicli/conversation/manager.py:126-136 | the default pipeline never leaves a negative token count behind a valid state |
| Conversations.ConversationManager.constructor | aicli/conversation/core.py:19-42 | the state is created with `created_by` metadata, the default pipeline, the handler subscribed once, the compaction callback registered, and the accounting invariant holds |
| Conversations.ConversationManager.Dispatch | aicli/conversation/manager.py:191-205 | dispatch keeps the accounting invariant and the subscribers; unless the handler compacts the new state, the state is the pipeline's result and nothing else is dispatched; with the handler subscribed once, a compaction whose result needs none leaves the compacted state after one COMPACT_CONVERSATION, and a state that compacts into itself makes every nesting level compact again, up to the bound |
| Conversations.ConversationManager.OnStateChange | aicli/conversation/core.py:162-179 | the handler dispatches COMPACT_CONVERSATION with the compaction outcome, one clock tick later, exactly when the state needs compaction and the strategy is known, and states the compacted state when that needs no further compaction; a failure is swallowed; a state that compacts into itself recurses to the depth bound |
| Conversations.ConversationManager.AddMessage | aicli/conversation/core.py:49-75 | the created message is dispatched with its own cost; without automatic compaction the new state is the old one with the message added; otherwise, with the handler subscribed once, the state is the compacted one when that needs no further compaction, and a conversation that compacts into itself recurses to the depth bound |
| Conversations.ConversationManager.UpdateStatus | aicli/conversation/core.py:98-104 | UPDATE_STATUS is dispatched; without automatic compaction the status is updated, and with it the same compacted state and recursion as for an added message |
| Conversations.ConversationManager.UpdateMetadata | aicli/conversation/core.py:106-112 | UPDATE_METADATA is dispatched; without automatic compaction the metadata is updated, and with it the same compacted state and recursion as for an added message |
| Conversations.ConversationManager.ForceCompaction | aicli/conversation/core.py:114-137 | an unknown strategy fails before any dispatch; otherwise the compacted list is dispatched and the report reads the state after it, and when the compacted state needs no follow-up automatic compaction it is the new state, and the report has original messages equal to compacted ones and 0 tokens saved |
| Conversations.ConversationManager.GetMessages | aicli/conversation/core.py:139-144 | without a role, all messages; with one, exactly the messages of that role, each as often as before and in their original order |
| Conversations.ConversationManager.GetRecentMessages | aicli/conversation/core.py:146-148 | the last `n` messages, all of them when there are fewer, none for `n <= 0` |
| Conversations.ConversationManager.SubscribeToChanges | aicli/conversation/core.py:158-160 | the callback is appended to the state manager's subscribers |
| Conversations.ConversationManager.Close | aicli/conversation/core.py:189-193 | the handler is unsubscribed; when it was subscribed once it is gone, so no later change compacts automatically |
| Conversations.ShortOverfullCompactsToItself | aicli/conversation/context_window.py:131-133 | a conversation of at most five messages that needs compaction compacts into itself under the default strategy, so the automatic compaction of such a conversation never ends before the recursion limit |
| PySeq.FilterInOrder | aicli/conversation/core.py:143 | a filtering comprehension keeps the passing elements at strictly increasing positions and drops no passing position |
| PyText.SortedStrings | aicli/tools/shell_tools.py:44 | `sorted` of a set of strings lists each member once, in ascending code-point order |
| GitTools.SafeAndDangerousDisjoint | aicli/tools/git_tools.py:70-81 | no subcommand is both safe and dangerous |
| GitTools.IsSafeCommand | aicli/tools/git_tools.py:67-83 | a subcommand is safe exactly when it is in the safe set; every dangerous one is unsafe |
| GitTools.WordsEmpty | aicli/tools/git_tools.py:30-32 | a command has no words exactly when it is all whitespace |
| GitTools.GitCommandLineSpec | aicli/tools/git_tools.py:29-42 | a blank command is refused; otherwise the lower-cased first word must be safe and becomes `["git", sub]` followed by the other words unchanged |
| GitTools.GitReportSuccess | aicli/tools/git_tools.py:53-60 | a successful run reports its stripped output, or a fixed sentence when the output is blank |
| GitTools.RefusedCommandRunsNothing | aicli/tools/git_tools.py:31-39 | a refused command returns its message whatever a process would do |
| GitTools.DangerousCommandRefused | aicli/tools/git_tools.py:34-39 | a dangerous subcommand, in any letter case, is refused with the safety message |
| GitTools.ExecutedCommandIsSafe | aicli/tools/git_tools.py:34-42 | every executed vector starts with `git` and a safe, lower-case subcommand |
| GitTools.SelectAnalysisSpec | aicli/tools/git_tools.py:108-117 | an analysis runs exactly for one of the four names, `file_history` only with a path; anything else is an unknown type |
| GitTools.ParseAnalysisSpec | aicli/tools/git_tools.py:101-107 | a blank input is refused; otherwise the lower-cased first word selects and the other words, case kept, are arguments |
| GitTools.FileHistoryWithoutPath | aicli/tools/git_tools.py:110-117 | `file_history` without a path is reported as an unknown analysis type |
| ShellTools.AnyContained | aicli/tools/shell_tools.py:102 | true exactly when some pattern is a substring of the text |
| ShellTools.AnyContainedOccurs | aicli/tools/shell_tools.py:101-102 | some pattern is contained exactly when some pattern occurs at some position |
| ShellTools.DangerousIgnoresCase | aicli/tools/shell_tools.py:101-102 | the danger check gives the same answer for a command and its lower-cased form |
| ShellTools.CapitalEntryNeverMatches | aicli/tools/shell_tools.py:40-43 | a whitelist entry with a capital letter never equals a lower-cased first word |
| ShellTools.ShellOutputSpec | aicli/tools/shell_tools.py:60-75 | a failing command's report ends with its exit code; the fixed sentence appears exactly for a silent success |
| ShellTools.FormatShellOutput | aicli/tools/shell_tools.py:60-75 | the appended sections, joined, are the command's report |
| ShellTools.SafeShellTool.constructor | aicli/tools/shell_tools.py:24-30 | the whitelist is the given list plus ls, cat, grep, find, head, tail and wc |
| ShellTools.SafeShellTool.Run | aicli/tools/shell_tools.py:32-82 | a command runs, unchanged, exactly when it has a whitelisted lower-cased first word and no dangerous pattern; the whitelist refusal comes before the danger refusal |
| ShellTools.Truncate | aicli/tools/shell_tools.py:147-155 | at most the limit plus the marker; short text is kept, long text cut at the limit and marked |
| ShellTools.TestReportEndsWithSummary | aicli/tools/shell_tools.py:158-164 | a test report always ends with the pass/fail summary |
| ShellTools.StreamSectionsBounded | aicli/tools/shell_tools.py:145-156 | at most two stream sections, each bounded whatever the stream length |
| ShellTools.FormatTestOutput | aicli/tools/shell_tools.py:142-164 | the appended sections, joined, are the test report |
| ShellTools.RunTests | aicli/tools/shell_tools.py:119-169 | tests run, unchanged, exactly when the lower-cased first word is a supported framework; otherwise the matching refusal |

## Left out

- Floating point: the threshold and the compaction ratio are exact fractions. The float
  `compaction_ratio` of a compaction result and every `%`-formatted string, including
  `utilization_percent`, are not part of the model.
- Clocks, `uuid4` and logging: ids and timestamps are parameters, and log calls are not modelled.
- The payload dictionary is a typed record. A key that is present with an explicit `None` is
  the same as a missing key. Values of the wrong type, which `isinstance` would reject, cannot be
  represented, so validation reduces to the presence of the message or status.
- `StateManager.dispatch`'s `except` branch: the modelled pipeline cannot raise, so the branch is
  unreachable in the model.
- The state manager's reducer is always the conversation reducer. `ConversationManager` always
  builds its own state manager and context-window manager; injecting existing ones is not modelled.
- Asynchrony, the thread-pool executor and `StateManager.close`: notification is a sequential
  loop, and `close` only unsubscribes the handler.
- Conversations.ConversationManager.Dispatch: the handler runs after the notification loop has
  visited every subscriber, once for each time it was notified. In the source it runs inline, in
  its place in the loop. The state each call sees is the same; only the interleaving with the
  other subscribers' calls differs.
- Conversations.ConversationManager.Dispatch: the interpreter's recursion limit is modelled as
  the `depth` bound. A dispatch at depth 0 runs no handler.
- The role helpers `add_user_message`, `add_assistant_message`, `add_system_message` and
  `add_tool_message` are `AddMessage` with a fixed role. `get_utilization_info` on the façade is
  `GetUtilizationInfo` of the current state.
- `estimate_tokens_for_text` and a pluggable counter's `count_tokens`: a counter is modelled only
  by what it charges per message.
- `str.split` is modelled on Python's whitespace set, and `str.lower` only for ASCII letters.
  `str(v)` of a metadata value or a tool call is an opaque rendering.
- Subprocesses, timeouts, the filesystem and `shlex.split`: the outcome of a process and the
  word list `shlex.split` returns are parameters. The four git analyses themselves
  (`_get_recent_changes` and the rest) only run processes and are not modelled.
- ShellTools.RunTests: the refusal message lists the frameworks in the order the source writes
  them. Python's set iteration order is not fixed.
- `SafeShellTool.require_confirmation` is stored but never read, in the model as in the source.
- `_build_middleware_chain` as written: it uses `await` inside a plain `def`
  (aicli/conversation/manager.py:215-237). Python rejects that when it compiles the module, so
  neither that module nor aicli/conversation/core.py, which imports it, can be loaded as written;
  `_apply_middleware` also calls it without `await`. `RunChain` models the chain the loop evidently
  intends: each middleware wraps the chain built from those after it.
- Metadata keys are assumed distinct, as a dictionary's are. The model does not check this, and
  the token count charges every item listed.
