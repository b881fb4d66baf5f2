# Personal assistant agent: a Dafny model

This project models the two halves of a small personal assistant and proves properties of
the model.

**The browser chat widget** (`src/scripts/app.js`), in `ChatWidget` (chat_widget.dfy):
- the turn state machine of `sendMessage` around its `await`;
- the send-button and textarea rules;
- the offline category classifier, pulled out of `getAssistantResponse` as `Classify`;
- the draw of a canned reply from the pool of the chosen category.

**The Python agent back end**, one module per source file:
- `ToolResults` (tool_result.dfy). It models the `ToolResult` record and its `to_dict`. It
  also holds the texts the tools report, the exceptions that escape a tool, and how Python
  binds a call's keyword arguments.
- `ToolRegistries` (registry.dfy). It models the `ToolRegistry` of tools/base.py: a class
  whose `tools` map and `names` order are the source's `_tools` dictionary.
- `ReadTool`, `WriteTool`, `EditTool`, `BashTool` (read_tool.dfy, write_tool.dfy,
  edit_tool.dfy, bash_tool.dfy). These are the four tools of tools/.
- `LlmClients` (llm_client.dfy). It models the `LLMClient` of llm/client.py: a class with
  the conversation history, and a specification function `Converse` of its `send_message`
  loop.
- `AgentMain` (agent_main.dfy). It models `create_tool_registry` and `run_agent_loop` of
  main.py.
- `ApiServer` (server.dfy). It models the three endpoints of server.py over an optional
  client.

Other modules:
- `HostSystem` (host.dfy) is the machine the tools act on. It holds the POSIX path
  functions the tools call, a file system value, and the `OSError`s its operations raise. Its
  `Host` class is that state, changed in place by `os.makedirs`, `open(..., "w")` and the
  write.
- `Json` (json.dfy) holds decoded JSON values with Python's truth value and type names.
- `Text` (text.dfy) holds the string operations the source relies on: JavaScript `trim`,
  Python `strip`, lower-casing, substring search, Python's `count` and `replace`, `join`,
  and `repr`.
- `Wrappers` (wrappers.dfy) holds `Option` and `Result`.

How the model is built:
- A function that mutates state is specified by a function of the old state. It is then a
  method that changes that state in place and ensures it matches that function. Examples:
  Write's, Edit's and Bash's `Execute` against their `Run`, `LlmClient.SendMessage` against
  `SendMessageSpec`, and `RunAgentLoop` against `Session`. Read changes nothing, so its
  `Execute` is itself a function of the file system.
- The properties are lemmas about those functions.
- The fixed texts of the back end (`"File not found: ..."`, `"Tool execution failed: ..."`
  and so on) are values of `ToolResults.Message`, `ToolResults.Exception` and
  `ApiServer.ServerError`. `Render`, `ExceptionText` and `ErrorText` give each value the
  exact wording of the source, except where "## Left out" says otherwise.
- server.py's `create_tool_registry` is the same as main.py's, so the model has one,
  `AgentMain.CreateToolRegistry`, and the server calls it.

## Model

| member | source | states |
|---|---|---|
| ChatWidget.ClassifyText | src/scripts/app.js:219-235 | the category is one whose rule accepts the lower-cased text, and no rule earlier in the chain accepts it |
| ChatWidget.Classify | src/scripts/app.js:177-235 | classification is total and decided on the lower-case form of the message, first match wins |
| ChatWidget.ClassifyFirstMatch | src/scripts/app.js:219-235 | a category is the classification exactly when its rule accepts and every earlier rule rejects |
| ChatWidget.GoodDayRegexImpliesRule | src/scripts/app.js:221 | whenever some run of white space leads to morning/afternoon/evening after `good`, the greedy skip finds it |
| ChatWidget.DayWordStart | src/scripts/app.js:221 | a day word does not start with white space |
| ChatWidget.GoodDayRuleIsRegex | src/scripts/app.js:221 | the prefix test for `good\s*(morning\|afternoon\|evening)` agrees with the pattern's meaning, both directions |
| ChatWidget.TimeRuleIsRegex | src/scripts/app.js:229 | `time\|what.*time\|current.*time` accepts exactly the texts containing `time` |
| ChatWidget.ExampleIsLower | src/scripts/app.js:177 | the example messages are their own lower-case form, so they are classified as written |
| ChatWidget.HelloIsGreeting | src/scripts/app.js:221 | "hello" passes the greeting rule |
| ChatWidget.ClassifyHello | src/scripts/app.js:221-222 | "hello" is a greeting |
| ChatWidget.GoodMorningIsGreeting | src/scripts/app.js:221 | "good  morning", with two spaces, passes the greeting rule |
| ChatWidget.ClassifyGoodMorning | src/scripts/app.js:221-222 | "good  morning" is a greeting |
| ChatWidget.NotGreetingT | src/scripts/app.js:221 | no text of two or more characters starting with `t` passes the greeting rule |
| ChatWidget.ThanksALotIsNotHelp | src/scripts/app.js:223 | "thanks a lot" fails the help rule |
| ChatWidget.ThanksALotIsThanks | src/scripts/app.js:225 | "thanks a lot" passes the thanks rule |
| ChatWidget.ClassifyThanks | src/scripts/app.js:221-226 | "thanks a lot" is classified as thanks |
| ChatWidget.ThanksForTheHelpAsksHelp | src/scripts/app.js:223 | "thanks for the help" passes the help rule |
| ChatWidget.ClassifyThanksForHelp | src/scripts/app.js:221-224 | "thanks for the help" is a help request, since help is tested before thanks |
| ChatWidget.Pool | src/scripts/app.js:179-216 | every category's pool is non-empty and lists its replies in table order |
| ChatWidget.PickIndex | src/scripts/app.js:239 | `Math.floor(r * len)` for `r` in [0, 1) is an index of the pool |
| ChatWidget.PickIndexCovers | src/scripts/app.js:239 | every index of a pool is drawn by some `r` in [0, 1) |
| ChatWidget.GetAssistantResponse | src/scripts/app.js:171-240 | the reply is a member of the pool of the message's category |
| ChatWidget.EveryPoolReplyReachable | src/scripts/app.js:238-239 | every reply of the message's category's pool is the answer for some draw |
| ChatWidget.WellPairedAppend | src/scripts/app.js:64 | appending an entry in place (a non-empty user entry, or a reply right after a user entry) keeps the history well paired |
| ChatWidget.ChatApp.constructor | src/scripts/app.js:7-21 | the page starts with no reply awaited, empty history and input, and the textarea sized |
| ChatWidget.ChatApp.AdjustTextareaHeight | src/scripts/app.js:44-48 | the height is `min(scrollHeight, 150)` |
| ChatWidget.ChatApp.ToggleSendButton | src/scripts/app.js:50-53 | the send button is disabled exactly when the input is white space only |
| ChatWidget.ChatApp.ShowTypingIndicator | src/scripts/app.js:117-118 | a reply is awaited afterwards |
| ChatWidget.ChatApp.HideTypingIndicator | src/scripts/app.js:142-143 | no reply is awaited afterwards |
| ChatWidget.ChatApp.Type | src/scripts/app.js:26-29 | the input listener resizes the textarea and sets the button from the new input |
| ChatWidget.ChatApp.SendMessage | src/scripts/app.js:55-72 | a turn starts exactly when the trimmed input is non-empty and no reply is awaited; it pushes and shows the trimmed message, clears the input and shows the indicator; a refused call changes nothing |
| ChatWidget.ChatApp.SettleResponse | src/scripts/app.js:75-83 | the indicator is hidden on both outcomes; a reply is pushed and shown, while the apology is shown and never pushed |
| ChatWidget.ChatApp.SendMessageToCompletion | src/scripts/app.js:55-84 | an accepted turn shows and pushes the trimmed message and then a reply from the pool of its category, clears the textarea and disables the button, and leaves no reply awaited; a refused one changes nothing |
| ToolResults.ExceptionText | tools/base.py:72-76 | the text of an escaping exception is never empty |
| ToolResults.NoneArgumentTexts | tools/write.py:70 | a `None` content makes `f.write` raise the text CPython 3.12 gives, naming it `None`; `replace` words a `None` `new_str` the same way, and `os.fspath` names a `None` path `NoneType` |
| ToolResults.Preview | tools/edit.py:89 | the first 100 characters of `old_str`, followed by `...` only when it is longer |
| ToolResults.Render | tools/base.py:6-12 | a message reads as nothing exactly when it is an empty verbatim text |
| ToolResults.ToDict | tools/base.py:14-19 | `success` and `output` are always present, and `error` is present exactly when the error is non-empty |
| ToolResults.ToDictInjective | tools/base.py:14-19 | two results have the same dictionary exactly when success, output text and error text agree |
| ToolResults.MissingParams | tools/base.py:71 | the missing parameters are exactly the required ones the call does not name |
| ToolResults.UnknownKeys | tools/base.py:71 | the keywords of the call that name no parameter of `execute` |
| ToolResults.BindingError | tools/base.py:71 | binding the call fails exactly when a keyword is unknown or a required parameter is missing; unknown keywords are reported first, with the set of them, and missing ones with exactly the required names absent |
| ToolResults.OneUnknownKeywordNamed | tools/base.py:70-77 | a call with a single unknown keyword `k` raises the `TypeError` that ends with `unexpected keyword argument` and `repr(k)` |
| ToolRegistries.SchemaOf | tools/base.py:59 | a tool's schema carries the tool's name, and its required parameters are among its properties |
| ToolRegistries.Schemas | tools/base.py:57-59 | one schema per name, in order |
| ToolRegistries.UnknownToolRunsNothing | tools/base.py:63-69 | an unknown name fails with the available tools named, and leaves the file system as it was |
| ToolRegistries.DispatchCatches | tools/base.py:70-77 | what the tool returns is passed on; what it raises becomes a failure with empty output and "Tool execution failed" |
| ToolRegistries.ReadThroughRegistryChangesNothing | tools/base.py:61-71 | a Read call through the registry leaves the file system as it was |
| ToolRegistries.ToolRegistry.constructor | tools/base.py:42-43 | a new registry is empty |
| ToolRegistries.ToolRegistry.Register | tools/base.py:45-47 | the name now maps to the tool, and `get_tool` gives it back while every other lookup is as before; a new name goes last, a known one keeps its place |
| ToolRegistries.ToolRegistry.GetTool | tools/base.py:49-51 | the tool registered under the name, or `None` exactly when the name is unregistered |
| ToolRegistries.ToolRegistry.ListTools | tools/base.py:53-55 | every registered name once, nothing else, in the order `Register` keeps |
| ToolRegistries.ToolRegistry.GetAllSchemas | tools/base.py:57-59 | one schema per listed tool, in the order of `list_tools` |
| ToolRegistries.ToolRegistry.Execute | tools/base.py:61-77 | the result and the new file system are those of `Dispatch` |
| ReadTool.Execute | tools/read.py:30-78 | a success is the text of the readable text file at the absolute path; a returned failure has empty output and an error; it raises only for arguments that do not bind, a path that is not text, or an `OSError` other than a permission error |
| ReadTool.ReadSucceedsIff | tools/read.py:30-78 | Read succeeds exactly on an absolute path naming a readable text file, and then returns its content with no error |
| ReadTool.ReadGuardOrder | tools/read.py:32-58 | empty, relative, missing and not-a-file paths each give their own failure, in that order, in both directions |
| ReadTool.RelativePathRefused | tools/read.py:39-44 | a relative path is refused whatever the file system holds |
| ReadTool.ReadFailures | tools/read.py:67-78 | a permission failure and a non-UTF-8 file give their fixed messages |
| WriteTool.PrepareParent | tools/write.py:57-60 | making the parent directory changes no file and no permission, and never makes the path itself |
| WriteTool.PathNotMadeWithParent | tools/write.py:57-60 | `os.makedirs` of the parent never creates the path |
| WriteTool.Execute | tools/write.py:34-80 | the outcome and the new file system are those of `Run` |
| WriteTool.WriteNeverOverwrites | tools/write.py:50-55 | an existing path, file or directory, is refused and nothing changes |
| WriteTool.CreateSucceedsIff | tools/write.py:57-74 | creation succeeds exactly when the parent can be made and the file created; then it holds exactly the content, the other files are unchanged and the parent exists |
| WriteTool.WriteSucceedsIff | tools/write.py:34-74 | Write succeeds exactly on an absolute new path whose parent can be made and file created |
| WriteTool.WritePastGuards | tools/write.py:36-55 | the guards run in order: empty, relative, existing; then the creation |
| WriteTool.WriteArgsBind | tools/write.py:34 | a call naming `path` and `content` binds |
| WriteTool.WriteFailureWritesNothing | tools/write.py:61-66 | a returned failure leaves every file as it was |
| WriteTool.NonTextContentLeavesEmptyFile | tools/write.py:68-70 | content that is not text raises after `open` created the file empty |
| EditTool.Execute | tools/edit.py:38-113 | the outcome and the new file system are those of `Run` |
| EditTool.EditUniqueOccurrence | tools/edit.py:99-107 | with exactly one occurrence, the file becomes prefix + `new_str` + suffix and no other file changes |
| EditTool.EditNotUnique | tools/edit.py:84-97 | zero occurrences, or more than one, fail without any change; the second failure reports the count |
| EditTool.EditEmptyOldStr | tools/edit.py:84-99 | an empty `old_str` is non-unique in a non-empty file and turns an empty file into `new_str` |
| EditTool.EditGuardOrder | tools/edit.py:40-66 | empty, relative, missing and not-a-file paths each give their own failure, in that order, without change |
| EditTool.EditReadStage | tools/edit.py:68-82 | past the guards, an unreadable or non-UTF-8 file gives its failure and no change; a text goes on to the rewrite |
| EditTool.EditPastGuards | tools/edit.py:40-68 | an absolute path naming a file gets past the guards to the read |
| EditTool.ArgsBind | tools/edit.py:38 | a call naming `path`, `old_str` and `new_str` binds |
| EditTool.EditFailureChangesNothing | tools/edit.py:40-113 | a returned failure leaves the file system as it was |
| BashTool.EffectiveTimeout | tools/bash.py:44-49 | 30 for a non-int or a value below 1, capped at 300, the given value otherwise; always in [1, 300] |
| BashTool.Execute | tools/bash.py:35-92 | the outcome and the new file system are those of `Run` |
| BashTool.EmptyCommandRunsNothing | tools/bash.py:37-42 | an empty command fails with "Command parameter is required." and nothing runs |
| BashTool.ZeroExitSucceeds | tools/bash.py:63-70 | exit 0 succeeds with stripped stdout, plus the `[stderr]` part when stderr is non-empty, or `(no output)` |
| BashTool.NonZeroExitFails | tools/bash.py:72-79 | a non-zero exit fails with the stripped stdout as output and the code, plus stderr when any, as error |
| BashTool.TimeoutNamesNormalisedValue | tools/bash.py:81-86 | a timeout fails naming the normalised timeout, which lies in [1, 300] |
| LlmClients.ResultBlock | llm/client.py:76-84 | the block copies the call's id, `is_error` is `not success`, and its content is never empty |
| LlmClients.ResultBlockReports | llm/client.py:76-81 | the content is the output of a success or the error of a failure, and `(no output)` exactly when that is empty or already `(no output)` |
| LlmClients.PrependTwice | llm/client.py:77 | appending results step by step is appending them at once |
| LlmClients.RebindsParam | llm/client.py:63 | `execute(tool_name, **tool_input)` binds a parameter twice exactly when the input has a `self` or a `tool_name` key |
| LlmClients.RunToolUses | llm/client.py:54-86 | on success, one result per `tool_use` block, in block order, with its id, and no call rebinds `self` or `tool_name`; a failure comes from a call that does |
| LlmClients.NoToolUseRunsNothing | llm/client.py:54-55 | a reply without tool calls runs nothing and gives no results |
| LlmClients.RebindingCallRaises | llm/client.py:63 | a call whose input has a `self` or `tool_name` key raises "got multiple values for argument" before any tool runs, leaving the file system as it was |
| LlmClients.RebindingEndsTurn | llm/client.py:19-36 | that exception escapes `send_message`: a reply asking for such a call ends the turn with its text |
| LlmClients.ExtractTextKeepsTexts | llm/client.py:90-94 | every text block appears in the answer, a single text is returned as it is, and no text gives `(No response)` |
| LlmClients.Converse | llm/client.py:23-36 | the history only grows, and every round sends one more request |
| LlmClients.AppendReply | llm/client.py:26-28 | appending the assistant's reply keeps the history well formed |
| LlmClients.AppendResults | llm/client.py:31-34 | appending the results of the reply's calls keeps the history well formed |
| LlmClients.ConverseWellFormed | llm/client.py:23-36 | the loop keeps the history alternating and every results entry answering the calls before it; each request carries the history so far; a success after k replies adds 2k - 1 entries and sent k requests |
| LlmClients.ConverseGrowth | llm/client.py:23-36 | from any history, a success after k replies adds 2k - 1 entries and sent k requests |
| LlmClients.SendMessageGrowth | llm/client.py:19-36 | from any history, the old history and the user entry come first, and a success after k tool rounds adds 2k + 2 entries and sent k + 1 requests; from a well-formed history ending on the assistant, the new one is well formed |
| LlmClients.FinalReplyEndsTurn | llm/client.py:30-36 | a reply that does not stop for tools returns its text after one call |
| LlmClients.LlmClient.Env | llm/client.py:44 | every registered name has a tool |
| LlmClients.LlmClient.constructor | llm/client.py:13-17 | a new client has an empty history |
| LlmClients.LlmClient.CallApi | llm/client.py:38-46 | one request with the system prompt, the schemas and the whole history, answered by the next reply, or a connection error |
| LlmClients.LlmClient.ProcessToolCalls | llm/client.py:48-86 | the results and the file system are those of `RunToolUses` |
| LlmClients.LlmClient.ExtractTextResponse | llm/client.py:88-94 | the answer is that of `ExtractText` |
| LlmClients.LlmClient.SendMessage | llm/client.py:19-36 | the reply and the new history, script, requests and file system are those of `SendMessageSpec` |
| LlmClients.LlmClient.ClearHistory | llm/client.py:96-98 | the history is empty and nothing else changes |
| AgentMain.CreateToolRegistry | main.py:16-23 | the registry holds Read, Write, Edit and Bash under their names, in that order |
| AgentMain.StandardRegistryIsComplete | main.py:16-23 | every tool is registered once under its own name, and the `i`-th name is that of the `i`-th tool |
| AgentMain.StepOfLine | main.py:47-64 | a line is skipped exactly when it is blank; a message sent is the stripped line, not blank and no command word in any case |
| AgentMain.StepsOf | main.py:45-70 | one step per event |
| AgentMain.StepsOfIndex | main.py:45-70 | the `j`-th step is that of the `j`-th event |
| AgentMain.StepsOfPrefix | main.py:45-70 | the steps of a prefix are the prefix of the steps |
| AgentMain.StepsOfFrom | main.py:45-70 | the steps from `i` are the `i`-th one, then those after it |
| AgentMain.PerformAppend | main.py:52-62 | steps that do not stop the loop act one after the other |
| AgentMain.StopEndsTheLoop | main.py:48-57 | nothing after the first quit, exit, end of input or interrupt is acted on |
| AgentMain.PerformSends | main.py:64-67 | a sent message comes from a step that sends it |
| AgentMain.SentMessagesAreStripped | main.py:47-67 | every message sent is the stripped text of a typed line, not blank and no command word |
| AgentMain.Session | main.py:59-70 | one outcome per command |
| AgentMain.SessionCons | main.py:45-70 | a session runs its first command, then the rest from the state it leaves |
| AgentMain.SessionOutcomes | main.py:59-70 | a command's outcome is `Cleared` exactly when it is `clear` |
| AgentMain.Carry | main.py:59-70 | the outcome and the client's new state are those of `Effect`: clear empties the history, a message is sent and its reply or exception shown |
| AgentMain.NextStep | main.py:46-59 | the step taken on an event is that of `StepOf` |
| AgentMain.CommandsFromIsPerform | main.py:45-70 | the commands from event `i` on are those the steps from `i` on perform |
| AgentMain.Advance | main.py:45-70 | one round: a stop runs nothing; otherwise the round's outcomes followed by the rest of the session make up the session from this event |
| AgentMain.RunAgentLoop | main.py:41-70 | the outcomes shown and the client's final state are those of the session of the commands the input gives |
| ApiServer.Jsonify | server.py:96-148 | each body has its own key: `response`, `error`, `message`, or the two health fields |
| ApiServer.HealthIff | server.py:145-148 | the status reads "healthy" exactly when the client is initialized, "unhealthy" otherwise |
| ApiServer.ReadMessage | server.py:80-92 | an accepted message is non-empty and stripped; a refusal is a 400 exactly for a falsy body or a blank message, otherwise a 500 |
| ApiServer.ReadMessageIff | server.py:80-94 | a request is accepted exactly when the body is an object whose `message` is a string that is not blank, and then the stripped string is sent |
| ApiServer.ReadMessageOrder | server.py:80-92 | a falsy body is a 400 before its type is looked at, a non-object is a 500, a missing message is a 400, a null one a 500 |
| ApiServer.ChatSpec | server.py:79-103 | the status is 200 exactly for an answer, 400 exactly for a falsy body or blank message, and otherwise 500 |
| ApiServer.RefusalChangesNothing | server.py:82-92 | a refused request leaves the client as it was |
| ApiServer.AcceptedMessageIsSent | server.py:87-98 | from any history, an accepted request adds the stripped message as the user's turn and a 200 adds an even number of entries; a well-formed history ending on the assistant stays well formed |
| ApiServer.Server.constructor | server.py:22 | the server starts without a client |
| ApiServer.Server.InitializeLlmClient | server.py:35-49 | loaded settings give a new client over a new standard registry with empty history; otherwise `False` and no change |
| ApiServer.Server.Chat | server.py:52-103 | without a client, a 500 before the body is read; otherwise the response and the client's new state are those of `ChatSpec` |
| ApiServer.Server.ClearHistory | server.py:106-131 | without a client, a 500; otherwise the history is emptied, nothing else changes, and the acknowledgment is returned |
| ApiServer.Server.HealthCheck | server.py:134-148 | always a 200 that reads "healthy" exactly when the client is initialized |
| HostSystem.Split | tools/write.py:57 | the tail is the text after the last slash, and the head is no longer than the text before it |
| HostSystem.SplitParts | tools/write.py:57 | `split` cuts the path into a head, a run of slashes and a tail without slashes |
| HostSystem.Dirname | tools/write.py:57 | the parent directory is a prefix of the path |
| HostSystem.ReadText | tools/read.py:60-62 | a read succeeds exactly on a readable text file, and gives its content |
| HostSystem.AfterMakeDirs | tools/write.py:58-60 | `os.makedirs` changes no file and no permission, and makes only prefixes of the path |
| HostSystem.MakeDirsCreates | tools/write.py:58-60 | when `os.makedirs` succeeds, the directory exists afterwards |
| HostSystem.AfterOpenForWrite | tools/write.py:68-69 | `open(p, "w")` either fails and changes nothing, or leaves `p` an empty file |
| HostSystem.AfterMkdir | tools/write.py:60 | the `mkdir` inside `os.makedirs` succeeds exactly when nothing has the name and its parent is a writable directory; it then adds only that directory, and a failure changes nothing |
| HostSystem.Host.Mkdir | tools/write.py:60 | the host's new state and the error are those `AfterMkdir` gives for the old state |
| HostSystem.Host.MakeDirs | tools/write.py:60 | the host's new state and the error are those `AfterMakeDirs` gives for the old state |
| HostSystem.Host.OpenForWrite | tools/write.py:69 | the host's new state and the error are those `AfterOpenForWrite` gives for the old state |
| HostSystem.Host.WriteText | tools/write.py:70 | the file now holds the written text, and nothing else of the host changes |
| HostSystem.Host.Run | tools/bash.py:51-57 | the outcome and the host's new state are those `shell` gives for the command, the timeout and the old state |
| Text.TrimParts | main.py:47 | stripping leaves a slice with no white space at either end and only white space around it |
| Text.TrimEmptyIff | main.py:52 | stripping leaves nothing exactly when the text is all white space |
| Text.ToLowerOfPlain | src/scripts/app.js:177 | a text of lower-case ASCII letters and spaces is its own lower-case form |
| Text.ToLowerIdempotent | main.py:55-59 | lower-casing twice is lower-casing once |
| Text.CountZeroIff | tools/edit.py:84-85 | `count` is 0 exactly when the text does not contain the string |
| Text.ReplaceSingle | tools/edit.py:99 | with one occurrence, `replace` splices the replacement in at the first occurrence |
| Text.OverlappingCountedOnce | tools/edit.py:84 | `count` does not count overlapping occurrences |
| Text.JoinContainsParts | llm/client.py:94 | every part appears in the joined text |

## Left out

- The DOM work of the widget is left out: markup, `escapeHtml`, scrolling, timestamps and
  event binding. `transcript` stands for the messages `addMessage` appends.
- The widget's random delay and `setTimeout` are left out. The pool draw is a real `draw` in
  [0, 1) passed in; the `time` replies take the clock's text as a parameter.
- ChatWidget.ChatApp.SettleResponse takes the value the awaited promise settles with as a
  parameter; the promise machinery is not modelled. Since `getAssistantResponse` never
  throws, `SendMessageToCompletion` always settles with its reply, and the `catch` branch is
  reached only through `SettleResponse(Rejected)`.
- The widget's turns are modelled one at a time: `SendMessage` refuses a second message while
  a reply is awaited, but other events interleaved with the `await` (typing) are modelled
  only as separate calls on the same object.
- `ToLower` covers ASCII, the Kelvin sign and the dotted capital I, not all of Unicode. The
  classifier's and the loop's words are ASCII, so their verdicts are unaffected.
- Path normalisation and symbolic links are left out: a path names an entry by its exact
  text.
- Encodings are abstract: a file is a text or bytes that are not UTF-8.
- File permissions are two sets, `unreadable` and `unwritable`.
- The wording of `TypeError`s raised from inside CPython is modelled, as CPython 3.12 words
  it, for the cases the tools' arguments reach (non-text path, content, `old_str`, `new_str`,
  arguments that do not bind). Other versions word some of these differently.
- ToolResults.ExceptionText: with more than one unknown keyword, CPython names the first in
  call order; a keyword map keeps no order, so the text then stops before the name.
- LlmClients.RebindsParam: when a tool input has both a `self` and a `tool_name` key, CPython
  names the one that comes first in the input; a map keeps no order, so `self` is named.
- `repr` of a string uses single quotes and escapes nothing.
- `ToolResults.Render` gives the exact texts.
  - ReadTool, WriteTool, EditTool, BashTool and ToolRegistries state their results as
    `Message` values rather than strings. The two are connected only through `Render`.
  - A `Verbatim` text equal to one of the fixed texts is a different value with the same
    rendering. For example, a file whose content is `(no output)`.
- `subprocess.run` is a function `shell` from command, timeout and file system to its
  outcome and the file system after it. No shell is modelled.
- The Anthropic SDK is a script of answers consumed one call at a time: a reply, or an error
  with its text. An exhausted script stands for a connection error. The request records only
  the system prompt, the tool schemas and the history.
- The model name, `max_tokens`, the API key and config/settings.py are left out. Whether
  the settings load is a parameter of `InitializeLlmClient`.
- The system prompt's text is a parameter.
- Console printing is left out: the tool-call trace and preview in llm/client.py, and the
  welcome banner and prompts in main.py and server.py.
- main.py's `main` is left out, apart from what it calls.
- A `KeyboardInterrupt` raised while a message is being sent is left out. The loop's
  interrupt is modelled only as an input event.
- ApiServer.Server.Chat: requests are modelled one at a time. `app.run(debug=True)` serves
  requests on threads, so two chat requests can run `send_message` on the shared client at
  once and interleave their history entries; the model does not capture that, and
  `AcceptedMessageIsSent`'s well-formed history holds only for requests that do not overlap;
  its prefix and growth hold for any history a previous request left.
- Flask routing, CORS and `app.run` are left out. `request.get_json()` is its result passed
  in: a decoded value, or the text of the exception it raises.
- A schema's property descriptions and types (`get_schema`) are left out. A schema records
  only the name, the description and the names of the properties and of the required ones.
- tools/__init__.py and prompts/system.py hold no behaviour.
