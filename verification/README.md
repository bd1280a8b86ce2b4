# Turn orchestration of the biome agent, in Dafny

This project models the core of the biome agent runtime (Go modules
`agent-core` and `agent-mind`). That core is what happens between a user
message arriving and the turn's event stream being settled:

- **Data.** Messages and content blocks, and the history filter
  `ConvertToLLM`.
- **Event stream.** A log that is settled at most once.
- **Follow-up queue.**
- **Tool registry.** This includes the HTTP tool's configuration, the
  required-argument check and the JSON path projections.
- **History transforms and pipeline.**
- **Steering decision.** The call that asks the model to answer or to use
  tools.
- **Orchestrators.** The reactive steer/tool/respond loop and the
  plan-and-execute orchestrator.
- **Delegation tool.** It runs a sub-agent.
- **OpenRouter translation.** Converting messages and tools, and parsing the
  streamed server-sent events.

Everything is a pure function over immutable datatypes. The model provider,
tool bodies, message sources and JSON codecs are parameters:

- a provider is a script of answers indexed by call number;
- a tool runner is a function from tool and arguments to a result;
- the context's cancellation is the index of the first cancellation check
  that sees a cancelled context.

An orchestrator run takes a `World` and returns a `World`. A `World` holds
the agent state, the event stream, the provider requests issued, and
counters for cancellation checks and source polls. The reactive loop and the
steer loop are bounded by a `fuel` argument.

Some behaviours of the code worth knowing, each as the code has it:

- **Steering messages.** In the reactive loop they are polled after every
  call of the round has already run. They are appended before the control
  message. No call is marked as skipped
  (`agent-core/packages/agent/orchestrators/agentic/agentic.go:153-159`),
  although the doc comment on the steering callback says the remaining
  calls are skipped (`agent-core/packages/agent/core/agent.go:15-16`).
- **Text deltas.** The text is split on each single space, not on runs of
  whitespace, and every piece is sent with a trailing space (lines 201-215).
- **`steering_mode` events.** One is emitted after every decision, a final
  Respond decision included (lines 63-69 and 183-189).
- **A failed follow-up decision inside the steer loop.** It stores the zero
  decision, whose mode is empty, and the error text becomes the response
  (lines 176-181). It is not a synthetic Respond decision.
- **Delegation with missing arguments.** The error result has no trace,
  because no sub-agent has run
  (`agent-core/packages/agent/tools/delegate/delegate.go:80-84`).

Files: one module per area of the source.

| file | area |
|---|---|
| `wrappers.dfy` | `Option` and `Result` |
| `strs.dfy` | string helpers |
| `json.dfy` | the abstract JSON value |
| `content.dfy` | content blocks |
| `messages.dfy` | messages |
| `state.dfy` | agent state |
| `eventstream.dfy` | the event stream |
| `queue.dfy` | the follow-up queue |
| `http_tool.dfy` | the HTTP tool |
| `tools.dfy` | the tool registry |
| `transform.dfy` | history transforms |
| `provider.dfy` | provider types |
| `steering.dfy` | the steering decision |
| `agent.dfy` | the agent |
| `events.dfy` | agent events |
| `orchestrate.dfy` | the shared run world |
| `agentic.dfy` | the reactive orchestrator |
| `planparse.dfy` | plan parsing |
| `planexecute.dfy` | the plan-and-execute orchestrator |
| `session.dfy` | `Agent.Prompt` |
| `delegate.dfy` | the delegation tool |
| `openrouter.dfy` | OpenRouter message and tool conversion |
| `openrouter_stream.dfy` | OpenRouter server-sent events |

## Model

| member | source | states |
|---|---|---|
| Content.ContentTypeValues | agent-core/packages/agent/types/content.go:29-32 | the tag is "text", "image", "thinking" or "toolCall" for the four block kinds, whatever their fields |
| Content.ContentTypeIdentifiesVariant | agent-core/packages/agent/types/content.go:29-32 | two blocks have the same tag exactly when they are the same kind of block |
| Content.TextsAppend | agent-core/packages/agent/types/message_util.go:11-15 | the text blocks of two concatenated block lists are those of the first, then those of the second |
| Content.TextOfNoText | agent-core/packages/agent/types/message_util.go:11-15 | a block list without text blocks contributes the empty text |
| Messages.StopReasonValues | agent-core/packages/agent/types/message.go:6-12 | the stop reasons are exactly "stop", "length", "toolUse", "aborted" and "error", one per reason |
| Messages.RoleValues | agent-core/packages/agent/types/message.go:72-82 | the roles are "user", "assistant", "toolCall" and "toolResult"; for standard messages, equal roles mean the same kind |
| Messages.ConvertToLLM | agent-core/packages/agent/types/agent_message.go:9-28 | a message survives exactly when it is of a standard kind; the result is no longer than the input |
| Messages.ConvertToLLMIsSubsequence | agent-core/packages/agent/types/agent_message.go:12-25 | the survivors keep their original order (an order-preserving subsequence) |
| Messages.ConvertToLLMKeepsAllIff | agent-core/packages/agent/types/agent_message.go:9-28 | nothing is dropped exactly when every message is standard, and then the output is the input |
| Messages.ConvertToLLMIdempotent | agent-core/packages/agent/types/agent_message.go:12-25 | filtering a filtered history changes nothing |
| Messages.ConvertToLLMAppend | agent-core/packages/agent/types/agent_message.go:12-25 | filtering distributes over concatenation, so appending to a history appends to its filtered form |
| Messages.LastAssistantTextSpec | agent-core/packages/agent/types/message_util.go:6-20 | "" when no assistant message exists; otherwise the text of the last assistant message only, even when earlier ones have text |
| Messages.LastAssistantTextIgnoresTail | agent-core/packages/agent/types/message_util.go:7-9 | messages appended after the last assistant message do not change the result |
| AgentStates.CloneIsExact | agent-core/packages/agent/types/state.go:17-25 | a clone is equal to its original (same prompt, same messages in order, same registry), and cloning a clone changes nothing |
| AgentStates.SnapshotIgnoresRuntimeFlags | agent-core/packages/agent/types/state.go:43-49 | the streaming flag, the partial message, the pending tool calls and the recorded error never change the snapshot |
| AgentStates.SnapshotBeforeAppend | agent-core/packages/agent/types/state.go:43-49 | a snapshot taken before a message is appended holds a prefix of the later snapshot's history, with the same prompt and registry |
| EventStream.NewStream | agent-core/packages/stream/eventstream.go:12-18 | a new stream is open with no events |
| EventStream.Push | agent-core/packages/stream/eventstream.go:20-25 | an open stream gets the event at the end; a settled stream is left unchanged (the intended behaviour, see Findings) |
| EventStream.End | agent-core/packages/stream/eventstream.go:27-37 | the first settlement records the result and keeps the events; a settled stream is left unchanged |
| EventStream.EndWithError | agent-core/packages/stream/eventstream.go:39-48 | the first settlement records the error and keeps the events; a settled stream is left unchanged |
| EventStream.Result | agent-core/packages/stream/eventstream.go:54-62 | only asked of a settled stream: the end value after End, the error after EndWithError |
| EventStream.PushAllOrder | agent-core/packages/stream/eventstream.go:20-25 | while open, consumers see exactly the pushed events in push order; once settled, pushes change nothing |
| EventStream.FirstTerminatorWins | agent-core/packages/stream/eventstream.go:27-48 | after End or EndWithError, later End, EndWithError and pushes leave settlement and events as the first call left them |
| EventStream.EndWithoutPushes | agent-core/packages/stream/eventstream.go:27-37 | ending a fresh stream gives no events and the end value as result |
| EventStream.PushAsWritten | agent-core/packages/stream/eventstream.go:20-25 | the outcomes the select statement allows: only delivery while the stream is open; once settled, exactly two, dropping the event or a panic |
| EventStream.PushAfterEndMayPanic | agent-core/packages/stream/eventstream.go:20-25 | a push after End or after EndWithError can take the send on the closed channel, which panics |
| EventStream.PushIsAnAllowedOutcome | agent-core/packages/stream/eventstream.go:20-25 | the corrected Push is one of the outcomes the code allows, and every outcome that is not a panic is it |
| FollowUpQueue.NewQueue | agent-core/packages/agent/core/queue.go:12-16 | a new queue is empty with size 0 |
| FollowUpQueue.Enqueue | agent-core/packages/agent/core/queue.go:18-20 | the item goes at the tail, the size grows by one, and the earlier items are kept in place |
| FollowUpQueue.Dequeue | agent-core/packages/agent/core/queue.go:22-29 | an empty queue yields nothing and is unchanged; otherwise the head comes out and exactly the rest remains |
| FollowUpQueue.EmptyIffSizeZero | agent-core/packages/agent/core/queue.go:31-37 | IsEmpty holds exactly when Size is 0 |
| FollowUpQueue.Clear | agent-core/packages/agent/core/queue.go:39-41 | the queue is empty afterwards |
| FollowUpQueue.Drain | agent-core/packages/agent/core/queue.go:44-48 | all items come out in queue order and the queue is left empty |
| FollowUpQueue.EnqueueAllAppends | agent-core/packages/agent/core/queue.go:18-20 | enqueuing a sequence appends it at the tail in order |
| FollowUpQueue.DequeueAllIsFifo | agent-core/packages/agent/core/queue.go:22-29 | dequeuing as many items as there are gives them back in queue order and empties the queue |
| FollowUpQueue.FifoRoundTrip | agent-core/packages/agent/core/queue.go:18-48 | items enqueued into a new queue come back in the same order by Dequeue and by Drain |
| Tools.NewRegistry | agent-core/packages/agent/tools/tools.go:32-36 | a new registry holds no tool |
| Tools.Register | agent-core/packages/agent/tools/tools.go:38-40 | the tool is found under its own name, replacing any earlier one; every other name keeps its binding |
| Tools.Get | agent-core/packages/agent/tools/tools.go:42-45 | a lookup succeeds exactly for a registered name and returns the tool bound to it |
| Tools.ListTools | agent-core/packages/agent/tools/tools.go:53-59 | one entry per registered name, each once, in an unspecified order |
| Tools.ToolsInOrder | agent-core/packages/agent/tools/tools.go:61-67 | for a given enumeration order, the i-th tool is the one registered under the i-th name |
| Tools.All | agent-core/packages/agent/tools/tools.go:61-67 | one entry per registered tool, exactly the registered tools, with distinct names when entries sit under their own names |
| Tools.ToolFromConfig | agent-core/packages/agent/tools/tools.go:79-90 | an http config with an endpoint builds the HTTP tool, and one without an endpoint fails with "http tool requires name and endpoint"; "mcp" and "command" are not implemented; any other type is unknown; each error names the tool, quoted as `%q` quotes it |
| Tools.RegisterConfigs | agent-core/packages/agent/tools/tools.go:74-92 | registration succeeds exactly when every named config builds, and it keeps entries under their own names |
| Tools.NewRegistryFromConfig | agent-core/packages/agent/tools/tools.go:72-93 | a registry is returned exactly when every named config builds; unnamed configs never block it |
| Tools.RegisterConfigsContents | agent-core/packages/agent/tools/tools.go:74-92 | a name no config carries keeps its earlier binding; a configured name is bound to the tool from its last config (last write wins) |
| Tools.NewRegistryFromConfigContents | agent-core/packages/agent/tools/tools.go:72-93 | in the built registry, the empty name and unconfigured names are absent, and each configured name holds its last config's tool |
| Tools.EmptyNameNeverRegistered | agent-core/packages/agent/tools/tools.go:75-77 | configs without a name are skipped, so the empty name is never bound |
| Tools.FirstFailureReported | agent-core/packages/agent/tools/tools.go:79-90 | the whole registry fails with the error of the first named config that does not build |
| HttpTools.NewHttpTool | agent-core/packages/agent/tools/http.go:26-47 | a non-http type is rejected with its type, quoted as `%q` quotes it; a missing name or endpoint is rejected; otherwise every configured field is kept |
| Strs.Quote | agent-core/packages/agent/tools/tools.go:84-89 | a quoted text is at least two longer than the text, is wrapped in double quotes, and holds only printable characters |
| Strs.EscapeChar | agent-core/packages/agent/tools/tools.go:84-89 | a character is kept as itself exactly when it is printable and not a quote or backslash; otherwise it becomes an escape of 2 to 6 printable characters |
| Strs.EscapeAppend | agent-core/packages/agent/tools/tools.go:84-89 | escaping a joined text escapes each part in turn |
| Strs.EscapeIdentityIff | agent-core/packages/agent/tools/tools.go:84-89 | escaping leaves a text unchanged exactly when all its characters are printable and none is a quote or backslash |
| Strs.QuoteControls | agent-core/packages/agent/tools/tools.go:84-89 | a newline is quoted as the two characters backslash and n, and a NUL as `\x00` |
| JsonValues.StringField | agent-core/packages/agent/tools/http.go:60-65 | a string value is read as is; a missing or non-string value reads as "" (the same reading serves the delegate arguments, delegate.go:80-82) |
| JsonValues.StringsOf | agent-core/packages/agent/tools/http.go:70-76 | exactly the string entries of the list are kept; nothing is lost when all entries are strings (also the delegate's `tool_names`, delegate.go:95-101) |
| JsonValues.StringsOfAppend | agent-core/packages/agent/tools/http.go:70-76 | the strings of a joined list are those of the first part followed by those of the second, so the entries keep their order |
| HttpTools.Parameters | agent-core/packages/agent/tools/http.go:52-83 | the type is always "object"; exactly the object-valued properties are kept with their string type and description; required keeps the string entries, and is empty when the key is absent or not an array |
| HttpTools.FirstMissing | agent-core/packages/agent/tools/http.go:86-91 | reports nothing exactly when every required key is present; otherwise the first required key that is absent |
| HttpTools.EffectiveMethod | agent-core/packages/agent/tools/http.go:92-95 | an empty method means "POST"; any other method is kept |
| HttpTools.RequestHeaders | agent-core/packages/agent/tools/http.go:104-114 | with no auth or another auth type, only the JSON content type; "bearer" and "apikey" add "Bearer " plus the key under the canonical form of the configured header, else "Authorization", keeping the JSON content type unless that header is itself Content-Type |
| HttpTools.CanonicalKey | agent-core/packages/agent/tools/http.go:104-112 | the canonical form of a header name has the name's length, and a name with a non-token character is kept as it is |
| HttpTools.CanonicalKeyIdempotent | agent-core/packages/agent/tools/http.go:104-112 | canonicalizing a canonical name changes nothing |
| HttpTools.CanonicalKeyIgnoresCase | agent-core/packages/agent/tools/http.go:104-112 | names that differ only in letter case have the same canonical form (unless neither is a token) |
| HttpTools.AuthHeaderIgnoresCase | agent-core/packages/agent/tools/http.go:108-113 | an auth header name spelt in another letter case produces the same headers |
| HttpTools.BuildRequest | agent-core/packages/agent/tools/http.go:85-114 | succeeds exactly when no required key is missing, the method is a token and the URL parses; fails first with "missing required parameter: k", then with "net/http: invalid method" and the quoted method, then with the URL error; otherwise the method, endpoint, headers and encoded arguments |
| HttpTools.MethodWithSpaceRejected | agent-core/packages/agent/tools/http.go:100-103 | the method "GE T" is refused as `net/http: invalid method "GE T"` |
| HttpTools.HandleResponse | agent-core/packages/agent/tools/http.go:120-135 | a status outside 200..299 is an error carrying the status and body; a decode failure is an error; otherwise the decoded value, narrowed by the response path when one is set, then renamed by the response map unless the map is empty or the narrowed value is null |
| HttpTools.Fields | agent-core/packages/agent/tools/http.go:140 | the path splits into non-empty pieces free of '.', '[' and ']' whose concatenation is the path without those separators |
| HttpTools.FieldsOfWord | agent-core/packages/agent/tools/http.go:140 | a non-empty run without separators is a single field |
| HttpTools.FieldsSplit | agent-core/packages/agent/tools/http.go:140 | a separator splits the path: the fields of `a + sep + b` are those of `a` followed by those of `b` |
| HttpTools.DigitRun | agent-core/packages/agent/tools/http.go:150 | the longest run of leading decimal digits |
| HttpTools.ScanDecimalRoundTrip | agent-core/packages/agent/tools/http.go:150 | the decimal text of every index is read back as that index |
| HttpTools.Walk | agent-core/packages/agent/tools/http.go:138-160 | an empty path gives the value itself; a scalar stops the walk and is returned |
| HttpTools.ExtractPathObjects | agent-core/packages/agent/tools/http.go:144-147 | on an object, a present key selects its value and the walk goes on from there; a missing key gives null |
| HttpTools.ExtractPathIndex | agent-core/packages/agent/tools/http.go:148-156 | on an array, an in-range decimal index selects the element; an out-of-range index gives null |
| HttpTools.ExtractPathArrayStep | agent-core/packages/agent/tools/http.go:148-156 | on an array, a part that `%d` reads as an in-range index selects that element; no number, a negative number or an index past the end gives null |
| HttpTools.ApplyResponseMap | agent-core/packages/agent/tools/http.go:162-174 | a non-object is returned unchanged; for an object, exactly the output keys whose source key is present, each with that source value |
| Transform.KeepRecent | agent-core/packages/agent/transform/helpers.go:10-18 | the whole history when it has at most n messages, otherwise exactly its last n |
| Transform.KeepFirstAndRecent | agent-core/packages/agent/transform/helpers.go:21-36 | the whole history when it has at most n messages, otherwise the first message then the last n (n+1 in all) |
| Transform.KeepFirstAndRecentNoDuplicate | agent-core/packages/agent/transform/helpers.go:27-28 | a history of distinct messages stays free of duplicates, so the first message is never repeated |
| Transform.RunChain | agent-core/packages/agent/transform/helpers.go:39-52 | an empty chain is the identity; a one-element chain is that transform |
| Transform.RunChainAppend | agent-core/packages/agent/transform/helpers.go:41-51 | a chain of two parts runs the first part, then the second on its output, and an error of the first part is the result |
| Transform.ChainStopsAtFirstError | agent-core/packages/agent/transform/helpers.go:46-48 | the first transform that fails decides the result; later transforms are not consulted |
| Transform.PipelineTransform | agent-core/packages/agent/transform/pipeline.go:24-35 | without a transform, the conversion of the messages; with one, its error, or the conversion of its output |
| Transform.TransformContextIgnoresPromptAndTools | agent-core/packages/agent/transform/pipeline.go:38-40 | the system prompt and tools of the context do not affect the result |
| Transform.WindowedPipelineIsStandard | agent-core/packages/agent/transform/pipeline.go:24-35 | a recent-window pipeline with the default conversion yields at most n standard messages, and nothing for an empty history |
| Agent.NewAgentState | agent-core/packages/agent/core/agent.go:44-54 | empty history, no pending calls, no error, not streaming; prompt and registry from the configuration |
| Agent.NewAgent | agent-core/packages/agent/core/agent.go:57-62 | the agent keeps its configuration and starts from the initial state |
| Agent.Reset | agent-core/packages/agent/core/agent.go:179-181 | the configuration is kept and the state returns to the initial state, the same as a new agent |
| Agent.SetError | agent-core/packages/agent/core/agent.go:80-82 | the error is recorded and nothing else in the state changes |
| Agent.DecideSteering | agent-core/packages/agent/core/agent.go:71-77 | without a provider, Respond with empty text and no request; otherwise the steering decision on a clone of the state's snapshot |
| Agent.ExecuteTool | agent-core/packages/agent/core/agent.go:115-153 | always a tool result with the call's id and name; no registry, an unknown tool and a tool error give error results with their texts; success carries the value and its encoding |
| Agent.FirstText | agent-core/packages/agent/core/agent.go:160-164 | nothing exactly when there is no text block; otherwise the text of the first text block, with no text block before it |
| Agent.ToolResultError | agent-core/packages/agent/core/agent.go:156-166 | "" for a non-error result; otherwise the first text block's text, or "unknown error" without one |
| Agent.ExecuteToolErrorRoundTrip | agent-core/packages/agent/core/agent.go:115-166 | the error read back from an executed tool is exactly the failure ExecuteTool met, and "" on success |
| Steering.EffectiveBase | agent-core/packages/agent/core/llm_steering.go:150-152 | an empty base prompt becomes the default prompt; any other is kept |
| Steering.BuildSteeringPrompt | agent-core/packages/agent/core/llm_steering.go:149-171 | a follow-up prompt is the base plus the fixed follow-up text; otherwise the base, a blank line and the instruction or the default one |
| Steering.SteeringPromptShape | agent-core/packages/agent/core/llm_steering.go:149-171 | the prompt extends the base; follow-up prompts ignore the instruction; different instructions give different initial prompts |
| Steering.ToolSchema | agent-core/packages/agent/core/llm_steering.go:113-145 | name and description copied; the schema has exactly type, properties and required, with each property's type and description and the required names in order |
| Steering.ConvertToolsToProvider | agent-core/packages/agent/core/llm_steering.go:113-145 | no registry offers no tool; otherwise one schema per registered tool in enumeration order |
| Steering.OfferedToolsAreTheRegistry | agent-core/packages/agent/core/llm_steering.go:113-145 | the offered names are exactly the registered names, each once |
| Steering.SteeringMessages | agent-core/packages/agent/core/llm_steering.go:28-40 | without a pipeline, the snapshot's messages unfiltered; with one, its output, or its error prefixed by "pipeline transform: " |
| Steering.DecisionFromResponse | agent-core/packages/agent/core/llm_steering.go:80-109 | Steer exactly when tool calls came back, one request per call in order with id, name and arguments, and the "I'll use ..." thinking text; otherwise Respond with the text; the model passes through |
| Steering.MakeSteeringDecision | agent-core/packages/agent/core/llm_steering.go:17-110 | a pipeline error sends no request; otherwise one request with the messages, the steering prompt, the fixed sampling settings and the tools; a provider error is prefixed by "steering decision failed: " |
| Steering.NoPipelineSendsEverything | agent-core/packages/agent/core/llm_steering.go:35-40 | without a pipeline, the request carries the whole history, custom messages included |
| Events.EventTypeIdentifiesKind | agent-core/packages/agent/core/events.go:6-15 | two known events have the same type tag exactly when they are of the same kind |
| Events.TextDeltas | agent-core/packages/agent/orchestrators/agentic/agentic.go:201-215 | one delta per single-space piece of the response, with index i and the piece followed by a space |
| Events.TextDeltasReassemble | agent-core/packages/agent/orchestrators/agentic/agentic.go:201-215 | the deltas' texts concatenate to the response followed by one space |
| Orchestration.ModelOrUnknown | agent-core/packages/agent/orchestrators/agentic/agentic.go:221-224 | an empty model name becomes "unknown"; any other is kept |
| Orchestration.ReplyMessage | agent-core/packages/agent/orchestrators/agentic/agentic.go:217-231 | the reply is a stop message holding exactly the text, with the provider's name and a non-empty model |
| Orchestration.StreamResponse | agent-core/packages/agent/orchestrators/agentic/agentic.go:201-215 | an empty response pushes nothing; otherwise its deltas are pushed; the history is untouched |
| Agentic.Decide | agent-core/packages/agent/orchestrators/agentic/agentic.go:54-61 | a decision issues at most one request and changes nothing else; without a provider it is Respond with empty text |
| Agentic.ControlText | agent-core/packages/agent/orchestrators/agentic/agentic.go:161-174 | always ends with the fixed control sentence, which is all of it when no call is a delegation |
| Agentic.DelegationLines | agent-core/packages/agent/orchestrators/agentic/agentic.go:162-166 | at most one summary line per call |
| Agentic.DelegationLinesOne | agent-core/packages/agent/orchestrators/agentic/agentic.go:162-166 | a delegated call gives exactly "Task delegated via tool_call_id <id>." and any other call gives no line |
| Agentic.DelegationLinesAppend | agent-core/packages/agent/orchestrators/agentic/agentic.go:162-166 | the lines of two call lists are the lines of each, in call order |
| Agentic.DelegationLinesFirst | agent-core/packages/agent/orchestrators/agentic/agentic.go:162-166 | calls before the first delegation give no line: the lines open with the first delegated call's line |
| Agentic.ControlTextWithDelegation | agent-core/packages/agent/orchestrators/agentic/agentic.go:161-171 | with a delegated call, the control text is the lines joined by single spaces, a space and the fixed prompt, and opens with the first delegated call's line and a space |
| Agentic.NoDelegationNoLines | agent-core/packages/agent/orchestrators/agentic/agentic.go:161-171 | without delegate calls there is no delegation line |
| Agentic.RunCalls | agent-core/packages/agent/orchestrators/agentic/agentic.go:116-125 | one result per call, in request order, each the agent's execution of that call |
| Agentic.PollSteering | agent-core/packages/agent/orchestrators/agentic/agentic.go:153-159 | no source gives no messages and no poll; otherwise that poll's messages, and the poll is counted |
| Agentic.Announce | agent-core/packages/agent/orchestrators/agentic/agentic.go:79-113 | the thinking event when there is a rationale, one tool-use message appended, the call ids made pending, nothing else changed |
| Agentic.Report | agent-core/packages/agent/orchestrators/agentic/agentic.go:116-151 | all tool_call events, then all tool_result events, then the results appended, all in request order; the call ids are no longer pending |
| Agentic.Close | agent-core/packages/agent/orchestrators/agentic/agentic.go:153-174 | the steering messages, then one control message appended; no event |
| Agentic.Round | agent-core/packages/agent/orchestrators/agentic/agentic.go:79-174 | history grows by the tool-use message, the results, the steering messages and the control message; events are the thinking, tool_calls and tool_results; the history is extended, never rewritten |
| Agentic.RoundClearsPending | agent-core/packages/agent/orchestrators/agentic/agentic.go:111-113 | a round that starts with nothing pending ends with nothing pending |
| Agentic.SteerLoop | agent-core/packages/agent/orchestrators/agentic/agentic.go:73-195 | only a Steer decision loops; the loop ends on a non-Steer decision or on cancellation, which fails the stream; history and events are only extended |
| Agentic.LoopDecisionErrorIsAnswered | agent-core/packages/agent/orchestrators/agentic/agentic.go:176-181 | a failed decision after a round finishes the loop with the error recorded, the zero decision and "I encountered an error: ..." as the text, and pushes no steering_mode event |
| Agentic.FirstDecision | agent-core/packages/agent/orchestrators/agentic/agentic.go:54-69 | a failed decision is recorded as the state's error and answered with "I encountered an error: ..."; steering_mode reports the mode and call count |
| Agentic.Reply | agent-core/packages/agent/orchestrators/agentic/agentic.go:197-240 | the response's deltas when non-empty, then exactly one stop message appended and carried by turn_end |
| Agentic.FollowUp | agent-core/packages/agent/orchestrators/agentic/agentic.go:242-255 | a non-empty follow-up batch is appended to the history, the poll is counted, and another iteration runs, opened by turn_start; ending the stream always carries the full history; only cancellation fails it |
| Agentic.FollowUpEndsWhenNoneReturned | agent-core/packages/agent/orchestrators/agentic/agentic.go:242-248 | with no source, or an empty batch, the stream ends with the history unchanged, and no request or check is made |
| Agentic.Iteration | agent-core/packages/agent/orchestrators/agentic/agentic.go:41-253 | an iteration ends the stream with the full history or fails it with cancellation, and only extends history and events; a later iteration's first event is turn_start |
| Agentic.SteerAndReply | agent-core/packages/agent/orchestrators/agentic/agentic.go:73-252 | after the first decision, the turn ends with the full history or fails with cancellation, and only extends history and events |
| Agentic.Run | agent-core/packages/agent/orchestrators/agentic/agentic.go:28-256 | turn_start is the first event of the turn; the history is only extended; End carries the full history; only cancellation fails the stream |
| AgenticScenarios.TextOnlyTurn | agent-core/packages/agent/orchestrators/agentic/agentic.go:35-255 | a plain text answer grows the history by exactly one stop message; events are turn_start, steering_mode "respond", the deltas and turn_end; one request |
| AgenticScenarios.CancelledBeforeSteering | agent-core/packages/agent/orchestrators/agentic/agentic.go:49-52 | a context cancelled at the start fails the stream right after turn_start, with no request and no new message |
| AgenticScenarios.DecisionErrorIsAnswered | agent-core/packages/agent/orchestrators/agentic/agentic.go:54-61 | a failing first decision does not abort the turn: the error is recorded, and the reply "I encountered an error: ..." with an unknown model ends the stream |
| AgenticScenarios.DecideAnswered | agent-core/packages/agent/core/llm_steering.go:60-109 | a provider answer becomes the decision for that response, and one request is issued |
| AgenticScenarios.LoopStopsAfterRound | agent-core/packages/agent/orchestrators/agentic/agentic.go:176-194 | a Steer round answered with text finishes the loop with that Respond decision and its text, after one more request |
| AgenticScenarios.LoopOneRound | agent-core/packages/agent/orchestrators/agentic/agentic.go:73-194 | one round then a text answer: exact history growth and exact events of the round, then steering_mode "respond" |
| AgenticScenarios.AfterRoundShape | agent-core/packages/agent/orchestrators/agentic/agentic.go:73-189 | without steering messages, a round and the follow-up decision append the tool-use message, results and control message and push the round's events and steering_mode |
| AgenticScenarios.RoundShape | agent-core/packages/agent/orchestrators/agentic/agentic.go:79-174 | without a steering source, a round appends tool-use message, results and control message, and pushes its events in that order |
| AgenticScenarios.IterationFinishes | agent-core/packages/agent/orchestrators/agentic/agentic.go:41-252 | when the loop finishes, the iteration continues with the reply and the follow-up poll |
| AgenticScenarios.OneToolRoundTurn | agent-core/packages/agent/orchestrators/agentic/agentic.go:35-255 | one tool round then a text answer: the whole turn's history and event sequence, ended with the full history, after two requests |
| AgenticScenarios.FinishWithText | agent-core/packages/agent/orchestrators/agentic/agentic.go:197-255 | without a follow-up source, answering appends the stop message, pushes deltas and turn_end, and ends with the full history |
| AgenticScenarios.TextIteration | agent-core/packages/agent/orchestrators/agentic/agentic.go:41-242 | an iteration answered with text goes straight to the follow-up poll |
| AgenticScenarios.TextAnsweredShape | agent-core/packages/agent/orchestrators/agentic/agentic.go:41-240 | an iteration answered with text appends one stop message, pushes turn_start on a later iteration, steering_mode "respond", the deltas and turn_end, and issues one request |
| AgenticScenarios.FollowUpTurn | agent-core/packages/agent/orchestrators/agentic/agentic.go:35-255 | one follow-up batch then an empty poll: history is reply, batch, reply; each iteration is turn_start, steering_mode "respond", deltas, turn_end; two requests and two polls; the stream ends with the full history |
| AgenticScenarios.DecideFails | agent-core/packages/agent/orchestrators/agentic/agentic.go:54-61 | a provider error becomes "steering decision failed: <error>", after one request |
| AgenticScenarios.LoopErrorAfterRound | agent-core/packages/agent/orchestrators/agentic/agentic.go:176-181 | a Steer round whose next decision fails stops the loop with the zero decision, the error recorded and the error reply as text; only the round's messages and events are added |
| AgenticScenarios.LoopErrorTurn | agent-core/packages/agent/orchestrators/agentic/agentic.go:35-255 | a tool round whose next decision fails ends the turn with the reply "I encountered an error: steering decision failed: ..." under the model "unknown", the error recorded, and no second steering_mode |
| AgenticScenarios.ErrorReplyEnds | agent-core/packages/agent/orchestrators/agentic/agentic.go:197-248 | answering after the zero decision streams the text, appends the stop message under the model "unknown", keeps the error, and ends the stream |
| AgenticScenarios.FirstSteer | agent-core/packages/agent/orchestrators/agentic/agentic.go:54-69 | a provider asking for tools gives the Steer decision, announced by steering_mode "steer" with the call count right after turn_start |
| PlanParse.FindFrom | agent-core/packages/agent/orchestrators/planexecute/planexecute.go:269 | the first occurrence of the pattern at or after the start position, or none |
| PlanParse.FindFromIsFirst | agent-core/packages/agent/orchestrators/planexecute/planexecute.go:269 | an occurrence with none before it is the one found |
| PlanParse.FenceBody | agent-core/packages/agent/orchestrators/planexecute/planexecute.go:269 | text with no fence has no fenced block |
| PlanParse.ParsePlan | agent-core/packages/agent/orchestrators/planexecute/planexecute.go:272-289 | blank text is the empty plan; otherwise the fenced body, when there is one, is decoded; a decode error is returned; missing steps become the empty plan |
| PlanParse.FenceBodyAt | agent-core/packages/agent/orchestrators/planexecute/planexecute.go:269 | given the first occurrence of a fence, and the next fence after it and its optional "json" tag, the body is the text between them, trimmed |
| PlanParse.FenceUnclosed | agent-core/packages/agent/orchestrators/planexecute/planexecute.go:269 | an opening fence with no later fence gives no fenced block |
| PlanParse.WrappedFenceBody | agent-core/packages/agent/orchestrators/planexecute/planexecute.go:269 | the captured body of a json fence around a fence-free body is that body with its surrounding newlines trimmed |
| PlanParse.FencedPlanIsUnwrapped | agent-core/packages/agent/orchestrators/planexecute/planexecute.go:278-280 | a document wrapped in a json fence is unwrapped to exactly the document |
| PlanParse.UnfencedPlanDecodedAsIs | agent-core/packages/agent/orchestrators/planexecute/planexecute.go:272-289 | unfenced text is decoded after trimming, with its error or its steps |
| PlanExecute.ToolLines | agent-core/packages/agent/orchestrators/planexecute/planexecute.go:247-250 | one "name: description" line per registered tool, in enumeration order |
| PlanExecute.ToolList | agent-core/packages/agent/orchestrators/planexecute/planexecute.go:243-253 | no registry or no tool gives "No tools available."; otherwise the tool lines joined by newlines |
| PlanExecute.BuildPlanningPrompt | agent-core/packages/agent/orchestrators/planexecute/planexecute.go:239-259 | the base prompt, or the default one, then the plan instruction, the tool list and the JSON format |
| PlanExecute.BuildSynthesisPrompt | agent-core/packages/agent/orchestrators/planexecute/planexecute.go:262-267 | the base prompt, or the default one, followed by the summary instruction |
| PlanExecute.PlanningPromptListsEveryTool | agent-core/packages/agent/orchestrators/planexecute/planexecute.go:239-259 | every registered tool's line appears in the planning prompt |
| PlanExecute.ProviderMessages | agent-core/packages/agent/orchestrators/planexecute/planexecute.go:231-236 | without a pipeline, exactly the standard messages of the history; with one, the pipeline's result |
| PlanExecute.PlanCall | agent-core/packages/agent/orchestrators/planexecute/planexecute.go:109-115 | the step's tool and arguments under the id "plan-step-" followed by the step index in decimal, which reads back as the index |
| PlanExecute.PlanCallTwelve | agent-core/packages/agent/orchestrators/planexecute/planexecute.go:109 | step 12 gets the id "plan-step-12" |
| PlanExecute.PlanCallIdsDistinct | agent-core/packages/agent/orchestrators/planexecute/planexecute.go:109 | different steps get different call ids |
| PlanExecute.StepInfos | agent-core/packages/agent/orchestrators/planexecute/planexecute.go:75-83 | one (tool, args) entry per step, in order |
| PlanExecute.StepResult | agent-core/packages/agent/orchestrators/planexecute/planexecute.go:109-115 | a step's result is a tool result for its call id and tool |
| PlanExecute.StepResults | agent-core/packages/agent/orchestrators/planexecute/planexecute.go:104-157 | one result per step in the range, in step order |
| PlanExecute.StepEvents | agent-core/packages/agent/orchestrators/planexecute/planexecute.go:116-154 | four events per step |
| PlanExecute.AllStepEventsAt | agent-core/packages/agent/orchestrators/planexecute/planexecute.go:116-154 | the events of step k sit at positions 4k to 4k+3: plan_step_start, tool_call, tool_result, plan_step_end |
| PlanExecute.Executed | agent-core/packages/agent/orchestrators/planexecute/planexecute.go:105-108 | no more steps run than remain |
| PlanExecute.RunStep | agent-core/packages/agent/orchestrators/planexecute/planexecute.go:105-156 | one step: its four events pushed, its result appended, one cancellation check, nothing else changed |
| PlanExecute.ExecuteSteps | agent-core/packages/agent/orchestrators/planexecute/planexecute.go:104-157 | execution only touches the history, and leaves the stream open or failed by cancellation |
| PlanExecute.ExecuteStepsRuns | agent-core/packages/agent/orchestrators/planexecute/planexecute.go:104-157 | exactly the steps before the first cancelled check run, in order, each appending its result and pushing its four events; cancellation fails the stream |
| PlanExecute.PlanningRequest | agent-core/packages/agent/orchestrators/planexecute/planexecute.go:52-59 | the planning request offers no tools, uses the planning prompt and its fixed sampling settings |
| PlanExecute.SynthesisRequest | agent-core/packages/agent/orchestrators/planexecute/planexecute.go:167-174 | the synthesis request offers no tools, uses the synthesis prompt and its fixed sampling settings |
| PlanExecute.GrowsToolFreeTrans | agent-core/packages/agent/orchestrators/planexecute/planexecute.go:52-174 | growing the request log by tool-free requests composes |
| PlanExecute.Plan | agent-core/packages/agent/orchestrators/planexecute/planexecute.go:45-101 | planning fails the stream with no event on a pipeline or provider error; otherwise plan_created with the parsed steps, the non-empty plan text appended, a parse error recorded |
| PlanExecute.Synthesize | agent-core/packages/agent/orchestrators/planexecute/planexecute.go:160-227 | synthesis fails the stream on an error with nothing appended; otherwise the text, or "I've completed the steps." when empty, is streamed, appended and ends the stream |
| PlanExecute.Answer | agent-core/packages/agent/orchestrators/planexecute/planexecute.go:183-227 | the answer's deltas, one stop message appended and carried by turn_end, and End with the full history |
| PlanExecute.Run | agent-core/packages/agent/orchestrators/planexecute/planexecute.go:28-228 | the turn always settles the stream, starts with turn_start, only extends history, and issues at most two requests, none offering tools |
| PlanExecute.ExecuteAndSynthesize | agent-core/packages/agent/orchestrators/planexecute/planexecute.go:104-227 | execution then synthesis settle the stream, only extend history and events, and issue at most one tool-free request |
| PlanExecuteScenarios.NoProviderFails | agent-core/packages/agent/orchestrators/planexecute/planexecute.go:34-42 | without a provider, turn_start then failure, and nothing else changes |
| PlanExecuteScenarios.PlanningCallFails | agent-core/packages/agent/orchestrators/planexecute/planexecute.go:61-66 | a failed planning call records the error and fails the stream right after turn_start |
| PlanExecuteScenarios.PlannedAfterTurnStart | agent-core/packages/agent/orchestrators/planexecute/planexecute.go:34-101 | a planning answer gives turn_start, plan_created with the parsed steps, and the plan text appended when non-empty |
| PlanExecuteScenarios.FullTurn | agent-core/packages/agent/orchestrators/planexecute/planexecute.go:28-228 | a full turn: the exact history and event sequence, two requests, and the synthesis request sees every step result |
| PlanExecuteScenarios.UnparsablePlanSkipsExecution | agent-core/packages/agent/orchestrators/planexecute/planexecute.go:68-73 | an undecodable plan is recorded as an error, no step runs, and the turn still ends normally |
| PlanExecuteScenarios.CancelledMidPlan | agent-core/packages/agent/orchestrators/planexecute/planexecute.go:105-108 | cancellation before step k fails the stream after exactly the first k steps' results and events |
| Session.Selected | agent-core/packages/agent/core/agent.go:96-99 | the configured orchestrator wins; otherwise the registered default |
| Session.Start | agent-core/packages/agent/core/agent.go:94 | the turn starts from the history with exactly the user message appended and a fresh stream |
| Session.Prompt | agent-core/packages/agent/core/agent.go:86-112 | the history keeps the user message; with no orchestrator the stream fails with no events; otherwise turn_start comes first |
| Session.Dispatch | agent-core/packages/agent/core/agent.go:107-109 | the chosen orchestrator announces the turn first, keeps the history as a prefix, and ends with the full history |
| Session.ConfiguredOrchestratorWins | agent-core/packages/agent/core/agent.go:96-99 | a configured plan-and-execute orchestrator runs whatever default is registered |
| Delegate.ToolNames | agent-core/packages/agent/tools/delegate/delegate.go:91-103 | a list gives exactly its string entries; any other value gives no names |
| Delegate.TaskText | agent-core/packages/agent/tools/delegate/delegate.go:86-89 | with an excerpt, the trimmed task, a blank line and the excerpt; otherwise the task untouched |
| Delegate.RegisterFound | agent-core/packages/agent/tools/delegate/delegate.go:165-174 | exactly the named tools present in the pool are registered |
| Delegate.BuildSubRegistry | agent-core/packages/agent/tools/delegate/delegate.go:159-176 | no pool gives an empty registry; no names gives the pool's tools; otherwise exactly the named tools found in the pool |
| Delegate.SubRegistryExcludesDelegate | agent-core/packages/agent/tools/delegate/delegate.go:159-176 | when the pool lacks the delegate tool, the sub-registry lacks it too |
| Delegate.ErrResult | agent-core/packages/agent/tools/delegate/delegate.go:179-188 | an error map with an empty response and the message, plus the trace only when non-empty |
| Delegate.Shorten | agent-core/packages/agent/tools/delegate/delegate.go:213-221 | thinking text of up to 80 UTF-8 bytes is kept; longer text becomes a proper prefix that fits in 80 bytes, which the next character would overflow, followed by "..." |
| Delegate.ShortenOnBoundary | agent-core/packages/agent/tools/delegate/delegate.go:216-217 | when the 80th byte ends a character, the result is the text's first 80 bytes and "..." |
| Delegate.ShortenAscii | agent-core/packages/agent/tools/delegate/delegate.go:216-217 | for ASCII text, up to 80 characters are kept and longer text becomes its first 80 characters and "..." |
| Delegate.CompactEventEmptyIff | agent-core/packages/agent/tools/delegate/delegate.go:191-247 | an event compacts to no line exactly when its kind is unknown or it is a steering_mode with an empty mode |
| Delegate.CompactLines | agent-core/packages/agent/tools/delegate/delegate.go:121-138 | at most one line per event, and no empty line |
| Delegate.CompactLinesPrefix | agent-core/packages/agent/tools/delegate/delegate.go:121-138 | the lines of a prefix of the events are a prefix of all the lines |
| Delegate.TraceIsPrefix | agent-core/packages/agent/tools/delegate/delegate.go:121-138 | the trace joins a prefix of the compacted lines, all of them once every event was drained |
| Delegate.SubConfig | agent-core/packages/agent/tools/delegate/delegate.go:107-114 | the sub-agent gets the caller's persona, the selected tools, the shared provider and pipeline, and nothing else |
| Delegate.Execute | agent-core/packages/agent/tools/delegate/delegate.go:79-157 | never a Go error; missing arguments give the fixed error; otherwise success exactly when the sub-agent ends with assistant text, and the trace is included only when non-empty |
| JsonValues.UnmarshalObject | agent-mind/openrouter/streaming.go:301-305 | decoding into a map succeeds for an object, with its fields, and for null, with no map |
| OpenRouter.ArgumentsText | agent-mind/openrouter/client.go:188-193 | missing arguments give ""; otherwise their encoding |
| OpenRouter.WireCalls | agent-mind/openrouter/client.go:184-200 | at most one wire call per block, each of type "function" |
| OpenRouter.WireCallsOfBlocks | agent-mind/openrouter/client.go:184-200 | every tool-call block becomes a function call with its id, name and encoded arguments; without such blocks there are none |
| OpenRouter.ResultText | agent-mind/openrouter/client.go:210-229 | the result's text, or the encoding of its details when the text is empty |
| OpenRouter.ConvertMessage | agent-mind/openrouter/client.go:161-234 | user, assistant and tool-result messages are translated with role "user", "assistant" or "tool"; every other message is dropped |
| OpenRouter.ConvertMessages | agent-mind/openrouter/client.go:161-234 | every translatable message appears, with one of the three roles, and the output is no longer than the input |
| OpenRouter.ConvertMessagesAppend | agent-mind/openrouter/client.go:161-234 | translation distributes over concatenation, so message order is kept |
| OpenRouter.ConvertMessagesIgnoresCustom | agent-mind/openrouter/client.go:161-234 | filtering custom messages first changes nothing in the translation |
| OpenRouter.ConvertTools | agent-mind/openrouter/client.go:237-252 | one "function" definition per tool, in order, with name, description and parameters copied |
| OpenRouter.BuildChatRequest | agent-mind/openrouter/streaming.go:225-252 | model, sampling settings and tools carried over; parallel tool calls exactly when tools exist; a non-empty system prompt becomes the only system message, in front |
| OpenRouter.CallArguments | agent-mind/openrouter/streaming.go:301-305 | arguments are kept exactly when they decode into a map; null gives the empty map |
| OpenRouter.DecodedCalls | agent-mind/openrouter/streaming.go:297-313 | no more calls than came back, and all of them when every argument text decodes |
| OpenRouter.DecodedCallsMembers | agent-mind/openrouter/streaming.go:297-313 | the calls kept are exactly those whose arguments decode, with id, name and decoded arguments |
| OpenRouter.ExtractResponse | agent-mind/openrouter/streaming.go:289-319 | the first choice's text and decodable calls, nothing without choices; the reported model, or the requested one when it is empty |
| OpenRouter.CompleteFromBody | agent-mind/openrouter/streaming.go:280-330 | an undecodable body is "failed to decode response: ..."; otherwise the extracted response |
| OpenRouterStream.ParseStreamingJson | agent-mind/openrouter/streaming.go:17-30 | blank, undecodable, non-object or null text gives the empty map; an object gives its fields |
| OpenRouterStream.NewParser | agent-mind/openrouter/streaming.go:106 | a fresh parser has accumulated nothing |
| OpenRouterStream.Accumulate | agent-mind/openrouter/streaming.go:181-210 | a negative index is ignored; otherwise only that index changes: a non-empty id or name overwrites, arguments are appended, and one tool_delta reports the state |
| OpenRouterStream.AccumulateAll | agent-mind/openrouter/streaming.go:181-210 | at most one tool_delta per fragment, all of them tool_deltas; fragments with negative indices change nothing |
| OpenRouterStream.ArgumentsConcatenate | agent-mind/openrouter/streaming.go:196-198 | the fragments of one index concatenate their argument texts in arrival order, with one tool_delta each |
| OpenRouterStream.FlushEvents | agent-mind/openrouter/streaming.go:130-144 | every accumulated call with a non-empty field is reported as tool_call, and only tool_call events are emitted |
| OpenRouterStream.FlushEventsOnce | agent-mind/openrouter/streaming.go:130-144 | the number of events is the number of indices whose call has a non-empty field, so each such call is reported once |
| OpenRouterStream.WithContentFirst | agent-mind/openrouter/streaming.go:130-144 | the count of calls to report is the first call's share plus the count for the rest |
| OpenRouterStream.FlushedCallsHaveContent | agent-mind/openrouter/streaming.go:130-144 | only calls with a non-empty id, name or argument text are reported |
| OpenRouterStream.TextEvents | agent-mind/openrouter/streaming.go:161-175 | one text delta per non-empty field, never empty: the content delta first and the reasoning delta last |
| OpenRouterStream.Line | agent-mind/openrouter/streaming.go:119-211 | non-data lines and undecodable data emit nothing; [DONE] flushes the calls, emits done and stops; a chunk emits text deltas then tool deltas |
| OpenRouterStream.Scan | agent-mind/openrouter/streaming.go:100-220 | done and error can only be the last event; a scanner error or a cancellation seen before the lines run out ends the stream with one of them |
| OpenRouterStream.NonDataLinesAreSkipped | agent-mind/openrouter/streaming.go:122-124 | a line without the data prefix changes neither the events nor the parser |
| OpenRouterStream.DoneFirstEmitsOnlyDone | agent-mind/openrouter/streaming.go:129-149 | a body starting with [DONE] emits only done and reads no further |
| OpenRouterStream.OneCallStream | agent-mind/openrouter/streaming.go:129-210 | one fragment then [DONE] give tool_delta, the completed tool_call, then done |
| OpenRouterStream.FirstFragment | agent-mind/openrouter/streaming.go:180-209 | the first fragment of an index on a fresh parser records its id, name and arguments as that index's state and reports one tool_delta |
| OpenRouterStream.FragmentLine | agent-mind/openrouter/streaming.go:119-210 | a data line carrying one fragment and no text emits exactly that fragment's tool_delta and does not stop the stream |
| OpenRouterStream.DoneAfterOneCall | agent-mind/openrouter/streaming.go:129-149 | [DONE] after one recorded call with content emits that tool_call, then done |

## Left out

- Goroutines, channels and buffers are left out: the event stream, the
  parallel tool round and the delegate's drain goroutine run sequentially.
  Each round's results are gathered before any event or append, so request
  order is what the code emits.
- Go map iteration order is a parameter. The registry's enumeration is an
  `order` argument with `Tools.IsListing`. The [DONE] flush reports calls
  in first-appearance order, which is one of the orders Go can take.
- HttpTools.BuildRequest does not model a `json.Marshal` failure of the
  arguments (http.go:96-99). The encoder is total here. The URL parse
  error is an input, since `net/url` is not part of this model.
- JSON encoding and decoding, and chunk decoding, are parameters. They
  stand in for the `encoding/json` package, which is not part of this model.
- The fence regular expression is written as a string search. It finds the
  first fence, skips an optional "json" tag, and takes the text up to the
  next fence, trimmed.
- Network I/O is left out: the HTTP send and receive of the HTTP tool, and
  the HTTP parts of `Stream` and `Complete`. Their outcomes are inputs:
  status, raw body and decoded value.
- Timestamps, durations, token usage and debug output are left out. A
  message's timestamp is 0.
- Temperatures are kept as tenths: 7, 3 and 5 stand for 0.7, 0.3 and 0.5.
- The process-wide default orchestrator is left out. It is passed
  explicitly.
- `Agent.Messages`, `Agent.State`, `Agent.Config`, `Tools.GetTool`,
  `NewPipeline` and the delegate's `New`, `Name`, `Description` and
  `Parameters` are plain accessors and constructors. They are not separate
  members.
- Agentic.Run: a turn that runs out of `fuel` leaves the stream open. The
  contracts therefore describe a settled stream only when it is settled.
- OpenRouter.ConvertMessage does not model a JSON encoding failure of
  assistant arguments, which Go turns into "". The encoder is total here.
- Null and empty argument maps are both the empty map. A nil map and an
  empty map are not distinguished.
- Transform.KeepRecent takes a natural number. A negative `n` makes the Go
  slice expression panic.
- EventStream.Result does not model `EndWithError(nil)`. An error
  settlement always carries an error string.
- HttpTools.Walk does not state the object and array steps itself. They are
  in ExtractPathObjects, ExtractPathArrayStep and ExtractPathIndex.
- Messages.Timestamp, Messages.AssistantError, AgentStates.Clone,
  AgentStates.ToContext and Transform.TransformContext are field accessors
  and copies with no table row of their own. What the snapshot promises is
  stated by CloneIsExact, SnapshotIgnoresRuntimeFlags, SnapshotBeforeAppend
  and TransformContextIgnoresPromptAndTools.
- Tools.ToolFromConfig: quoted names and types follow `strconv.Quote` for
  ASCII and Latin-1. Above U+00A1 every character counts as printable, so
  format characters, separators such as U+2028 and unassigned code points
  are written as they are rather than as a `\u` escape. The Unicode
  printability tables are not modelled.
- HttpTools.NewHttpTool: the quoted type has the same limit as in
  Tools.ToolFromConfig.
- Delegate.Shorten: when the 80th byte falls inside a multi-byte
  character, Go's `s[:80]` keeps that character's first bytes, which is not
  valid UTF-8. A string of characters cannot hold them, so the model drops
  the whole character.
- Cancellation is always reported as "context canceled"
  (`Provider.Canceled`). Go reports `ctx.Err()`, which is "context deadline
  exceeded" when a deadline expired (agentic.go:50 and :75, planexecute.go:106,
  streaming.go:113). Deadlines are not modelled.
- Transform.KeepFirstAndRecent takes a natural number. With a negative `n`
  the Go code always panics: on `messages[0]` when the history is empty,
  otherwise on the slice expression (helpers.go:27-28).
- HttpTools.ScanDecimal is stated only through its round trip. `fmt.Sscanf`
  with `%d` also accepts a sign and leading spaces, and the model handles
  those too, but no lemma states them.
- The delegate's sub-agent is a function from its configuration and user
  message to its events and settlement. The `seen` argument of the trace
  says how many events the drain had read when the trace was joined.

## Findings

| source | as written | input that shows it | evidently intended | confidence | as-written member | corrected member |
|---|---|---|---|---|---|---|
| agent-core/packages/stream/eventstream.go:20-25 | after `End`, both cases of the `select` are ready, and Go may pick the send on the closed events channel, which panics | `End(100)` then `Push("event2")` on a new stream | a push after settlement is dropped | not executed | EventStream.PushAsWritten, EventStream.PushAfterEndMayPanic | EventStream.Push |
