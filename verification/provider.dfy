/** The provider-facing types (agent-mind/provider/types.go) and the
    scripted provider the orchestrators are run against. */
module Provider {
  import opened Wrappers
  import opened JsonValues
  import opened Messages

  /** One tool call the model asked for. Nil and empty argument maps are
      not distinguished. */
  datatype ToolCallResponse = ToolCallResponse(id: string, name: string, arguments: map<string, Json>)

  /** A completed response. Token usage is carried by the source but read by
      nothing in the core, so it is not modelled. */
  datatype CompletionResponse = CompletionResponse(text: string, toolCalls: seq<ToolCallResponse>, model: string)

  /** A tool definition offered to the model. */
  datatype ProviderTool = ProviderTool(name: string, description: string, parameters: Json)

  /** A completion request. The temperature is kept in tenths (0.7 is 7). */
  datatype CompletionRequest = CompletionRequest(
    messages: seq<Message>,
    systemPrompt: string,
    temperatureTenths: nat,
    maxTokens: nat,
    tools: seq<ProviderTool>)

  /** Incremental tool-call state carried by a `tool_delta` stream event. */
  datatype ToolCallStreamPayload = ToolCallStreamPayload(index: int, id: string, name: string, arguments: map<string, Json>)

  /** What a stream event carries besides its type and text. */
  datatype StreamContent =
    | NoContent
    | DeltaPayload(payload: ToolCallStreamPayload)
    | CallPayload(call: ToolCallResponse)

  /** A streamed event. */
  datatype StreamEvent = StreamEvent(eventType: string, delta: string, content: StreamContent, error: Option<string>)

  /** The error text of a cancelled context (Go's `context.Canceled`),
      which both the orchestrators and the streaming client report. An
      expired deadline ("context deadline exceeded") is not modelled. */
  const Canceled := "context canceled"

  const EventStart := "start"
  const EventTextDelta := "text_delta"
  const EventToolCall := "tool_call"
  const EventToolDelta := "tool_delta"
  const EventDone := "done"
  const EventError := "error"

  /** A provider as the orchestrators see it: its name, and the outcome of
      its `n`-th completion call (counting from 0 across the run). */
  datatype ScriptedProvider = ScriptedProvider(name: string, complete: nat -> Result<CompletionResponse, string>)
}
