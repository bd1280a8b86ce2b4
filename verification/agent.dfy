/** The agent core (agent-core/packages/agent/core/agent.go): configuration,
    state initialisation and reset, the steering call, tool execution and
    error extraction. Tool bodies are an oracle; an unset message timestamp
    is 0, as in Go. */
module Agent {
  import opened Wrappers
  import opened JsonValues
  import opened Content
  import opened Messages
  import Tools
  import AgentStates
  import Transform
  import Provider
  import Steering

  /** The orchestrators a configuration can name. */
  datatype Orchestrator = AgenticLoop | PlanAndExecute

  /** `AgentConfig`. The message sources answer their `n`-th poll. */
  datatype AgentConfig = AgentConfig(
    systemPrompt: string,
    pipeline: Option<Transform.Pipeline>,
    tools: Option<Tools.Registry>,
    provider: Option<Provider.ScriptedProvider>,
    getSteeringMessages: Option<nat -> seq<Message>>,
    getFollowUpMessages: Option<nat -> seq<Message>>,
    steeringInstruction: string,
    orchestrator: Option<Orchestrator>)

  datatype AgentValue = AgentValue(config: AgentConfig, state: AgentStates.AgentState)

  /** The state an agent starts from, and returns to on `Reset`. */
  predicate IsInitialState(cfg: AgentConfig, s: AgentStates.AgentState) {
    s.systemPrompt == cfg.systemPrompt && s.tools == cfg.tools && s.messages == []
    && !s.isStreaming && s.streamMessage.None? && s.pendingToolCalls == {} && s.error.None?
  }

  /** `newAgentState`: empty history, no pending calls, no error, not
      streaming; prompt and registry from the configuration. */
  function NewAgentState(cfg: AgentConfig): (s: AgentStates.AgentState)
    ensures IsInitialState(cfg, s)
  {
    AgentStates.AgentState(cfg.systemPrompt, cfg.tools, [], false, None, {}, None)
  }

  function NewAgent(cfg: AgentConfig): (a: AgentValue)
    ensures a.config == cfg && IsInitialState(cfg, a.state)
  {
    AgentValue(cfg, NewAgentState(cfg))
  }

  /** `Reset`: whatever the agent went through, it is back to the state of
      a new agent with the same configuration. */
  function Reset(a: AgentValue): (r: AgentValue)
    ensures r.config == a.config && IsInitialState(a.config, r.state)
    ensures r == NewAgent(a.config)
  {
    NewAgent(a.config)
  }

  /** `SetError`: records the error and changes nothing else. */
  function SetError(s: AgentStates.AgentState, e: string): (s': AgentStates.AgentState)
    ensures s'.error == Some(e)
    ensures s'.(error := s.error) == s
  {
    s.(error := Some(e))
  }

  /** `Agent.SteeringDecision`: with no provider, an empty Respond decision
      and no call; otherwise the steering call on a snapshot of the state. */
  function DecideSteering(a: AgentValue, order: seq<string>, isFollowUp: bool,
                          answer: Result<Provider.CompletionResponse, string>): (r: Steering.SteeringCall)
    requires a.config.tools.Some? ==> Tools.IsListing(order, a.config.tools.value)
    ensures a.config.provider.None? ==>
              r.request.None? && r.decision == Ok(Steering.SteeringDecision(Steering.Respond, [], "", "", ""))
    ensures a.config.provider.Some? ==>
              r == Steering.MakeSteeringDecision(AgentStates.Clone(AgentStates.ToContext(a.state)), a.config.pipeline,
                                                 a.config.tools, order, isFollowUp, a.config.steeringInstruction, answer)
  {
    if a.config.provider.None? then Steering.SteeringCall(None, Ok(Steering.SteeringDecision(Steering.Respond, [], "", "", "")))
    else Steering.MakeSteeringDecision(AgentStates.Clone(AgentStates.ToContext(a.state)), a.config.pipeline,
                                       a.config.tools, order, isFollowUp, a.config.steeringInstruction, answer)
  }

  /** What running a registered tool on some arguments gives. */
  type ToolRunner = (Tools.Tool, map<string, Json>) -> Result<Json, string>

  /** A failed tool result carrying one text block. */
  function ErrorResult(call: Steering.ToolCallRequest, text: string): Message {
    ToolResultMessage([TextContent(text)], call.toolCallId, call.toolName, None, true, 0)
  }

  /** `ExecuteTool`: never fails, always a tool result for the request. No
      registry, an unknown name and a tool error each give an error result
      with one text block; success gives the value as details and its JSON
      encoding as the one text block. */
  function ExecuteTool(tools: Option<Tools.Registry>, run: ToolRunner, encode: Encoder,
                       call: Steering.ToolCallRequest): (m: Message)
    ensures m.ToolResultMessage? && m.toolCallId == call.toolCallId && m.toolName == call.toolName
    ensures tools.None? ==> m == ErrorResult(call, "tool registry not configured")
    ensures tools.Some? && call.toolName !in tools.value.tools ==>
              m == ErrorResult(call, "tool not found: " + call.toolName)
    ensures tools.Some? && call.toolName in tools.value.tools ==>
              var out := run(tools.value.tools[call.toolName], call.args);
              (out.Err? ==> m == ErrorResult(call, out.error))
              && (out.Ok? ==> !m.isError && m.details == Some(out.value) && m.content == [TextContent(encode(out.value))])
  {
    match tools
    case None => ErrorResult(call, "tool registry not configured")
    case Some(reg) =>
      match Tools.Get(reg, call.toolName)
      case None => ErrorResult(call, "tool not found: " + call.toolName)
      case Some(tool) =>
        match run(tool, call.args)
        case Err(e) => ErrorResult(call, e)
        case Ok(v) => ToolResultMessage([TextContent(encode(v))], call.toolCallId, call.toolName, Some(v), false, 0)
  }

  /** The text of the first text block, if any. */
  function FirstText(blocks: seq<ContentBlock>): (r: Option<string>)
    ensures r.None? <==> forall i :: 0 <= i < |blocks| ==> !blocks[i].TextContent?
    ensures r.Some? ==> exists i :: 0 <= i < |blocks| && blocks[i] == TextContent(r.value)
                                   && forall j :: 0 <= j < i ==> !blocks[j].TextContent?
  {
    if |blocks| == 0 then None
    else if blocks[0].TextContent? then
      assert blocks[0] == TextContent(blocks[0].text);
      Some(blocks[0].text)
    else
      var r := FirstText(blocks[1..]);
      if r.Some? then
        ghost var i :| 0 <= i < |blocks[1..]| && blocks[1..][i] == TextContent(r.value)
                       && forall j :: 0 <= j < i ==> !blocks[1..][j].TextContent?;
        assert blocks[i + 1] == TextContent(r.value);
        r
      else r
  }

  /** `ToolResultError`: "" for a successful result; otherwise the first
      text block's text, or "unknown error" when there is none. */
  function ToolResultError(m: Message): (e: string)
    requires m.ToolResultMessage?
    ensures !m.isError ==> e == ""
    ensures m.isError && FirstText(m.content).None? ==> e == "unknown error"
    ensures m.isError && FirstText(m.content).Some? ==> e == FirstText(m.content).value
  {
    if !m.isError then ""
    else match FirstText(m.content)
      case None => "unknown error"
      case Some(t) => t
  }

  /** The error reported for an executed tool is exactly the failure text
      `ExecuteTool` put there, and "" on success. */
  lemma ExecuteToolErrorRoundTrip(tools: Option<Tools.Registry>, run: ToolRunner, encode: Encoder,
                                  call: Steering.ToolCallRequest)
    ensures var m := ExecuteTool(tools, run, encode, call);
            ToolResultError(m) ==
              if tools.None? then "tool registry not configured"
              else if call.toolName !in tools.value.tools then "tool not found: " + call.toolName
              else match run(tools.value.tools[call.toolName], call.args)
                   case Err(e) => e
                   case Ok(_) => ""
  {
    var m := ExecuteTool(tools, run, encode, call);
    if m.isError {
      assert m.content[0].TextContent?;
    }
  }
}
