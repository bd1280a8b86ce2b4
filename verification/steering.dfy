/** The steering decision (agent-core/packages/agent/core/steering.go and
    llm_steering.go): the prompt, the tool schemas offered, the request
    sent, and how a provider response becomes Respond or Steer. Debug
    printing is left out. */
module Steering {
  import opened Wrappers
  import opened JsonValues
  import opened Messages
  import Strs
  import HttpTools
  import Tools
  import AgentStates
  import Transform
  import Provider

  /** Steering modes; `Unset` is Go's zero value, the mode of the empty
      decision returned alongside an error. */
  datatype SteeringMode = Respond | Steer | Unset

  function ModeValue(m: SteeringMode): string {
    match m
    case Respond => "respond"
    case Steer => "steer"
    case Unset => ""
  }

  /** A tool call the agent is asked to run. Nil and empty argument maps are
      not distinguished. */
  datatype ToolCallRequest = ToolCallRequest(toolCallId: string, toolName: string, args: map<string, Json>)

  datatype SteeringDecision = SteeringDecision(
    mode: SteeringMode,
    toolCalls: seq<ToolCallRequest>,
    thinkingText: string,
    response: string,
    model: string)

  /** The zero decision. */
  const ZeroDecision := SteeringDecision(Unset, [], "", "", "")

  const DefaultBasePrompt := "You are a helpful AI assistant."

  /** Appended, with no separator, to the base prompt of a follow-up call. */
  const FollowUpInstruction :=
    "You have just received tool results. Based on these results, you must decide:\n"
    + "\t\t1. If the task requires MORE tool calls (e.g. user asked for multiple items and you have results for only some), call tools for the remaining items. \n"
    + "\t\tDo NOT reply with a final answer until you have tool results for all requested items.\n"
    + "\t\t2. If you have ENOUGH information from tools, provide a final natural language response to the user.\n"
    + "\t\t3. If you cannot complete the task with the tools or results you have, respond clearly that you don't have enough information\U{2014}do not invent or guess data.\n"
    + "\t\tCRITICAL: Do NOT repeat the same tool call if you already have its results. \n"
    + "\t\tDo NOT hallucinate: only use real tool results or say you couldn't complete the request."

  /** The instruction of an initial call when none is configured. */
  const DefaultInstruction :=
    "When the user's query can be answered using the available tools, you MUST call the appropriate tool(s) first\U{2014}do not answer with text alone. "
    + "After you have tool results, provide a concise final response. For other queries, provide helpful, concise responses."

  /** The base prompt, or the default one when it is empty. */
  function EffectiveBase(base: string): (b: string)
    ensures b != ""
    ensures base != "" ==> b == base
  {
    if base == "" then DefaultBasePrompt else base
  }

  /** `buildSteeringPrompt`: a follow-up call gets the fixed follow-up text
      directly after the base and ignores any configured instruction; an
      initial call gets a blank line and then the configured instruction, or
      the default one. */
  function BuildSteeringPrompt(base: string, isFollowUp: bool, instruction: string): (p: string)
    ensures isFollowUp ==> p == EffectiveBase(base) + FollowUpInstruction
    ensures !isFollowUp && instruction != "" ==> p == EffectiveBase(base) + "\n\n" + instruction
    ensures !isFollowUp && instruction == "" ==> p == EffectiveBase(base) + "\n\n" + DefaultInstruction
  {
    var b := EffectiveBase(base);
    if isFollowUp then b + FollowUpInstruction
    else if instruction != "" then b + "\n\n" + instruction
    else b + "\n\n" + DefaultInstruction
  }

  /** Every steering prompt starts with the (effective) base prompt, and the
      configured instruction matters only on an initial call. */
  lemma SteeringPromptShape(base: string, isFollowUp: bool, instruction: string, other: string)
    ensures var p := BuildSteeringPrompt(base, isFollowUp, instruction);
            Strs.HasPrefix(p, EffectiveBase(base)) && |p| > |EffectiveBase(base)|
    ensures isFollowUp ==> BuildSteeringPrompt(base, true, instruction) == BuildSteeringPrompt(base, true, other)
    ensures !isFollowUp && instruction != other && instruction != "" && other != "" ==>
              BuildSteeringPrompt(base, false, instruction) != BuildSteeringPrompt(base, false, other)
  {
    var b := EffectiveBase(base);
    var p := BuildSteeringPrompt(base, isFollowUp, instruction);
    assert p[..|b|] == b;
    if instruction != "" && other != "" {
      assert BuildSteeringPrompt(base, false, instruction)[|b| + 2..] == instruction;
      assert BuildSteeringPrompt(base, false, other)[|b| + 2..] == other;
    }
  }

  /** The schema of one property as offered to the provider. */
  function PropertyJson(p: HttpTools.Property): Json {
    JObject(map["type" := JString(p.typ), "description" := JString(p.description)])
  }

  /** A tool's definition as offered to the provider: name, description, and
      a parameters object holding the type, one {type, description} object
      per property, and the required list. */
  function ToolSchema(t: Tools.Tool): (pt: Provider.ProviderTool)
    ensures pt.name == t.Name() && pt.description == t.Description()
    ensures pt.parameters.JObject? && pt.parameters.fields.Keys == {"type", "properties", "required"}
    ensures pt.parameters.fields["type"] == JString(t.Parameters().typ)
    ensures var props := pt.parameters.fields["properties"];
            props.JObject? && props.fields.Keys == t.Parameters().properties.Keys
            && forall k :: k in props.fields ==> props.fields[k] == PropertyJson(t.Parameters().properties[k])
    ensures var req := pt.parameters.fields["required"];
            req.JArray? && |req.items| == |t.Parameters().required|
            && forall i :: 0 <= i < |req.items| ==> req.items[i] == JString(t.Parameters().required[i])
  {
    var params := t.Parameters();
    var props := map k | k in params.properties :: PropertyJson(params.properties[k]);
    var req := seq(|params.required|, i requires 0 <= i < |params.required| => JString(params.required[i]));
    Provider.ProviderTool(t.Name(), t.Description(),
      JObject(map["type" := JString(params.typ), "properties" := JObject(props), "required" := JArray(req)]))
  }

  /** `convertToolsToProvider`: no registry offers nothing; otherwise one
      definition per registered tool, in the registry's enumeration order. */
  function ConvertToolsToProvider(r: Option<Tools.Registry>, order: seq<string>): (ts: seq<Provider.ProviderTool>)
    requires r.Some? ==> Tools.IsListing(order, r.value)
    ensures r.None? ==> ts == []
    ensures r.Some? ==> |ts| == |order|
    ensures r.Some? ==> forall i :: 0 <= i < |ts| ==> ts[i] == ToolSchema(r.value.tools[order[i]])
  {
    match r
    case None => []
    case Some(reg) =>
      var tools := Tools.ToolsInOrder(reg, order);
      seq(|tools|, i requires 0 <= i < |tools| => ToolSchema(tools[i]))
  }

  /** In a valid registry, the offered definitions name every registered
      tool exactly once. */
  lemma OfferedToolsAreTheRegistry(r: Tools.Registry, order: seq<string>)
    requires Tools.Valid(r) && Tools.IsListing(order, r)
    ensures var ts := ConvertToolsToProvider(Some(r), order);
            (forall n :: n in r.tools <==> exists i :: 0 <= i < |ts| && ts[i].name == n)
            && forall i, j :: 0 <= i < j < |ts| ==> ts[i].name != ts[j].name
  {
    var ts := ConvertToolsToProvider(Some(r), order);
    forall n | n in r.tools ensures exists i :: 0 <= i < |ts| && ts[i].name == n {
      var i :| 0 <= i < |order| && order[i] == n;
      assert ts[i].name == n;
    }
  }

  /** The provider messages of a steering call: the pipeline's output, or
      the snapshot's messages unfiltered when there is no pipeline. */
  function SteeringMessages(c: AgentStates.AgentContext, pipeline: Option<Transform.Pipeline>): (r: Result<seq<Message>, string>)
    ensures pipeline.None? ==> r == Ok(c.messages)
    ensures pipeline.Some? ==> (r.Ok? <==> Transform.TransformContext(pipeline.value, c).Ok?)
    ensures pipeline.Some? && r.Ok? ==> r.value == Transform.TransformContext(pipeline.value, c).value
    ensures pipeline.Some? && r.Err? ==> r.error == "pipeline transform: " + Transform.TransformContext(pipeline.value, c).error
  {
    match pipeline
    case None => Ok(c.messages)
    case Some(p) =>
      match Transform.TransformContext(p, c)
      case Err(e) => Err("pipeline transform: " + e)
      case Ok(ms) => Ok(ms)
  }

  /** `"I'll use a, b to help answer this."` for the called tool names. */
  function ThinkingText(names: seq<string>): string {
    "I'll use " + Strs.Join(names, ", ") + " to help answer this."
  }

  /** The decision a provider response gives: Steer, with one request per
      tool call in order and the thinking text, when there are tool calls;
      otherwise Respond with the response text. The model is passed
      through either way. */
  function DecisionFromResponse(resp: Provider.CompletionResponse): (d: SteeringDecision)
    ensures d.model == resp.model
    ensures d.mode == Steer <==> |resp.toolCalls| > 0
    ensures d.mode == Respond <==> |resp.toolCalls| == 0
    ensures d.mode == Respond ==> d.response == resp.text && d.toolCalls == []
    ensures d.mode == Steer ==> |d.toolCalls| == |resp.toolCalls|
    ensures d.mode == Steer ==>
              forall i :: 0 <= i < |d.toolCalls| ==>
                d.toolCalls[i] == ToolCallRequest(resp.toolCalls[i].id, resp.toolCalls[i].name, resp.toolCalls[i].arguments)
    ensures d.mode == Steer ==>
              d.thinkingText == ThinkingText(seq(|resp.toolCalls|, i requires 0 <= i < |resp.toolCalls| => resp.toolCalls[i].name))
  {
    if |resp.toolCalls| > 0 then
      var calls := seq(|resp.toolCalls|, i requires 0 <= i < |resp.toolCalls| =>
                       ToolCallRequest(resp.toolCalls[i].id, resp.toolCalls[i].name, resp.toolCalls[i].arguments));
      var names := seq(|resp.toolCalls|, i requires 0 <= i < |resp.toolCalls| => resp.toolCalls[i].name);
      SteeringDecision(Steer, calls, ThinkingText(names), "", resp.model)
    else SteeringDecision(Respond, [], "", resp.text, resp.model)
  }

  /** The outcome of `makeSteeringDecision`: the request sent (none when
      the pipeline failed first) and the decision or error. */
  datatype SteeringCall = SteeringCall(request: Option<Provider.CompletionRequest>, decision: Result<SteeringDecision, string>)

  /** `makeSteeringDecision`, given the provider's answer to the request it
      would send. A pipeline failure sends nothing; a provider failure is
      reported as an error; failures never yield a decision. */
  function MakeSteeringDecision(
    c: AgentStates.AgentContext,
    pipeline: Option<Transform.Pipeline>,
    registry: Option<Tools.Registry>,
    order: seq<string>,
    isFollowUp: bool,
    instruction: string,
    answer: Result<Provider.CompletionResponse, string>): (r: SteeringCall)
    requires registry.Some? ==> Tools.IsListing(order, registry.value)
    ensures r.request.None? <==> SteeringMessages(c, pipeline).Err?
    ensures r.request.None? ==> r.decision == Err(SteeringMessages(c, pipeline).error)
    ensures r.request.Some? ==>
              r.request.value == Provider.CompletionRequest(
                SteeringMessages(c, pipeline).value,
                BuildSteeringPrompt(c.systemPrompt, isFollowUp, instruction),
                7, 1000, ConvertToolsToProvider(registry, order))
    ensures r.request.Some? && answer.Err? ==> r.decision == Err("steering decision failed: " + answer.error)
    ensures r.request.Some? && answer.Ok? ==> r.decision == Ok(DecisionFromResponse(answer.value))
  {
    match SteeringMessages(c, pipeline)
    case Err(e) => SteeringCall(None, Err(e))
    case Ok(ms) =>
      var req := Provider.CompletionRequest(ms, BuildSteeringPrompt(c.systemPrompt, isFollowUp, instruction),
                                            7, 1000, ConvertToolsToProvider(registry, order));
      match answer
      case Err(e) => SteeringCall(Some(req), Err("steering decision failed: " + e))
      case Ok(resp) => SteeringCall(Some(req), Ok(DecisionFromResponse(resp)))
  }

  /** Without a pipeline every snapshot message, standard or not, reaches
      the provider: nothing is filtered. */
  lemma NoPipelineSendsEverything(c: AgentStates.AgentContext, registry: Option<Tools.Registry>, order: seq<string>,
                                  isFollowUp: bool, instruction: string, answer: Result<Provider.CompletionResponse, string>)
    requires registry.Some? ==> Tools.IsListing(order, registry.value)
    ensures var r := MakeSteeringDecision(c, None, registry, order, isFollowUp, instruction, answer);
            r.request.Some? && r.request.value.messages == c.messages
  {
  }
}
