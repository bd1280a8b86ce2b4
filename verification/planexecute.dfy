/** The plan-and-execute turn (agent-core/packages/agent/orchestrators/planexecute):
    one planning call that must answer with a JSON plan, the plan's tool
    steps run in order, and one synthesis call whose answer is streamed.
    Decoding a plan document is an oracle. */
module PlanExecute {
  import opened Wrappers
  import opened JsonValues
  import opened Content
  import opened Messages
  import Strs
  import Tools
  import AgentStates
  import Transform
  import Provider
  import Steering
  import Agent
  import Events
  import EventStream
  import opened Orchestration
  import opened PlanParse

  // ---------------------------------------------------------------------
  // Prompts

  const PlanIntro := "\n\nYou must output a JSON plan for the user's request using ONLY the following tools:\n"
  const NoTools := "No tools available."
  const PlanFormat :=
    "\n\nOutput a single JSON object with this exact format (no other text):\n\t\t"
    + "{\"steps\":[{\"tool\":\"<tool_name>\",\"args\":{...}}, ...]}\n\t\t"
    + "Use only the tool names listed above. If no tools are needed, use: {\"steps\":[]}."
  const SynthesisInstruction :=
    "\n\nYou have executed a plan and received tool results. Provide a concise, natural language summary "
    + "for the user based on the conversation and the tool results. Do not repeat raw JSON or tool internals."

  /** The line describing one tool: its name, a colon, its description. */
  function ToolLine(t: Tools.Tool): string {
    t.Name() + ": " + t.Description()
  }

  /** The "name: description" lines of the registered tools, in the
      registry's enumeration order. */
  function ToolLines(r: Tools.Registry, order: seq<string>): (lines: seq<string>)
    requires Tools.IsListing(order, r)
    ensures |lines| == |order|
    ensures forall i :: 0 <= i < |order| ==> lines[i] == ToolLine(r.tools[order[i]])
  {
    seq(|order|, i requires 0 <= i < |order| => ToolLine(r.tools[order[i]]))
  }

  /** The tool list of the planning prompt: the tool lines joined by
      newlines, or "No tools available." when there is no registry or it is
      empty. */
  function ToolList(tools: Option<Tools.Registry>, order: seq<string>): (s: string)
    requires tools.Some? ==> Tools.IsListing(order, tools.value)
    ensures tools.None? || |tools.value.tools| == 0 ==> s == NoTools
    ensures tools.Some? && |tools.value.tools| > 0 ==> s == Strs.Join(ToolLines(tools.value, order), "\n")
  {
    if tools.None? || |tools.value.tools| == 0 then NoTools
    else Strs.Join(ToolLines(tools.value, order), "\n")
  }

  /** `buildPlanningPrompt`: the base prompt (the default one when empty),
      the instruction naming the tools, the tool list, and the format. */
  function BuildPlanningPrompt(base: string, tools: Option<Tools.Registry>, order: seq<string>): (p: string)
    requires tools.Some? ==> Tools.IsListing(order, tools.value)
    ensures base != "" ==> Strs.HasPrefix(p, base)
    ensures base == "" ==> Strs.HasPrefix(p, Steering.DefaultBasePrompt)
    ensures p == Steering.EffectiveBase(base) + PlanIntro + ToolList(tools, order) + PlanFormat
  {
    var b := Steering.EffectiveBase(base);
    var p := b + PlanIntro + ToolList(tools, order) + PlanFormat;
    assert p[..|b|] == b;
    p
  }

  /** `buildSynthesisPrompt`: the base prompt (the default one when empty)
      followed by the summary instruction. */
  function BuildSynthesisPrompt(base: string): (p: string)
    ensures base != "" ==> Strs.HasPrefix(p, base)
    ensures base == "" ==> Strs.HasPrefix(p, Steering.DefaultBasePrompt)
    ensures |p| >= |SynthesisInstruction| && p[|p| - |SynthesisInstruction|..] == SynthesisInstruction
  {
    var b := Steering.EffectiveBase(base);
    var p := b + SynthesisInstruction;
    assert p[..|b|] == b;
    assert p[|p| - |SynthesisInstruction|..] == SynthesisInstruction;
    p
  }

  /** Every registered tool is described in the planning prompt by its
      "name: description" line. */
  lemma PlanningPromptListsEveryTool(base: string, r: Tools.Registry, order: seq<string>, name: string)
    requires Tools.IsListing(order, r) && name in r.tools
    ensures exists a, b :: BuildPlanningPrompt(base, Some(r), order) == a + ToolLine(r.tools[name]) + b
  {
    var i :| 0 <= i < |order| && order[i] == name;
    var lines := ToolLines(r, order);
    Strs.JoinContains(lines, "\n", i);
    var a, b :| Strs.Join(lines, "\n") == a + lines[i] + b;
    assert |r.tools| > 0 by { assert order[i] in r.tools; }
    var x := Steering.EffectiveBase(base) + PlanIntro;
    var p := BuildPlanningPrompt(base, Some(r), order);
    assert ToolList(Some(r), order) == a + lines[i] + b;
    assert p == x + (a + lines[i] + b) + PlanFormat;
    Strs.Regroup(x, a, lines[i], b, PlanFormat);
    Strs.InfixWitness(p, x + a, ToolLine(r.tools[name]), b + PlanFormat);
  }

  // ---------------------------------------------------------------------
  // The turn

  const NoProviderError := "plan-and-execute: no provider configured"
  const DefaultSynthesisText := "I've completed the steps."

  /** `buildProviderMessages`: the pipeline's transform of the context when
      there is a pipeline; otherwise the standard messages of the history,
      in order. */
  function ProviderMessages(c: AgentStates.AgentContext, pipeline: Option<Transform.Pipeline>): (r: Result<seq<Message>, string>)
    ensures pipeline.None? ==> r.Ok? && r.value == ConvertToLLM(c.messages)
    ensures pipeline.None? ==> forall m :: m in r.value <==> m in c.messages && IsStandard(m)
    ensures pipeline.Some? ==> r == Transform.TransformContext(pipeline.value, c)
  {
    match pipeline
    case Some(p) => Transform.TransformContext(p, c)
    case None => Ok(ConvertToLLM(c.messages))
  }

  /** The tool call a plan step becomes: id "plan-step-<index>", the step's
      tool and arguments. */
  function PlanCall(i: nat, step: PlanStep): (call: Steering.ToolCallRequest)
    ensures call.toolName == step.tool && call.args == step.args
    ensures Strs.HasPrefix(call.toolCallId, "plan-step-")
    ensures call.toolCallId == "plan-step-" + Strs.NatToString(i)
    ensures Strs.DigitsValue(call.toolCallId[10..]) == i
  {
    var call := Steering.ToolCallRequest("plan-step-" + Strs.NatToString(i), step.tool, step.args);
    assert call.toolCallId[..10] == "plan-step-";
    assert call.toolCallId[10..] == Strs.NatToString(i);
    Strs.NatToStringRoundTrip(i);
    call
  }

  /** The thirteenth step's call id is "plan-step-12". */
  lemma PlanCallTwelve(step: PlanStep)
    ensures PlanCall(12, step).toolCallId == "plan-step-12"
  {
    assert Strs.NatToString(1) == "1";
    assert Strs.NatToString(12) == "12";
  }

  /** Distinct steps get distinct call ids. */
  lemma PlanCallIdsDistinct(i: nat, j: nat, a: PlanStep, b: PlanStep)
    requires i != j
    ensures PlanCall(i, a).toolCallId != PlanCall(j, b).toolCallId
  {
    Strs.NatToStringInjective(i, j);
  }

  /** The plan as reported by plan_created: each step's tool and arguments. */
  function StepInfos(steps: seq<PlanStep>): (infos: seq<Events.PlanStepInfo>)
    ensures |infos| == |steps|
    ensures forall i :: 0 <= i < |steps| ==> infos[i] == Events.PlanStepInfo(steps[i].tool, steps[i].args)
  {
    seq(|steps|, i requires 0 <= i < |steps| => Events.PlanStepInfo(steps[i].tool, steps[i].args))
  }

  /** The result of running step `i`. */
  function StepResult(env: Env, i: nat, step: PlanStep): (m: Message)
    ensures m.ToolResultMessage? && m.toolCallId == PlanCall(i, step).toolCallId && m.toolName == step.tool
  {
    Agent.ExecuteTool(env.cfg.tools, env.run, env.encode, PlanCall(i, step))
  }

  /** The results of steps `lo` up to `hi`, in plan order. */
  function StepResults(env: Env, steps: seq<PlanStep>, lo: nat, hi: nat): (rs: seq<Message>)
    requires lo <= hi <= |steps|
    ensures |rs| == hi - lo
    ensures forall k :: 0 <= k < hi - lo ==> rs[k] == StepResult(env, lo + k, steps[lo + k])
  {
    seq(hi - lo, k requires 0 <= k < hi - lo => StepResult(env, lo + k, steps[lo + k]))
  }

  /** The four events of step `i` of `n`: plan_step_start, tool_call,
      tool_result and plan_step_end, the last two carrying the result's
      details and error text. */
  function StepEvents(i: nat, n: nat, step: PlanStep, res: Message): (es: seq<Events.AgentEvent>)
    requires res.ToolResultMessage?
    ensures |es| == 4
  {
    var call := PlanCall(i, step);
    var err := Agent.ToolResultError(res);
    [Events.PlanStepStart(i, n, step.tool, step.args),
     Events.ToolCall(call.toolCallId, step.tool, step.args),
     Events.ToolResult(call.toolCallId, step.tool, res.details, err),
     Events.PlanStepEnd(i, n, step.tool, res.details, err)]
  }

  /** The events of steps `lo` up to `hi`, in plan order. */
  function AllStepEvents(env: Env, steps: seq<PlanStep>, lo: nat, hi: nat): (es: seq<Events.AgentEvent>)
    requires lo <= hi <= |steps|
    ensures |es| == 4 * (hi - lo)
    decreases hi - lo
  {
    if lo == hi then [] else StepEvents(lo, |steps|, steps[lo], StepResult(env, lo, steps[lo])) + AllStepEvents(env, steps, lo + 1, hi)
  }

  /** The events of step `lo + k` sit at positions 4k to 4k + 3. */
  lemma AllStepEventsAt(env: Env, steps: seq<PlanStep>, lo: nat, hi: nat, k: nat)
    requires lo <= hi <= |steps| && k < hi - lo
    ensures AllStepEvents(env, steps, lo, hi)[4 * k..4 * k + 4] == StepEvents(lo + k, |steps|, steps[lo + k], StepResult(env, lo + k, steps[lo + k]))
  {
    StepEventsAt(env, steps, lo, hi, lo + k);
  }

  /** The same, by the step's own index `j`. */
  lemma {:induction false} StepEventsAt(env: Env, steps: seq<PlanStep>, lo: nat, hi: nat, j: nat)
    requires lo <= j < hi <= |steps|
    ensures AllStepEvents(env, steps, lo, hi)[4 * (j - lo)..4 * (j - lo) + 4] == StepEvents(j, |steps|, steps[j], StepResult(env, j, steps[j]))
    decreases j - lo
  {
    if j > lo {
      StepEventsAt(env, steps, lo + 1, hi, j);
      AllStepEventsShift(env, steps, lo, hi, j - lo);
    } else {
      AllStepEventsHead(env, steps, lo, hi);
    }
  }

  /** The first four events of a non-empty range are the first step's. */
  lemma AllStepEventsHead(env: Env, steps: seq<PlanStep>, lo: nat, hi: nat)
    requires lo < hi <= |steps|
    ensures AllStepEvents(env, steps, lo, hi)[0..4] == StepEvents(lo, |steps|, steps[lo], StepResult(env, lo, steps[lo]))
  {
    AllStepEventsFirst(env, steps, lo, hi);
    SliceFront(StepEvents(lo, |steps|, steps[lo], StepResult(env, lo, steps[lo])), AllStepEvents(env, steps, lo + 1, hi));
  }

  /** Past the first step, block `k` of a range is block `k - 1` of the range
      one step shorter. */
  lemma AllStepEventsShift(env: Env, steps: seq<PlanStep>, lo: nat, hi: nat, k: nat)
    requires lo < hi <= |steps| && 0 < k < hi - lo
    ensures AllStepEvents(env, steps, lo, hi)[4 * k..4 * k + 4] == AllStepEvents(env, steps, lo + 1, hi)[4 * (k - 1)..4 * (k - 1) + 4]
  {
    AllStepEventsFirst(env, steps, lo, hi);
    SliceAfter(StepEvents(lo, |steps|, steps[lo], StepResult(env, lo, steps[lo])), AllStepEvents(env, steps, lo + 1, hi), 4 * k, 4 * k + 4);
  }

  /** The leading slice of length |a| is `a`. */
  lemma SliceFront<T>(a: seq<T>, b: seq<T>)
    ensures (a + b)[0..|a|] == a
  {
  }

  /** The events of a non-empty range: the first step's, then the rest. */
  lemma AllStepEventsFirst(env: Env, steps: seq<PlanStep>, lo: nat, hi: nat)
    requires lo < hi <= |steps|
    ensures AllStepEvents(env, steps, lo, hi) == StepEvents(lo, |steps|, steps[lo], StepResult(env, lo, steps[lo])) + AllStepEvents(env, steps, lo + 1, hi)
  {
  }

  /** A slice lying wholly past `a` is a slice of `b`. */
  lemma SliceAfter<T>(a: seq<T>, b: seq<T>, x: nat, y: nat)
    requires |a| <= x <= y <= |a| + |b|
    ensures (a + b)[x..y] == b[x - |a|..y - |a|]
  {
  }

  /** The results of a non-empty range: the first step's, then the rest. */
  lemma StepResultsFirst(env: Env, steps: seq<PlanStep>, lo: nat, hi: nat)
    requires lo < hi <= |steps|
    ensures StepResults(env, steps, lo, hi) == [StepResult(env, lo, steps[lo])] + StepResults(env, steps, lo + 1, hi)
  {
  }

  /** Passing one more check with one step fewer to go runs one step fewer. */
  lemma ExecutedStep(env: Env, checks: nat, remaining: nat)
    requires remaining > 0 && !(env.cancelAt.Some? && checks >= env.cancelAt.value)
    ensures Executed(env, checks, remaining) == 1 + Executed(env, checks + 1, remaining - 1)
  {
  }

  /** How many of `remaining` steps run before a cancellation check fails,
      when the next check is number `checks`. */
  function Executed(env: Env, checks: nat, remaining: nat): (m: nat)
    ensures m <= remaining
  {
    if env.cancelAt.None? || env.cancelAt.value >= checks + remaining then remaining
    else if env.cancelAt.value <= checks then 0
    else env.cancelAt.value - checks
  }

  /** One step that passed its cancellation check: its four events are
      pushed and its result appended to the history. */
  function RunStep(env: Env, w: World, steps: seq<PlanStep>, i: nat): (w1: World)
    requires w.stream.Open? && i < |steps|
    ensures w1.stream == EventStream.Open(w.stream.events + StepEvents(i, |steps|, steps[i], StepResult(env, i, steps[i])))
    ensures w1.state == w.state.(messages := w.state.messages + [StepResult(env, i, steps[i])])
    ensures w1.checks == w.checks + 1
    ensures w1.requests == w.requests && w1.steeringPolls == w.steeringPolls && w1.followUpPolls == w.followUpPolls
  {
    var es := StepEvents(i, |steps|, steps[i], StepResult(env, i, steps[i]));
    EventStream.PushAllOrder(PassCheck(w).stream, es);
    Append(EmitAll(PassCheck(w), es), [StepResult(env, i, steps[i])])
  }

  /** The execution loop from step `i` on: each step first checks for
      cancellation, then emits its four events and appends its result; a
      failing check ends the stream with the cancellation error. Only the
      history, the stream and the check count change. */
  function ExecuteSteps(env: Env, w: World, steps: seq<PlanStep>, i: nat): (r: World)
    requires w.stream.Open? && i <= |steps|
    ensures r.state == w.state.(messages := r.state.messages)
    ensures r.requests == w.requests && r.steeringPolls == w.steeringPolls && r.followUpPolls == w.followUpPolls
    ensures r.stream.Open? || (r.stream.Failed? && r.stream.err == Provider.Canceled)
    decreases |steps| - i
  {
    if i == |steps| then w
    else if IsCancelled(env, w) then
      var w1 := PassCheck(w);
      w1.(stream := EventStream.EndWithError(w1.stream, Provider.Canceled))
    else
      ExecuteSteps(env, RunStep(env, w, steps, i), steps, i + 1)
  }

  /** What running steps `i` onwards from `w` leaves in `r`, when `m` of them
      run: their results and their four events each, in plan order; the
      stream open exactly when all ran; one check per step run, plus the
      failing one. */
  predicate Ran(env: Env, w: World, steps: seq<PlanStep>, i: nat, m: nat, r: World)
    requires i + m <= |steps|
  {
    r.state.messages == w.state.messages + StepResults(env, steps, i, i + m)
    && r.stream.events == w.stream.events + AllStepEvents(env, steps, i, i + m)
    && (r.stream.Open? <==> m == |steps| - i)
    && r.checks == w.checks + m + (if m < |steps| - i then 1 else 0)
  }

  /** If `r` is what the steps after a passed step `i` left, it is also what
      the steps from `i` left, with one step more. */
  lemma RanStep(env: Env, w: World, steps: seq<PlanStep>, i: nat, m: nat, r: World)
    requires w.stream.Open? && i + 1 + m <= |steps|
    requires Ran(env, RunStep(env, w, steps, i), steps, i + 1, m, r)
    ensures Ran(env, w, steps, i, m + 1, r)
  {
    StepResultsFirst(env, steps, i, i + 1 + m);
    AllStepEventsFirst(env, steps, i, i + 1 + m);
    Strs.Regroup3(w.stream.events, StepEvents(i, |steps|, steps[i], StepResult(env, i, steps[i])), AllStepEvents(env, steps, i + 1, i + 1 + m));
    Strs.Regroup3(w.state.messages, [StepResult(env, i, steps[i])], StepResults(env, steps, i + 1, i + 1 + m));
  }

  /** The steps that run before the first failing check each leave their
      result and their four events, in plan order; the stream stays open
      exactly when every step ran; one check is passed per step run, plus
      the failing one. */
  lemma {:induction false} ExecuteStepsRuns(env: Env, w: World, steps: seq<PlanStep>, i: nat)
    requires w.stream.Open? && i <= |steps|
    ensures Ran(env, w, steps, i, Executed(env, w.checks, |steps| - i), ExecuteSteps(env, w, steps, i))
    decreases |steps| - i
  {
    if i < |steps| && !IsCancelled(env, w) {
      var w1 := RunStep(env, w, steps, i);
      ExecuteStepsRuns(env, w1, steps, i + 1);
      ExecutedStep(env, w.checks, |steps| - i);
      RanStep(env, w, steps, i, Executed(env, w1.checks, |steps| - (i + 1)), ExecuteSteps(env, w1, steps, i + 1));
    }
  }

  /** The planning request: the provider messages under the planning
      prompt, temperature 0.3, at most 2000 tokens, and no tools offered. */
  function PlanningRequest(env: Env, c: AgentStates.AgentContext, ms: seq<Message>): (req: Provider.CompletionRequest)
    requires EnvOk(env)
    ensures req.messages == ms && req.tools == []
    ensures req.temperatureTenths == 3 && req.maxTokens == 2000
    ensures req.systemPrompt == BuildPlanningPrompt(c.systemPrompt, env.cfg.tools, env.order)
  {
    Provider.CompletionRequest(ms, BuildPlanningPrompt(c.systemPrompt, env.cfg.tools, env.order), 3, 2000, [])
  }

  /** The synthesis request: temperature 0.5, at most 1000 tokens, no tools. */
  function SynthesisRequest(c: AgentStates.AgentContext, ms: seq<Message>): (req: Provider.CompletionRequest)
    ensures req.messages == ms && req.tools == []
    ensures req.temperatureTenths == 5 && req.maxTokens == 1000
    ensures req.systemPrompt == BuildSynthesisPrompt(c.systemPrompt)
  {
    Provider.CompletionRequest(ms, BuildSynthesisPrompt(c.systemPrompt), 5, 1000, [])
  }

  /** `after` extends `before` with requests that offer no tools. */
  predicate GrowsToolFree(before: seq<Provider.CompletionRequest>, after: seq<Provider.CompletionRequest>) {
    before <= after && forall k :: |before| <= k < |after| ==> after[k].tools == []
  }

  lemma GrowsToolFreeTrans(a: seq<Provider.CompletionRequest>, b: seq<Provider.CompletionRequest>, c: seq<Provider.CompletionRequest>)
    requires GrowsToolFree(a, b) && GrowsToolFree(b, c)
    ensures GrowsToolFree(a, c)
  {
    assert forall k :: |a| <= k < |b| ==> c[k] == b[k];
  }

  /** Where the planning phase leaves the turn: stopped with the stream
      settled, or with a plan to execute. */
  datatype PlanPhase = Stopped(w: World) | Planned(steps: seq<PlanStep>, w: World)

  /** The plan a planning reply yields: the parsed steps, or none when the
      reply does not parse. */
  function PlanOf(decode: PlanDecoder, text: string): seq<PlanStep> {
    var parsed := ParsePlan(decode, text);
    if parsed.Ok? then parsed.value else []
  }

  /** The planning phase. Failing to build the messages or a failed planning
      call stops the turn (the call's error is also recorded in the state);
      a reply that does not parse is recorded as an error and gives an empty
      plan. plan_created reports the plan, and a non-empty reply is kept in
      the history as an assistant message. */
  function Plan(env: Env, decode: PlanDecoder, w: World): (r: PlanPhase)
    requires EnvOk(env) && w.stream.Open? && env.cfg.provider.Some?
    ensures r.Stopped? ==> r.w.stream.Failed? && r.w.stream.events == w.stream.events
    ensures r.Planned? <==> ProviderMessages(AgentStates.ToContext(w.state), env.cfg.pipeline).Ok?
                             && env.cfg.provider.value.complete(|w.requests|).Ok?
    ensures r.Planned? ==>
              var text := env.cfg.provider.value.complete(|w.requests|).value.text;
              r.w.stream == EventStream.Open(w.stream.events + [Events.PlanCreated(|r.steps|, StepInfos(r.steps))])
              && r.steps == PlanOf(decode, text)
              && r.w.state.messages == w.state.messages + (if text != "" then [ReplyMessage(env.cfg, text, env.cfg.provider.value.complete(|w.requests|).value.model)] else [])
    ensures ProviderMessages(AgentStates.ToContext(w.state), env.cfg.pipeline).Ok? ==>
              r.w.requests == w.requests + [PlanningRequest(env, AgentStates.ToContext(w.state), ProviderMessages(AgentStates.ToContext(w.state), env.cfg.pipeline).value)]
    ensures ProviderMessages(AgentStates.ToContext(w.state), env.cfg.pipeline).Err? ==> r.w.requests == w.requests
    ensures r.Planned? ==>
              var parsed := ParsePlan(decode, env.cfg.provider.value.complete(|w.requests|).value.text);
              r.w.state.error == (if parsed.Err? then Some("failed to parse plan: " + parsed.error) else w.state.error)
    ensures GrowsToolFree(w.requests, r.w.requests)
    ensures r.w.checks == w.checks && r.w.steeringPolls == w.steeringPolls && r.w.followUpPolls == w.followUpPolls
  {
    var c := AgentStates.Clone(AgentStates.ToContext(w.state));
    assert c == AgentStates.ToContext(w.state);
    match ProviderMessages(c, env.cfg.pipeline)
    case Err(e) =>
      Stopped(w.(stream := EventStream.EndWithError(w.stream, "plan-and-execute: build messages: " + e)))
    case Ok(ms) =>
      var w1 := w.(requests := w.requests + [PlanningRequest(env, c, ms)]);
      match env.cfg.provider.value.complete(|w.requests|)
      case Err(e) =>
        Stopped(w1.(state := Agent.SetError(w1.state, e),
                    stream := EventStream.EndWithError(w1.stream, "plan-and-execute: planning call: " + e)))
      case Ok(resp) =>
        var parsed := ParsePlan(decode, resp.text);
        var w2 := if parsed.Err? then w1.(state := Agent.SetError(w1.state, "failed to parse plan: " + parsed.error)) else w1;
        var steps := PlanOf(decode, resp.text);
        var w3 := Emit(w2, Events.PlanCreated(|steps|, StepInfos(steps)));
        Planned(steps, if resp.text != "" then Append(w3, [ReplyMessage(env.cfg, resp.text, resp.model)]) else w3)
  }

  /** The synthesis phase: a failure to build the messages or a failed call
      ends the stream with an error (the call's error is also recorded);
      otherwise the reply, or "I've completed the steps." when it is empty,
      is streamed word by word, appended, reported by turn_end, and the
      stream ends with the full history. */
  function Synthesize(env: Env, w: World): (r: World)
    requires w.stream.Open? && env.cfg.provider.Some?
    ensures !r.stream.Open?
    ensures r.stream.Ended? ==> r.stream.result == r.state.messages
    ensures r.stream.Ended? <==> ProviderMessages(AgentStates.ToContext(w.state), env.cfg.pipeline).Ok?
                                 && env.cfg.provider.value.complete(|w.requests|).Ok?
    ensures r.stream.Ended? ==>
              var resp := env.cfg.provider.value.complete(|w.requests|).value;
              var text := if resp.text == "" then DefaultSynthesisText else resp.text;
              var reply := ReplyMessage(env.cfg, text, resp.model);
              r.state.messages == w.state.messages + [reply]
              && r.stream.events == w.stream.events + Events.TextDeltas(text) + [Events.TurnEnd(reply)]
    ensures r.stream.Failed? ==> r.stream.events == w.stream.events && r.state.messages == w.state.messages
    ensures r.stream.Ended? ==> r.state.error == w.state.error
    ensures ProviderMessages(AgentStates.ToContext(w.state), env.cfg.pipeline).Ok? ==>
              r.requests == w.requests + [SynthesisRequest(AgentStates.ToContext(w.state), ProviderMessages(AgentStates.ToContext(w.state), env.cfg.pipeline).value)]
    ensures ProviderMessages(AgentStates.ToContext(w.state), env.cfg.pipeline).Err? ==> r.requests == w.requests
    ensures GrowsToolFree(w.requests, r.requests)
    ensures r.checks == w.checks
  {
    var c := AgentStates.Clone(AgentStates.ToContext(w.state));
    assert c == AgentStates.ToContext(w.state);
    var pm := ProviderMessages(c, env.cfg.pipeline);
    match pm
    case Err(e) =>
      w.(stream := EventStream.EndWithError(w.stream, "plan-and-execute: synthesis messages: " + e))
    case Ok(ms) =>
      var w1 := w.(requests := w.requests + [SynthesisRequest(c, ms)]);
      match env.cfg.provider.value.complete(|w.requests|)
      case Err(e) =>
        w1.(state := Agent.SetError(w1.state, e),
            stream := EventStream.EndWithError(w1.stream, "plan-and-execute: synthesis call: " + e))
      case Ok(resp) => Answer(env, w1, resp)
  }

  /** The answer to a successful synthesis call: the reply text, or the
      fallback when it is empty, streamed, appended, reported by turn_end,
      and the stream ended with the full history. */
  function Answer(env: Env, w: World, resp: Provider.CompletionResponse): (r: World)
    requires w.stream.Open?
    ensures var text := if resp.text == "" then DefaultSynthesisText else resp.text;
            var reply := ReplyMessage(env.cfg, text, resp.model);
            r.stream.Ended? && r.stream.result == r.state.messages
            && r.state.messages == w.state.messages + [reply]
            && r.stream.events == w.stream.events + Events.TextDeltas(text) + [Events.TurnEnd(reply)]
    ensures r.requests == w.requests && r.checks == w.checks && r.state.error == w.state.error
  {
    var text := if resp.text == "" then DefaultSynthesisText else resp.text;
    var reply := ReplyMessage(env.cfg, text, resp.model);
    var w2 := Emit(Append(StreamResponse(w, text), [reply]), Events.TurnEnd(reply));
    w2.(stream := EventStream.End(w2.stream, w2.state.messages))
  }

  /** One plan-and-execute turn: turn_start; without a provider the stream
      fails at once; otherwise plan, execute the steps in order, and
      synthesise the answer if nothing stopped the turn. Unlike the agentic
      loop, the turn always settles the stream, and it never offers tools to
      the model. */
  function Run(env: Env, decode: PlanDecoder, w: World): (r: World)
    requires EnvOk(env) && w.stream.Open?
    ensures !r.stream.Open?
    ensures r.stream.Ended? ==> r.stream.result == r.state.messages
    ensures |r.stream.events| > |w.stream.events| && r.stream.events[..|w.stream.events| + 1] == w.stream.events + [Events.TurnStart]
    ensures w.state.messages <= r.state.messages
    ensures GrowsToolFree(w.requests, r.requests) && |r.requests| <= |w.requests| + 2
  {
    var w1 := Emit(w, Events.TurnStart);
    if env.cfg.provider.None? then
      w1.(stream := EventStream.EndWithError(w1.stream, NoProviderError))
    else
      match Plan(env, decode, w1)
      case Stopped(w2) => w2
      case Planned(steps, w2) =>
        var r := ExecuteAndSynthesize(env, steps, w2);
        GrowsToolFreeTrans(w.requests, w2.requests, r.requests);
        r
  }

  /** The phases after planning: the steps, then the synthesis if the
      stream is still open. */
  function ExecuteAndSynthesize(env: Env, steps: seq<PlanStep>, w: World): (r: World)
    requires EnvOk(env) && w.stream.Open? && env.cfg.provider.Some?
    ensures !r.stream.Open?
    ensures r.stream.Ended? ==> r.stream.result == r.state.messages
    ensures w.stream.events <= r.stream.events && w.state.messages <= r.state.messages
    ensures GrowsToolFree(w.requests, r.requests) && |r.requests| <= |w.requests| + 1
  {
    var w3 := ExecuteSteps(env, w, steps, 0);
    ExecuteStepsRuns(env, w, steps, 0);
    if w3.stream.Open? then Synthesize(env, w3) else w3
  }
}

module PlanExecuteScenarios {
  import opened Wrappers
  import opened Messages
  import AgentStates
  import Provider
  import Events
  import EventStream
  import Agent
  import opened Orchestration
  import opened PlanParse
  import opened PlanExecute

  /** Without a provider the turn fails right after turn_start, before any
      request, and the state is untouched. */
  lemma NoProviderFails(env: Env, decode: PlanDecoder, w: World)
    requires EnvOk(env) && w.stream.Open? && env.cfg.provider.None?
    ensures Run(env, decode, w) == w.(stream := EventStream.Failed(w.stream.events + [Events.TurnStart], NoProviderError))
  {
  }

  /** A failed planning call ends the turn with the wrapped error and
      records the bare error in the state; the one request sent carries the
      LLM-visible history, the planning prompt and no tools. */
  lemma PlanningCallFails(env: Env, decode: PlanDecoder, w: World, e: string)
    requires EnvOk(env) && w.stream.Open? && env.cfg.provider.Some? && env.cfg.pipeline.None?
    requires env.cfg.provider.value.complete(|w.requests|) == Err(e)
    ensures var r := Run(env, decode, w);
            r.stream == EventStream.Failed(w.stream.events + [Events.TurnStart], "plan-and-execute: planning call: " + e)
            && r.state == Agent.SetError(w.state, e)
            && r.requests == w.requests + [PlanningRequest(env, AgentStates.ToContext(w.state), ConvertToLLM(w.state.messages))]
  {
  }

  /** The assistant message that keeps a non-empty planning reply in the
      history (none for an empty reply). */
  function PlanMessages(env: Env, resp: Provider.CompletionResponse): seq<Message> {
    if resp.text != "" then [ReplyMessage(env.cfg, resp.text, resp.model)] else []
  }

  /** The final reply of a synthesis answer. */
  function FinalReply(env: Env, resp: Provider.CompletionResponse): Message {
    ReplyMessage(env.cfg, if resp.text == "" then DefaultSynthesisText else resp.text, resp.model)
  }

  /** A run with a provider, no pipeline and no cancellation whose planning
      call answers `plan` and whose synthesis call answers `answer`. */
  predicate Answered(env: Env, w: World, plan: Provider.CompletionResponse, answer: Provider.CompletionResponse) {
    EnvOk(env) && w.stream.Open? && env.cfg.provider.Some? && env.cfg.pipeline.None?
    && env.cancelAt.None?
    && env.cfg.provider.value.complete(|w.requests|) == Ok(plan)
    && env.cfg.provider.value.complete(|w.requests| + 1) == Ok(answer)
  }

  /** The planning phase of an answered run. */
  lemma PlannedAfterTurnStart(env: Env, decode: PlanDecoder, w: World, plan: Provider.CompletionResponse, answer: Provider.CompletionResponse)
    requires Answered(env, w, plan, answer)
    ensures var p := Plan(env, decode, Emit(w, Events.TurnStart));
            var steps := PlanOf(decode, plan.text);
            p.Planned? && p.steps == steps
            && p.w.stream == EventStream.Open(w.stream.events + [Events.TurnStart, Events.PlanCreated(|steps|, StepInfos(steps))])
            && p.w.state.messages == w.state.messages + PlanMessages(env, plan)
            && |p.w.requests| == |w.requests| + 1 && p.w.checks == w.checks
  {
    var w1 := Emit(w, Events.TurnStart);
    var steps := PlanOf(decode, plan.text);
    assert w1.stream.events + [Events.PlanCreated(|steps|, StepInfos(steps))]
        == w.stream.events + [Events.TurnStart, Events.PlanCreated(|steps|, StepInfos(steps))];
  }

  /** A complete turn: turn_start, plan_created, the four events of every
      step in plan order, the streamed answer and turn_end; the history
      gains the planning reply, every step's result and the answer; two
      requests are sent, and the synthesis request carries every step's
      result. */
  lemma {:induction false} FullTurn(env: Env, decode: PlanDecoder, w: World, plan: Provider.CompletionResponse, answer: Provider.CompletionResponse)
    requires Answered(env, w, plan, answer)
    ensures var r := Run(env, decode, w);
            var steps := PlanOf(decode, plan.text);
            var text := if answer.text == "" then DefaultSynthesisText else answer.text;
            var executed := w.state.messages + PlanMessages(env, plan) + StepResults(env, steps, 0, |steps|);
            r.stream.Ended?
            && r.state.messages == executed + [FinalReply(env, answer)]
            && r.stream.events == w.stream.events + [Events.TurnStart, Events.PlanCreated(|steps|, StepInfos(steps))]
                                  + AllStepEvents(env, steps, 0, |steps|) + Events.TextDeltas(text) + [Events.TurnEnd(FinalReply(env, answer))]
            && |r.requests| == |w.requests| + 2
            && r.requests[|w.requests| + 1].messages == ConvertToLLM(executed)
            && forall k :: 0 <= k < |steps| ==> StepResult(env, k, steps[k]) in r.requests[|w.requests| + 1].messages
  {
    var steps := PlanOf(decode, plan.text);
    PlannedAfterTurnStart(env, decode, w, plan, answer);
    var p := Plan(env, decode, Emit(w, Events.TurnStart));
    var w3 := ExecuteSteps(env, p.w, steps, 0);
    ExecuteStepsRuns(env, p.w, steps, 0);
    assert Executed(env, p.w.checks, |steps|) == |steps|;
    assert w3.stream.Open?;
    assert Run(env, decode, w) == Synthesize(env, w3);
    assert w3.requests == p.w.requests;
    ResultsReachSynthesis(env, steps, w.state.messages + PlanMessages(env, plan));
  }

  /** Every step result appended after a history reaches the model: the
      results are standard messages, so the conversion keeps them. */
  lemma ResultsReachSynthesis(env: Env, steps: seq<PlanStep>, before: seq<Message>)
    ensures forall k :: 0 <= k < |steps| ==>
              StepResult(env, k, steps[k]) in ConvertToLLM(before + StepResults(env, steps, 0, |steps|))
  {
    var rs := StepResults(env, steps, 0, |steps|);
    forall k | 0 <= k < |steps|
      ensures StepResult(env, k, steps[k]) in ConvertToLLM(before + rs)
    {
      assert (before + rs)[|before| + k] == rs[k];
    }
  }

  /** A planning reply that does not parse records the error, reports an
      empty plan, runs no step, and still answers. */
  lemma UnparsablePlanSkipsExecution(env: Env, decode: PlanDecoder, w: World, plan: Provider.CompletionResponse, answer: Provider.CompletionResponse)
    requires Answered(env, w, plan, answer) && ParsePlan(decode, plan.text).Err?
    ensures var r := Run(env, decode, w);
            var text := if answer.text == "" then DefaultSynthesisText else answer.text;
            r.stream.Ended?
            && r.state.error == Some("failed to parse plan: " + ParsePlan(decode, plan.text).error)
            && r.state.messages == w.state.messages + PlanMessages(env, plan) + [FinalReply(env, answer)]
            && r.stream.events == w.stream.events + [Events.TurnStart, Events.PlanCreated(0, [])]
                                  + Events.TextDeltas(text) + [Events.TurnEnd(FinalReply(env, answer))]
  {
    PlannedAfterTurnStart(env, decode, w, plan, answer);
    var p := Plan(env, decode, Emit(w, Events.TurnStart));
    assert p.steps == [];
    assert ExecuteSteps(env, p.w, [], 0) == p.w;
    assert Run(env, decode, w) == Synthesize(env, p.w);
  }

  /** A cancellation that takes effect before step `k` of the plan: the
      first `k` steps leave their results and events, the stream fails with
      the context's error, and the synthesis call is never made. */
  lemma CancelledMidPlan(env: Env, decode: PlanDecoder, w: World, plan: Provider.CompletionResponse, k: nat)
    requires EnvOk(env) && w.stream.Open? && env.cfg.provider.Some? && env.cfg.pipeline.None?
    requires env.cfg.provider.value.complete(|w.requests|) == Ok(plan)
    requires k < |PlanOf(decode, plan.text)| && env.cancelAt == Some(w.checks + k)
    ensures var r := Run(env, decode, w);
            var steps := PlanOf(decode, plan.text);
            r.stream.Failed? && r.stream.err == Provider.Canceled
            && r.state.messages == w.state.messages + PlanMessages(env, plan) + StepResults(env, steps, 0, k)
            && r.stream.events == w.stream.events + [Events.TurnStart, Events.PlanCreated(|steps|, StepInfos(steps))]
                                  + AllStepEvents(env, steps, 0, k)
            && |r.requests| == |w.requests| + 1
  {
    var steps := PlanOf(decode, plan.text);
    var w1 := Emit(w, Events.TurnStart);
    var p := Plan(env, decode, w1);
    assert w1.stream.events + [Events.PlanCreated(|steps|, StepInfos(steps))]
        == w.stream.events + [Events.TurnStart, Events.PlanCreated(|steps|, StepInfos(steps))];
    ExecuteStepsRuns(env, p.w, steps, 0);
    assert Executed(env, p.w.checks, |steps|) == k;
  }

}
