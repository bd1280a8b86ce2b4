/** What every orchestrator works on (agent-core/packages/agent/core/orchestrate.go
    and the `Orchestrator.Run` contract): the agent's configuration and
    state, the event stream, and the scripted outside world. The provider,
    the tools and the message sources are scripted; the context's
    cancellation is a checkpoint index from which every `ctx.Err()` check
    reports "context canceled". */
module Orchestration {
  import opened Wrappers
  import opened JsonValues
  import opened Content
  import opened Messages
  import Tools
  import AgentStates
  import Provider
  import Agent
  import Events
  import EventStream

  type AgentStream = EventStream.Stream<Events.AgentEvent, seq<Message>>

  /** The fixed inputs of a run. `order` is the registry's enumeration order;
      `cancelAt` is the first cancellation checkpoint that sees a cancelled
      context, if any. */
  datatype Env = Env(
    cfg: Agent.AgentConfig,
    run: Agent.ToolRunner,
    encode: Encoder,
    order: seq<string>,
    cancelAt: Option<nat>)

  predicate EnvOk(env: Env) {
    env.cfg.tools.Some? ==> Tools.IsListing(env.order, env.cfg.tools.value)
  }

  /** Everything a run changes: the agent state, the event stream, the
      provider requests issued so far, and how many cancellation checks and
      source polls have happened. */
  datatype World = World(
    state: AgentStates.AgentState,
    stream: AgentStream,
    requests: seq<Provider.CompletionRequest>,
    checks: nat,
    steeringPolls: nat,
    followUpPolls: nat)

  function Emit(w: World, e: Events.AgentEvent): World {
    w.(stream := EventStream.Push(w.stream, e))
  }

  function EmitAll(w: World, es: seq<Events.AgentEvent>): World {
    w.(stream := EventStream.PushAll(w.stream, es))
  }

  function Append(w: World, ms: seq<Message>): World {
    w.(state := w.state.(messages := w.state.messages + ms))
  }

  /** One `ctx.Err()` check: whether the context is cancelled at it. */
  function IsCancelled(env: Env, w: World): bool {
    env.cancelAt.Some? && w.checks >= env.cancelAt.value
  }

  function PassCheck(w: World): World {
    w.(checks := w.checks + 1)
  }

  function ProviderName(cfg: Agent.AgentConfig): string {
    if cfg.provider.Some? then cfg.provider.value.name else ""
  }

  /** The model reported on messages: "unknown" when none was reported. */
  function ModelOrUnknown(model: string): (m: string)
    ensures m != ""
    ensures model == "" ==> m == "unknown"
    ensures model != "" ==> m == model
  {
    if model == "" then "unknown" else model
  }

  /** A stop message from the provider carrying one text block; the model
      is "unknown" when the provider reported none. */
  function ReplyMessage(cfg: Agent.AgentConfig, text: string, model: string): (m: Message)
    ensures m.AssistantMessage? && m.stopReason == Stop && m.content == [TextContent(text)]
    ensures m.provider == ProviderName(cfg) && m.model != ""
    ensures model != "" ==> m.model == model
  {
    AssistantMessage([TextContent(text)], "", ProviderName(cfg), ModelOrUnknown(model), Stop, None, 0)
  }

  /** Streams a non-empty response as text deltas and leaves the streaming
      flags cleared. */
  function StreamResponse(w: World, text: string): (r: World)
    requires w.stream.Open?
    ensures text == "" ==> r == w
    ensures text != "" ==> r.stream == EventStream.Open(w.stream.events + Events.TextDeltas(text))
    ensures r.state.messages == w.state.messages && r.state.error == w.state.error && r.requests == w.requests
  {
    if text == "" then w
    else
      EventStream.PushAllOrder(w.stream, Events.TextDeltas(text));
      EmitAll(w, Events.TextDeltas(text)).(state := w.state.(isStreaming := false, streamMessage := None))
  }
}
