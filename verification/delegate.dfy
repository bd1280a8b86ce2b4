/** The delegation tool (agent-core/packages/agent/tools/delegate/delegate.go):
    argument handling, the sub-agent's registry, the compact trace of the
    sub-agent's events and the result map. The sub-agent's turn runs under
    the process-wide default orchestrator, so it is a parameter here. */
module Delegate {
  import opened Wrappers
  import opened JsonValues
  import opened Content
  import opened Messages
  import Strs
  import Tools
  import Transform
  import Provider
  import Events
  import Agent

  const ToolName := "delegate"
  const MaxThinkingLen := 80
  const MissingArguments := "task and system_prompt are required"
  const NoAssistantText := "sub-agent produced no assistant text"

  /** What the tool is built with: the provider and pipeline handed to every
      sub-agent, and the pool its tools are chosen from. */
  datatype Delegator = Delegator(provider: Option<Provider.ScriptedProvider>, pipeline: Option<Transform.Pipeline>,
                                 pool: Option<Tools.Registry>)

  /** One sub-agent turn: from its configuration and user message to the
      events it emitted and the stream's settlement (the history, or the
      error). */
  type SubAgent = (Agent.AgentConfig, Message) -> (seq<Events.AgentEvent>, Result<seq<Message>, string>)

  /** `tool_names`: the strings of a list value; anything else (missing,
      null, not a list) means no names. */
  function ToolNames(args: map<string, Json>): (names: seq<string>)
    ensures !("tool_names" in args && args["tool_names"].JArray?) ==> names == []
    ensures "tool_names" in args && args["tool_names"].JArray? ==>
              forall s :: s in names <==> JString(s) in args["tool_names"].items
  {
    if "tool_names" in args && args["tool_names"].JArray? then StringsOf(args["tool_names"].items) else []
  }

  /** The sub-agent's task: with a non-empty excerpt, the trimmed task, a
      blank line, then the excerpt; otherwise the task as given. */
  function TaskText(task: string, excerpt: string): (t: string)
    ensures excerpt == "" ==> t == task
    ensures excerpt != "" ==> |t| == |Strs.TrimSpace(task)| + 2 + |excerpt|
    ensures excerpt != "" ==> Strs.HasPrefix(t, Strs.TrimSpace(task)) && t[|t| - |excerpt|..] == excerpt
                              && t[|Strs.TrimSpace(task)|..|t| - |excerpt|] == "\n\n"
  {
    if excerpt != "" then
      var t := Strs.TrimSpace(task) + "\n\n" + excerpt;
      assert t[..|Strs.TrimSpace(task)|] == Strs.TrimSpace(task);
      t
    else task
  }

  /** Registers, in order, every tool of `pool` named in `names`; names the
      pool lacks are skipped. */
  function RegisterFound(acc: Tools.Registry, pool: Tools.Registry, names: seq<string>): (r: Tools.Registry)
    requires Tools.Valid(pool)
    ensures forall n :: Tools.Get(r, n) == (if n in names && n in pool.tools then Tools.Get(pool, n) else Tools.Get(acc, n))
    ensures Tools.Valid(acc) ==> Tools.Valid(r)
    decreases |names|
  {
    if |names| == 0 then acc
    else
      var n := names[0];
      var acc' := if n in pool.tools then Tools.Register(acc, pool.tools[n]) else acc;
      var r := RegisterFound(acc', pool, names[1..]);
      assert forall m :: m in names <==> m == n || m in names[1..];
      r
  }

  /** `buildSubRegistry`: empty without a pool; the whole pool when no
      names are given; otherwise exactly the named tools the pool has. */
  function BuildSubRegistry(pool: Option<Tools.Registry>, names: seq<string>, order: seq<string>): (r: Tools.Registry)
    requires pool.Some? ==> Tools.Valid(pool.value) && Tools.IsListing(order, pool.value)
    ensures pool.None? ==> r.tools == map[]
    ensures pool.Some? && names == [] ==> r == pool.value
    ensures pool.Some? && names != [] ==>
              forall n :: Tools.Get(r, n) == (if n in names then Tools.Get(pool.value, n) else None)
  {
    if pool.None? then Tools.NewRegistry()
    else if names == [] then
      var r := RegisterFound(Tools.NewRegistry(), pool.value, order);
      assert forall n :: n in r.tools <==> n in pool.value.tools by {
        forall n ensures n in r.tools <==> n in pool.value.tools {
          assert Tools.Get(r, n) == Tools.Get(pool.value, n);
        }
      }
      assert r.tools == pool.value.tools by {
        forall n | n in r.tools ensures r.tools[n] == pool.value.tools[n] {
          assert Tools.Get(r, n) == Tools.Get(pool.value, n);
        }
      }
      r
    else RegisterFound(Tools.NewRegistry(), pool.value, names)
  }

  /** The delegate is never offered to a sub-agent as long as its pool does
      not hold it; nothing else keeps it out. */
  lemma SubRegistryExcludesDelegate(pool: Option<Tools.Registry>, names: seq<string>, order: seq<string>)
    requires pool.Some? ==> Tools.Valid(pool.value) && Tools.IsListing(order, pool.value)
    requires pool.Some? ==> ToolName !in pool.value.tools
    ensures ToolName !in BuildSubRegistry(pool, names, order).tools
  {
    var r := BuildSubRegistry(pool, names, order);
    if pool.Some? && names != [] {
      assert Tools.Get(r, ToolName).None?;
    }
  }

  /** `errResult`: no response, the message as the error, and the trace
      only when there is one. */
  function ErrResult(msg: string, thinking: string): (out: map<string, Json>)
    ensures out.Keys == {"response", "error"} + (if thinking != "" then {"thinking"} else {})
    ensures out["response"] == JString("") && out["error"] == JString(msg)
    ensures thinking != "" ==> out["thinking"] == JString(thinking)
  {
    var base := map["response" := JString(""), "error" := JString(msg)];
    if thinking != "" then base["thinking" := JString(thinking)] else base
  }

  /** Thinking text longer than 80 bytes (UTF-8) is cut to what fits in its
      first 80 bytes and marked with "...": the cut part is a proper prefix
      of the text, and the next character would not have fitted. */
  function Shorten(s: string): (r: string)
    ensures Strs.Utf8Size(s) <= MaxThinkingLen ==> r == s
    ensures Strs.Utf8Size(s) > MaxThinkingLen ==>
              |r| >= 3 && r[|r| - 3..] == "..." && r[..|r| - 3] < s
              && Strs.Utf8Size(r[..|r| - 3]) <= MaxThinkingLen
              && Strs.Utf8Size(r[..|r| - 3]) + Strs.Utf8Width(s[|r| - 3]) > MaxThinkingLen
  {
    if Strs.Utf8Size(s) > MaxThinkingLen then
      var p := Strs.Utf8Prefix(s, MaxThinkingLen);
      assert (p + "...")[..|p|] == p;
      p + "..."
    else s
  }

  /** When the 80th byte ends a character, the result is exactly Go's
      `s[:80] + "..."`. */
  lemma ShortenOnBoundary(s: string, k: nat)
    requires k <= |s| && Strs.Utf8Size(s[..k]) == MaxThinkingLen < Strs.Utf8Size(s)
    ensures Shorten(s) == s[..k] + "..."
  {
    Strs.Utf8PrefixOnBoundary(s, k, MaxThinkingLen);
  }

  /** For ASCII text, bytes are characters: text of up to 80 characters is
      kept, and longer text becomes its first 80 characters and "...". */
  lemma ShortenAscii(s: string)
    requires forall k :: 0 <= k < |s| ==> s[k] as int < 0x80
    ensures |s| <= MaxThinkingLen ==> Shorten(s) == s
    ensures |s| > MaxThinkingLen ==> Shorten(s) == s[..MaxThinkingLen] + "..."
  {
    Strs.Utf8SizeAscii(s);
    if |s| > MaxThinkingLen {
      Strs.Utf8SizeAscii(s[..MaxThinkingLen]);
      ShortenOnBoundary(s, MaxThinkingLen);
    }
  }

  function ErrorMark(error: string): string {
    if error != "" then " (error)" else ""
  }

  /** `compactEvent`: one line per known event kind, "" for any other. */
  function CompactEvent(e: Events.AgentEvent): string {
    match e
    case TurnStart => "turn_start"
    case SteeringMode(mode, _) => mode
    case ToolCall(_, name, _) => "tool: " + name
    case ToolResult(_, name, _, error) => "result: " + name + ErrorMark(error)
    case Thinking(text) => "thinking: " + Shorten(text)
    case TextDelta(_, _) => "output"
    case TurnEnd(_) => "turn_end"
    case PlanCreated(n, _) => "plan_created: " + Strs.NatToString(n) + " step(s)"
    case PlanStepStart(_, _, tool, _) => "plan_step: " + tool
    case PlanStepEnd(_, _, tool, _, error) => "plan_step_done: " + tool + ErrorMark(error)
    case Other(_) => ""
  }

  /** Only an unknown event, or a steering_mode event with an empty mode,
      leaves no line. */
  lemma CompactEventEmptyIff(e: Events.AgentEvent)
    ensures CompactEvent(e) == "" <==> e.Other? || (e.SteeringMode? && e.mode == "")
  {
    match e
    case ToolCall(_, name, _) => assert CompactEvent(e)[0] == 't';
    case ToolResult(_, name, _, error) => assert CompactEvent(e)[0] == 'r';
    case Thinking(text) => assert CompactEvent(e)[0] == 't';
    case PlanCreated(n, _) => assert CompactEvent(e)[0] == 'p';
    case PlanStepStart(_, _, tool, _) => assert CompactEvent(e)[0] == 'p';
    case PlanStepEnd(_, _, tool, _, error) => assert CompactEvent(e)[0] == 'p';
    case _ =>
  }

  /** The non-empty compact lines of a run of events, in event order. */
  function CompactLines(es: seq<Events.AgentEvent>): (lines: seq<string>)
    ensures |lines| <= |es|
    ensures forall i :: 0 <= i < |lines| ==> lines[i] != ""
  {
    if |es| == 0 then []
    else (if CompactEvent(es[0]) != "" then [CompactEvent(es[0])] else []) + CompactLines(es[1..])
  }

  /** The lines of the first `k` events are a prefix of all the lines. */
  lemma {:induction false} CompactLinesPrefix(es: seq<Events.AgentEvent>, k: nat)
    requires k <= |es|
    ensures CompactLines(es[..k]) <= CompactLines(es)
    decreases k
  {
    if k > 0 {
      assert es[..k][1..] == es[1..][..k - 1];
      CompactLinesPrefix(es[1..], k - 1);
    }
  }

  /** The trace: the lines of the events the reading goroutine had handled
      (`seen` of them) when the result came back, joined by newlines. */
  function Trace(events: seq<Events.AgentEvent>, seen: nat): string {
    Strs.Join(CompactLines(events[..if seen < |events| then seen else |events|]), "\n")
  }

  /** The trace is the newline-joined form of a prefix of the compact lines:
      all of them once the reader has handled every event. */
  lemma TraceIsPrefix(events: seq<Events.AgentEvent>, seen: nat)
    ensures exists lines :: lines <= CompactLines(events) && Trace(events, seen) == Strs.Join(lines, "\n")
    ensures seen >= |events| ==> Trace(events, seen) == Strs.Join(CompactLines(events), "\n")
  {
    var k := if seen < |events| then seen else |events|;
    var lines := CompactLines(events[..k]);
    CompactLinesPrefix(events, k);
    assert Trace(events, seen) == Strs.Join(lines, "\n");
    if seen >= |events| {
      assert events[..k] == events;
    }
  }

  /** The configuration a sub-agent runs under: the persona as its system
      prompt, the tool's provider and pipeline, its own registry, and no
      orchestrator of its own. */
  function SubConfig(t: Delegator, systemPrompt: string, sub: Tools.Registry): (cfg: Agent.AgentConfig)
    ensures cfg.systemPrompt == systemPrompt && cfg.tools == Some(sub)
    ensures cfg.provider == t.provider && cfg.pipeline == t.pipeline && cfg.orchestrator.None?
    ensures cfg.getSteeringMessages.None? && cfg.getFollowUpMessages.None? && cfg.steeringInstruction == ""
  {
    Agent.AgentConfig(systemPrompt, t.pipeline, Some(sub), t.provider, None, None, "", None)
  }

  /** `Execute`: never a Go error, always a result map. Missing task or
      persona stops before any sub-agent; otherwise the sub-agent runs one
      turn on the task, and the call succeeds exactly when that turn ends
      normally with some final assistant text. Every outcome after the run
      carries the trace when it is non-empty. */
  function Execute(t: Delegator, sub: SubAgent, order: seq<string>, seen: nat, args: map<string, Json>): (r: Result<Json, string>)
    requires t.pool.Some? ==> Tools.Valid(t.pool.value) && Tools.IsListing(order, t.pool.value)
    ensures r.Ok? && r.value.JObject?
    ensures StringField(args, "task") == "" || StringField(args, "system_prompt") == "" ==>
              r.value.fields == ErrResult(MissingArguments, "")
    ensures StringField(args, "task") != "" && StringField(args, "system_prompt") != "" ==>
              var task := TaskText(StringField(args, "task"), StringField(args, "context_excerpt"));
              var cfg := SubConfig(t, StringField(args, "system_prompt"), BuildSubRegistry(t.pool, ToolNames(args), order));
              var run := sub(cfg, UserMessage([TextContent(task)], 0));
              var out := r.value.fields;
              var thinking := Trace(run.0, seen);
              "response" in out && "error" in out
              && ("thinking" in out <==> thinking != "")
              && (thinking != "" ==> out["thinking"] == JString(thinking))
              && (out["error"] == JString("") <==> run.1.Ok? && LastAssistantText(run.1.value) != "")
              && (run.1.Err? ==> out["error"] == JString("sub-agent failed: " + run.1.error) && out["response"] == JString(""))
              && (run.1.Ok? ==> out["response"] == JString(LastAssistantText(run.1.value)))
              && (run.1.Ok? && LastAssistantText(run.1.value) == "" ==> out["error"] == JString(NoAssistantText))
  {
    var task := StringField(args, "task");
    var systemPrompt := StringField(args, "system_prompt");
    if task == "" || systemPrompt == "" then Ok(JObject(ErrResult(MissingArguments, "")))
    else
      var cfg := SubConfig(t, systemPrompt, BuildSubRegistry(t.pool, ToolNames(args), order));
      var run := sub(cfg, UserMessage([TextContent(TaskText(task, StringField(args, "context_excerpt")))], 0));
      var thinking := Trace(run.0, seen);
      match run.1
      case Err(e) => Ok(JObject(ErrResult("sub-agent failed: " + e, thinking)))
      case Ok(messages) =>
        var lastText := LastAssistantText(messages);
        if lastText == "" then Ok(JObject(ErrResult(NoAssistantText, thinking)))
        else
          var out := map["response" := JString(lastText), "error" := JString("")];
          Ok(JObject(if thinking != "" then out["thinking" := JString(thinking)] else out))
  }
}
