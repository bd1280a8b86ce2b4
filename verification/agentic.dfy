/** The reactive turn loop (agent-core/packages/agent/orchestrators/agentic/agentic.go):
    steer, run the requested tools, steer again, respond, and take follow-up
    messages. The parallel tool calls
    each write their own result slot and are joined before anything is
    emitted, so running them in order is the same. Fuel bounds the loops; a
    run that exhausts it leaves the stream open. */
module Agentic {
  import opened Wrappers
  import opened JsonValues
  import opened Content
  import opened Messages
  import Strs
  import Tools
  import AgentStates
  import Provider
  import Steering
  import Agent
  import Events
  import EventStream
  import opened Orchestration

  /** The error text recorded for a failed steering decision. */
  function ErrorResponse(err: string): string {
    "I encountered an error: " + err
  }

  /** One steering decision: the agent's steering call, answered by the
      provider's next scripted outcome; the request is recorded when one is
      sent. */
  function Decide(env: Env, w: World, isFollowUp: bool): (r: (Result<Steering.SteeringDecision, string>, World))
    requires EnvOk(env)
    ensures r.1 == w.(requests := r.1.requests)
    ensures |w.requests| <= |r.1.requests| <= |w.requests| + 1 && r.1.requests[..|w.requests|] == w.requests
    ensures env.cfg.provider.None? ==> r.1 == w && r.0 == Ok(Steering.SteeringDecision(Steering.Respond, [], "", "", ""))
  {
    var answer := if env.cfg.provider.Some? then env.cfg.provider.value.complete(|w.requests|) else Err("");
    var call := Agent.DecideSteering(Agent.AgentValue(env.cfg, w.state), env.order, isFollowUp, answer);
    var w' := if call.request.Some? then w.(requests := w.requests + [call.request.value]) else w;
    assert w'.requests[..|w.requests|] == w.requests;
    (call.decision, w')
  }

  /** The assistant message announcing a round's tool calls. */
  function ToolUseMessage(cfg: Agent.AgentConfig, d: Steering.SteeringDecision): Message {
    var blocks := seq(|d.toolCalls|, i requires 0 <= i < |d.toolCalls| =>
                      ToolCallContent(d.toolCalls[i].toolCallId, d.toolCalls[i].toolName, Some(JObject(d.toolCalls[i].args))));
    AssistantMessage(blocks, "", ProviderName(cfg), ModelOrUnknown(d.model), ToolUse, None, 0)
  }

  function CallIds(calls: seq<Steering.ToolCallRequest>): set<string> {
    set i | 0 <= i < |calls| :: calls[i].toolCallId
  }

  /** The summary lines for delegated calls, in call order. */
  function DelegationLines(calls: seq<Steering.ToolCallRequest>): (lines: seq<string>)
    ensures |lines| <= |calls|
  {
    if |calls| == 0 then []
    else (if calls[0].toolName == "delegate" then ["Task delegated via tool_call_id " + calls[0].toolCallId + "."] else [])
         + DelegationLines(calls[1..])
  }

  const ControlBase := "All requested tool calls have completed. What would you like to do next?"

  /** The control text closing a round: the fixed prompt, preceded by the
      space-joined delegation lines when there are any. */
  function ControlText(calls: seq<Steering.ToolCallRequest>): (t: string)
    ensures (forall i :: 0 <= i < |calls| ==> calls[i].toolName != "delegate") ==> t == ControlBase
    ensures |t| >= |ControlBase| && t[|t| - |ControlBase|..] == ControlBase
  {
    var lines := DelegationLines(calls);
    NoDelegationNoLines(calls);
    var t := if |lines| > 0 then Strs.Join(lines, " ") + " " + ControlBase else ControlBase;
    assert t[|t| - |ControlBase|..] == ControlBase;
    t
  }

  /** One call gives its summary line when it is a delegation and nothing
      otherwise. */
  lemma DelegationLinesOne(c: Steering.ToolCallRequest)
    ensures c.toolName == "delegate" ==> DelegationLines([c]) == ["Task delegated via tool_call_id " + c.toolCallId + "."]
    ensures c.toolName != "delegate" ==> DelegationLines([c]) == []
  {
    assert [c][1..] == [];
  }

  /** The summary lines of two call lists are those of each, in order. */
  lemma {:induction false} DelegationLinesAppend(a: seq<Steering.ToolCallRequest>, b: seq<Steering.ToolCallRequest>)
    ensures DelegationLines(a + b) == DelegationLines(a) + DelegationLines(b)
    decreases |a|
  {
    if |a| == 0 {
      assert a + b == b;
    } else {
      assert (a + b)[0] == a[0];
      assert (a + b)[1..] == a[1..] + b;
      DelegationLinesAppend(a[1..], b);
    }
  }

  /** Calls before the first delegation contribute nothing: the lines open
      with the first delegated call's line. */
  lemma {:induction false} DelegationLinesFirst(calls: seq<Steering.ToolCallRequest>, i: nat)
    requires i < |calls| && calls[i].toolName == "delegate"
    requires forall j :: 0 <= j < i ==> calls[j].toolName != "delegate"
    ensures DelegationLines(calls)
            == ["Task delegated via tool_call_id " + calls[i].toolCallId + "."] + DelegationLines(calls[i + 1..])
  {
    assert calls == calls[..i] + ([calls[i]] + calls[i + 1..]);
    DelegationLinesAppend(calls[..i], [calls[i]] + calls[i + 1..]);
    DelegationLinesAppend([calls[i]], calls[i + 1..]);
    DelegationLinesOne(calls[i]);
    assert forall j :: 0 <= j < |calls[..i]| ==> calls[..i][j].toolName != "delegate";
    NoDelegationNoLines(calls[..i]);
  }

  /** With a delegated call, the control text is every summary line joined
      by single spaces, a space, and the fixed prompt; it opens with the first
      delegated call's line and a space. */
  lemma ControlTextWithDelegation(calls: seq<Steering.ToolCallRequest>, i: nat)
    requires i < |calls| && calls[i].toolName == "delegate"
    requires forall j :: 0 <= j < i ==> calls[j].toolName != "delegate"
    ensures ControlText(calls) == Strs.Join(DelegationLines(calls), " ") + " " + ControlBase
    ensures var first := "Task delegated via tool_call_id " + calls[i].toolCallId + ". ";
            |first| <= |ControlText(calls)| && ControlText(calls)[..|first|] == first
  {
    DelegationLinesFirst(calls, i);
    JoinOpensWith("Task delegated via tool_call_id " + calls[i].toolCallId + ".", DelegationLines(calls[i + 1..]), ControlBase);
  }

  /** A join whose first piece is `line`, followed by a space and anything,
      opens with `line` and a space. */
  lemma JoinOpensWith(line: string, rest: seq<string>, tail: string)
    ensures var t := Strs.Join([line] + rest, " ") + " " + tail;
            |line + " "| <= |t| && t[..|line + " "|] == line + " "
  {
    var t := Strs.Join([line] + rest, " ") + " " + tail;
    if |rest| == 0 {
      assert Strs.Join([line] + rest, " ") == line;
      assert t == (line + " ") + tail;
    } else {
      assert ([line] + rest)[1..] == rest;
      assert Strs.Join([line] + rest, " ") == line + " " + Strs.Join(rest, " ");
      assert t == (line + " ") + (Strs.Join(rest, " ") + " " + tail);
    }
  }

  lemma {:induction false} NoDelegationNoLines(calls: seq<Steering.ToolCallRequest>)
    ensures (forall i :: 0 <= i < |calls| ==> calls[i].toolName != "delegate") ==> DelegationLines(calls) == []
    decreases |calls|
  {
    if |calls| > 0 {
      NoDelegationNoLines(calls[1..]);
      assert forall i :: 0 <= i < |calls[1..]| ==> calls[1..][i] == calls[i + 1];
    }
  }

  function ControlMessage(calls: seq<Steering.ToolCallRequest>): Message {
    Custom("control", [TextContent(ControlText(calls))], 0)
  }

  /** The results of a round's calls, in request order. */
  function RunCalls(env: Env, calls: seq<Steering.ToolCallRequest>): (rs: seq<Message>)
    ensures |rs| == |calls|
    ensures forall i :: 0 <= i < |rs| ==> rs[i] == Agent.ExecuteTool(env.cfg.tools, env.run, env.encode, calls[i])
  {
    seq(|calls|, i requires 0 <= i < |calls| => Agent.ExecuteTool(env.cfg.tools, env.run, env.encode, calls[i]))
  }

  function CallEvents(calls: seq<Steering.ToolCallRequest>): (es: seq<Events.AgentEvent>)
    ensures |es| == |calls|
  {
    seq(|calls|, i requires 0 <= i < |calls| => Events.ToolCall(calls[i].toolCallId, calls[i].toolName, calls[i].args))
  }

  /** The tool_result event of an executed call. */
  function ResultEvent(call: Steering.ToolCallRequest, res: Message): Events.AgentEvent
    requires res.ToolResultMessage?
  {
    Events.ToolResult(call.toolCallId, call.toolName, res.details, Agent.ToolResultError(res))
  }

  function ResultEvents(env: Env, calls: seq<Steering.ToolCallRequest>): (es: seq<Events.AgentEvent>)
    ensures |es| == |calls|
  {
    seq(|calls|, i requires 0 <= i < |calls| =>
        ResultEvent(calls[i], Agent.ExecuteTool(env.cfg.tools, env.run, env.encode, calls[i])))
  }

  /** The steering messages polled after a round (none without a source). */
  function PollSteering(env: Env, w: World): (r: (seq<Message>, World))
    ensures env.cfg.getSteeringMessages.None? ==> r == ([], w)
    ensures env.cfg.getSteeringMessages.Some? ==>
              r == (env.cfg.getSteeringMessages.value(w.steeringPolls), w.(steeringPolls := w.steeringPolls + 1))
  {
    match env.cfg.getSteeringMessages
    case None => ([], w)
    case Some(src) => (src(w.steeringPolls), w.(steeringPolls := w.steeringPolls + 1))
  }

  /** The start of a round: the thinking event (when there is text), the
      tool-use message, and every call id marked pending. */
  function Announce(env: Env, w: World, d: Steering.SteeringDecision): (r: World)
    requires w.stream.Open?
    ensures r.stream.Open?
    ensures r.stream.events == w.stream.events + (if d.thinkingText != "" then [Events.Thinking(d.thinkingText)] else [])
    ensures r.state.messages == w.state.messages + [ToolUseMessage(env.cfg, d)]
    ensures r.state.pendingToolCalls == w.state.pendingToolCalls + CallIds(d.toolCalls)
    ensures r.state.error == w.state.error
    ensures r.requests == w.requests && r.checks == w.checks
    ensures r.steeringPolls == w.steeringPolls && r.followUpPolls == w.followUpPolls
  {
    var w1 := if d.thinkingText != "" then Emit(w, Events.Thinking(d.thinkingText)) else w;
    w1.(state := w1.state.(messages := w1.state.messages + [ToolUseMessage(env.cfg, d)],
                           pendingToolCalls := w1.state.pendingToolCalls + CallIds(d.toolCalls)))
  }

  /** Every tool_call event, then every tool_result event, each result's id
      cleared from the pending set and the results appended in order. */
  function Report(env: Env, w: World, calls: seq<Steering.ToolCallRequest>): (r: World)
    requires w.stream.Open?
    ensures r.stream.Open?
    ensures r.stream.events == w.stream.events + CallEvents(calls) + ResultEvents(env, calls)
    ensures r.state.messages == w.state.messages + RunCalls(env, calls)
    ensures r.state.pendingToolCalls == w.state.pendingToolCalls - CallIds(calls)
    ensures r.state.error == w.state.error
    ensures r.requests == w.requests && r.checks == w.checks
    ensures r.steeringPolls == w.steeringPolls && r.followUpPolls == w.followUpPolls
  {
    var es := CallEvents(calls) + ResultEvents(env, calls);
    EventStream.PushAllOrder(w.stream, es);
    var w1 := EmitAll(w, es);
    w1.(state := w1.state.(messages := w1.state.messages + RunCalls(env, calls),
                           pendingToolCalls := w1.state.pendingToolCalls - CallIds(calls)))
  }

  /** The end of a round: the polled steering messages, all of them, then
      the control message. */
  function Close(env: Env, w: World, calls: seq<Steering.ToolCallRequest>): (r: World)
    ensures r.stream == w.stream
    ensures r.state.messages == w.state.messages + PollSteering(env, w).0 + [ControlMessage(calls)]
    ensures r.state.pendingToolCalls == w.state.pendingToolCalls && r.state.error == w.state.error
    ensures r.requests == w.requests && r.checks == w.checks && r.followUpPolls == w.followUpPolls
  {
    var (steering, w1) := PollSteering(env, w);
    Append(w1, steering + [ControlMessage(calls)])
  }

  /** One Steer round: announce, run every call, report, and close with the
      control message. History grows by the tool-use message, one result per
      call in request order, every steering message (nothing is skipped,
      since all calls have already run), and the control message. Events are
      the thinking text (when non-empty), every tool_call, then every
      tool_result, in request order. The calls' ids are pending only during
      the round. */
  function Round(env: Env, w: World, d: Steering.SteeringDecision): (r: World)
    requires w.stream.Open?
    ensures r.stream.Open?
    ensures r.state.messages == w.state.messages + [ToolUseMessage(env.cfg, d)] + RunCalls(env, d.toolCalls)
                                + PollSteering(env, w).0 + [ControlMessage(d.toolCalls)]
    ensures r.stream.events == w.stream.events + (if d.thinkingText != "" then [Events.Thinking(d.thinkingText)] else [])
                               + CallEvents(d.toolCalls) + ResultEvents(env, d.toolCalls)
    ensures r.state.pendingToolCalls == w.state.pendingToolCalls - CallIds(d.toolCalls)
    ensures r.state.error == w.state.error
    ensures r.requests == w.requests && r.checks == w.checks && r.followUpPolls == w.followUpPolls
    ensures w.state.messages <= r.state.messages && w.stream.events <= r.stream.events
  {
    var w1 := Announce(env, w, d);
    var w2 := Report(env, w1, d.toolCalls);
    assert PollSteering(env, w2).0 == PollSteering(env, w).0;
    var w3 := Close(env, w2, d.toolCalls);
    assert (w.state.pendingToolCalls + CallIds(d.toolCalls)) - CallIds(d.toolCalls)
        == w.state.pendingToolCalls - CallIds(d.toolCalls);
    w3
  }

  /** A round that starts with nothing pending ends with nothing pending. */
  lemma RoundClearsPending(env: Env, w: World, d: Steering.SteeringDecision)
    requires w.stream.Open? && w.state.pendingToolCalls == {}
    ensures Round(env, w, d).state.pendingToolCalls == {}
  {
  }

  /** How the steer loop finished. */
  datatype LoopEnd =
    | Finished(w: World, decision: Steering.SteeringDecision, responseText: string)
    | Cancelled(w: World)
    | OutOfFuel(w: World)

  /** The steer loop: while the decision is Steer, check for cancellation,
      run a round and steer again. A failed decision stops the loop with the
      error text as the response and the zero decision. */
  function SteerLoop(env: Env, w: World, d: Steering.SteeringDecision, fuel: nat): (r: LoopEnd)
    requires EnvOk(env) && w.stream.Open?
    ensures r.Finished? || r.OutOfFuel? ==> r.w.stream.Open?
    ensures r.Cancelled? ==> r.w.stream.Failed? && r.w.stream.err == Provider.Canceled
    ensures d.mode != Steering.Steer ==> r == Finished(w, d, "")
    ensures r.Finished? ==> r.decision.mode != Steering.Steer
    ensures w.state.messages <= r.w.state.messages && w.stream.events <= r.w.stream.events
    decreases fuel
  {
    if d.mode != Steering.Steer then Finished(w, d, "")
    else if fuel == 0 then OutOfFuel(w)
    else if IsCancelled(env, w) then
      var w1 := PassCheck(w);
      Cancelled(w1.(stream := EventStream.EndWithError(w1.stream, Provider.Canceled)))
    else
      var w2 := Round(env, PassCheck(w), d);
      var (res, w3) := Decide(env, w2, true);
      match res
      case Err(e) =>
        Finished(w3.(state := Agent.SetError(w3.state, e)), Steering.ZeroDecision, ErrorResponse(e))
      case Ok(d2) =>
        var w4 := Emit(w3, Events.SteeringMode(Steering.ModeValue(d2.mode), |d2.toolCalls|));
        if d2.mode == Steering.Respond then Finished(w4, d2, d2.response)
        else
          var r := SteerLoop(env, w4, d2, fuel - 1);
          r
  }

  /** A failed decision after a round ends the loop: the error is recorded,
      the decision is the zero one, the response is the error text, and no
      steering_mode event is pushed for it. */
  lemma LoopDecisionErrorIsAnswered(env: Env, w: World, d: Steering.SteeringDecision, fuel: nat)
    requires EnvOk(env) && w.stream.Open? && d.mode == Steering.Steer && fuel > 0 && !IsCancelled(env, w)
    requires Decide(env, Round(env, PassCheck(w), d), true).0.Err?
    ensures var (res, w3) := Decide(env, Round(env, PassCheck(w), d), true);
            var r := SteerLoop(env, w, d, fuel);
            r == Finished(w3.(state := Agent.SetError(w3.state, res.error)), Steering.ZeroDecision, ErrorResponse(res.error))
            && r.w.stream == Round(env, PassCheck(w), d).stream
            && r.w.state.error == Some(res.error)
  {
  }

  /** The text an iteration answers with: the loop's response, or the final
      Respond decision's text. */
  function ResponseText(d: Steering.SteeringDecision, loopText: string): string {
    if d.mode == Steering.Respond && loopText == "" then d.response else loopText
  }

  /** The first decision of an iteration, after the cancellation check
      has passed: a failure is recorded in the state and becomes a Respond
      decision whose text is the error, so it never aborts the turn; either
      way steering_mode reports the mode and the number of calls. */
  function FirstDecision(env: Env, w: World, firstTurn: bool): (r: (Steering.SteeringDecision, World))
    requires EnvOk(env) && w.stream.Open?
    ensures r.1.stream.Open?
    ensures r.1.stream.events == w.stream.events + [Events.SteeringMode(Steering.ModeValue(r.0.mode), |r.0.toolCalls|)]
    ensures r.1.state.messages == w.state.messages
    ensures var (res, _) := Decide(env, w, !firstTurn);
            (res.Ok? ==> r.0 == res.value)
            && (res.Err? ==> r.0 == Steering.SteeringDecision(Steering.Respond, [], "", ErrorResponse(res.error), "")
                             && r.1.state.error == Some(res.error))
  {
    var (res, w1) := Decide(env, w, !firstTurn);
    var d := if res.Ok? then res.value else Steering.SteeringDecision(Steering.Respond, [], "", ErrorResponse(res.error), "");
    var w2 := if res.Ok? then w1 else w1.(state := Agent.SetError(w1.state, res.error));
    (d, Emit(w2, Events.SteeringMode(Steering.ModeValue(d.mode), |d.toolCalls|)))
  }

  /** The close of an iteration: the response streamed as text deltas when
      non-empty, then one stop message carrying it appended and reported by
      turn_end. */
  function Reply(env: Env, w: World, d: Steering.SteeringDecision, loopText: string): (r: World)
    requires w.stream.Open?
    ensures r.stream.Open?
    ensures var text := ResponseText(d, loopText);
            var reply := ReplyMessage(env.cfg, text, d.model);
            r.state.messages == w.state.messages + [reply]
            && r.stream.events == w.stream.events + (if text != "" then Events.TextDeltas(text) else []) + [Events.TurnEnd(reply)]
    ensures r.requests == w.requests && r.followUpPolls == w.followUpPolls
  {
    var text := ResponseText(d, loopText);
    var w1 := StreamResponse(w, text);
    var reply := ReplyMessage(env.cfg, text, d.model);
    Emit(Append(w1, [reply]), Events.TurnEnd(reply))
  }

  /** The follow-up poll after an iteration: none configured or none
      returned ends the stream with the full history; otherwise they are
      appended and another iteration runs. */
  function FollowUp(env: Env, w: World, fuel: nat): (r: World)
    requires EnvOk(env) && w.stream.Open?
    ensures r.stream.Ended? ==> r.stream.result == r.state.messages
    ensures r.stream.Failed? ==> r.stream.err == Provider.Canceled
    ensures w.state.messages <= r.state.messages && w.stream.events <= r.stream.events
    ensures env.cfg.getFollowUpMessages.Some? && |env.cfg.getFollowUpMessages.value(w.followUpPolls)| > 0 ==>
              var fu := env.cfg.getFollowUpMessages.value(w.followUpPolls);
              r == Iteration(env, Append(w.(followUpPolls := w.followUpPolls + 1), fu), false, fuel)
              && w.state.messages + fu <= r.state.messages
              && (fuel > 0 ==> |r.stream.events| > |w.stream.events| && r.stream.events[|w.stream.events|] == Events.TurnStart)
    decreases fuel, 1
  {
    match env.cfg.getFollowUpMessages
    case None => w.(stream := EventStream.End(w.stream, w.state.messages))
    case Some(src) =>
      var followUp := src(w.followUpPolls);
      var w1 := w.(followUpPolls := w.followUpPolls + 1);
      if |followUp| == 0 then w1.(stream := EventStream.End(w1.stream, w1.state.messages))
      else Iteration(env, Append(w1, followUp), false, fuel)
  }

  /** With no follow-up source, or when it returns nothing, the stream ends
      with the history as it is and nothing else changes. */
  lemma FollowUpEndsWhenNoneReturned(env: Env, w: World, fuel: nat)
    requires EnvOk(env) && w.stream.Open?
    requires env.cfg.getFollowUpMessages.Some? ==> |env.cfg.getFollowUpMessages.value(w.followUpPolls)| == 0
    ensures var r := FollowUp(env, w, fuel);
            r.state == w.state && r.requests == w.requests && r.checks == w.checks
            && r.stream == EventStream.Ended(w.stream.events, w.state.messages)
  {
  }

  /** One outer iteration and those after it: turn_start (from the second
      on), the cancellation check, the first decision, the steer loop, the
      reply, and the follow-up poll. */
  function Iteration(env: Env, w: World, firstTurn: bool, fuel: nat): (r: World)
    requires EnvOk(env) && w.stream.Open?
    ensures r.stream.Ended? ==> r.stream.result == r.state.messages
    ensures r.stream.Failed? ==> r.stream.err == Provider.Canceled
    ensures w.state.messages <= r.state.messages && w.stream.events <= r.stream.events
    ensures fuel > 0 && !firstTurn ==> |r.stream.events| > |w.stream.events| && r.stream.events[|w.stream.events|] == Events.TurnStart
    decreases fuel, 0
  {
    if fuel == 0 then w
    else
      var w1 := if !firstTurn then Emit(w, Events.TurnStart) else w;
      if IsCancelled(env, w1) then
        var w2 := PassCheck(w1);
        w2.(stream := EventStream.EndWithError(w2.stream, Provider.Canceled))
      else
        var (d, w2) := FirstDecision(env, PassCheck(w1), firstTurn);
        SteerAndReply(env, w2, d, fuel - 1)
  }

  /** The rest of an iteration after its first decision: the steer loop,
      then, unless it was cancelled, the reply and the follow-up poll. */
  function SteerAndReply(env: Env, w: World, d: Steering.SteeringDecision, fuel: nat): (r: World)
    requires EnvOk(env) && w.stream.Open?
    ensures r.stream.Ended? ==> r.stream.result == r.state.messages
    ensures r.stream.Failed? ==> r.stream.err == Provider.Canceled
    ensures w.state.messages <= r.state.messages && w.stream.events <= r.stream.events
    decreases fuel, 2
  {
    match SteerLoop(env, w, d, fuel)
    case Cancelled(w3) => w3
    case OutOfFuel(w3) => w3
    case Finished(w3, d2, loopText) => FollowUp(env, Reply(env, w3, d2, loopText), fuel)
  }

  /** `AgenticOrchestrator.Run` on an agent whose history already ends with
      the user message: turn_start, then the iterations. */
  function Run(env: Env, w: World, fuel: nat): (r: World)
    requires EnvOk(env) && w.stream.Open?
    ensures r.stream.Ended? ==> r.stream.result == r.state.messages
    ensures r.stream.Failed? ==> r.stream.err == Provider.Canceled
    ensures w.state.messages <= r.state.messages
    ensures |r.stream.events| > |w.stream.events| && r.stream.events[|w.stream.events|] == Events.TurnStart
  {
    var w1 := Emit(w, Events.TurnStart);
    var r := Iteration(env, w1, true, fuel);
    assert r.stream.events[..|w1.stream.events|] == w1.stream.events;
    r
  }
}

module AgenticScenarios {
  import opened Wrappers
  import opened Messages
  import Provider
  import Steering
  import Events
  import EventStream
  import Agent
  import opened Orchestration
  import opened Agentic

  /** A run whose provider answers each call with `answers`, with no
      pipeline, no follow-up source and no cancellation. */
  predicate Plain(env: Env) {
    EnvOk(env) && env.cfg.provider.Some? && env.cfg.pipeline.None?
    && env.cancelAt.None? && env.cfg.getFollowUpMessages.None?
  }

  /** With no tool use, a turn grows the history by exactly one stop
      message with the provider's text, emits turn_start, steering_mode
      "respond", the text deltas and turn_end, and ends with the history. */
  lemma TextOnlyTurn(env: Env, w: World, text: string, model: string, fuel: nat)
    requires Plain(env) && w.stream.Open? && fuel >= 1
    requires env.cfg.provider.value.complete(|w.requests|) == Ok(Provider.CompletionResponse(text, [], model))
    ensures var r := Run(env, w, fuel);
            var reply := ReplyMessage(env.cfg, text, model);
            r.state.messages == w.state.messages + [reply]
            && r.stream == EventStream.Ended(
                 w.stream.events + [Events.TurnStart, Events.SteeringMode("respond", 0)]
                 + (if text != "" then Events.TextDeltas(text) else []) + [Events.TurnEnd(reply)],
                 r.state.messages)
            && |r.requests| == |w.requests| + 1
  {
    var w1 := Emit(w, Events.TurnStart);
    var w1c := PassCheck(w1);
    var dec := Steering.SteeringDecision(Steering.Respond, [], "", text, model);
    var call := Agent.DecideSteering(Agent.AgentValue(env.cfg, w1c.state), env.order, false,
                                     Ok(Provider.CompletionResponse(text, [], model)));
    assert call.decision == Ok(dec);
    var (res, wd) := Decide(env, w1c, false);
    assert res == Ok(dec);
    var (d, w2) := FirstDecision(env, w1c, true);
    assert d == dec;
    assert SteerLoop(env, w2, d, fuel - 1) == Finished(w2, d, "");
    var w3 := Reply(env, w2, d, "");
    assert Iteration(env, w1, true, fuel) == FollowUp(env, w3, fuel - 1);
  }

  /** A context cancelled before the turn ends the stream with the
      cancellation error right after turn_start, leaving the history as it
      was. */
  lemma CancelledBeforeSteering(env: Env, w: World, fuel: nat)
    requires EnvOk(env) && w.stream.Open? && fuel >= 1
    requires env.cancelAt == Some(w.checks)
    ensures var r := Run(env, w, fuel);
            r.stream == EventStream.Failed(w.stream.events + [Events.TurnStart], Provider.Canceled)
            && r.state.messages == w.state.messages && r.requests == w.requests
  {
  }

  /** A failed first decision does not abort the turn: the error is recorded
      and answered with "I encountered an error: ..." under the model
      "unknown", and the stream ends normally. */
  lemma DecisionErrorIsAnswered(env: Env, w: World, err: string, fuel: nat)
    requires Plain(env) && w.stream.Open? && fuel >= 1
    requires env.cfg.provider.value.complete(|w.requests|) == Err(err)
    ensures var r := Run(env, w, fuel);
            var text := ErrorResponse("steering decision failed: " + err);
            r.state.messages == w.state.messages + [ReplyMessage(env.cfg, text, "")]
            && r.state.error == Some("steering decision failed: " + err)
            && r.stream.Ended?
            && ReplyMessage(env.cfg, text, "").model == "unknown"
  {
    var w1 := Emit(w, Events.TurnStart);
    var w1c := PassCheck(w1);
    var e := "steering decision failed: " + err;
    var dec := Steering.SteeringDecision(Steering.Respond, [], "", ErrorResponse(e), "");
    var call := Agent.DecideSteering(Agent.AgentValue(env.cfg, w1c.state), env.order, false, Err(err));
    assert call.decision == Err(e);
    var (res, wd) := Decide(env, w1c, false);
    assert res == Err(e);
    var (d, w2) := FirstDecision(env, w1c, true);
    assert d == dec;
    assert SteerLoop(env, w2, d, fuel - 1) == Finished(w2, d, "");
    var w3 := Reply(env, w2, d, "");
    assert Iteration(env, w1, true, fuel) == FollowUp(env, w3, fuel - 1);
  }

  /** The events of one round: the thinking text when there is one, every
      tool_call, then every tool_result. */
  function RoundEvents(env: Env, d: Steering.SteeringDecision): seq<Events.AgentEvent> {
    (if d.thinkingText != "" then [Events.Thinking(d.thinkingText)] else [])
    + CallEvents(d.toolCalls) + ResultEvents(env, d.toolCalls)
  }

  /** A run whose provider answers every call, with no pipeline and no
      cancellation; a follow-up source may be configured. */
  predicate Answering(env: Env) {
    EnvOk(env) && env.cfg.provider.Some? && env.cfg.pipeline.None? && env.cancelAt.None?
  }

  /** A decision the provider answers: the response's decision, and one
      request recorded. */
  lemma DecideAnswered(env: Env, w: World, isFollowUp: bool, resp: Provider.CompletionResponse)
    requires Answering(env)
    requires env.cfg.provider.value.complete(|w.requests|) == Ok(resp)
    ensures Decide(env, w, isFollowUp).0 == Ok(Steering.DecisionFromResponse(resp))
    ensures |Decide(env, w, isFollowUp).1.requests| == |w.requests| + 1
  {
    var call := Agent.DecideSteering(Agent.AgentValue(env.cfg, w.state), env.order, isFollowUp, Ok(resp));
    assert call.request.Some?;
  }

  /** The world after one round and an answered follow-up decision. */
  function AfterRound(env: Env, w: World, d: Steering.SteeringDecision): World
    requires EnvOk(env) && w.stream.Open?
  {
    Emit(Decide(env, Round(env, PassCheck(w), d), true).1, Events.SteeringMode("respond", 0))
  }

  /** A Steer decision answered by text: the loop stops after one round. */
  lemma LoopStopsAfterRound(env: Env, w: World, d: Steering.SteeringDecision, text: string, model: string, fuel: nat)
    requires Plain(env) && w.stream.Open? && fuel >= 1
    requires d.mode == Steering.Steer
    requires env.cfg.provider.value.complete(|w.requests|) == Ok(Provider.CompletionResponse(text, [], model))
    ensures SteerLoop(env, w, d, fuel)
            == Finished(AfterRound(env, w, d), Steering.SteeringDecision(Steering.Respond, [], "", text, model), text)
    ensures |AfterRound(env, w, d).requests| == |w.requests| + 1
  {
    DecideAnswered(env, Round(env, PassCheck(w), d), true, Provider.CompletionResponse(text, [], model));
  }

  /** A Steer decision followed by a text answer: the loop runs one round
      and finishes with the answer. */
  lemma LoopOneRound(env: Env, w: World, d: Steering.SteeringDecision, text: string, model: string, fuel: nat)
    requires Plain(env) && env.cfg.getSteeringMessages.None? && w.stream.Open? && fuel >= 1
    requires d.mode == Steering.Steer
    requires env.cfg.provider.value.complete(|w.requests|) == Ok(Provider.CompletionResponse(text, [], model))
    ensures var r := SteerLoop(env, w, d, fuel);
            r.Finished? && r.decision == Steering.SteeringDecision(Steering.Respond, [], "", text, model)
            && r.responseText == text
            && r.w.state.messages == w.state.messages + [ToolUseMessage(env.cfg, d)] + RunCalls(env, d.toolCalls)
                                     + [ControlMessage(d.toolCalls)]
            && r.w.stream == EventStream.Open(w.stream.events + RoundEvents(env, d) + [Events.SteeringMode("respond", 0)])
            && |r.w.requests| == |w.requests| + 1 && r.w.followUpPolls == w.followUpPolls
  {
    LoopStopsAfterRound(env, w, d, text, model, fuel);
    AfterRoundShape(env, w, d);
  }

  /** Without a steering source, the world after a round and its follow-up
      decision holds the round's messages and events and one request more. */
  lemma AfterRoundShape(env: Env, w: World, d: Steering.SteeringDecision)
    requires Plain(env) && env.cfg.getSteeringMessages.None? && w.stream.Open?
    ensures var a := AfterRound(env, w, d);
            a.state.messages == w.state.messages + [ToolUseMessage(env.cfg, d)] + RunCalls(env, d.toolCalls)
                                + [ControlMessage(d.toolCalls)]
            && a.stream == EventStream.Open(w.stream.events + RoundEvents(env, d) + [Events.SteeringMode("respond", 0)])
            && a.followUpPolls == w.followUpPolls
  {
    var w3 := Round(env, PassCheck(w), d);
    RoundShape(env, PassCheck(w), d);
    var wd := Decide(env, w3, true).1;
    assert wd.state == w3.state && wd.stream == w3.stream && wd.followUpPolls == w3.followUpPolls;
  }

  /** Without a steering source, a round adds the tool-use message, the
      results and the control message, and emits the round's events. */
  lemma RoundShape(env: Env, w: World, d: Steering.SteeringDecision)
    requires env.cfg.getSteeringMessages.None? && w.stream.Open?
    ensures Round(env, w, d).state.messages == w.state.messages + [ToolUseMessage(env.cfg, d)] + RunCalls(env, d.toolCalls)
                                               + [ControlMessage(d.toolCalls)]
    ensures Round(env, w, d).stream.events == w.stream.events + RoundEvents(env, d)
  {
    var front := w.state.messages + [ToolUseMessage(env.cfg, d)] + RunCalls(env, d.toolCalls);
    assert PollSteering(env, w).0 == [];
    assert front + [] == front;
    var t := if d.thinkingText != "" then [Events.Thinking(d.thinkingText)] else [];
    Strs.Regroup3(w.stream.events, t, CallEvents(d.toolCalls));
    Strs.Regroup3(w.stream.events, t + CallEvents(d.toolCalls), ResultEvents(env, d.toolCalls));
  }

  /** An iteration whose steer loop finishes goes on to the reply and the
      follow-up poll. */
  lemma IterationFinishes(env: Env, w: World, fuel: nat)
    requires EnvOk(env) && w.stream.Open? && fuel >= 1 && !IsCancelled(env, w)
    ensures var (d, w2) := FirstDecision(env, PassCheck(w), true);
            var lp := SteerLoop(env, w2, d, fuel - 1);
            lp.Finished? ==> Iteration(env, w, true, fuel) == FollowUp(env, Reply(env, lp.w, lp.decision, lp.responseText), fuel - 1)
  {
  }

  /** One Steer round followed by a text answer: history grows by the
      tool-use message, the results in request order, the control message
      and the stop message; events are turn_start, steering_mode "steer"
      with the number of calls, the thinking text, every tool_call, every
      tool_result, steering_mode "respond", the deltas and turn_end. */
  lemma OneToolRoundTurn(env: Env, w: World, first: Provider.CompletionResponse, text: string, model: string, fuel: nat)
    requires Plain(env) && env.cfg.getSteeringMessages.None? && w.stream.Open? && fuel >= 2
    requires |first.toolCalls| > 0
    requires env.cfg.provider.value.complete(|w.requests|) == Ok(first)
    requires env.cfg.provider.value.complete(|w.requests| + 1) == Ok(Provider.CompletionResponse(text, [], model))
    ensures var r := Run(env, w, fuel);
            var d := Steering.DecisionFromResponse(first);
            var reply := ReplyMessage(env.cfg, text, model);
            r.state.messages == w.state.messages + [ToolUseMessage(env.cfg, d)] + RunCalls(env, d.toolCalls)
                                + [ControlMessage(d.toolCalls)] + [reply]
            && r.stream == EventStream.Ended(
                 w.stream.events + [Events.TurnStart, Events.SteeringMode("steer", |first.toolCalls|)]
                 + RoundEvents(env, d) + [Events.SteeringMode("respond", 0)]
                 + (if text != "" then Events.TextDeltas(text) else []) + [Events.TurnEnd(reply)],
                 r.state.messages)
            && |r.requests| == |w.requests| + 2
  {
    var d := Steering.DecisionFromResponse(first);
    var w1 := Emit(w, Events.TurnStart);
    FirstSteer(env, w, first);
    var (d1, w2) := FirstDecision(env, PassCheck(w1), true);
    LoopOneRound(env, w2, d, text, model, fuel - 1);
    var lp := SteerLoop(env, w2, d, fuel - 1);
    var w6 := Reply(env, lp.w, lp.decision, lp.responseText);
    IterationFinishes(env, w1, fuel);
    FinishWithText(env, lp.w, text, model, fuel - 1);
    assert Run(env, w, fuel) == FollowUp(env, w6, fuel - 1);
  }

  /** Answering with text when no follow-up source is configured: the stop
      message is appended, the deltas and turn_end are pushed, and the
      stream ends with the full history. */
  lemma FinishWithText(env: Env, w: World, text: string, model: string, fuel: nat)
    requires EnvOk(env) && env.cfg.getFollowUpMessages.None? && w.stream.Open?
    ensures var reply := ReplyMessage(env.cfg, text, model);
            var r := FollowUp(env, Reply(env, w, Steering.SteeringDecision(Steering.Respond, [], "", text, model), text), fuel);
            r.state.messages == w.state.messages + [reply]
            && r.stream == EventStream.Ended(w.stream.events + (if text != "" then Events.TextDeltas(text) else [])
                                             + [Events.TurnEnd(reply)], r.state.messages)
            && r.requests == w.requests
  {
  }

  /** The first decision of a turn whose provider asks for tools: it is the
      Steer decision for those calls, announced by steering_mode "steer"
      right after turn_start, with one request issued. */
  lemma FirstSteer(env: Env, w: World, first: Provider.CompletionResponse)
    requires Plain(env) && w.stream.Open? && |first.toolCalls| > 0
    requires env.cfg.provider.value.complete(|w.requests|) == Ok(first)
    ensures !IsCancelled(env, Emit(w, Events.TurnStart))
    ensures var (d1, w2) := FirstDecision(env, PassCheck(Emit(w, Events.TurnStart)), true);
            d1 == Steering.DecisionFromResponse(first) && d1.mode == Steering.Steer
            && w2.stream == EventStream.Open(w.stream.events + [Events.TurnStart, Events.SteeringMode("steer", |first.toolCalls|)])
            && w2.state.messages == w.state.messages && |w2.requests| == |w.requests| + 1
            && w2.followUpPolls == w.followUpPolls
  {
    var w1c := PassCheck(Emit(w, Events.TurnStart));
    DecideAnswered(env, w1c, false, first);
  }

  /** The world after an iteration whose first decision is answered with
      text, before its follow-up poll. */
  function TextAnswered(env: Env, w: World, firstTurn: bool): World
    requires EnvOk(env) && w.stream.Open?
  {
    var w1 := if !firstTurn then Emit(w, Events.TurnStart) else w;
    var (d, w2) := FirstDecision(env, PassCheck(w1), firstTurn);
    Reply(env, w2, d, "")
  }

  /** An iteration answered with text goes straight to the follow-up poll. */
  lemma TextIteration(env: Env, w: World, firstTurn: bool, text: string, model: string, fuel: nat)
    requires Answering(env) && w.stream.Open? && fuel >= 1
    requires env.cfg.provider.value.complete(|w.requests|) == Ok(Provider.CompletionResponse(text, [], model))
    ensures Iteration(env, w, firstTurn, fuel) == FollowUp(env, TextAnswered(env, w, firstTurn), fuel - 1)
  {
    var w1 := if !firstTurn then Emit(w, Events.TurnStart) else w;
    DecideAnswered(env, PassCheck(w1), !firstTurn, Provider.CompletionResponse(text, [], model));
    var (d, w2) := FirstDecision(env, PassCheck(w1), firstTurn);
    assert d.mode == Steering.Respond;
    assert SteerLoop(env, w2, d, fuel - 1) == Finished(w2, d, "");
  }

  /** The world after an iteration answered with text: the stop message
      appended; turn_start (on a later iteration), steering_mode "respond",
      the deltas and turn_end pushed; one request issued; no poll yet. */
  lemma TextAnsweredShape(env: Env, w: World, firstTurn: bool, text: string, model: string)
    requires Answering(env) && w.stream.Open?
    requires env.cfg.provider.value.complete(|w.requests|) == Ok(Provider.CompletionResponse(text, [], model))
    ensures var a := TextAnswered(env, w, firstTurn);
            var reply := ReplyMessage(env.cfg, text, model);
            a.state.messages == w.state.messages + [reply]
            && a.stream == EventStream.Open(w.stream.events + (if firstTurn then [] else [Events.TurnStart])
                                            + [Events.SteeringMode("respond", 0)]
                                            + (if text != "" then Events.TextDeltas(text) else []) + [Events.TurnEnd(reply)])
            && |a.requests| == |w.requests| + 1 && a.followUpPolls == w.followUpPolls
  {
    var w1 := if !firstTurn then Emit(w, Events.TurnStart) else w;
    DecideAnswered(env, PassCheck(w1), !firstTurn, Provider.CompletionResponse(text, [], model));
    var (d, w2) := FirstDecision(env, PassCheck(w1), firstTurn);
    assert d == Steering.SteeringDecision(Steering.Respond, [], "", text, model);
    assert w2.stream.events == w.stream.events + (if firstTurn then [] else [Events.TurnStart]) + [Events.SteeringMode("respond", 0)];
  }

  /** The world after a non-empty follow-up poll: the batch appended and
      the poll counted. */
  function Polled(w: World, fu: seq<Message>): World {
    Append(w.(followUpPolls := w.followUpPolls + 1), fu)
  }

  /** One follow-up batch and then an empty poll: two iterations, each
      opened by turn_start and closed by turn_end, the batch appended
      between the two replies, and the stream ended with the full
      history. */
  lemma FollowUpTurn(env: Env, w: World, fu: seq<Message>, text1: string, model1: string,
                     text2: string, model2: string, fuel: nat)
    requires Answering(env) && w.stream.Open? && fuel >= 2
    requires env.cfg.getFollowUpMessages.Some? && |fu| > 0
    requires env.cfg.getFollowUpMessages.value(w.followUpPolls) == fu
    requires env.cfg.getFollowUpMessages.value(w.followUpPolls + 1) == []
    requires env.cfg.provider.value.complete(|w.requests|) == Ok(Provider.CompletionResponse(text1, [], model1))
    requires env.cfg.provider.value.complete(|w.requests| + 1) == Ok(Provider.CompletionResponse(text2, [], model2))
    ensures var r := Run(env, w, fuel);
            var reply1 := ReplyMessage(env.cfg, text1, model1);
            var reply2 := ReplyMessage(env.cfg, text2, model2);
            r.state.messages == w.state.messages + [reply1] + fu + [reply2]
            && r.stream == EventStream.Ended(
                 w.stream.events + [Events.TurnStart, Events.SteeringMode("respond", 0)]
                 + (if text1 != "" then Events.TextDeltas(text1) else []) + [Events.TurnEnd(reply1)]
                 + [Events.TurnStart, Events.SteeringMode("respond", 0)]
                 + (if text2 != "" then Events.TextDeltas(text2) else []) + [Events.TurnEnd(reply2)],
                 r.state.messages)
            && |r.requests| == |w.requests| + 2 && r.followUpPolls == w.followUpPolls + 2
  {
    var a2 := TextAnswered(env, Polled(TextAnswered(env, Emit(w, Events.TurnStart), true), fu), false);
    FollowUpTurnUnfolds(env, w, fu, text1, model1, text2, model2, fuel);
    FollowUpTurnShape(env, w, fu, text1, model1, text2, model2);
    FollowUpEndsWhenNoneReturned(env, a2, fuel - 2);
  }

  /** The two iterations of a turn with one follow-up batch, unfolded. */
  lemma FollowUpTurnUnfolds(env: Env, w: World, fu: seq<Message>, text1: string, model1: string,
                            text2: string, model2: string, fuel: nat)
    requires Answering(env) && w.stream.Open? && fuel >= 2
    requires env.cfg.getFollowUpMessages.Some? && |fu| > 0
    requires env.cfg.getFollowUpMessages.value(w.followUpPolls) == fu
    requires env.cfg.provider.value.complete(|w.requests|) == Ok(Provider.CompletionResponse(text1, [], model1))
    requires env.cfg.provider.value.complete(|w.requests| + 1) == Ok(Provider.CompletionResponse(text2, [], model2))
    ensures Run(env, w, fuel)
            == FollowUp(env, TextAnswered(env, Polled(TextAnswered(env, Emit(w, Events.TurnStart), true), fu), false), fuel - 2)
  {
    var w1 := Emit(w, Events.TurnStart);
    TextIteration(env, w1, true, text1, model1, fuel);
    TextAnsweredShape(env, w1, true, text1, model1);
    var wn := Polled(TextAnswered(env, w1, true), fu);
    assert Run(env, w, fuel) == Iteration(env, wn, false, fuel - 1);
    TextIteration(env, wn, false, text2, model2, fuel - 1);
  }

  /** The world before the last follow-up poll of a turn with one
      follow-up batch. */
  lemma FollowUpTurnShape(env: Env, w: World, fu: seq<Message>, text1: string, model1: string,
                          text2: string, model2: string)
    requires Answering(env) && w.stream.Open?
    requires env.cfg.provider.value.complete(|w.requests|) == Ok(Provider.CompletionResponse(text1, [], model1))
    requires env.cfg.provider.value.complete(|w.requests| + 1) == Ok(Provider.CompletionResponse(text2, [], model2))
    ensures var a2 := TextAnswered(env, Polled(TextAnswered(env, Emit(w, Events.TurnStart), true), fu), false);
            var reply1 := ReplyMessage(env.cfg, text1, model1);
            var reply2 := ReplyMessage(env.cfg, text2, model2);
            a2.state.messages == w.state.messages + [reply1] + fu + [reply2]
            && a2.stream == EventStream.Open(
                 w.stream.events + [Events.TurnStart, Events.SteeringMode("respond", 0)]
                 + (if text1 != "" then Events.TextDeltas(text1) else []) + [Events.TurnEnd(reply1)]
                 + [Events.TurnStart, Events.SteeringMode("respond", 0)]
                 + (if text2 != "" then Events.TextDeltas(text2) else []) + [Events.TurnEnd(reply2)])
            && |a2.requests| == |w.requests| + 2 && a2.followUpPolls == w.followUpPolls + 1
  {
    var w1 := Emit(w, Events.TurnStart);
    TextAnsweredShape(env, w1, true, text1, model1);
    var a1 := TextAnswered(env, w1, true);
    TextAnsweredShape(env, Polled(a1, fu), false, text2, model2);
    TwoTurns(w.stream.events, Events.TurnStart, Events.SteeringMode("respond", 0),
             if text1 != "" then Events.TextDeltas(text1) else [], Events.TurnEnd(ReplyMessage(env.cfg, text1, model1)),
             if text2 != "" then Events.TextDeltas(text2) else [], Events.TurnEnd(ReplyMessage(env.cfg, text2, model2)));
  }

  /** The events of two iterations regrouped. */
  lemma TwoTurns<T>(e0: seq<T>, ts: T, sm: T, d1: seq<T>, te1: T, d2: seq<T>, te2: T)
    ensures (e0 + [ts]) + [] + [sm] + d1 + [te1] + [ts] + [sm] + d2 + [te2]
            == e0 + [ts, sm] + d1 + [te1] + [ts, sm] + d2 + [te2]
  {
    assert (e0 + [ts]) + [] + [sm] == e0 + [ts, sm];
  }

  /** A decision the provider fails: the prefixed error, and one request
      recorded. */
  lemma DecideFails(env: Env, w: World, isFollowUp: bool, err: string)
    requires Answering(env)
    requires env.cfg.provider.value.complete(|w.requests|) == Err(err)
    ensures Decide(env, w, isFollowUp).0 == Err("steering decision failed: " + err)
    ensures |Decide(env, w, isFollowUp).1.requests| == |w.requests| + 1
  {
    var call := Agent.DecideSteering(Agent.AgentValue(env.cfg, w.state), env.order, isFollowUp, Err(err));
    assert call.request.Some?;
  }

  /** A Steer decision whose follow-up decision fails: the loop stops after
      one round with the error recorded, the zero decision and the error
      text, and pushes no steering_mode event. */
  lemma LoopErrorAfterRound(env: Env, w: World, d: Steering.SteeringDecision, err: string, fuel: nat)
    requires Plain(env) && env.cfg.getSteeringMessages.None? && w.stream.Open? && fuel >= 1
    requires d.mode == Steering.Steer
    requires env.cfg.provider.value.complete(|w.requests|) == Err(err)
    ensures var e := "steering decision failed: " + err;
            var r := SteerLoop(env, w, d, fuel);
            r.Finished? && r.decision == Steering.ZeroDecision && r.responseText == ErrorResponse(e)
            && r.w.state.error == Some(e)
            && r.w.state.messages == w.state.messages + [ToolUseMessage(env.cfg, d)] + RunCalls(env, d.toolCalls)
                                     + [ControlMessage(d.toolCalls)]
            && r.w.stream == EventStream.Open(w.stream.events + RoundEvents(env, d))
            && |r.w.requests| == |w.requests| + 1 && r.w.followUpPolls == w.followUpPolls
  {
    var w3 := Round(env, PassCheck(w), d);
    RoundShape(env, PassCheck(w), d);
    DecideFails(env, w3, true, err);
    LoopDecisionErrorIsAnswered(env, w, d, fuel);
  }

  /** One Steer round whose follow-up decision fails: the error is recorded
      and answered with "I encountered an error: ..." under the model
      "unknown", after the round's messages and events, and the stream ends
      normally with the full history. */
  lemma LoopErrorTurn(env: Env, w: World, first: Provider.CompletionResponse, err: string, fuel: nat)
    requires Plain(env) && env.cfg.getSteeringMessages.None? && w.stream.Open? && fuel >= 2
    requires |first.toolCalls| > 0
    requires env.cfg.provider.value.complete(|w.requests|) == Ok(first)
    requires env.cfg.provider.value.complete(|w.requests| + 1) == Err(err)
    ensures var r := Run(env, w, fuel);
            var d := Steering.DecisionFromResponse(first);
            var e := "steering decision failed: " + err;
            var reply := ReplyMessage(env.cfg, ErrorResponse(e), "");
            r.state.messages == w.state.messages + [ToolUseMessage(env.cfg, d)] + RunCalls(env, d.toolCalls)
                                + [ControlMessage(d.toolCalls)] + [reply]
            && r.state.error == Some(e)
            && r.stream == EventStream.Ended(
                 w.stream.events + [Events.TurnStart, Events.SteeringMode("steer", |first.toolCalls|)]
                 + RoundEvents(env, d) + Events.TextDeltas(ErrorResponse(e)) + [Events.TurnEnd(reply)],
                 r.state.messages)
            && reply.content == [Content.TextContent(ErrorResponse(e))]
            && reply.model == "unknown"
            && |r.requests| == |w.requests| + 2
  {
    var d := Steering.DecisionFromResponse(first);
    FirstSteer(env, w, first);
    var w2 := FirstDecision(env, PassCheck(Emit(w, Events.TurnStart)), true).1;
    LoopErrorAfterRound(env, w2, d, err, fuel - 1);
    LoopErrorTurnUnfolds(env, w, first, err, fuel);
    ErrorReplyEnds(env, SteerLoop(env, w2, d, fuel - 1).w, ErrorResponse("steering decision failed: " + err), fuel - 1);
  }

  /** The turn of `LoopErrorTurn`, unfolded up to its reply. */
  lemma LoopErrorTurnUnfolds(env: Env, w: World, first: Provider.CompletionResponse, err: string, fuel: nat)
    requires Plain(env) && env.cfg.getSteeringMessages.None? && w.stream.Open? && fuel >= 2
    requires |first.toolCalls| > 0
    requires env.cfg.provider.value.complete(|w.requests|) == Ok(first)
    requires env.cfg.provider.value.complete(|w.requests| + 1) == Err(err)
    ensures var w2 := FirstDecision(env, PassCheck(Emit(w, Events.TurnStart)), true).1;
            var lw := SteerLoop(env, w2, Steering.DecisionFromResponse(first), fuel - 1).w;
            Run(env, w, fuel)
            == FollowUp(env, Reply(env, lw, Steering.ZeroDecision, ErrorResponse("steering decision failed: " + err)), fuel - 1)
  {
    var d := Steering.DecisionFromResponse(first);
    var w1 := Emit(w, Events.TurnStart);
    FirstSteer(env, w, first);
    var (d1, w2) := FirstDecision(env, PassCheck(w1), true);
    LoopErrorAfterRound(env, w2, d, err, fuel - 1);
    IterationFinishes(env, w1, fuel);
  }

  /** Answering after the zero decision when no follow-up source is
      configured: the text is streamed, the stop message under the model
      "unknown" is appended, the state's error is kept, and the stream ends
      with the full history. */
  lemma ErrorReplyEnds(env: Env, w: World, text: string, fuel: nat)
    requires EnvOk(env) && env.cfg.getFollowUpMessages.None? && w.stream.Open? && text != ""
    ensures var reply := ReplyMessage(env.cfg, text, "");
            var r := FollowUp(env, Reply(env, w, Steering.ZeroDecision, text), fuel);
            r.state.messages == w.state.messages + [reply] && r.state.error == w.state.error
            && r.stream == EventStream.Ended(w.stream.events + Events.TextDeltas(text) + [Events.TurnEnd(reply)], r.state.messages)
            && r.requests == w.requests
  {
  }
}
