/** Agent events and their payloads (agent-core/packages/agent/core/events.go).
    Timestamps and durations are left out. */
module Events {
  import opened Wrappers
  import opened JsonValues
  import opened Messages
  import Strs

  const TurnStartType := "turn_start"
  const TextDeltaType := "text_delta"
  const ThinkingType := "thinking"
  const SteeringModeType := "steering_mode"
  const ToolCallType := "tool_call"
  const ToolResultType := "tool_result"
  const TurnEndType := "turn_end"
  const PlanCreatedType := "plan_created"
  const PlanStepStartType := "plan_step_start"
  const PlanStepEndType := "plan_step_end"

  /** One step of a plan as reported to observers. */
  datatype PlanStepInfo = PlanStepInfo(tool: string, args: map<string, Json>)

  /** An agent event: the type tag together with its payload. `Other`
      stands for an event whose type is none of the above, which the core
      never emits but which consumers must tolerate. */
  datatype AgentEvent =
    | TurnStart
    | TextDelta(text: string, index: nat)
    | Thinking(thinkingText: string)
    | SteeringMode(mode: string, queueSize: nat)
    | ToolCall(toolCallId: string, toolName: string, args: map<string, Json>)
    | ToolResult(toolCallId: string, toolName: string, result: Option<Json>, error: string)
    | TurnEnd(message: Message)
    | PlanCreated(stepCount: nat, steps: seq<PlanStepInfo>)
    | PlanStepStart(index: nat, stepCount: nat, tool: string, args: map<string, Json>)
    | PlanStepEnd(index: nat, stepCount: nat, tool: string, result: Option<Json>, error: string)
    | Other(otherType: string)

  /** The `Type` string of an event. */
  function EventType(e: AgentEvent): string {
    match e
    case TurnStart => TurnStartType
    case TextDelta(_, _) => TextDeltaType
    case Thinking(_) => ThinkingType
    case SteeringMode(_, _) => SteeringModeType
    case ToolCall(_, _, _) => ToolCallType
    case ToolResult(_, _, _, _) => ToolResultType
    case TurnEnd(_) => TurnEndType
    case PlanCreated(_, _) => PlanCreatedType
    case PlanStepStart(_, _, _, _) => PlanStepStartType
    case PlanStepEnd(_, _, _, _, _) => PlanStepEndType
    case Other(t) => t
  }

  /** The ten named event types are distinct, so the type of a core event
      identifies its payload kind. */
  lemma EventTypeIdentifiesKind(a: AgentEvent, b: AgentEvent)
    requires !a.Other? && !b.Other?
    ensures EventType(a) == EventType(b) <==>
              (a.TurnStart? == b.TurnStart? && a.TextDelta? == b.TextDelta?
               && a.Thinking? == b.Thinking? && a.SteeringMode? == b.SteeringMode? && a.ToolCall? == b.ToolCall?
               && a.ToolResult? == b.ToolResult? && a.TurnEnd? == b.TurnEnd? && a.PlanCreated? == b.PlanCreated?
               && a.PlanStepStart? == b.PlanStepStart? && a.PlanStepEnd? == b.PlanStepEnd?)
  {
  }

  /** The text deltas a response is streamed as: one per piece of the
      response split on single spaces, carrying the piece plus a space and
      its index. */
  function TextDeltas(response: string): (es: seq<AgentEvent>)
    ensures |es| == |Strs.SplitOn(response, ' ')|
    ensures forall i :: 0 <= i < |es| ==> es[i] == TextDelta(Strs.SplitOn(response, ' ')[i] + " ", i)
  {
    var words := Strs.SplitOn(response, ' ');
    seq(|words|, i requires 0 <= i < |words| => TextDelta(words[i] + " ", i))
  }

  /** The texts of a run of text deltas, concatenated. */
  function DeltaText(es: seq<AgentEvent>): string {
    if |es| == 0 then "" else (if es[0].TextDelta? then es[0].text else "") + DeltaText(es[1..])
  }

  /** Streaming a response reproduces it followed by one space. */
  lemma TextDeltasReassemble(response: string)
    ensures DeltaText(TextDeltas(response)) == response + " "
  {
    var words := Strs.SplitOn(response, ' ');
    var es := TextDeltas(response);
    DeltaTextIsConcat(es, words);
    Strs.ConcatWithSuffix(words, " ");
    Strs.JoinSplit(response, ' ');
  }

  lemma {:induction false} DeltaTextIsConcat(es: seq<AgentEvent>, words: seq<string>)
    requires |es| == |words|
    requires forall i :: 0 <= i < |es| ==> es[i].TextDelta? && es[i].text == words[i] + " "
    ensures DeltaText(es) == Strs.Concat(Strs.SuffixEach(words, " "))
    decreases |es|
  {
    if |es| > 0 {
      DeltaTextIsConcat(es[1..], words[1..]);
      assert Strs.SuffixEach(words, " ")[0] == words[0] + " ";
      assert Strs.SuffixEach(words, " ")[1..] == Strs.SuffixEach(words[1..], " ");
    }
  }
}
