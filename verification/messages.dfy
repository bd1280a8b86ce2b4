/** Messages, the LLM-visible filter over them, and the "last assistant text"
    helper (agent-core/packages/agent/types/message.go, agent_message.go,
    message_util.go). */
module Messages {
  import opened Wrappers
  import opened JsonValues
  import opened Content
  import Strs

  /** Why an assistant message ended. */
  datatype StopReason = Stop | Length | ToolUse | Aborted | Error

  /** The wire value of each stop reason. */
  function StopReasonValue(r: StopReason): string {
    match r
    case Stop => "stop"
    case Length => "length"
    case ToolUse => "toolUse"
    case Aborted => "aborted"
    case Error => "error"
  }

  /** The stop-reason values are exactly these five strings, one per reason. */
  lemma StopReasonValues()
    ensures (set r: StopReason | true :: StopReasonValue(r)) == {"stop", "length", "toolUse", "aborted", "error"}
    ensures forall a, b :: StopReasonValue(a) == StopReasonValue(b) ==> a == b
  {
    var all := set r: StopReason | true :: StopReasonValue(r);
    assert StopReasonValue(Stop) in all && StopReasonValue(Length) in all && StopReasonValue(ToolUse) in all;
    assert StopReasonValue(Aborted) in all && StopReasonValue(Error) in all;
  }

  /** An agent message. The first four variants are the standard
      LLM-compatible kinds; `Custom` stands for every other implementation of
      the message interface (the orchestrator's control message, or an
      application's own notification type), which reports its own role.
      Token usage is not modelled. */
  datatype Message =
    | UserMessage(content: seq<ContentBlock>, timestamp: int)
    | AssistantMessage(content: seq<ContentBlock>, api: string, provider: string, model: string,
                       stopReason: StopReason, errorMessage: Option<string>, timestamp: int)
    | ToolCallMessage(content: seq<ContentBlock>, toolCallId: string, toolName: string,
                      arguments: Option<Json>, timestamp: int)
    | ToolResultMessage(content: seq<ContentBlock>, toolCallId: string, toolName: string,
                        details: Option<Json>, isError: bool, timestamp: int)
    | Custom(customRole: string, content: seq<ContentBlock>, timestamp: int)

  /** The role tag of a message. */
  function Role(m: Message): string {
    match m
    case UserMessage(_, _) => "user"
    case AssistantMessage(_, _, _, _, _, _, _) => "assistant"
    case ToolCallMessage(_, _, _, _, _) => "toolCall"
    case ToolResultMessage(_, _, _, _, _, _) => "toolResult"
    case Custom(role, _, _) => role
  }

  /** The timestamp a message reports is its stored timestamp, whatever the variant. */
  function Timestamp(m: Message): (t: int)
    ensures m.UserMessage? ==> t == m.timestamp
    ensures m.AssistantMessage? ==> t == m.timestamp
    ensures m.ToolCallMessage? ==> t == m.timestamp
    ensures m.ToolResultMessage? ==> t == m.timestamp
  {
    m.timestamp
  }

  /** The four standard roles are "user", "assistant", "toolCall", "toolResult"
      and are pairwise distinct, so among standard messages the role identifies
      the variant. */
  lemma RoleValues(a: Message, b: Message)
    ensures a.UserMessage? ==> Role(a) == "user"
    ensures a.AssistantMessage? ==> Role(a) == "assistant"
    ensures a.ToolCallMessage? ==> Role(a) == "toolCall"
    ensures a.ToolResultMessage? ==> Role(a) == "toolResult"
    ensures IsStandard(a) && IsStandard(b) ==>
      (Role(a) == Role(b) <==>
        (a.UserMessage? && b.UserMessage?) || (a.AssistantMessage? && b.AssistantMessage?) ||
        (a.ToolCallMessage? && b.ToolCallMessage?) || (a.ToolResultMessage? && b.ToolResultMessage?))
  {
  }

  /** The optional error text of an assistant message: absent when nil. */
  function AssistantError(m: Message): (r: Option<string>)
    requires m.AssistantMessage?
    ensures r.Some? <==> m.errorMessage.Some?
    ensures r.Some? ==> r.value == m.errorMessage.value
  {
    m.errorMessage
  }

  /** A message of one of the four standard LLM-compatible kinds. */
  predicate IsStandard(m: Message) {
    !m.Custom?
  }

  /** `ConvertToLLM`: keeps the standard messages, drops every other kind. */
  function ConvertToLLM(ms: seq<Message>): (r: seq<Message>)
    ensures |r| <= |ms|
    ensures forall i :: 0 <= i < |r| ==> IsStandard(r[i])
    ensures forall m :: m in r <==> m in ms && IsStandard(m)
  {
    if |ms| == 0 then []
    else (if IsStandard(ms[0]) then [ms[0]] else []) + ConvertToLLM(ms[1..])
  }

  /** `a` is an order-preserving subsequence of `b`. */
  predicate IsSubsequence(a: seq<Message>, b: seq<Message>)
    decreases |b|
  {
    if |a| == 0 then true
    else if |b| == 0 then false
    else if a[0] == b[0] then IsSubsequence(a[1..], b[1..])
    else IsSubsequence(a, b[1..])
  }

  /** ConvertToLLM keeps its survivors in their original order. */
  lemma {:induction false} ConvertToLLMIsSubsequence(ms: seq<Message>)
    ensures IsSubsequence(ConvertToLLM(ms), ms)
    decreases |ms|
  {
    if |ms| > 0 {
      ConvertToLLMIsSubsequence(ms[1..]);
      var rest := ConvertToLLM(ms[1..]);
      if IsStandard(ms[0]) {
        assert ConvertToLLM(ms) == [ms[0]] + rest;
        assert ([ms[0]] + rest)[1..] == rest;
      } else {
        assert ConvertToLLM(ms) == rest;
        // A survivor is standard, so it never matches the dropped head.
        assert |rest| > 0 ==> rest[0] != ms[0];
      }
    }
  }

  /** Nothing is dropped exactly when every message is of a standard kind. */
  lemma {:induction false} ConvertToLLMKeepsAllIff(ms: seq<Message>)
    ensures |ConvertToLLM(ms)| == |ms| <==> forall i :: 0 <= i < |ms| ==> IsStandard(ms[i])
    ensures (forall i :: 0 <= i < |ms| ==> IsStandard(ms[i])) ==> ConvertToLLM(ms) == ms
    decreases |ms|
  {
    if |ms| > 0 {
      ConvertToLLMKeepsAllIff(ms[1..]);
      assert forall i :: 1 <= i < |ms| ==> ms[i] == ms[1..][i - 1];
      if forall i :: 0 <= i < |ms| ==> IsStandard(ms[i]) {
        assert ms == [ms[0]] + ms[1..];
      }
    }
  }

  /** Converting a converted history changes nothing. */
  lemma ConvertToLLMIdempotent(ms: seq<Message>)
    ensures ConvertToLLM(ConvertToLLM(ms)) == ConvertToLLM(ms)
  {
    ConvertToLLMKeepsAllIff(ConvertToLLM(ms));
  }

  /** ConvertToLLM distributes over concatenation. */
  lemma {:induction false} ConvertToLLMAppend(a: seq<Message>, b: seq<Message>)
    ensures ConvertToLLM(a + b) == ConvertToLLM(a) + ConvertToLLM(b)
    decreases |a|
  {
    if |a| == 0 {
      assert a + b == b;
    } else {
      ConvertToLLMAppend(a[1..], b);
      var ab := a + b;
      assert ab[0] == a[0] && ab[1..] == a[1..] + b;
      var h := if IsStandard(a[0]) then [a[0]] else [];
      assert ConvertToLLM(ab) == h + (ConvertToLLM(a[1..]) + ConvertToLLM(b));
      assert ConvertToLLM(a) == h + ConvertToLLM(a[1..]);
      Strs.Regroup3(h, ConvertToLLM(a[1..]), ConvertToLLM(b));
    }
  }

  /** `LastAssistantText`: scans from the end for the last assistant message
      and returns the concatenation of its text blocks; "" when there is none. */
  function LastAssistantText(ms: seq<Message>): string
    decreases |ms|
  {
    if |ms| == 0 then ""
    else if ms[|ms| - 1].AssistantMessage? then TextOf(ms[|ms| - 1].content)
    else LastAssistantText(ms[..|ms| - 1])
  }

  /** The result is "" when no assistant message is present, and otherwise the
      text of the LAST assistant message only: earlier assistant messages are
      ignored even when the last one has no text. */
  lemma {:induction false} LastAssistantTextSpec(ms: seq<Message>)
    ensures (forall i :: 0 <= i < |ms| ==> !ms[i].AssistantMessage?) ==> LastAssistantText(ms) == ""
    ensures forall i :: (0 <= i < |ms| && ms[i].AssistantMessage? &&
              (forall j :: i < j < |ms| ==> !ms[j].AssistantMessage?)) ==> LastAssistantText(ms) == TextOf(ms[i].content)
    decreases |ms|
  {
    if |ms| > 0 && !ms[|ms| - 1].AssistantMessage? {
      var init := ms[..|ms| - 1];
      LastAssistantTextSpec(init);
      assert forall i :: 0 <= i < |init| ==> init[i] == ms[i];
    }
  }

  /** Messages appended after the last assistant message (tool results,
      custom messages, user messages) do not change LastAssistantText. */
  lemma {:induction false} LastAssistantTextIgnoresTail(ms: seq<Message>, tail: seq<Message>)
    requires forall j :: 0 <= j < |tail| ==> !tail[j].AssistantMessage?
    ensures LastAssistantText(ms + tail) == LastAssistantText(ms)
    decreases |tail|
  {
    if |tail| == 0 {
      assert ms + tail == ms;
    } else {
      var all := ms + tail;
      assert all[|all| - 1] == tail[|tail| - 1];
      assert all[..|all| - 1] == ms + tail[..|tail| - 1];
      assert LastAssistantText(all) == LastAssistantText(all[..|all| - 1]);
      LastAssistantTextIgnoresTail(ms, tail[..|tail| - 1]);
    }
  }
}
