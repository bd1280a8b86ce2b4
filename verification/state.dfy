/** The agent's context snapshot and runtime state
    (agent-core/packages/agent/types/state.go). Values are immutable here, so
    a snapshot can never be disturbed by a later change to the state it was
    taken from; `Clone` is still modelled because the source calls it. */
module AgentStates {
  import opened Wrappers
  import opened Messages
  import Tools

  /** A snapshot for transforms and provider calls. `tools` is the optional
      shared registry reference. */
  datatype AgentContext = AgentContext(systemPrompt: string, messages: seq<Message>, tools: Option<Tools.Registry>)

  /** The mutable runtime state: configuration copies, history, flags, the
      set of pending tool-call ids, and the last recorded error. */
  datatype AgentState = AgentState(
    systemPrompt: string,
    tools: Option<Tools.Registry>,
    messages: seq<Message>,
    isStreaming: bool,
    streamMessage: Option<Message>,
    pendingToolCalls: set<string>,
    error: Option<string>)

  /** `Clone`: the same prompt, the same messages in the same order, and the
      same registry reference. */
  function Clone(c: AgentContext): (r: AgentContext)
    ensures r.systemPrompt == c.systemPrompt
    ensures |r.messages| == |c.messages| && forall i :: 0 <= i < |r.messages| ==> r.messages[i] == c.messages[i]
    ensures r.tools == c.tools
  {
    AgentContext(c.systemPrompt, c.messages, c.tools)
  }

  /** `ToContext`: prompt, history and registry taken from the state, with no
      filtering of the history. */
  function ToContext(s: AgentState): (c: AgentContext)
    ensures c.systemPrompt == s.systemPrompt && c.messages == s.messages && c.tools == s.tools
  {
    AgentContext(s.systemPrompt, s.messages, s.tools)
  }

  /** A clone is indistinguishable from its original, and cloning again
      changes nothing. */
  lemma CloneIsExact(c: AgentContext)
    ensures Clone(c) == c
    ensures Clone(Clone(c)) == Clone(c)
  {
  }

  /** The snapshot sees only configuration and history: the streaming flag,
      the partial message, the pending tool calls and the recorded error do
      not reach it. */
  lemma SnapshotIgnoresRuntimeFlags(s: AgentState, streaming: bool, partial: Option<Message>,
                                    pending: set<string>, err: Option<string>)
    ensures ToContext(s.(isStreaming := streaming, streamMessage := partial,
                         pendingToolCalls := pending, error := err)) == ToContext(s)
  {
  }

  /** A snapshot taken before a message is appended holds a prefix of the
      history of one taken after it, with the same prompt and registry. */
  lemma SnapshotBeforeAppend(s: AgentState, m: Message)
    ensures var later := ToContext(s.(messages := s.messages + [m]));
            later.messages == ToContext(s).messages + [m]
            && ToContext(s).messages <= later.messages
            && later.systemPrompt == ToContext(s).systemPrompt && later.tools == ToContext(s).tools
  {
  }
}
