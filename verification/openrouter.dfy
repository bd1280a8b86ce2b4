/** Translation between the agent's messages and the OpenAI-compatible wire
    format of the OpenRouter client (agent-mind/openrouter/client.go), the
    chat request both `Stream` and `Complete` build, and how `Complete`
    reads the decoded response (agent-mind/openrouter/streaming.go). The
    HTTP exchange itself is not modelled; JSON encoding and decoding are
    parameters. */
module OpenRouter {
  import opened Wrappers
  import opened JsonValues
  import opened Content
  import opened Messages
  import Strs
  import Provider

  /** A tool call as sent on the wire: its arguments as JSON text. */
  datatype WireCall = WireCall(id: string, callType: string, name: string, arguments: string)

  /** A chat message as sent: role, text content, the assistant's tool
      calls (omitted when empty) and, for a tool result, the call id. */
  datatype ChatMessage = ChatMessage(role: string, content: string, toolCalls: seq<WireCall>, toolCallId: string)

  /** A tool definition as sent. */
  datatype ToolDef = ToolDef(defType: string, name: string, description: string, parameters: Json)

  /** The chat request. The temperature is kept in tenths, as in the
      provider request. */
  datatype ChatRequest = ChatRequest(model: string, messages: seq<ChatMessage>, temperatureTenths: nat, maxTokens: nat,
                                     stream: bool, tools: seq<ToolDef>, parallelToolCalls: bool)

  /** The arguments of a tool-call block as JSON text: "" when nil. */
  function ArgumentsText(encode: Encoder, a: Option<Json>): (s: string)
    ensures a.None? ==> s == ""
    ensures a.Some? ==> s == encode(a.value)
  {
    if a.Some? then encode(a.value) else ""
  }

  /** One "function" wire call per tool-call block, in block order; other
      blocks contribute none. */
  function WireCalls(encode: Encoder, blocks: seq<ContentBlock>): (calls: seq<WireCall>)
    ensures |calls| <= |blocks|
    ensures forall i :: 0 <= i < |calls| ==> calls[i].callType == "function"
  {
    if |blocks| == 0 then []
    else (if blocks[0].ToolCallContent?
          then [WireCall(blocks[0].id, "function", blocks[0].name, ArgumentsText(encode, blocks[0].arguments))]
          else []) + WireCalls(encode, blocks[1..])
  }

  /** Blocks without a tool call give no wire calls, and each tool-call
      block gives its own, carrying id, name and encoded arguments. */
  lemma {:induction false} WireCallsOfBlocks(encode: Encoder, blocks: seq<ContentBlock>)
    ensures (forall i :: 0 <= i < |blocks| ==> !blocks[i].ToolCallContent?) ==> WireCalls(encode, blocks) == []
    ensures forall i :: 0 <= i < |blocks| && blocks[i].ToolCallContent? ==>
              WireCall(blocks[i].id, "function", blocks[i].name, ArgumentsText(encode, blocks[i].arguments)) in WireCalls(encode, blocks)
    decreases |blocks|
  {
    if |blocks| > 0 {
      WireCallsOfBlocks(encode, blocks[1..]);
      assert forall i :: 1 <= i < |blocks| ==> blocks[i] == blocks[1..][i - 1];
    }
  }

  /** The text of a tool result: its text blocks, or the encoded details
      when there is no text and the details are present. */
  function ResultText(encode: Encoder, m: Message): (s: string)
    requires m.ToolResultMessage?
    ensures TextOf(m.content) != "" ==> s == TextOf(m.content)
    ensures TextOf(m.content) == "" && m.details.Some? ==> s == encode(m.details.value)
    ensures TextOf(m.content) == "" && m.details.None? ==> s == ""
  {
    var text := TextOf(m.content);
    if text == "" && m.details.Some? then encode(m.details.value) else text
  }

  /** How one message travels: a user message as "user" with its text; an
      assistant message as "assistant" with its text and tool calls; a tool
      result as "tool" linked to its call. Tool-call messages and every
      other kind are not sent. */
  function ConvertMessage(encode: Encoder, m: Message): (r: Option<ChatMessage>)
    ensures r.Some? <==> m.UserMessage? || m.AssistantMessage? || m.ToolResultMessage?
    ensures m.UserMessage? ==> r == Some(ChatMessage("user", TextOf(m.content), [], ""))
    ensures m.AssistantMessage? ==> r == Some(ChatMessage("assistant", TextOf(m.content), WireCalls(encode, m.content), ""))
    ensures m.ToolResultMessage? ==> r == Some(ChatMessage("tool", ResultText(encode, m), [], m.toolCallId))
  {
    match m
    case UserMessage(content, _) => Some(ChatMessage("user", TextOf(content), [], ""))
    case AssistantMessage(content, _, _, _, _, _, _) => Some(ChatMessage("assistant", TextOf(content), WireCalls(encode, content), ""))
    case ToolResultMessage(_, id, _, _, _, _) => Some(ChatMessage("tool", ResultText(encode, m), [], id))
    case _ => None
  }

  /** `convertMessages`: the translation of every message that travels, in
      input order. */
  function ConvertMessages(encode: Encoder, ms: seq<Message>): (r: seq<ChatMessage>)
    ensures |r| <= |ms|
    ensures forall i :: 0 <= i < |r| ==> r[i].role in {"user", "assistant", "tool"}
    ensures forall i :: 0 <= i < |ms| && ConvertMessage(encode, ms[i]).Some? ==> ConvertMessage(encode, ms[i]).value in r
  {
    if |ms| == 0 then []
    else
      var rest := ConvertMessages(encode, ms[1..]);
      var r := (if ConvertMessage(encode, ms[0]).Some? then [ConvertMessage(encode, ms[0]).value] else []) + rest;
      assert forall i :: 1 <= i < |ms| ==> ms[i] == ms[1..][i - 1];
      r
  }

  /** The translation distributes over concatenation, so it keeps input order. */
  lemma {:induction false} ConvertMessagesAppend(encode: Encoder, a: seq<Message>, b: seq<Message>)
    ensures ConvertMessages(encode, a + b) == ConvertMessages(encode, a) + ConvertMessages(encode, b)
    decreases |a|
  {
    if |a| == 0 {
      assert a + b == b;
    } else {
      ConvertMessagesAppend(encode, a[1..], b);
      assert (a + b)[1..] == a[1..] + b;
      assert (a + b)[0] == a[0];
    }
  }

  /** Filtering the history to its LLM-visible messages first changes
      nothing on the wire: custom messages are never sent either way. */
  lemma {:induction false} ConvertMessagesIgnoresCustom(encode: Encoder, ms: seq<Message>)
    ensures ConvertMessages(encode, ConvertToLLM(ms)) == ConvertMessages(encode, ms)
    decreases |ms|
  {
    if |ms| > 0 {
      ConvertMessagesIgnoresCustom(encode, ms[1..]);
      var h := if IsStandard(ms[0]) then [ms[0]] else [];
      assert ConvertToLLM(ms) == h + ConvertToLLM(ms[1..]);
      ConvertMessagesAppend(encode, h, ConvertToLLM(ms[1..]));
      if IsStandard(ms[0]) {
        assert h[1..] == [];
        assert ConvertMessages(encode, h) == (if ConvertMessage(encode, ms[0]).Some? then [ConvertMessage(encode, ms[0]).value] else []);
      }
    }
  }

  /** `convertTools`: one "function" definition per tool, in order, with
      name, description and parameters copied. */
  function ConvertTools(tools: seq<Provider.ProviderTool>): (defs: seq<ToolDef>)
    ensures |defs| == |tools|
    ensures forall i :: 0 <= i < |tools| ==>
              defs[i] == ToolDef("function", tools[i].name, tools[i].description, tools[i].parameters)
  {
    seq(|tools|, i requires 0 <= i < |tools| => ToolDef("function", tools[i].name, tools[i].description, tools[i].parameters))
  }

  /** The chat request for a provider request and model: the translated
      history, preceded by a single "system" message when the system prompt
      is non-empty; parallel tool calls are asked for exactly when tools are
      offered. */
  function BuildChatRequest(encode: Encoder, req: Provider.CompletionRequest, model: string, stream: bool): (c: ChatRequest)
    ensures c.model == model && c.stream == stream
    ensures c.temperatureTenths == req.temperatureTenths && c.maxTokens == req.maxTokens
    ensures c.tools == ConvertTools(req.tools)
    ensures c.parallelToolCalls <==> |req.tools| > 0
    ensures req.systemPrompt == "" ==> c.messages == ConvertMessages(encode, req.messages)
    ensures req.systemPrompt != "" ==>
              c.messages == [ChatMessage("system", req.systemPrompt, [], "")] + ConvertMessages(encode, req.messages)
    ensures forall i :: 0 < i < |c.messages| ==> c.messages[i].role != "system"
  {
    var converted := ConvertMessages(encode, req.messages);
    var msgs := if req.systemPrompt != "" then [ChatMessage("system", req.systemPrompt, [], "")] + converted else converted;
    ChatRequest(model, msgs, req.temperatureTenths, req.maxTokens, stream, ConvertTools(req.tools), |req.tools| > 0)
  }

  // ---------------------------------------------------------------------
  // Reading a non-streaming response

  /** A tool call as received: its arguments as JSON text. */
  datatype ResponseCall = ResponseCall(id: string, name: string, arguments: string)

  /** One choice of a decoded response: the message's text and tool calls. */
  datatype ChatChoice = ChatChoice(content: string, toolCalls: seq<ResponseCall>)

  /** A decoded chat response. Usage counts are not modelled. */
  datatype ChatResponse = ChatResponse(model: string, choices: seq<ChatChoice>)

  /** The arguments of a received call, when they decode into an argument
      map (`null` gives an empty one); `None` when they do not. */
  function CallArguments(decode: Decoder, c: ResponseCall): (a: Option<map<string, Json>>)
    ensures a.Some? <==> UnmarshalObject(decode, c.arguments).Ok?
    ensures a.Some? ==> a.value == UnmarshalObject(decode, c.arguments).value.GetOr(map[])
  {
    match UnmarshalObject(decode, c.arguments)
    case Ok(m) => Some(m.GetOr(map[]))
    case Err(_) => None
  }

  /** The tool call a received call becomes once its arguments decode. */
  function Decoded(decode: Decoder, c: ResponseCall): Provider.ToolCallResponse
    requires CallArguments(decode, c).Some?
  {
    Provider.ToolCallResponse(c.id, c.name, CallArguments(decode, c).value)
  }

  /** The received calls whose arguments decode, in order; the others are
      skipped. */
  function DecodedCalls(decode: Decoder, calls: seq<ResponseCall>): (r: seq<Provider.ToolCallResponse>)
    ensures |r| <= |calls|
    ensures (forall i :: 0 <= i < |calls| ==> CallArguments(decode, calls[i]).Some?) ==> |r| == |calls|
  {
    if |calls| == 0 then []
    else
      var head := if CallArguments(decode, calls[0]).Some? then [Decoded(decode, calls[0])] else [];
      head + DecodedCalls(decode, calls[1..])
  }

  /** A call is kept exactly when it is the decoded form of a received call
      whose arguments decode. */
  lemma {:induction false} DecodedCallsMembers(decode: Decoder, calls: seq<ResponseCall>)
    ensures forall x :: x in DecodedCalls(decode, calls) <==>
              exists i :: 0 <= i < |calls| && CallArguments(decode, calls[i]).Some? && x == Decoded(decode, calls[i])
    decreases |calls|
  {
    if |calls| > 0 {
      var tail := calls[1..];
      DecodedCallsMembers(decode, tail);
      forall x | x in DecodedCalls(decode, calls)
        ensures exists i :: 0 <= i < |calls| && CallArguments(decode, calls[i]).Some? && x == Decoded(decode, calls[i])
      {
        if x !in DecodedCalls(decode, tail) {
          assert CallArguments(decode, calls[0]).Some? && x == Decoded(decode, calls[0]);
        } else {
          var j :| 0 <= j < |tail| && CallArguments(decode, tail[j]).Some? && x == Decoded(decode, tail[j]);
          assert calls[j + 1] == tail[j];
        }
      }
      forall i | 0 <= i < |calls| && CallArguments(decode, calls[i]).Some?
        ensures Decoded(decode, calls[i]) in DecodedCalls(decode, calls)
      {
        if i > 0 {
          assert calls[i] == tail[i - 1];
        }
      }
    }
  }

  /** What `Complete` returns for a decoded response: the first choice's
      text and decodable tool calls (none without a choice), and the
      response's model, or the requested one when it reports none. */
  function ExtractResponse(decode: Decoder, resp: ChatResponse, model: string): (r: Provider.CompletionResponse)
    ensures |resp.choices| == 0 ==> r.text == "" && r.toolCalls == []
    ensures |resp.choices| > 0 ==> r.text == resp.choices[0].content
                                   && r.toolCalls == DecodedCalls(decode, resp.choices[0].toolCalls)
    ensures resp.model != "" ==> r.model == resp.model
    ensures resp.model == "" ==> r.model == model
  {
    var text := if |resp.choices| > 0 then resp.choices[0].content else "";
    var calls := if |resp.choices| > 0 then DecodedCalls(decode, resp.choices[0].toolCalls) else [];
    Provider.CompletionResponse(text, calls, if resp.model == "" then model else resp.model)
  }

  /** `Complete` after the exchange: a body that does not decode is an
      error; otherwise the extracted response. */
  function CompleteFromBody(decodeBody: string -> Result<ChatResponse, string>, decode: Decoder,
                            body: string, model: string): (r: Result<Provider.CompletionResponse, string>)
    ensures decodeBody(body).Err? ==> r == Err("failed to decode response: " + decodeBody(body).error)
    ensures decodeBody(body).Ok? ==> r.Ok? && r.value == ExtractResponse(decode, decodeBody(body).value, model)
  {
    match decodeBody(body)
    case Err(e) => Err("failed to decode response: " + e)
    case Ok(resp) => Ok(ExtractResponse(decode, resp, model))
  }
}
