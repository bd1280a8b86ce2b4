/** The streaming side of the OpenRouter client
    (agent-mind/openrouter/streaming.go): best-effort decoding of partial
    argument text, and the `parseSSE` loop that turns the lines of the
    response body into provider stream events while accumulating tool-call
    fragments by index. The line reading follows a reduced form of the
    server-sent events format of section 9.2 of the WHATWG HTML Living
    Standard: only single `data: ` lines and the `[DONE]` sentinel. Chunk
    decoding is a parameter. */
module OpenRouterStream {
  import opened Wrappers
  import opened JsonValues
  import Strs
  import Provider

  const DataPrefix := "data: "
  const DoneSentinel := "[DONE]"

  /** `parseStreamingJson`: the argument map the text decodes to; blank,
      undecodable, non-object or `null` text gives the empty map. */
  function ParseStreamingJson(decode: Decoder, s: string): (m: map<string, Json>)
    ensures Strs.IsBlank(s) ==> m == map[]
    ensures !Strs.IsBlank(s) && decode(Strs.TrimSpace(s)).Ok? && decode(Strs.TrimSpace(s)).value.JObject? ==>
              m == decode(Strs.TrimSpace(s)).value.fields
    ensures !(decode(Strs.TrimSpace(s)).Ok? && decode(Strs.TrimSpace(s)).value.JObject?) ==> m == map[]
  {
    var t := Strs.TrimSpace(s);
    Strs.TrimSpaceEmptyIffBlank(s);
    if t == "" then map[]
    else
      match UnmarshalObject(decode, t)
      case Ok(Some(m)) => m
      case _ => map[]
  }

  /** One tool-call fragment of a chunk. A missing `function` object reads
      as an empty name and empty argument text, which change nothing. */
  datatype CallFragment = CallFragment(index: int, id: string, name: string, arguments: string)

  /** The first choice's delta of a decoded chunk (later choices are never
      read). */
  datatype Delta = Delta(content: string, reasoning: string, toolCalls: seq<CallFragment>)

  /** A decoded chunk: the deltas of its choices. */
  datatype Chunk = Chunk(choices: seq<Delta>)

  type ChunkDecoder = string -> Result<Chunk, string>

  /** What has been accumulated for one index. */
  datatype CallState = CallState(id: string, name: string, partialArgs: string)

  /** The parser's memory: the state per index, and the indices in the
      order they first appeared. */
  datatype Parser = Parser(calls: map<int, CallState>, indices: seq<int>)

  /** `indices` lists every accumulated index exactly once. */
  predicate Valid(p: Parser) {
    (forall i, j :: 0 <= i < j < |p.indices| ==> p.indices[i] != p.indices[j])
    && (forall k :: k in p.calls ==> k in p.indices)
    && (forall i :: 0 <= i < |p.indices| ==> p.indices[i] in p.calls)
  }

  function NewParser(): (p: Parser)
    ensures Valid(p) && p.calls == map[]
  {
    Parser(map[], [])
  }

  function TextDeltaEvent(text: string): Provider.StreamEvent {
    Provider.StreamEvent(Provider.EventTextDelta, text, Provider.NoContent, None)
  }

  function DoneEvent(): Provider.StreamEvent {
    Provider.StreamEvent(Provider.EventDone, "", Provider.NoContent, None)
  }

  function ErrorEvent(e: string): Provider.StreamEvent {
    Provider.StreamEvent(Provider.EventError, "", Provider.NoContent, Some(e))
  }

  /** The tool_delta event for index `k`: its accumulated id and name and
      the best-effort decoding of its argument text so far. */
  function DeltaEvent(decode: Decoder, k: int, st: CallState): Provider.StreamEvent {
    Provider.StreamEvent(Provider.EventToolDelta, "",
      Provider.DeltaPayload(Provider.ToolCallStreamPayload(k, st.id, st.name, ParseStreamingJson(decode, st.partialArgs))), None)
  }

  /** The tool_call event completing an accumulated call. */
  function CallEvent(decode: Decoder, st: CallState): Provider.StreamEvent {
    Provider.StreamEvent(Provider.EventToolCall, "",
      Provider.CallPayload(Provider.ToolCallResponse(st.id, st.name, ParseStreamingJson(decode, st.partialArgs))), None)
  }

  /** One fragment: a negative index is ignored. Otherwise the index's
      state (empty when new) takes a non-empty id or name, appends the
      argument text, and a tool_delta reports the result. */
  function Accumulate(decode: Decoder, p: Parser, f: CallFragment): (r: (Parser, seq<Provider.StreamEvent>))
    requires Valid(p)
    ensures Valid(r.0)
    ensures f.index < 0 ==> r == (p, [])
    ensures f.index >= 0 ==> f.index in r.0.calls
    ensures f.index >= 0 ==>
              var prev := if f.index in p.calls then p.calls[f.index] else CallState("", "", "");
              var st := r.0.calls[f.index];
              f.index in r.0.calls
              && st.id == (if f.id != "" then f.id else prev.id)
              && st.name == (if f.name != "" then f.name else prev.name)
              && st.partialArgs == prev.partialArgs + f.arguments
              && r.1 == [DeltaEvent(decode, f.index, st)]
    ensures forall k :: k != f.index ==> (k in r.0.calls <==> k in p.calls) && (k in p.calls ==> r.0.calls[k] == p.calls[k])
    ensures f.index >= 0 && f.index !in p.calls ==> r.0.indices == p.indices + [f.index]
    ensures f.index in p.calls || f.index < 0 ==> r.0.indices == p.indices
  {
    if f.index < 0 then (p, [])
    else
      var prev := if f.index in p.calls then p.calls[f.index] else CallState("", "", "");
      var st := CallState(if f.id != "" then f.id else prev.id,
                          if f.name != "" then f.name else prev.name,
                          prev.partialArgs + f.arguments);
      var indices := if f.index in p.calls then p.indices else p.indices + [f.index];
      (Parser(p.calls[f.index := st], indices), [DeltaEvent(decode, f.index, st)])
  }

  /** The fragments of one chunk, in order. */
  function AccumulateAll(decode: Decoder, p: Parser, fs: seq<CallFragment>): (r: (Parser, seq<Provider.StreamEvent>))
    requires Valid(p)
    ensures Valid(r.0)
    ensures |r.1| <= |fs|
    ensures forall k :: 0 <= k < |r.1| ==> r.1[k].eventType == Provider.EventToolDelta
    ensures (forall i :: 0 <= i < |fs| ==> fs[i].index < 0) ==> r == (p, [])
    decreases |fs|
  {
    if |fs| == 0 then (p, [])
    else
      var (p1, e1) := Accumulate(decode, p, fs[0]);
      var (p2, e2) := AccumulateAll(decode, p1, fs[1..]);
      (p2, e1 + e2)
  }

  /** The argument texts of a run of fragments, concatenated. */
  function ArgumentsOf(fs: seq<CallFragment>): string {
    if |fs| == 0 then "" else fs[0].arguments + ArgumentsOf(fs[1..])
  }

  /** Fragments for one index build its argument text in arrival order,
      whatever other fields they carry. */
  lemma {:induction false} ArgumentsConcatenate(decode: Decoder, p: Parser, k: int, fs: seq<CallFragment>)
    requires Valid(p) && k >= 0
    requires forall i :: 0 <= i < |fs| ==> fs[i].index == k
    ensures var r := AccumulateAll(decode, p, fs);
            |fs| > 0 ==> (k in r.0.calls
                          && r.0.calls[k].partialArgs == (if k in p.calls then p.calls[k].partialArgs else "") + ArgumentsOf(fs))
    ensures |AccumulateAll(decode, p, fs).1| == |fs|
    decreases |fs|
  {
    if |fs| > 0 {
      var a := Accumulate(decode, p, fs[0]);
      var rest := AccumulateAll(decode, a.0, fs[1..]);
      assert AccumulateAll(decode, p, fs) == (rest.0, a.1 + rest.1);
      assert ArgumentsOf(fs) == fs[0].arguments + ArgumentsOf(fs[1..]);
      var before := if k in p.calls then p.calls[k].partialArgs else "";
      assert a.0.calls[k].partialArgs == before + fs[0].arguments;
      ArgumentsConcatenate(decode, a.0, k, fs[1..]);
      if |fs| == 1 {
        assert rest == (a.0, []);
        assert ArgumentsOf(fs[1..]) == "";
        assert fs[0].arguments + "" == fs[0].arguments;
      } else {
        assert rest.0.calls[k].partialArgs == (before + fs[0].arguments) + ArgumentsOf(fs[1..]);
        Strs.Regroup3(before, fs[0].arguments, ArgumentsOf(fs[1..]));
      }
    }
  }

  /** An accumulated state worth reporting: some field is non-empty. */
  predicate HasContent(st: CallState) {
    st.id != "" || st.name != "" || st.partialArgs != ""
  }

  /** The tool_call events of a [DONE] line, in the order the indices
      first appeared (one of the orders Go's map iteration may take): one
      per index with content. */
  function FlushEvents(decode: Decoder, calls: map<int, CallState>, indices: seq<int>): (es: seq<Provider.StreamEvent>)
    requires forall i :: 0 <= i < |indices| ==> indices[i] in calls
    ensures |es| <= |indices|
    ensures forall e :: e in es ==> e.eventType == Provider.EventToolCall
    ensures forall i :: 0 <= i < |indices| && HasContent(calls[indices[i]]) ==> CallEvent(decode, calls[indices[i]]) in es
    ensures forall i :: 0 <= i < |indices| ==> HasContent(calls[indices[i]]) ==> |es| > 0
  {
    if |indices| == 0 then []
    else
      var st := calls[indices[0]];
      var rest := FlushEvents(decode, calls, indices[1..]);
      assert forall i :: 1 <= i < |indices| ==> indices[i] == indices[1..][i - 1];
      (if HasContent(st) then [CallEvent(decode, st)] else []) + rest
  }

  /** The [DONE] flush reports each index with content exactly once: the
      number of events is the number of such indices. */
  lemma {:induction false} FlushEventsOnce(decode: Decoder, calls: map<int, CallState>, indices: seq<int>)
    requires forall i :: 0 <= i < |indices| ==> indices[i] in calls
    ensures |FlushEvents(decode, calls, indices)| == WithContent(calls, indices, |indices|)
    decreases |indices|
  {
    if |indices| == 0 {
      assert WithContent(calls, indices, 0) == 0;
    } else {
      assert forall i :: 0 <= i < |indices[1..]| ==> indices[1..][i] == indices[i + 1];
      FlushEventsOnce(decode, calls, indices[1..]);
      WithContentFirst(calls, indices, |indices|);
    }
  }

  /** How many of the first `n` indices have content. */
  function WithContent(calls: map<int, CallState>, indices: seq<int>, n: nat): nat
    requires n <= |indices| && forall i :: 0 <= i < |indices| ==> indices[i] in calls
  {
    |set i | 0 <= i < n && HasContent(calls[indices[i]])|
  }

  /** Counting one more index adds one exactly when it has content. */
  lemma WithContentTop(calls: map<int, CallState>, indices: seq<int>, n: nat)
    requires 0 < n <= |indices| && forall i :: 0 <= i < |indices| ==> indices[i] in calls
    ensures WithContent(calls, indices, n)
            == WithContent(calls, indices, n - 1) + (if HasContent(calls[indices[n - 1]]) then 1 else 0)
  {
    var a := set i | 0 <= i < n && HasContent(calls[indices[i]]);
    var b := set i | 0 <= i < n - 1 && HasContent(calls[indices[i]]);
    if HasContent(calls[indices[n - 1]]) {
      assert a == b + {n - 1};
    } else {
      assert a == b;
    }
  }

  /** The count over the indices is the first index's mark plus the count
      over the rest. */
  lemma {:induction false} WithContentFirst(calls: map<int, CallState>, indices: seq<int>, n: nat)
    requires 0 < n <= |indices| && forall i :: 0 <= i < |indices| ==> indices[i] in calls
    ensures WithContent(calls, indices, n)
            == (if HasContent(calls[indices[0]]) then 1 else 0) + WithContent(calls, indices[1..], n - 1)
    decreases n
  {
    if n == 1 {
      var a := set i | 0 <= i < 1 && HasContent(calls[indices[i]]);
      assert WithContent(calls, indices[1..], 0) == 0;
      if HasContent(calls[indices[0]]) {
        assert a == {0};
      } else {
        assert a == {};
      }
    } else {
      WithContentFirst(calls, indices, n - 1);
      WithContentTop(calls, indices, n);
      WithContentTop(calls, indices[1..], n - 1);
      assert indices[1..][n - 2] == indices[n - 1];
    }
  }

  /** Every flushed event completes a call that was accumulated with content. */
  lemma {:induction false} FlushedCallsHaveContent(decode: Decoder, calls: map<int, CallState>, indices: seq<int>)
    requires forall i :: 0 <= i < |indices| ==> indices[i] in calls
    ensures forall e :: e in FlushEvents(decode, calls, indices) ==>
              exists i :: 0 <= i < |indices| && HasContent(calls[indices[i]]) && e == CallEvent(decode, calls[indices[i]])
    decreases |indices|
  {
    if |indices| > 0 {
      FlushedCallsHaveContent(decode, calls, indices[1..]);
      assert forall i :: 1 <= i < |indices| ==> indices[i] == indices[1..][i - 1];
    }
  }

  /** Events that can be followed by more: text deltas, tool deltas and
      completed tool calls. Done and error end the stream. */
  predicate Intermediate(e: Provider.StreamEvent) {
    e.eventType in {Provider.EventTextDelta, Provider.EventToolDelta, Provider.EventToolCall}
  }

  /** What one line does: the events it emits and whether it ends the
      stream. */
  datatype Step = Step(p: Parser, events: seq<Provider.StreamEvent>, stop: bool)

  /** The text deltas of a chunk: content first, then reasoning, each only
      when non-empty. */
  function TextEvents(d: Delta): (es: seq<Provider.StreamEvent>)
    ensures |es| <= 2
    ensures forall k :: 0 <= k < |es| ==> es[k].eventType == Provider.EventTextDelta && es[k].delta != ""
    ensures |es| == (if d.content != "" then 1 else 0) + (if d.reasoning != "" then 1 else 0)
    ensures d.content != "" ==> es[0] == TextDeltaEvent(d.content)
    ensures d.reasoning != "" ==> es[|es| - 1] == TextDeltaEvent(d.reasoning)
  {
    (if d.content != "" then [TextDeltaEvent(d.content)] else [])
    + (if d.reasoning != "" then [TextDeltaEvent(d.reasoning)] else [])
  }

  /** One line of the body. A line without the data prefix, or whose data
      does not decode, or decodes to a chunk without choices, emits nothing.
      `[DONE]` flushes the accumulated calls, emits done and stops. A chunk
      emits its text deltas, then one tool_delta per fragment with a
      non-negative index. */
  function Line(dec: ChunkDecoder, decode: Decoder, p: Parser, line: string): (s: Step)
    requires Valid(p)
    ensures Valid(s.p)
    ensures !Strs.HasPrefix(line, DataPrefix) ==> s == Step(p, [], false)
    ensures s.stop <==> Strs.HasPrefix(line, DataPrefix) && line[|DataPrefix|..] == DoneSentinel
    ensures s.stop ==> s.p == p && s.events == FlushEvents(decode, p.calls, p.indices) + [DoneEvent()]
    ensures !s.stop ==> forall k :: 0 <= k < |s.events| ==> Intermediate(s.events[k])
    ensures Strs.HasPrefix(line, DataPrefix) && !s.stop && dec(line[|DataPrefix|..]).Err? ==> s == Step(p, [], false)
    ensures Strs.HasPrefix(line, DataPrefix) && !s.stop && dec(line[|DataPrefix|..]).Ok? ==>
              var chunk := dec(line[|DataPrefix|..]).value;
              (|chunk.choices| == 0 ==> s == Step(p, [], false))
              && (|chunk.choices| > 0 ==>
                    var acc := AccumulateAll(decode, p, chunk.choices[0].toolCalls);
                    s == Step(acc.0, TextEvents(chunk.choices[0]) + acc.1, false))
  {
    if !Strs.HasPrefix(line, DataPrefix) then Step(p, [], false)
    else
      var data := line[|DataPrefix|..];
      if data == DoneSentinel then Step(p, FlushEvents(decode, p.calls, p.indices) + [DoneEvent()], true)
      else
        match dec(data)
        case Err(_) => Step(p, [], false)
        case Ok(chunk) =>
          if |chunk.choices| == 0 then Step(p, [], false)
          else
            var acc := AccumulateAll(decode, p, chunk.choices[0].toolCalls);
            Step(acc.0, TextEvents(chunk.choices[0]) + acc.1, false)
  }

  /** `parseSSE` from line `i` on. The context is checked before each line:
      once cancelled (from line `cancelAt` on), one error event ends the
      stream. Running out of lines ends it too, after an error event when
      the scanner failed. */
  function Scan(dec: ChunkDecoder, decode: Decoder, p: Parser, lines: seq<string>, i: nat,
                cancelAt: Option<nat>, scanErr: Option<string>): (es: seq<Provider.StreamEvent>)
    requires Valid(p) && i <= |lines|
    ensures forall k :: 0 <= k < |es| - 1 ==> Intermediate(es[k])
    ensures scanErr.Some? || (cancelAt.Some? && i <= cancelAt.value < |lines|) ==>
              |es| > 0 && !Intermediate(es[|es| - 1])
    decreases |lines| - i
  {
    if i == |lines| then
      EndEventsAreFinal(if scanErr.Some? then "stream error: " + scanErr.value else "");
      if scanErr.Some? then [ErrorEvent("stream error: " + scanErr.value)] else []
    else if cancelAt.Some? && i >= cancelAt.value then
      EndEventsAreFinal(Provider.Canceled);
      [ErrorEvent(Provider.Canceled)]
    else
      var s := Line(dec, decode, p, lines[i]);
      var rest := if s.stop then [] else Scan(dec, decode, s.p, lines, i + 1, cancelAt, scanErr);
      LineThenScan(dec, decode, p, lines[i], rest);
      s.events + rest
  }

  /** One line's events followed by what the later lines give: only the
      last event can be final, and a stopping line ends with a final
      event. */
  lemma LineThenScan(dec: ChunkDecoder, decode: Decoder, p: Parser, line: string, rest: seq<Provider.StreamEvent>)
    requires Valid(p)
    requires Line(dec, decode, p, line).stop ==> rest == []
    requires forall k :: 0 <= k < |rest| - 1 ==> Intermediate(rest[k])
    ensures var es := Line(dec, decode, p, line).events + rest;
            (forall k :: 0 <= k < |es| - 1 ==> Intermediate(es[k]))
            && (Line(dec, decode, p, line).stop ==> |es| > 0 && !Intermediate(es[|es| - 1]))
            && (|rest| > 0 ==> es[|es| - 1] == rest[|rest| - 1])
  {
    var s := Line(dec, decode, p, line);
    FlushThenDone(FlushEvents(decode, p.calls, p.indices));
    LineThenRest(s.events, rest, s.stop);
  }

  /** A line's events followed by the rest of the stream: a stopping line
      ends with its final event and nothing follows it; otherwise its
      events are intermediate and the rest decides the last event. */
  lemma LineThenRest(a: seq<Provider.StreamEvent>, b: seq<Provider.StreamEvent>, stop: bool)
    requires stop ==> |a| > 0 && (forall k :: 0 <= k < |a| - 1 ==> Intermediate(a[k])) && !Intermediate(a[|a| - 1]) && b == []
    requires !stop ==> (forall k :: 0 <= k < |a| ==> Intermediate(a[k])) && (forall k :: 0 <= k < |b| - 1 ==> Intermediate(b[k]))
    ensures forall k :: 0 <= k < |a + b| - 1 ==> Intermediate((a + b)[k])
    ensures stop ==> |a + b| > 0 && !Intermediate((a + b)[|a + b| - 1])
    ensures |b| > 0 ==> (a + b)[|a + b| - 1] == b[|b| - 1]
  {
    if stop {
      assert a + b == a;
    } else {
      IntermediatePrefix(a, b);
    }
  }

  /** Flushed tool calls are intermediate, and the done event after them is
      final. */
  lemma FlushThenDone(a: seq<Provider.StreamEvent>)
    requires forall e :: e in a ==> e.eventType == Provider.EventToolCall
    ensures forall k :: 0 <= k < |a| ==> Intermediate(a[k])
    ensures !Intermediate((a + [DoneEvent()])[|a|])
  {
    assert forall k :: 0 <= k < |a| ==> a[k] in a;
    EndEventsAreFinal("");
  }

  /** Done and error events are final. */
  lemma EndEventsAreFinal(err: string)
    ensures !Intermediate(DoneEvent()) && !Intermediate(ErrorEvent(err))
  {
  }

  /** Intermediate events before a stream whose only final event is its
      last keep that shape. */
  lemma IntermediatePrefix(a: seq<Provider.StreamEvent>, b: seq<Provider.StreamEvent>)
    requires forall k :: 0 <= k < |a| ==> Intermediate(a[k])
    requires forall k :: 0 <= k < |b| - 1 ==> Intermediate(b[k])
    ensures forall k :: 0 <= k < |a + b| - 1 ==> Intermediate((a + b)[k])
    ensures |b| > 0 ==> (a + b)[|a + b| - 1] == b[|b| - 1]
  {
  }

  /** A whole body, from a fresh parser. */
  function ParseSSE(dec: ChunkDecoder, decode: Decoder, lines: seq<string>, cancelAt: Option<nat>, scanErr: Option<string>): seq<Provider.StreamEvent> {
    Scan(dec, decode, NewParser(), lines, 0, cancelAt, scanErr)
  }

  /** Lines that carry no data leave no trace: skipping them changes
      neither the events nor the parser. */
  lemma {:induction false} NonDataLinesAreSkipped(dec: ChunkDecoder, decode: Decoder, p: Parser, lines: seq<string>, i: nat,
                                                  cancelAt: Option<nat>, scanErr: Option<string>)
    requires Valid(p) && i < |lines| && !Strs.HasPrefix(lines[i], DataPrefix)
    requires cancelAt.None?
    ensures Scan(dec, decode, p, lines, i, cancelAt, scanErr) == Scan(dec, decode, p, lines, i + 1, cancelAt, scanErr)
  {
    assert Line(dec, decode, p, lines[i]) == Step(p, [], false);
  }

  /** A body whose first data line is `[DONE]` emits only done: nothing was
      accumulated, and nothing after it is read. */
  lemma DoneFirstEmitsOnlyDone(dec: ChunkDecoder, decode: Decoder, rest: seq<string>, scanErr: Option<string>)
    ensures ParseSSE(dec, decode, ["data: [DONE]"] + rest, None, scanErr) == [DoneEvent()]
  {
    var lines := ["data: [DONE]"] + rest;
    assert lines[0] == "data: [DONE]";
    assert Strs.HasPrefix(lines[0], DataPrefix);
    assert lines[0][|DataPrefix|..] == DoneSentinel;
  }

  /** The whole stream for one call: a single fragment chunk and `[DONE]`
      give a tool_delta, then the completed tool_call, then done. */
  lemma OneCallStream(dec: ChunkDecoder, decode: Decoder, l1: string, f: CallFragment)
    requires Strs.HasPrefix(l1, DataPrefix) && l1[|DataPrefix|..] != DoneSentinel
    requires dec(l1[|DataPrefix|..]) == Ok(Chunk([Delta("", "", [f])]))
    requires f.index >= 0 && (f.id != "" || f.name != "" || f.arguments != "")
    ensures var st := CallState(f.id, f.name, f.arguments);
            ParseSSE(dec, decode, [l1, "data: [DONE]"], None, None)
            == [DeltaEvent(decode, f.index, st), CallEvent(decode, st), DoneEvent()]
  {
    DoneLine();
    OneCallScan(dec, decode, [l1, "data: [DONE]"], f);
  }

  /** A data line whose payload is the `[DONE]` sentinel. */
  predicate IsDoneLine(line: string) {
    Strs.HasPrefix(line, DataPrefix) && line[|DataPrefix|..] == DoneSentinel
  }

  lemma DoneLine()
    ensures IsDoneLine("data: [DONE]")
  {
    assert "data: [DONE]"[|DataPrefix|..] == DoneSentinel;
  }

  lemma OneCallScan(dec: ChunkDecoder, decode: Decoder, lines: seq<string>, f: CallFragment)
    requires |lines| == 2 && IsDoneLine(lines[1])
    requires Strs.HasPrefix(lines[0], DataPrefix) && lines[0][|DataPrefix|..] != DoneSentinel
    requires dec(lines[0][|DataPrefix|..]) == Ok(Chunk([Delta("", "", [f])]))
    requires f.index >= 0 && (f.id != "" || f.name != "" || f.arguments != "")
    ensures var st := CallState(f.id, f.name, f.arguments);
            Scan(dec, decode, NewParser(), lines, 0, None, None)
            == [DeltaEvent(decode, f.index, st), CallEvent(decode, st), DoneEvent()]
  {
    var st := CallState(f.id, f.name, f.arguments);
    var p1 := Parser(map[f.index := st], [f.index]);
    var ev := DeltaEvent(decode, f.index, st);
    OneCallParser(f);
    var tail := Scan(dec, decode, p1, lines, 1, None, None);
    assert Scan(dec, decode, NewParser(), lines, 0, None, None) == [ev] + tail by {
      FragmentFirst(dec, decode, lines, f);
    }
    assert tail == [CallEvent(decode, st), DoneEvent()] by {
      DoneAfterOneCall(dec, decode, lines, p1, st);
    }
    Cons3(ev, CallEvent(decode, st), DoneEvent());
  }

  lemma Cons3<T>(x: T, y: T, z: T)
    ensures [x] + [y, z] == [x, y, z]
  {
  }

  /** The parser after one fragment records exactly that fragment's call. */
  lemma OneCallParser(f: CallFragment)
    ensures var st := CallState(f.id, f.name, f.arguments);
            var p1 := Parser(map[f.index := st], [f.index]);
            Valid(p1) && |p1.indices| == 1 && p1.indices[0] in p1.calls && p1.calls[p1.indices[0]] == st
            && (HasContent(st) <==> f.id != "" || f.name != "" || f.arguments != "")
  {
  }

  /** A first line carrying one fragment emits its tool_delta and hands the
      recorded state to the next line. */
  lemma FragmentFirst(dec: ChunkDecoder, decode: Decoder, lines: seq<string>, f: CallFragment)
    requires |lines| > 0
    requires Strs.HasPrefix(lines[0], DataPrefix) && lines[0][|DataPrefix|..] != DoneSentinel
    requires dec(lines[0][|DataPrefix|..]) == Ok(Chunk([Delta("", "", [f])]))
    requires f.index >= 0
    ensures var st := CallState(f.id, f.name, f.arguments);
            Scan(dec, decode, NewParser(), lines, 0, None, None)
            == [DeltaEvent(decode, f.index, st)] + Scan(dec, decode, Parser(map[f.index := st], [f.index]), lines, 1, None, None)
  {
    FragmentLine(dec, decode, lines[0], f);
    ScanLine(dec, decode, NewParser(), lines, 0);
  }

  /** Without cancellation or a scanner error, a line that does not stop the
      stream contributes its events and hands its parser to the next line. */
  lemma ScanLine(dec: ChunkDecoder, decode: Decoder, p: Parser, lines: seq<string>, i: nat)
    requires Valid(p) && i < |lines|
    ensures var s := Line(dec, decode, p, lines[i]);
            !s.stop ==> Scan(dec, decode, p, lines, i, None, None) == s.events + Scan(dec, decode, s.p, lines, i + 1, None, None)
  {
  }

  /** A data line holding one chunk with a single fragment, on a fresh
      parser: the fragment's tool_delta, and its state recorded. */
  lemma FragmentLine(dec: ChunkDecoder, decode: Decoder, l1: string, f: CallFragment)
    requires Strs.HasPrefix(l1, DataPrefix) && l1[|DataPrefix|..] != DoneSentinel
    requires dec(l1[|DataPrefix|..]) == Ok(Chunk([Delta("", "", [f])]))
    requires f.index >= 0
    ensures var st := CallState(f.id, f.name, f.arguments);
            Line(dec, decode, NewParser(), l1) == Step(Parser(map[f.index := st], [f.index]), [DeltaEvent(decode, f.index, st)], false)
  {
    FirstFragment(decode, f);
    assert TextEvents(Delta("", "", [f])) == [];
  }

  /** `[DONE]` as line 1 after one recorded call: the call, then done. */
  lemma DoneAfterOneCall(dec: ChunkDecoder, decode: Decoder, lines: seq<string>, p1: Parser, st: CallState)
    requires |lines| == 2 && IsDoneLine(lines[1])
    requires |p1.indices| == 1 && p1.indices[0] in p1.calls && p1.calls[p1.indices[0]] == st && Valid(p1)
    requires HasContent(st)
    ensures Scan(dec, decode, p1, lines, 1, None, None) == [CallEvent(decode, st), DoneEvent()]
  {
    assert p1.indices[1..] == [];
    assert FlushEvents(decode, p1.calls, p1.indices) == [CallEvent(decode, st)];
  }

  /** The first fragment on a fresh parser starts its index's state. */
  lemma FirstFragment(decode: Decoder, f: CallFragment)
    requires f.index >= 0
    ensures var st := CallState(f.id, f.name, f.arguments);
            AccumulateAll(decode, NewParser(), [f]) == (Parser(map[f.index := st], [f.index]), [DeltaEvent(decode, f.index, st)])
  {
    var st := CallState(f.id, f.name, f.arguments);
    var p1 := Parser(map[f.index := st], [f.index]);
    var ev := DeltaEvent(decode, f.index, st);
    var a := Accumulate(decode, NewParser(), f);
    assert a.0.calls[f.index] == st;
    assert a.0.calls == p1.calls;
    assert a.0.indices == [f.index];
    assert a == (p1, [ev]);
    assert [f][0] == f && [f][1..] == [];
    assert AccumulateAll(decode, p1, []) == (p1, []);
    assert AccumulateAll(decode, NewParser(), [f]) == (p1, [ev] + []);
    assert [ev] + [] == [ev];
  }
}
