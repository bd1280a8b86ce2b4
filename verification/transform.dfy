/** History transforms and the conversion pipeline
    (agent-core/packages/agent/transform). A transform may fail; a conversion
    may not. The context argument of the Go signatures carries nothing these
    functions read, so it is dropped. */
module Transform {
  import opened Wrappers
  import opened Messages
  import AgentStates
  import Tools

  type TransformFunc = seq<Message> -> Result<seq<Message>, string>
  type ConvertFunc = seq<Message> -> seq<Message>

  /** The history windowed by `KeepRecentMessages(n)`: unchanged when it
      has at most `n` messages, otherwise its last `n`. */
  function KeepRecent(n: nat, ms: seq<Message>): (r: seq<Message>)
    ensures |r| == if |ms| <= n then |ms| else n
    ensures r == ms[|ms| - |r|..]
  {
    if |ms| <= n then ms else ms[|ms| - n..]
  }

  function KeepRecentMessages(n: nat): TransformFunc {
    ms => Ok(KeepRecent(n, ms))
  }

  /** The history windowed by `KeepFirstandRecentMessages(n)`: unchanged
      when it has at most `n` messages, otherwise its first message followed
      by its last `n`. */
  function KeepFirstAndRecent(n: nat, ms: seq<Message>): (r: seq<Message>)
    ensures |ms| <= n ==> r == ms
    ensures |ms| > n ==> |r| == n + 1 && r[0] == ms[0] && r[1..] == ms[|ms| - n..]
  {
    if |ms| <= n then ms else [ms[0]] + ms[|ms| - n..]
  }

  function KeepFirstAndRecentMessages(n: nat): TransformFunc {
    ms => Ok(KeepFirstAndRecent(n, ms))
  }

  predicate Distinct(ms: seq<Message>) {
    forall i, j :: 0 <= i < j < |ms| ==> ms[i] != ms[j]
  }

  /** The first message is never repeated by the recent window: the window
      starts at index 1 or later, so a history of distinct messages stays
      distinct. */
  lemma KeepFirstAndRecentNoDuplicate(n: nat, ms: seq<Message>)
    requires Distinct(ms)
    ensures Distinct(KeepFirstAndRecent(n, ms))
  {
    if |ms| > n {
      var r := KeepFirstAndRecent(n, ms);
      var k := |ms| - n;
      assert k >= 1;
      forall i, j | 0 <= i < j < |r| ensures r[i] != r[j] {
        assert r[j] == ms[k + j - 1];
        if i == 0 {
          assert r[i] == ms[0];
        } else {
          assert r[i] == ms[k + i - 1];
        }
      }
    }
  }

  /** `ChainTrainsform(ts...)` applied to `ms`: left to right, each output
      feeding the next, stopping at the first error. */
  function RunChain(ts: seq<TransformFunc>, ms: seq<Message>): (r: Result<seq<Message>, string>)
    ensures |ts| == 0 ==> r == Ok(ms)
    ensures |ts| == 1 ==> r == ts[0](ms)
    decreases |ts|
  {
    if |ts| == 0 then Ok(ms)
    else match ts[0](ms)
      case Err(e) => Err(e)
      case Ok(m) => RunChain(ts[1..], m)
  }

  function ChainTransform(ts: seq<TransformFunc>): TransformFunc {
    ms => RunChain(ts, ms)
  }

  /** Chaining composes: running `a + b` is running `a` and, if it succeeds,
      running `b` on its output. */
  lemma {:induction false} RunChainAppend(a: seq<TransformFunc>, b: seq<TransformFunc>, ms: seq<Message>)
    ensures RunChain(a + b, ms) == match RunChain(a, ms) { case Err(e) => Err(e) case Ok(m) => RunChain(b, m) }
    decreases |a|
  {
    if |a| > 0 {
      assert (a + b)[0] == a[0];
      assert (a + b)[1..] == a[1..] + b;
      match a[0](ms)
      case Err(e) =>
      case Ok(m) => RunChainAppend(a[1..], b, m);
    } else {
      assert a + b == b;
    }
  }

  /** The chain stops at the first failing transform: when the first `k`
      succeed with `m` and transform `k` fails on `m`, the chain fails with
      that error, whatever follows. */
  lemma ChainStopsAtFirstError(ts: seq<TransformFunc>, ms: seq<Message>, k: nat, m: seq<Message>)
    requires k < |ts| && RunChain(ts[..k], ms) == Ok(m) && ts[k](m).Err?
    ensures RunChain(ts, ms) == Err(ts[k](m).error)
  {
    assert ts == ts[..k] + ([ts[k]] + ts[k + 1..]);
    RunChainAppend(ts[..k], [ts[k]] + ts[k + 1..], ms);
    assert ([ts[k]] + ts[k + 1..])[0] == ts[k];
  }

  /** A pipeline: an optional transform and a conversion to provider messages. */
  datatype Pipeline = Pipeline(transform: Option<TransformFunc>, convert: ConvertFunc)

  /** `Pipeline.Transform`: the conversion of the transformed history; a
      transform error is returned and the conversion is not applied. */
  function PipelineTransform(p: Pipeline, ms: seq<Message>): (r: Result<seq<Message>, string>)
    ensures p.transform.None? ==> r == Ok(p.convert(ms))
    ensures p.transform.Some? && p.transform.value(ms).Ok? ==> r == Ok(p.convert(p.transform.value(ms).value))
    ensures p.transform.Some? && p.transform.value(ms).Err? ==> r == Err(p.transform.value(ms).error)
  {
    match p.transform
    case None => Ok(p.convert(ms))
    case Some(t) =>
      match t(ms)
      case Err(e) => Err(e)
      case Ok(m) => Ok(p.convert(m))
  }

  /** `TransformContext`: the pipeline run on the snapshot's messages. */
  function TransformContext(p: Pipeline, c: AgentStates.AgentContext): (r: Result<seq<Message>, string>)
    ensures r == PipelineTransform(p, c.messages)
  {
    PipelineTransform(p, c.messages)
  }

  /** The snapshot's system prompt and registry play no part. */
  lemma TransformContextIgnoresPromptAndTools(p: Pipeline, c: AgentStates.AgentContext, prompt: string, tools: Option<Tools.Registry>)
    ensures TransformContext(p, c) == TransformContext(p, c.(systemPrompt := prompt, tools := tools))
  {
  }

  /** With the standard filter as conversion, a pipeline never fails unless
      its transform does, and its output holds only standard messages. */
  lemma WindowedPipelineIsStandard(n: nat, ms: seq<Message>)
    ensures var r := PipelineTransform(Pipeline(Some(KeepRecentMessages(n)), ConvertToLLM), ms);
            r.Ok? && |r.value| <= n && forall i :: 0 <= i < |r.value| ==> IsStandard(r.value[i])
    ensures PipelineTransform(Pipeline(Some(KeepRecentMessages(n)), ConvertToLLM), []) == Ok([])
  {
  }
}
