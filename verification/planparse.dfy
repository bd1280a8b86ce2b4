/** Plan parsing (`parsePlan` in agent-core/packages/agent/orchestrators/planexecute/planexecute.go
    and the plan types in plan.go): the model's answer, optionally wrapped
    in a Markdown code fence, decoded as a plan document. Decoding the
    document itself is an oracle. */
module PlanParse {
  import opened Wrappers
  import opened JsonValues
  import Strs

  /** One step of a plan: a tool name, its arguments, and an optional reason. */
  datatype PlanStep = PlanStep(tool: string, args: map<string, Json>, reason: string)

  /** `json.Unmarshal` of a plan document, uninterpreted: the `steps`
      array (`None` when it is absent or null) or the decoder's error. */
  type PlanDecoder = string -> Result<Option<seq<PlanStep>>, string>

  /** `pat` occurs in `s` starting at index `j`. */
  predicate OccursAt(s: string, pat: string, j: int) {
    0 <= j && j + |pat| <= |s| && forall k :: 0 <= k < |pat| ==> s[j + k] == pat[k]
  }

  /** The first occurrence of `pat` in `s` at or after `from`. */
  function FindFrom(s: string, pat: string, from: nat): (r: Option<nat>)
    requires |pat| > 0
    ensures r.Some? ==> from <= r.value && OccursAt(s, pat, r.value)
    ensures r.Some? ==> forall j :: from <= j < r.value ==> !OccursAt(s, pat, j)
    ensures r.None? ==> forall j :: from <= j ==> !OccursAt(s, pat, j)
    decreases |s| - from
  {
    if from + |pat| > |s| then None
    else if OccursAt(s, pat, from) then Some(from)
    else FindFrom(s, pat, from + 1)
  }

  /** The search finds the first occurrence. */
  lemma FindFromIsFirst(s: string, pat: string, from: nat, j: nat)
    requires |pat| > 0 && from <= j && OccursAt(s, pat, j)
    requires forall k :: from <= k < j ==> !OccursAt(s, pat, k)
    ensures FindFrom(s, pat, from) == Some(j)
  {
  }

  const Fence := "```"

  /** The body of the first fenced code block, as the plan pattern
      captures it: from after the first "```" (and a "json" tag right after
      it) up to the next "```", trimmed. `None` when there is no complete
      block. The pattern's white-space skips before the body are subsumed by
      the trim. */
  function FenceBody(t: string): (r: Option<string>)
    ensures (forall j :: !OccursAt(t, Fence, j)) ==> r.None?
  {
    match FindFrom(t, Fence, 0)
    case None => None
    case Some(i) =>
      var k := if OccursAt(t, "json", i + 3) then i + 7 else i + 3;
      match FindFrom(t, Fence, k)
      case None => None
      case Some(j) => Some(Strs.TrimSpace(t[k..j]))
  }

  /** `parsePlan`: blank text is the empty plan; otherwise the body of a
      fenced block (when there is one) or the trimmed text is decoded, and a
      document without steps is the empty plan. */
  function ParsePlan(decode: PlanDecoder, text: string): (r: Result<seq<PlanStep>, string>)
    ensures Strs.IsBlank(text) ==> r == Ok([])
    ensures !Strs.IsBlank(text) ==>
              var t := Strs.TrimSpace(text);
              var doc := if FenceBody(t).Some? then FenceBody(t).value else t;
              (r.Err? <==> decode(doc).Err?)
              && (r.Err? ==> r.error == decode(doc).error)
              && (r.Ok? ==> r.value == decode(doc).value.GetOr([]))
  {
    Strs.TrimSpaceEmptyIffBlank(text);
    var t := Strs.TrimSpace(text);
    if t == "" then Ok([])
    else
      var doc := match FenceBody(t) case Some(b) => b case None => t;
      match decode(doc)
      case Err(e) => Err(e)
      case Ok(None) => Ok([])
      case Ok(Some(steps)) => Ok(steps)
  }

  /** Trimming a newline-wrapped trimmed text gives it back. */
  lemma TrimNewlineWrapped(b: string)
    requires Strs.TrimSpace(b) == b
    ensures Strs.TrimSpace("\n" + b + "\n") == b
  {
    var s := "\n" + b + "\n";
    var r := Strs.TrimSpace(s);
    Strs.TrimSpaceEmptyIffBlank(b);
    Strs.TrimSpaceEmptyIffBlank(s);
    if b == "" {
      assert Strs.IsBlank(s);
    } else {
      assert !Strs.IsSpace(b[0]) && !Strs.IsSpace(b[|b| - 1]);
      assert s[1] == b[0] && s[|b|] == b[|b| - 1];
      var i := Strs.FirstNonSpace(s);
      assert i == 1;
      assert |r| > 0;
      assert !Strs.IsSpace(s[|r|]);
      assert |r| <= |b|;
      assert forall k :: 1 + |r| <= k < |s| ==> Strs.IsSpace(s[k]) by {
        forall k | 1 + |r| <= k < |s|
          ensures Strs.IsSpace(s[k])
        {
          assert s[k] == s[1 + |r|..][k - 1 - |r|];
        }
      }
      assert s[1..1 + |b|] == b;
    }
  }

  /** Where the fences of a "```json" block around a fence-free body are. */
  lemma WrappedFences(t: string, b: string)
    requires t == "```json\n" + b + "\n```"
    requires forall j :: !OccursAt(b, Fence, j)
    ensures OccursAt(t, Fence, 0) && OccursAt(t, "json", 3) && OccursAt(t, Fence, |b| + 9)
    ensures forall j :: 7 <= j < |b| + 9 ==> !OccursAt(t, Fence, j)
    ensures t[7..|b| + 9] == "\n" + b + "\n"
  {
    var n := |b|;
    assert Fence[0] == '`' && Fence[1] == '`' && Fence[2] == '`';
    assert forall k :: 0 <= k < n ==> t[8 + k] == b[k];
    assert t[7] == '\n' && t[n + 8] == '\n';
    forall j | 7 <= j < n + 9
      ensures !OccursAt(t, Fence, j)
    {
      if 8 <= j && j + 3 <= n + 8 {
        assert !OccursAt(b, Fence, j - 8);
      } else {
        // The window covers one of the newlines around the body.
        var m := if j == 7 then 0 else n + 8 - j;
        assert 0 <= m < 3 && t[j + m] == '\n';
      }
    }
    assert t[7..n + 9] == "\n" + b + "\n";
  }

  /** The block the pattern captures: the first fence in the text opens
      it, an optional "json" tag right after that fence is skipped, and the
      first fence from there on closes it; the body between them, trimmed,
      is the result. */
  lemma FenceBodyAt(t: string, i: nat, k: nat, j: nat)
    requires OccursAt(t, Fence, i) && forall m :: 0 <= m < i ==> !OccursAt(t, Fence, m)
    requires k == if OccursAt(t, "json", i + 3) then i + 7 else i + 3
    requires k <= j && OccursAt(t, Fence, j) && forall m :: k <= m < j ==> !OccursAt(t, Fence, m)
    ensures FenceBody(t) == Some(Strs.TrimSpace(t[k..j]))
  {
    FindFromIsFirst(t, Fence, 0, i);
    FindFromIsFirst(t, Fence, k, j);
  }

  /** An opening fence that no later fence closes gives no block: the text
      is then decoded as it stands. */
  lemma FenceUnclosed(t: string, i: nat, k: nat)
    requires OccursAt(t, Fence, i) && forall m :: 0 <= m < i ==> !OccursAt(t, Fence, m)
    requires k == if OccursAt(t, "json", i + 3) then i + 7 else i + 3
    requires forall m :: k <= m ==> !OccursAt(t, Fence, m)
    ensures FenceBody(t) == None
  {
    FindFromIsFirst(t, Fence, 0, i);
  }

  /** A plan wrapped in a "```json" block is decoded as the bare plan: the
      fence and the white space around the body are stripped. */
  lemma FencedPlanIsUnwrapped(b: string)
    requires Strs.TrimSpace(b) == b
    requires forall j :: !OccursAt(b, Fence, j)
    ensures FenceBody("```json\n" + b + "\n```") == Some(b)
  {
    var t := "```json\n" + b + "\n```";
    WrappedFenceBody(t, b);
    TrimNewlineWrapped(b);
  }

  /** The captured body of a "```json" block around a fence-free body is
      the trimmed body with its surrounding newlines. */
  lemma WrappedFenceBody(t: string, b: string)
    requires t == "```json\n" + b + "\n```"
    requires forall j :: !OccursAt(b, Fence, j)
    ensures FenceBody(t) == Some(Strs.TrimSpace("\n" + b + "\n"))
  {
    WrappedFences(t, b);
    FindFromIsFirst(t, Fence, 0, 0);
    FindFromIsFirst(t, Fence, 7, |b| + 9);
    FenceBodyAt(t, 0, 7, |b| + 9);
  }

  /** A text without fences is decoded as it stands, once trimmed. */
  lemma UnfencedPlanDecodedAsIs(decode: PlanDecoder, text: string)
    requires !Strs.IsBlank(text)
    requires forall j :: !OccursAt(Strs.TrimSpace(text), Fence, j)
    ensures var doc := decode(Strs.TrimSpace(text));
            ParsePlan(decode, text) == (if doc.Err? then Err(doc.error) else Ok(doc.value.GetOr([])))
  {
  }
}
