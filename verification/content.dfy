/** Content blocks: the pieces a message is made of
    (agent-core/packages/agent/types/content.go). */
module Content {
  import opened Wrappers
  import opened JsonValues
  import Strs

  /** The four block variants. A tool-call block carries untyped arguments,
      which may be nil (`None`). */
  datatype ContentBlock =
    | TextContent(text: string)
    | ImageContent(data: string, mimeType: string)
    | ThinkingContent(thinking: string)
    | ToolCallContent(id: string, name: string, arguments: Option<Json>)

  /** The tag each variant reports. */
  function ContentType(b: ContentBlock): string {
    match b
    case TextContent(_) => "text"
    case ImageContent(_, _) => "image"
    case ThinkingContent(_) => "thinking"
    case ToolCallContent(_, _, _) => "toolCall"
  }

  /** The tags of the four variants are "text", "image", "thinking", "toolCall",
      whatever the fields hold. */
  lemma ContentTypeValues()
    ensures forall t :: ContentType(TextContent(t)) == "text"
    ensures forall d, m :: ContentType(ImageContent(d, m)) == "image"
    ensures forall t :: ContentType(ThinkingContent(t)) == "thinking"
    ensures forall i, n, a :: ContentType(ToolCallContent(i, n, a)) == "toolCall"
  {
  }

  /** Two blocks have the same tag exactly when they are the same variant, so
      the tag identifies the variant and ignores field values. */
  lemma ContentTypeIdentifiesVariant(a: ContentBlock, b: ContentBlock)
    ensures ContentType(a) == ContentType(b) <==>
      (a.TextContent? && b.TextContent?) || (a.ImageContent? && b.ImageContent?) ||
      (a.ThinkingContent? && b.ThinkingContent?) || (a.ToolCallContent? && b.ToolCallContent?)
  {
  }

  /** The texts of the `TextContent` blocks, in order; other blocks are skipped. */
  function Texts(blocks: seq<ContentBlock>): (r: seq<string>)
    ensures |r| <= |blocks|
  {
    if |blocks| == 0 then []
    else (if blocks[0].TextContent? then [blocks[0].text] else []) + Texts(blocks[1..])
  }

  /** The in-order concatenation of the text blocks (Go's `text += tc.Text`
      loop over the content). */
  function TextOf(blocks: seq<ContentBlock>): string {
    Strs.Concat(Texts(blocks))
  }

  /** Appending blocks concatenates their texts. */
  lemma {:induction false} TextsAppend(a: seq<ContentBlock>, b: seq<ContentBlock>)
    ensures Texts(a + b) == Texts(a) + Texts(b)
    decreases |a|
  {
    if |a| == 0 {
      assert a + b == b;
    } else {
      TextsAppend(a[1..], b);
      var ab := a + b;
      assert ab[0] == a[0] && ab[1..] == a[1..] + b;
      var h := if a[0].TextContent? then [a[0].text] else [];
      assert Texts(ab) == h + (Texts(a[1..]) + Texts(b));
      assert Texts(a) == h + Texts(a[1..]);
      Strs.Regroup3(h, Texts(a[1..]), Texts(b));
    }
  }

  /** A block list with no text blocks has empty text. */
  lemma {:induction false} TextOfNoText(blocks: seq<ContentBlock>)
    requires forall i :: 0 <= i < |blocks| ==> !blocks[i].TextContent?
    ensures Texts(blocks) == [] && TextOf(blocks) == ""
    decreases |blocks|
  {
    if |blocks| > 0 {
      TextOfNoText(blocks[1..]);
    }
  }
}
