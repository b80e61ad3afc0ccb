/** Messages exchanged with the agent SDK, as far as transcripts depend on them. */
module Sdk {
  import opened Text
  import opened Options
  import opened Timeline

  datatype Block =
    | TextBlock(text: string)
    | ToolUseBlock(id: string, name: string, input: string)
    | ToolResultBlock(toolUseId: string, content: Content, isError: bool)
    | InlineImageBlock(mediaType: string, data: string)
    | OtherBlock

  datatype Content = Plain(text: string) | Blocks(blocks: seq<Block>) | NoContent

  /** One envelope of a stored conversation. */
  datatype Stored =
    | StoredSystem
    | StoredUser(uuid: string, content: Content)
    | StoredAssistant(uuid: string, content: Content, stopReason: Option<string>)

  datatype StreamEvent =
    | MessageStart(id: Option<string>)
    | MessageStop
    | TextBlockStart(index: Option<nat>)
    | TextDelta(index: Option<nat>, text: string)
    | OtherStreamEvent

  /** One message of the live SDK stream. */
  datatype Message =
    | Stream(event: StreamEvent)
    | AssistantEnvelope(content: Content)
    | UserEnvelope(uuid: Option<string>, content: Content)
    | ResultEnvelope(success: bool, reason: string)
    | CompactingStatus
    | CompactBoundary(wellFormed: bool)
    | OtherMessage

  /** The tool formatters both paths share: input parsing, row summary, output attachment. */
  datatype Tools = Tools(
    build: (string, string) -> Detail,
    summary: (Detail, string) -> string,
    attach: (Detail, string) -> Detail)

  /** The text blocks of a block list, in order. */
  function TextsOf(blocks: seq<Block>): seq<string> {
    if blocks == [] then []
    else (if blocks[0].TextBlock? then [blocks[0].text] else []) + TextsOf(blocks[1..])
  }

  /** Text of a tool result: a string as it is, a block list by its text blocks, anything else empty. */
  function TextOf(raw: Content): string {
    match raw
    case Plain(text) => text
    case Blocks(blocks) => Concat(TextsOf(blocks))
    case NoContent => ""
  }

  lemma {:induction false} TextsOfConcat(a: seq<Block>, b: seq<Block>)
    ensures TextsOf(a + b) == TextsOf(a) + TextsOf(b)
    decreases |a|
  {
    if a == [] {
      assert a + b == b;
    } else {
      TextsOfConcat(a[1..], b);
      assert (a + b)[1..] == a[1..] + b;
    }
  }

  /** The text of a string is that string, nothing has none, and a list's is the texts of its blocks run together. */
  lemma TextOfMeans(t: string, b: Block, xs: seq<Block>, ys: seq<Block>)
    ensures TextOf(Plain(t)) == t && TextOf(NoContent) == "" && TextOf(Blocks([])) == ""
    ensures TextOf(Blocks([TextBlock(t)])) == t
    ensures !b.TextBlock? ==> TextOf(Blocks([b])) == ""
    ensures TextOf(Blocks(xs + ys)) == TextOf(Blocks(xs)) + TextOf(Blocks(ys))
  {
    TextsOfConcat(xs, ys);
    ConcatAppend(TextsOf(xs), TextsOf(ys));
    assert [TextBlock(t)][1..] == [] && [b][1..] == [];
    assert t + "" == t && [t][1..] == [];
  }

  method ExtractText(raw: Content) returns (text: string)
    ensures text == TextOf(raw)
  {
    if raw.Plain? { return raw.text; }
    if raw.NoContent? { return ""; }
    var blocks := raw.blocks;
    var parts: seq<string> := [];
    for i := 0 to |blocks|
      invariant parts + TextsOf(blocks[i..]) == TextsOf(blocks)
    {
      assert blocks[i..][1..] == blocks[i + 1..];
      if blocks[i].TextBlock? {
        parts := parts + [blocks[i].text];
      }
    }
    assert blocks[|blocks|..] == [] && parts + [] == parts;
    return Concat(parts);
  }
}
