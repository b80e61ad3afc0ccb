/** The batch path: a stored conversation becomes a transcript in one pass, pairing tool uses with results. */
module Normalize {
  import opened Options
  import opened Timeline
  import opened Sdk
  import opened Text

  const INTERRUPTED := "[Request interrupted by user]"
  const INTERRUPTED_FOR_TOOL := "[Request interrupted by user for tool use]"

  predicate Marker(text: string) {
    text == INTERRUPTED || text == INTERRUPTED_FOR_TOOL
  }

  predicate Supported(mediaType: string) {
    mediaType == "image/jpeg" || mediaType == "image/png"
  }

  /** Items so far, and where in them each tool call sits. */
  datatype Pass = Pass(out: seq<Item>, pendingByCallId: map<string, nat>)

  ghost predicate ValidPass(p: Pass) {
    forall id :: id in p.pendingByCallId ==> p.pendingByCallId[id] < |p.out| && p.out[p.pendingByCallId[id]].ToolCall?
  }

  type GoodPass = p: Pass | ValidPass(p) ghost witness Pass([], map[])

  function Settle(tools: Tools, it: Item, b: Block): Item
    requires it.ToolCall? && b.ToolResultBlock?
  {
    var text := TextOf(b.content);
    it.(status := if b.isError then Failed else Completed,
        error := if b.isError then Some(text) else None,
        detail := tools.attach(it.detail, text))
  }

  function AttachResult(tools: Tools, p: GoodPass, b: Block): GoodPass {
    if !b.ToolResultBlock? || b.toolUseId !in p.pendingByCallId then p
    else
      var i := p.pendingByCallId[b.toolUseId];
      p.(out := p.out[i := Settle(tools, p.out[i], b)])
  }

  function AttachResults(tools: Tools, p: GoodPass, bs: seq<Block>): GoodPass
    decreases |bs|
  {
    if bs == [] then p else AttachResults(tools, AttachResult(tools, p, bs[0]), bs[1..])
  }

  function NonEmptyTexts(bs: seq<Block>): seq<string> {
    if bs == [] then []
    else (if bs[0].TextBlock? && bs[0].text != "" then [bs[0].text] else []) + NonEmptyTexts(bs[1..])
  }

  function ImagesOf(bs: seq<Block>): seq<Image> {
    if bs == [] then []
    else (if bs[0].InlineImageBlock? && Supported(bs[0].mediaType) then [Image(bs[0].data, bs[0].mediaType)] else [])
         + ImagesOf(bs[1..])
  }

  function UserStep(tools: Tools, p: GoodPass, uuid: string, content: Content): GoodPass {
    match content
    case Plain(text) =>
      if text != "" && !Marker(text) then p.(out := p.out + [UserMessage(uuid, text, [])]) else p
    case Blocks(bs) =>
      var texts, images := NonEmptyTexts(bs), ImagesOf(bs);
      var joined := Join(texts, "\n\n");
      var q := AttachResults(tools, p, bs);
      if (images == [] && Marker(joined)) || (texts == [] && images == []) then q
      else q.(out := q.out + [UserMessage(uuid, joined, images)])
    case NoContent => p
  }

  function AssistantBlock(tools: Tools, p: GoodPass, uuid: string, stop: Option<string>, b: Block): GoodPass {
    match b
    case TextBlock(text) =>
      if text == "" then p else p.(out := p.out + [AssistantMessage(uuid, text, stop)])
    case ToolUseBlock(id, name, input) =>
      var detail := tools.build(name, input);
      Pass(p.out + [ToolCall(id, name, tools.summary(detail, name), Completed, None, detail)],
           p.pendingByCallId[id := |p.out|])
    case _ => p
  }

  function AssistantBlocks(tools: Tools, p: GoodPass, uuid: string, stop: Option<string>, bs: seq<Block>): GoodPass
    decreases |bs|
  {
    if bs == [] then p else AssistantBlocks(tools, AssistantBlock(tools, p, uuid, stop, bs[0]), uuid, stop, bs[1..])
  }

  function MessageStep(tools: Tools, p: GoodPass, m: Stored): GoodPass {
    match m
    case StoredSystem => p
    case StoredUser(uuid, content) => UserStep(tools, p, uuid, content)
    case StoredAssistant(uuid, content, stop) =>
      if content.Blocks? then AssistantBlocks(tools, p, uuid, stop, content.blocks) else p
  }

  function MessagesStep(tools: Tools, p: GoodPass, ms: seq<Stored>): GoodPass
    decreases |ms|
  {
    if ms == [] then p else MessagesStep(tools, MessageStep(tools, p, ms[0]), ms[1..])
  }

  /** One user envelope: collect its prose and images, and settle the tool calls its results belong to. */
  method UserEnvelopeItems(tools: Tools, p: GoodPass, bs: seq<Block>)
    returns (q: GoodPass, texts: seq<string>, images: seq<Image>)
    ensures q == AttachResults(tools, p, bs) && texts == NonEmptyTexts(bs) && images == ImagesOf(bs)
  {
    hide Supported, TextOf;
    q, texts, images := p, [], [];
    for i := 0 to |bs|
      invariant AttachResults(tools, q, bs[i..]) == AttachResults(tools, p, bs)
      invariant texts + NonEmptyTexts(bs[i..]) == NonEmptyTexts(bs)
      invariant images + ImagesOf(bs[i..]) == ImagesOf(bs)
    {
      assert bs[i..][1..] == bs[i + 1..];
      var b := bs[i];
      match b {
        case TextBlock(text) =>
          if |text| > 0 { texts := texts + [text]; }
        case InlineImageBlock(mediaType, data) =>
          if Supported(mediaType) {
            images := images + [Image(data, mediaType)];
          }
        case ToolResultBlock(toolUseId, content, isError) =>
          if toolUseId in q.pendingByCallId {
            var target := q.pendingByCallId[toolUseId];
            var outputText := ExtractText(content);
            var item := q.out[target];
            item := item.(status := if isError then Failed else Completed,
                          error := if isError then Some(outputText) else None,
                          detail := tools.attach(item.detail, outputText));
            q := q.(out := q.out[target := item]);
          }
        case _ =>
      }
    }
    assert bs[|bs|..] == [];
  }

  method NormalizeMessages(tools: Tools, messages: seq<Stored>) returns (out: seq<Item>)
    ensures out == MessagesStep(tools, Pass([], map[]), messages).out
  {
    var p: GoodPass := Pass([], map[]);
    for i := 0 to |messages|
      invariant MessagesStep(tools, p, messages[i..]) == MessagesStep(tools, Pass([], map[]), messages)
    {
      assert messages[i..][1..] == messages[i + 1..];
      match messages[i] {
        case StoredSystem =>
        case StoredUser(uuid, Plain(text)) =>
          if |text| > 0 && text != INTERRUPTED && text != INTERRUPTED_FOR_TOOL {
            p := p.(out := p.out + [UserMessage(uuid, text, [])]);
          }
        case StoredUser(uuid, Blocks(bs)) =>
          var texts, images;
          p, texts, images := UserEnvelopeItems(tools, p, bs);
          var joinedText := Join(texts, "\n\n");
          if images == [] && (joinedText == INTERRUPTED || joinedText == INTERRUPTED_FOR_TOOL) {
          } else if |texts| > 0 || |images| > 0 {
            p := p.(out := p.out + [UserMessage(uuid, joinedText, images)]);
          }
        case StoredAssistant(uuid, Blocks(bs), stop) =>
          ghost var before := p;
          for j := 0 to |bs|
            invariant AssistantBlocks(tools, p, uuid, stop, bs[j..]) == AssistantBlocks(tools, before, uuid, stop, bs)
          {
            assert bs[j..][1..] == bs[j + 1..];
            match bs[j] {
              case TextBlock(text) =>
                if |text| > 0 {
                  p := p.(out := p.out + [AssistantMessage(uuid, text, stop)]);
                }
              case ToolUseBlock(id, name, input) =>
                var detail := tools.build(name, input);
                var item := ToolCall(id, name, tools.summary(detail, name), Completed, None, detail);
                p := Pass(p.out + [item], p.pendingByCallId[id := |p.out|]);
              case _ =>
            }
          }
        case _ =>
      }
    }
    assert messages[|messages|..] == [];
    out := p.out;
  }
}
