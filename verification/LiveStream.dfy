/** The live path: each SDK message becomes zero or more transcript deltas. */
module LiveStream {
  import opened Options
  import opened Timeline
  import opened Sdk
  import opened Text

  /** Streaming state of one query loop, plus every delta emitted so far. */
  datatype Loop = Loop(
    currentMessageId: Option<string>,
    textBlockUuids: map<string, map<nat, string>>,
    appendedToolUseIds: set<string>,
    pendingTools: map<string, Detail>,
    expectingCompactSummary: bool,
    interrupted: bool,
    emitted: seq<Delta>)

  function NewLoop(): Loop {
    Loop(None, map[], {}, map[], false, false, [])
  }

  function Emit(l: Loop, d: Delta): Loop {
    l.(emitted := l.emitted + [d])
  }

  predicate InMessage(l: Loop) {
    l.currentMessageId.Some? && l.currentMessageId.value != ""
  }

  function SynthUuid(messageId: string, index: nat): string {
    messageId + ":" + Decimal(index)
  }

  function PerMessage(l: Loop, id: string): map<nat, string> {
    if id in l.textBlockUuids then l.textBlockUuids[id] else map[]
  }

  function OnStream(l: Loop, ev: StreamEvent): Loop {
    match ev
    case MessageStart(id) => l.(currentMessageId := id)
    case MessageStop => l.(currentMessageId := None)
    case TextBlockStart(index) =>
      if index.Some? && InMessage(l) then
        var id := l.currentMessageId.value;
        var uuid := SynthUuid(id, index.value);
        Emit(l.(textBlockUuids := l.textBlockUuids[id := PerMessage(l, id)[index.value := uuid]]),
             Append(AssistantMessage(uuid, "", None)))
      else l
    case TextDelta(index, text) =>
      if text != "" && index.Some? && InMessage(l) && index.value in PerMessage(l, l.currentMessageId.value)
      then Emit(l, PatchText(PerMessage(l, l.currentMessageId.value)[index.value], text)) else l
    case OtherStreamEvent => l
  }

  function OnToolUse(tools: Tools, l: Loop, b: Block): Loop {
    if !b.ToolUseBlock? || b.id in l.appendedToolUseIds then l
    else
      var detail := tools.build(b.name, b.input);
      Emit(l.(appendedToolUseIds := l.appendedToolUseIds + {b.id}, pendingTools := l.pendingTools[b.id := detail]),
           Append(ToolCall(b.id, b.name, tools.summary(detail, b.name), Running, None, detail)))
  }

  function OnToolUses(tools: Tools, l: Loop, bs: seq<Block>): Loop
    decreases |bs|
  {
    if bs == [] then l else OnToolUses(tools, OnToolUse(tools, l, bs[0]), bs[1..])
  }

  function OnToolResult(tools: Tools, l: Loop, b: Block): Loop {
    if !b.ToolResultBlock? || b.toolUseId !in l.pendingTools then l
    else
      var text := TextOf(b.content);
      var detail := tools.attach(l.pendingTools[b.toolUseId], text);
      Emit(l.(pendingTools := l.pendingTools - {b.toolUseId}),
           PatchToolCall(b.toolUseId, if b.isError then Failed else Completed, if b.isError then Some(text) else None, detail))
  }

  function OnToolResults(tools: Tools, l: Loop, bs: seq<Block>): Loop
    decreases |bs|
  {
    if bs == [] then l else OnToolResults(tools, OnToolResult(tools, l, bs[0]), bs[1..])
  }

  function SummaryText(content: Content): string {
    match content
    case Plain(text) => text
    case Blocks(bs) => Join(TextsOf(bs), "\n\n")
    case NoContent => ""
  }

  function OnUser(tools: Tools, l: Loop, uuid: Option<string>, content: Content): Loop {
    if l.expectingCompactSummary then
      var text := SummaryText(content);
      var l' := l.(expectingCompactSummary := false);
      if text != "" && uuid.Some? then Emit(l', Append(UserMessage(uuid.value, text, []))) else l'
    else if content.Blocks? then OnToolResults(tools, l, content.blocks) else l
  }

  function OnResult(l: Loop, success: bool, reason: string): Loop {
    var l' := l.(interrupted := false);
    if success then Emit(l', TurnCompleted) else if l.interrupted then l' else Emit(l', TurnFailed(reason))
  }

  function OnMessage(tools: Tools, l: Loop, m: Message): Loop {
    match m
    case Stream(ev) => OnStream(l, ev)
    case AssistantEnvelope(content) => if content.Blocks? then OnToolUses(tools, l, content.blocks) else l
    case UserEnvelope(uuid, content) => OnUser(tools, l, uuid, content)
    case ResultEnvelope(success, reason) => OnResult(l, success, reason)
    case CompactingStatus => Emit(l, CompactStarted)
    case CompactBoundary(ok) => if ok then Emit(l, CompactApplied).(expectingCompactSummary := true) else l
    case OtherMessage => l
  }

  function PushPrompt(l: Loop, text: string, images: seq<Image>, uuid: string): Loop {
    Emit(Emit(l.(interrupted := false), Append(UserMessage(uuid, text, images))), TurnStarted)
  }

  class QueryLoop {
    const tools: Tools
    var currentMessageId: Option<string>
    var textBlockUuids: map<string, map<nat, string>>
    var appendedToolUseIds: set<string>
    var pendingTools: map<string, Detail>
    var expectingCompactSummary: bool
    var interrupted: bool
    var emitted: seq<Delta>

    ghost function State(): Loop
      reads this
    {
      Loop(currentMessageId, textBlockUuids, appendedToolUseIds, pendingTools, expectingCompactSummary, interrupted, emitted)
    }

    constructor (tools: Tools)
      ensures State() == NewLoop() && this.tools == tools
    {
      this.tools := tools;
      currentMessageId, textBlockUuids, appendedToolUseIds, pendingTools := None, map[], {}, map[];
      expectingCompactSummary, interrupted, emitted := false, false, [];
    }

    method AddEvent(d: Delta)
      modifies this`emitted
      ensures emitted == old(emitted) + [d]
    {
      emitted := emitted + [d];
    }

    method PushUserPrompt(text: string, images: seq<Image>, uuid: string)
      modifies this
      ensures State() == PushPrompt(old(State()), text, images, uuid)
    {
      interrupted := false;
      AddEvent(Append(UserMessage(uuid, text, images)));
      AddEvent(TurnStarted);
    }

    method HandleStreamEvent(ev: StreamEvent)
      modifies this
      ensures State() == OnStream(old(State()), ev)
    {
      match ev {
        case MessageStart(id) =>
          currentMessageId := id;
        case MessageStop =>
          currentMessageId := None;
        case TextBlockStart(index) =>
          if index.Some? && currentMessageId.Some? && currentMessageId.value != "" {
            var id := currentMessageId.value;
            var uuid := SynthUuid(id, index.value);
            var perMsg := if id in textBlockUuids then textBlockUuids[id] else map[];
            textBlockUuids := textBlockUuids[id := perMsg[index.value := uuid]];
            AddEvent(Append(AssistantMessage(uuid, "", None)));
          }
        case TextDelta(index, text) =>
          if text != "" && index.Some? && currentMessageId.Some? && currentMessageId.value != "" {
            var id := currentMessageId.value;
            if id in textBlockUuids && index.value in textBlockUuids[id] {
              AddEvent(PatchText(textBlockUuids[id][index.value], text));
            }
          }
        case OtherStreamEvent =>
      }
    }

    method HandleAssistantEnvelope(content: Content)
      modifies this
      ensures State() == if content.Blocks? then OnToolUses(tools, old(State()), content.blocks) else old(State())
    {
      if !content.Blocks? { return; }
      var blocks := content.blocks;
      for i := 0 to |blocks|
        invariant OnToolUses(tools, State(), blocks[i..]) == OnToolUses(tools, old(State()), blocks)
      {
        assert blocks[i..][1..] == blocks[i + 1..];
        var b := blocks[i];
        if b.ToolUseBlock? && b.id !in appendedToolUseIds {
          appendedToolUseIds := appendedToolUseIds + {b.id};
          var detail := tools.build(b.name, b.input);
          pendingTools := pendingTools[b.id := detail];
          AddEvent(Append(ToolCall(b.id, b.name, tools.summary(detail, b.name), Running, None, detail)));
        }
      }
    }

    method HandleUserEnvelope(uuid: Option<string>, content: Content)
      modifies this
      ensures State() == OnUser(tools, old(State()), uuid, content)
    {
      if expectingCompactSummary {
        expectingCompactSummary := false;
        var text := match content case Plain(t) => t case Blocks(bs) => Join(TextsOf(bs), "\n\n") case NoContent => "";
        if |text| > 0 && uuid.Some? {
          AddEvent(Append(UserMessage(uuid.value, text, [])));
        }
        return;
      }
      if !content.Blocks? { return; }
      var blocks := content.blocks;
      for i := 0 to |blocks|
        invariant OnToolResults(tools, State(), blocks[i..]) == OnToolResults(tools, old(State()), blocks)
      {
        assert blocks[i..][1..] == blocks[i + 1..];
        var b := blocks[i];
        if b.ToolResultBlock? && b.toolUseId in pendingTools {
          var outputText := ExtractText(b.content);
          var detail := tools.attach(pendingTools[b.toolUseId], outputText);
          AddEvent(PatchToolCall(b.toolUseId, if b.isError then Failed else Completed,
                                 if b.isError then Some(outputText) else None, detail));
          pendingTools := pendingTools - {b.toolUseId};
        }
      }
    }

    method HandleMessage(m: Message)
      modifies this
      ensures State() == OnMessage(tools, old(State()), m)
    {
      match m {
        case Stream(ev) => HandleStreamEvent(ev);
        case AssistantEnvelope(content) => HandleAssistantEnvelope(content);
        case UserEnvelope(uuid, content) => HandleUserEnvelope(uuid, content);
        case ResultEnvelope(success, reason) =>
          var wasInterrupted := interrupted;
          interrupted := false;
          if success {
            AddEvent(TurnCompleted);
          } else if !wasInterrupted {
            AddEvent(TurnFailed(reason));
          }
        case CompactingStatus => AddEvent(CompactStarted);
        case CompactBoundary(wellFormed) =>
          if wellFormed {
            AddEvent(CompactApplied);
            expectingCompactSummary := true;
          }
        case OtherMessage =>
      }
    }
  }
}
