/** One conversation, seen twice: streamed live into deltas, and read back from storage. */
module Equivalence {
  import opened Options
  import opened Timeline
  import opened Erasure
  import opened Sdk
  import opened Text
  import L = LiveStream
  import N = Normalize

  /** One step of a conversation. */
  datatype Step =
    | Prompt(uuid: string, text: string, images: seq<Image>)
    | Interrupted(uuid: string, marker: string)
    | MessageBegin(id: string)
    | MessageEnd
    | Say(uuid: string, index: nat, chunks: seq<string>, stop: Option<string>)
    | Think(uuid: string)
    | UseTool(uuid: string, id: string, name: string, input: string, stop: Option<string>)
    | ToolReturns(uuid: string, id: string, content: Content, isError: bool)
    | TurnEnds(success: bool, reason: string)

  /** What the daemon sees of a step while it happens. */
  datatype Input = Typed(uuid: string, text: string, images: seq<Image>) | Interrupt | FromSdk(message: Message)

  function Deltas(index: nat, chunks: seq<string>): seq<Input> {
    if chunks == [] then []
    else Deltas(index, chunks[..|chunks| - 1]) + [FromSdk(Stream(TextDelta(Some(index), chunks[|chunks| - 1])))]
  }

  function Live(s: Step): seq<Input> {
    match s
    case Prompt(uuid, text, images) => [Typed(uuid, text, images)]
    case Interrupted(_, _) => [Interrupt]
    case MessageBegin(id) => [FromSdk(Stream(MessageStart(Some(id))))]
    case MessageEnd => [FromSdk(Stream(MessageStop))]
    case Say(_, index, chunks, _) =>
      [FromSdk(Stream(TextBlockStart(Some(index))))] + Deltas(index, chunks)
      + [FromSdk(AssistantEnvelope(Blocks([TextBlock(Concat(chunks))])))]
    case Think(_) => [FromSdk(Stream(OtherStreamEvent)), FromSdk(AssistantEnvelope(Blocks([OtherBlock])))]
    case UseTool(_, id, name, input, _) =>
      [FromSdk(Stream(OtherStreamEvent)), FromSdk(AssistantEnvelope(Blocks([ToolUseBlock(id, name, input)])))]
    case ToolReturns(uuid, id, content, isError) =>
      [FromSdk(UserEnvelope(Some(uuid), Blocks([ToolResultBlock(id, content, isError)])))]
    case TurnEnds(success, reason) => [FromSdk(ResultEnvelope(success, reason))]
  }

  function ImageBlocks(images: seq<Image>): seq<Block> {
    if images == [] then [] else [InlineImageBlock(images[0].mediaType, images[0].data)] + ImageBlocks(images[1..])
  }

  /** The content blocks a typed prompt is sent, and stored, as: images first, then any text. */
  function PromptBlocks(text: string, images: seq<Image>): seq<Block> {
    ImageBlocks(images) + (if text == "" then [] else [TextBlock(text)])
  }

  /** What storage keeps of a step. */
  function Kept(s: Step): seq<Stored> {
    match s
    case Prompt(uuid, text, images) => [StoredUser(uuid, Blocks(PromptBlocks(text, images)))]
    case Interrupted(uuid, marker) => [StoredUser(uuid, Blocks([TextBlock(marker)]))]
    case Say(uuid, _, chunks, stop) => [StoredAssistant(uuid, Blocks([TextBlock(Concat(chunks))]), stop)]
    case Think(uuid) => [StoredAssistant(uuid, Blocks([OtherBlock]), None)]
    case UseTool(uuid, id, name, input, stop) => [StoredAssistant(uuid, Blocks([ToolUseBlock(id, name, input)]), stop)]
    case ToolReturns(uuid, id, content, isError) => [StoredUser(uuid, Blocks([ToolResultBlock(id, content, isError)]))]
    case _ => []
  }

  function OnInput(tools: Tools, l: L.Loop, i: Input): L.Loop {
    match i
    case Typed(uuid, text, images) => L.PushPrompt(l, text, images, uuid)
    case Interrupt => L.Emit(l.(interrupted := true), TurnCanceled)
    case FromSdk(m) => L.OnMessage(tools, l, m)
  }

  function OnInputs(tools: Tools, l: L.Loop, inputs: seq<Input>): L.Loop
    decreases |inputs|
  {
    if inputs == [] then l
    else OnInput(tools, OnInputs(tools, l, inputs[..|inputs| - 1]), inputs[|inputs| - 1])
  }

  /** The query loop after a whole script. */
  function LiveLoop(tools: Tools, script: seq<Step>): L.Loop
    decreases |script|
  {
    if script == [] then L.NewLoop()
    else OnInputs(tools, LiveLoop(tools, script[..|script| - 1]), Live(script[|script| - 1]))
  }

  function StoredScript(script: seq<Step>): seq<Stored> {
    if script == [] then [] else StoredScript(script[..|script| - 1]) + Kept(script[|script| - 1])
  }

  /** The transcript a client that was connected all along shows. */
  function LiveItems(tools: Tools, script: seq<Step>): seq<Item> {
    FoldAll([], LiveLoop(tools, script).emitted)
  }

  function StoredPass(tools: Tools, script: seq<Step>): N.GoodPass {
    N.MessagesStep(tools, N.Pass([], map[]), StoredScript(script))
  }

  /** The transcript a client that connects afterwards is given. */
  function StoredItems(tools: Tools, script: seq<Step>): seq<Item> {
    StoredPass(tools, script).out
  }

  // ---- Which scripts a session produces ----

  /** Progress of a script: open message, tools used, tools answered. */
  datatype Book = Book(open: Option<string>, used: set<string>, answered: set<string>)

  predicate Admits(b: Book, s: Step) {
    match s
    case Prompt(_, _, images) => forall i :: 0 <= i < |images| ==> N.Supported(images[i].mediaType)
    case Interrupted(_, marker) => N.Marker(marker)
    case MessageBegin(id) => id != ""
    case Say(_, _, _, _) => b.open.Some?
    case UseTool(_, id, _, _, _) => id !in b.used
    case ToolReturns(_, id, _, _) => id !in b.answered
    case _ => true
  }

  function Note(b: Book, s: Step): Book {
    match s
    case MessageBegin(id) => b.(open := Some(id))
    case MessageEnd => b.(open := None)
    case UseTool(_, id, _, _, _) => b.(used := b.used + {id})
    case ToolReturns(_, id, _, _) => if id in b.used then b.(answered := b.answered + {id}) else b
    case _ => b
  }

  function BookOf(script: seq<Step>): Book {
    if script == [] then Book(None, {}, {}) else Note(BookOf(script[..|script| - 1]), script[|script| - 1])
  }

  /** Text only inside a message, no tool id used twice, no second result for a tool, images the client can show. */
  predicate WellFormed(script: seq<Step>) {
    script == [] || (WellFormed(script[..|script| - 1]) && Admits(BookOf(script[..|script| - 1]), script[|script| - 1]))
  }

  // ---- Prompts that storage gives back ----

  /** A prompt that storage gives back: not empty, and not the text of an interrupt marker. */
  predicate Renderable(s: Step) {
    s.Prompt? ==> (s.text != "" || s.images != []) && !(s.images == [] && N.Marker(s.text))
  }

  predicate AllRenderable(script: seq<Step>) {
    forall i :: 0 <= i < |script| ==> Renderable(script[i])
  }

  /** The script without the prompts that storage does not give back. */
  function Shown(script: seq<Step>): seq<Step> {
    if script == [] then []
    else Shown(script[..|script| - 1]) + (if Renderable(script[|script| - 1]) then [script[|script| - 1]] else [])
  }

  // ---- The relation kept between the two paths ----

  /** The pass has exactly one tool call per used id, where its index says. */
  ghost predicate Indexed(p: N.GoodPass, used: set<string>) {
    && p.pendingByCallId.Keys == used
    && (forall id :: id in used ==> p.out[p.pendingByCallId[id]].callId == id)
    && (forall i :: 0 <= i < |p.out| && p.out[i].ToolCall? ==>
          p.out[i].callId in used && p.pendingByCallId[p.out[i].callId] == i)
  }

  /** The live list has at most one tool call per id, and only for used ids. */
  ghost predicate OnlyTools(xs: seq<Item>, used: set<string>) {
    UniqueTools(xs) && forall i :: 0 <= i < |xs| && xs[i].ToolCall? ==> xs[i].callId in used
  }

  ghost predicate SameDetails(pending: map<string, Detail>, p: N.GoodPass) {
    forall id :: id in pending && id in p.pendingByCallId ==> p.out[p.pendingByCallId[id]].detail == pending[id]
  }

  ghost predicate LoopAt(l: L.Loop, b: Book) {
    && l.appendedToolUseIds == b.used && l.pendingTools.Keys == b.used - b.answered
    && !l.expectingCompactSummary && l.currentMessageId == b.open
    && (b.open.Some? ==> b.open.value != "")
  }

  ghost predicate Sim(l: L.Loop, xs: seq<Item>, p: N.GoodPass, b: Book) {
    && xs == FoldAll([], l.emitted) && Erase(xs) == Erase(p.out)
    && OnlyTools(xs, b.used) && Indexed(p, b.used) && LoopAt(l, b) && SameDetails(l.pendingTools, p)
  }

  lemma FoldOneMore(ds: seq<Delta>, d: Delta)
    ensures FoldAll([], ds + [d]) == FoldDelta(FoldAll([], ds), d)
  {
    assert (ds + [d])[..|ds|] == ds;
  }

  lemma PromptAlone(text: string)
    ensures PromptBlocks(text, []) == if text == "" then [] else [TextBlock(text)]
  {
  }

  lemma PromptTail(text: string, images: seq<Image>)
    requires images != []
    ensures var bs := PromptBlocks(text, images);
            bs != [] && bs[0] == InlineImageBlock(images[0].mediaType, images[0].data) && bs[1..] == PromptBlocks(text, images[1..])
  {
  }

  /** A prompt's blocks read back as its own text. */
  lemma {:induction false} PromptTexts(text: string, images: seq<Image>)
    ensures N.NonEmptyTexts(PromptBlocks(text, images)) == if text == "" then [] else [text]
    decreases |images|
  {
    hide PromptBlocks;
    if images == [] {
      PromptAlone(text);
      var bs := [TextBlock(text)];
      assert bs[1..] == [];
    } else {
      PromptTail(text, images);
      PromptTexts(text, images[1..]);
    }
  }

  /** A prompt's blocks read back as its own images. */
  lemma {:induction false} PromptImages(text: string, images: seq<Image>)
    requires forall i :: 0 <= i < |images| ==> N.Supported(images[i].mediaType)
    ensures N.ImagesOf(PromptBlocks(text, images)) == images
    decreases |images|
  {
    hide PromptBlocks;
    if images == [] {
      PromptAlone(text);
      var bs := [TextBlock(text)];
      assert bs[1..] == [];
    } else {
      PromptTail(text, images);
      PromptImages(text, images[1..]);
      assert images == [Image(images[0].data, images[0].mediaType)] + images[1..];
    }
  }

  /** A prompt settles no tool call. */
  lemma {:induction false} PromptSettlesNothing(tools: Tools, p: N.GoodPass, text: string, images: seq<Image>)
    ensures N.AttachResults(tools, p, PromptBlocks(text, images)) == p
    decreases |images|
  {
    hide PromptBlocks;
    if images == [] {
      PromptAlone(text);
      var bs := [TextBlock(text)];
      assert bs[1..] == [];
    } else {
      PromptTail(text, images);
      PromptSettlesNothing(tools, p, text, images[1..]);
    }
  }

  lemma PromptStored(tools: Tools, p: N.GoodPass, s: Step)
    requires s.Prompt? && Admits(Book(None, {}, {}), s)
    ensures N.MessagesStep(tools, p, Kept(s)).pendingByCallId == p.pendingByCallId
    ensures N.MessagesStep(tools, p, Kept(s)).out ==
            p.out + if Renderable(s) then [UserMessage(s.uuid, s.text, s.images)] else []
  {
    hide PromptBlocks, N.NonEmptyTexts, N.ImagesOf, N.AttachResults;
    PromptTexts(s.text, s.images);
    PromptImages(s.text, s.images);
    PromptSettlesNothing(tools, p, s.text, s.images);
    OneMessage(tools, p, StoredUser(s.uuid, Blocks(PromptBlocks(s.text, s.images))));
    assert Join([s.text], "\n\n") == s.text;
    assert p.out + [] == p.out;
  }

  lemma InputsOneMore(tools: Tools, l: L.Loop, inputs: seq<Input>, i: Input)
    ensures OnInputs(tools, l, inputs + [i]) == OnInput(tools, OnInputs(tools, l, inputs), i)
    ensures OnInputs(tools, l, []) == l
  {
    assert (inputs + [i])[..|inputs|] == inputs;
  }

  lemma OneInput(tools: Tools, l: L.Loop, i: Input)
    ensures OnInputs(tools, l, [i]) == OnInput(tools, l, i)
  {
    InputsOneMore(tools, l, [], i);
    assert [] + [i] == [i];
  }

  lemma OneMessage(tools: Tools, p: N.GoodPass, m: Stored)
    ensures N.MessagesStep(tools, p, [m]) == N.MessageStep(tools, p, m)
  {
    assert [m][1..] == [];
  }

  lemma OneAssistantBlock(tools: Tools, p: N.GoodPass, uuid: string, stop: Option<string>, bl: Block)
    ensures N.MessagesStep(tools, p, [StoredAssistant(uuid, Blocks([bl]), stop)]) == N.AssistantBlock(tools, p, uuid, stop, bl)
  {
    OneMessage(tools, p, StoredAssistant(uuid, Blocks([bl]), stop));
    var bs, q := [bl], N.AssistantBlock(tools, p, uuid, stop, bl);
    assert bs[1..] == [] && N.AssistantBlocks(tools, q, uuid, stop, bs[1..]) == q;
  }

  lemma SimPrompt(tools: Tools, l: L.Loop, xs: seq<Item>, p: N.GoodPass, b: Book, s: Step)
    requires Sim(l, xs, p, b) && s.Prompt? && Admits(b, s) && Renderable(s)
    ensures Sim(OnInputs(tools, l, Live(s)), xs + [UserMessage(s.uuid, s.text, s.images)],
                N.MessagesStep(tools, p, Kept(s)), Note(b, s))
  {
    hide FoldAll, N.MessagesStep, Erase, OnInputs, Live, Kept, LastHit;
    var it := UserMessage(s.uuid, s.text, s.images);
    PromptLive(tools, l, s);
    PromptStored(tools, p, s);
    EraseOneMore(xs, it);
    EraseOneMore(p.out, it);
  }

  lemma PromptLive(tools: Tools, l: L.Loop, s: Step)
    requires s.Prompt?
    ensures var l' := OnInputs(tools, l, Live(s));
            && l' == l.(emitted := l'.emitted, interrupted := false)
            && FoldAll([], l'.emitted) == FoldAll([], l.emitted) + [UserMessage(s.uuid, s.text, s.images)]
  {
    hide FoldAll, OnInputs, L.OnMessage;
    var it := UserMessage(s.uuid, s.text, s.images);
    OneInput(tools, l, Typed(s.uuid, s.text, s.images));
    FoldOneMore(l.emitted, Append(it));
    FoldOneMore(l.emitted + [Append(it)], TurnStarted);
  }

  lemma InterruptStored(tools: Tools, p: N.GoodPass, s: Step)
    requires s.Interrupted? && N.Marker(s.marker)
    ensures N.MessagesStep(tools, p, Kept(s)) == p
  {
    var bs := [TextBlock(s.marker)];
    OneMessage(tools, p, StoredUser(s.uuid, Blocks(bs)));
    assert bs[1..] == [] && N.NonEmptyTexts(bs[1..]) == [] && N.ImagesOf(bs[1..]) == [];
    assert N.AttachResults(tools, p, bs[1..]) == p;
  }

  /** One more chunk of a block. */
  lemma ChunkGrowsLast(tools: Tools, l: L.Loop, xs: seq<Item>, index: nat, uuid: string, text: string, chunk: string)
    requires L.InMessage(l) && index in L.PerMessage(l, l.currentMessageId.value)
    requires L.PerMessage(l, l.currentMessageId.value)[index] == uuid
    requires FoldAll([], l.emitted) == xs + [AssistantMessage(uuid, text, None)]
    ensures var l' := L.OnStream(l, TextDelta(Some(index), chunk));
            l' == l.(emitted := l'.emitted) && FoldAll([], l'.emitted) == xs + [AssistantMessage(uuid, text + chunk, None)]
  {
    hide L.SynthUuid;
    var ys := xs + [AssistantMessage(uuid, text, None)];
    FoldOneMore(l.emitted, PatchText(uuid, chunk));
    assert LastHit(ys, TextTarget(uuid)) == |xs|;
    assert ys[|xs| := AssistantMessage(uuid, text + chunk, None)] == xs + [AssistantMessage(uuid, text + chunk, None)];
    if chunk == "" {
      assert text + chunk == text;
    }
  }

  /** Text of one block, chunk by chunk: the last item is the one that grows. */
  lemma {:induction false} ChunksGrowLast(tools: Tools, l: L.Loop, xs: seq<Item>, index: nat, uuid: string, chunks: seq<string>)
    requires L.InMessage(l) && index in L.PerMessage(l, l.currentMessageId.value)
    requires L.PerMessage(l, l.currentMessageId.value)[index] == uuid
    requires FoldAll([], l.emitted) == xs + [AssistantMessage(uuid, "", None)]
    ensures var l' := OnInputs(tools, l, Deltas(index, chunks));
            l' == l.(emitted := l'.emitted) && FoldAll([], l'.emitted) == xs + [AssistantMessage(uuid, Concat(chunks), None)]
  {
    hide L.OnStream, FoldAll, FoldDelta, L.SynthUuid, L.OnUser, L.OnResult, L.OnToolUses;
    if chunks != [] {
      var init, last := chunks[..|chunks| - 1], chunks[|chunks| - 1];
      ChunksGrowLast(tools, l, xs, index, uuid, init);
      InputsOneMore(tools, l, Deltas(index, init), FromSdk(Stream(TextDelta(Some(index), last))));
      ConcatOneMore(init, last);
      assert chunks == init + [last];
      ChunkGrowsLast(tools, OnInputs(tools, l, Deltas(index, init)), xs, index, uuid, Concat(init), last);
    }
  }

  lemma ConcatOneMore(parts: seq<string>, last: string)
    ensures Concat(parts + [last]) == Concat(parts) + last
  {
    ConcatAppend(parts, [last]);
    assert [last][1..] == [] && last + [] == last;
  }

  lemma SimSay(tools: Tools, l: L.Loop, xs: seq<Item>, p: N.GoodPass, b: Book, s: Step)
    requires Sim(l, xs, p, b) && s.Say? && Admits(b, s)
    ensures Sim(OnInputs(tools, l, Live(s)),
                xs + [AssistantMessage(L.SynthUuid(l.currentMessageId.value, s.index), Concat(s.chunks), None)],
                N.MessagesStep(tools, p, Kept(s)), Note(b, s))
  {
    hide L.SynthUuid, Concat, FoldAll, OnInputs, OnInput, N.MessagesStep, Erase;
    SayLive(tools, l, xs, s);
    var uuid, text := L.SynthUuid(l.currentMessageId.value, s.index), Concat(s.chunks);
    OneAssistantBlock(tools, p, s.uuid, s.stop, TextBlock(text));
    EraseOneMore(xs, AssistantMessage(uuid, text, None));
    EraseOneMore(p.out, AssistantMessage(s.uuid, text, s.stop));
  }

  lemma NoToolUse(tools: Tools, l: L.Loop, bl: Block)
    requires !bl.ToolUseBlock?
    ensures L.OnToolUses(tools, l, [bl]) == l
  {
    var bs := [bl];
    assert bs[1..] == [] && L.OnToolUses(tools, l, bs[1..]) == l;
  }

  /** A streamed text block adds one item holding the whole text. */
  lemma SayLive(tools: Tools, l: L.Loop, xs: seq<Item>, s: Step)
    requires s.Say? && L.InMessage(l) && xs == FoldAll([], l.emitted)
    ensures var l', uuid := OnInputs(tools, l, Live(s)), L.SynthUuid(l.currentMessageId.value, s.index);
            && l' == l.(emitted := l'.emitted, textBlockUuids := l'.textBlockUuids)
            && FoldAll([], l'.emitted) == xs + [AssistantMessage(uuid, Concat(s.chunks), None)]
  {
    hide L.SynthUuid, Concat, L.OnUser, L.OnResult, L.OnToolUses, FoldAll, OnInputs, Deltas;
    var uuid, text := L.SynthUuid(l.currentMessageId.value, s.index), Concat(s.chunks);
    var start := FromSdk(Stream(TextBlockStart(Some(s.index))));
    FoldOneMore(l.emitted, Append(AssistantMessage(uuid, "", None)));
    ChunksGrowLast(tools, OnInput(tools, l, start), xs, s.index, uuid, s.chunks);
    InputsFrom(tools, l, start, Deltas(s.index, s.chunks));
    var seal := FromSdk(AssistantEnvelope(Blocks([TextBlock(text)])));
    var l2 := OnInputs(tools, l, [start] + Deltas(s.index, s.chunks));
    InputsOneMore(tools, l, [start] + Deltas(s.index, s.chunks), seal);
    NoToolUse(tools, l2, TextBlock(text));
  }

  lemma {:induction false} InputsFrom(tools: Tools, l: L.Loop, i: Input, inputs: seq<Input>)
    ensures OnInputs(tools, l, [i] + inputs) == OnInputs(tools, OnInput(tools, l, i), inputs)
    decreases |inputs|
  {
    if inputs == [] {
      OneInput(tools, l, i);
      assert [i] + inputs == [i];
    } else {
      var init, last := inputs[..|inputs| - 1], inputs[|inputs| - 1];
      InputsFrom(tools, l, i, init);
      InputsOneMore(tools, l, [i] + init, last);
      assert [i] + inputs == ([i] + init) + [last];
    }
  }

  lemma SimUseTool(tools: Tools, l: L.Loop, xs: seq<Item>, p: N.GoodPass, b: Book, s: Step)
    requires Sim(l, xs, p, b) && s.UseTool? && Admits(b, s) && b.answered <= b.used
    ensures var det := tools.build(s.name, s.input);
            Sim(OnInputs(tools, l, Live(s)), xs + [ToolCall(s.id, s.name, tools.summary(det, s.name), Running, None, det)],
                N.MessagesStep(tools, p, Kept(s)), Note(b, s))
  {
    hide FoldAll, N.MessagesStep, Erase, OnInputs, Live, LastHit, Indexed, OnlyTools, SameDetails;
    var bl := ToolUseBlock(s.id, s.name, s.input);
    UseToolLive(tools, l, s);
    var det := tools.build(s.name, s.input);
    var it := ToolCall(s.id, s.name, tools.summary(det, s.name), Running, None, det);
    FoldOneMore(l.emitted, Append(it));
    OneAssistantBlock(tools, p, s.uuid, s.stop, bl);
    EraseOneMore(xs, it);
    EraseOneMore(p.out, it.(status := Completed));
    UseIndexed(p, b.used, l.pendingTools, it.(status := Completed));
    UseOnlyTools(xs, b.used, it);
  }

  /** A new call takes the next place in the pass, and its detail is the live one. */
  lemma UseIndexed(p: N.GoodPass, used: set<string>, pending: map<string, Detail>, it: Item)
    requires Indexed(p, used) && SameDetails(pending, p) && it.ToolCall? && it.callId !in used
    ensures var q := N.Pass(p.out + [it], p.pendingByCallId[it.callId := |p.out|]);
            N.ValidPass(q) && Indexed(q, used + {it.callId}) && SameDetails(pending[it.callId := it.detail], q)
  {
  }

  lemma UseOnlyTools(xs: seq<Item>, used: set<string>, it: Item)
    requires OnlyTools(xs, used) && it.ToolCall? && it.callId !in used
    ensures OnlyTools(xs + [it], used + {it.callId})
  {
  }

  lemma UseToolLive(tools: Tools, l: L.Loop, s: Step)
    requires s.UseTool?
    ensures OnInputs(tools, l, Live(s)) == L.OnToolUse(tools, l, ToolUseBlock(s.id, s.name, s.input))
  {
    hide L.OnUser, L.OnResult, L.OnToolUse;
    var bl := ToolUseBlock(s.id, s.name, s.input);
    InputsOneMore(tools, l, [FromSdk(Stream(OtherStreamEvent))], FromSdk(AssistantEnvelope(Blocks([bl]))));
    OneInput(tools, l, FromSdk(Stream(OtherStreamEvent)));
    assert Live(s) == [FromSdk(Stream(OtherStreamEvent))] + [FromSdk(AssistantEnvelope(Blocks([bl])))];
    var bs, l1 := [bl], L.OnToolUse(tools, l, bl);
    assert bs[1..] == [] && L.OnToolUses(tools, l1, bs[1..]) == l1;
  }

  /** The stored result settles the one call with its id. */
  lemma AttachIsSetTool(tools: Tools, p: N.GoodPass, used: set<string>, bl: Block)
    requires Indexed(p, used) && bl.ToolResultBlock? && bl.toolUseId in used
    ensures var text := TextOf(bl.content);
            var q := N.AttachResult(tools, p, bl);
            && Indexed(q, used) && q.pendingByCallId == p.pendingByCallId
            && q.out == SetTool(p.out, bl.toolUseId, if bl.isError then Failed else Completed,
                                if bl.isError then Some(text) else None,
                                tools.attach(p.out[p.pendingByCallId[bl.toolUseId]].detail, text))
            && forall id :: id in used && id != bl.toolUseId ==>
                 q.out[q.pendingByCallId[id]] == p.out[p.pendingByCallId[id]]
  {
    var text := TextOf(bl.content);
    SetToolAt(p.out, bl.toolUseId, if bl.isError then Failed else Completed, if bl.isError then Some(text) else None,
              tools.attach(p.out[p.pendingByCallId[bl.toolUseId]].detail, text));
  }

  lemma ResultStored(tools: Tools, p: N.GoodPass, s: Step)
    requires s.ToolReturns?
    ensures N.MessagesStep(tools, p, Kept(s)) == N.AttachResult(tools, p, ToolResultBlock(s.id, s.content, s.isError))
  {
    var bs := [ToolResultBlock(s.id, s.content, s.isError)];
    var q := N.AttachResult(tools, p, bs[0]);
    OneMessage(tools, p, StoredUser(s.uuid, Blocks(bs)));
    assert bs[1..] == [] && N.NonEmptyTexts(bs[1..]) == [] && N.ImagesOf(bs[1..]) == [];
    assert N.AttachResults(tools, q, bs[1..]) == q;
  }

  lemma ResultLive(tools: Tools, l: L.Loop, s: Step)
    requires s.ToolReturns? && !l.expectingCompactSummary
    ensures OnInputs(tools, l, Live(s)) == L.OnToolResult(tools, l, ToolResultBlock(s.id, s.content, s.isError))
  {
    var bs := [ToolResultBlock(s.id, s.content, s.isError)];
    var l1 := L.OnToolResult(tools, l, bs[0]);
    OneInput(tools, l, FromSdk(UserEnvelope(Some(s.uuid), Blocks(bs))));
    assert bs[1..] == [] && L.OnToolResults(tools, l1, bs[1..]) == l1;
  }

  lemma SetToolKeepsTools(xs: seq<Item>, used: set<string>, id: string, st: Status, err: Option<string>, det: Detail)
    requires OnlyTools(xs, used)
    ensures OnlyTools(SetTool(xs, id, st, err, det), used)
  {
    SetToolAt(xs, id, st, err, det);
  }

  /** The live result settles the one call with its id. */
  lemma PatchLive(tools: Tools, l: L.Loop, xs: seq<Item>, used: set<string>, bl: Block)
    requires xs == FoldAll([], l.emitted) && OnlyTools(xs, used) && bl.ToolResultBlock? && bl.toolUseId in l.pendingTools
    ensures var text, l' := TextOf(bl.content), L.OnToolResult(tools, l, bl);
            && l' == l.(emitted := l'.emitted, pendingTools := l.pendingTools - {bl.toolUseId})
            && FoldAll([], l'.emitted) == SetTool(xs, bl.toolUseId, if bl.isError then Failed else Completed,
                                             if bl.isError then Some(text) else None,
                                             tools.attach(l.pendingTools[bl.toolUseId], text))
  {
    hide FoldAll, SetTool, FoldDelta, TextOf;
    var text := TextOf(bl.content);
    var st, err := if bl.isError then Failed else Completed, if bl.isError then Some(text) else None;
    var det := tools.attach(l.pendingTools[bl.toolUseId], text);
    FoldOneMore(l.emitted, PatchToolCall(bl.toolUseId, st, err, det));
    PatchIsSetTool(xs, bl.toolUseId, st, err, det);
  }

  lemma SimAnswered(tools: Tools, l: L.Loop, xs: seq<Item>, p: N.GoodPass, b: Book, bl: Block)
    requires Sim(l, xs, p, b) && bl.ToolResultBlock? && bl.toolUseId in b.used - b.answered
    ensures var l' := L.OnToolResult(tools, l, bl);
            Sim(l', FoldAll([], l'.emitted), N.AttachResult(tools, p, bl), b.(answered := b.answered + {bl.toolUseId}))
  {
    hide FoldAll, Erase, SetTool, N.AttachResult, TextOf, L.OnToolResult;
    var text, det := TextOf(bl.content), l.pendingTools[bl.toolUseId];
    var st, err := if bl.isError then Failed else Completed, if bl.isError then Some(text) else None;
    assert det == p.out[p.pendingByCallId[bl.toolUseId]].detail;
    PatchLive(tools, l, xs, b.used, bl);
    AttachIsSetTool(tools, p, b.used, bl);
    EraseSetTool(xs, bl.toolUseId, st, err, tools.attach(det, text));
    EraseSetTool(p.out, bl.toolUseId, st, err, tools.attach(det, text));
    SetToolKeepsTools(xs, b.used, bl.toolUseId, st, err, tools.attach(det, text));
  }

  lemma SimToolReturns(tools: Tools, l: L.Loop, xs: seq<Item>, p: N.GoodPass, b: Book, s: Step)
    requires Sim(l, xs, p, b) && s.ToolReturns? && Admits(b, s)
    ensures var l' := OnInputs(tools, l, Live(s));
            Sim(l', FoldAll([], l'.emitted), N.MessagesStep(tools, p, Kept(s)), Note(b, s))
  {
    hide FoldAll, Erase, OnInputs, N.MessagesStep, Live, Kept, TextOf;
    ResultStored(tools, p, s);
    ResultLive(tools, l, s);
    if s.id in b.used {
      SimAnswered(tools, l, xs, p, b, ToolResultBlock(s.id, s.content, s.isError));
    }
  }

  /** Steps that show nothing on either path. */
  lemma SimQuiet(tools: Tools, l: L.Loop, xs: seq<Item>, p: N.GoodPass, b: Book, s: Step)
    requires Sim(l, xs, p, b) && Admits(b, s)
    requires s.Interrupted? || s.MessageBegin? || s.MessageEnd? || s.Think? || s.TurnEnds?
    ensures Sim(OnInputs(tools, l, Live(s)), xs, N.MessagesStep(tools, p, Kept(s)), Note(b, s))
  {
    hide FoldAll, N.MessagesStep, Erase, N.AssistantBlocks, N.UserStep;
    QuietLive(tools, l, s);
    QuietStored(tools, p, s);
  }

  lemma QuietStored(tools: Tools, p: N.GoodPass, s: Step)
    requires s.Interrupted? || s.MessageBegin? || s.MessageEnd? || s.Think? || s.TurnEnds?
    requires s.Interrupted? ==> N.Marker(s.marker)
    ensures N.MessagesStep(tools, p, Kept(s)) == p
  {
    if s.Interrupted? {
      InterruptStored(tools, p, s);
    } else if s.Think? {
      OneAssistantBlock(tools, p, s.uuid, None, OtherBlock);
    }
  }

  lemma ThinkLive(tools: Tools, l: L.Loop, s: Step)
    requires s.Think?
    ensures OnInputs(tools, l, Live(s)) == l
  {
    hide L.OnUser, L.OnResult, L.OnToolUses;
    var a, z := FromSdk(Stream(OtherStreamEvent)), FromSdk(AssistantEnvelope(Blocks([OtherBlock])));
    InputsOneMore(tools, l, [a], z);
    OneInput(tools, l, a);
    assert Live(s) == [a] + [z];
    NoToolUse(tools, l, OtherBlock);
  }

  lemma QuietLive(tools: Tools, l: L.Loop, s: Step)
    requires s.Interrupted? || s.MessageBegin? || s.MessageEnd? || s.Think? || s.TurnEnds?
    ensures var l' := OnInputs(tools, l, Live(s));
            && FoldAll([], l'.emitted) == FoldAll([], l.emitted)
            && l' == l.(emitted := l'.emitted, interrupted := l'.interrupted,
                        currentMessageId := if s.MessageBegin? then Some(s.id) else if s.MessageEnd? then None else l.currentMessageId)
  {
    hide FoldAll, OnInputs;
    match s {
      case Interrupted(_, _) =>
        OneInput(tools, l, Interrupt);
        FoldOneMore(l.emitted, TurnCanceled);
      case MessageBegin(id) => OneInput(tools, l, FromSdk(Stream(MessageStart(Some(id)))));
      case MessageEnd => OneInput(tools, l, FromSdk(Stream(MessageStop)));
      case Think(_) => ThinkLive(tools, l, s);
      case TurnEnds(success, reason) =>
        OneInput(tools, l, FromSdk(ResultEnvelope(success, reason)));
        FoldOneMore(l.emitted, TurnCompleted);
        FoldOneMore(l.emitted, TurnFailed(reason));
      case _ =>
    }
  }

  // ---- Whole scripts ----

  lemma {:induction false} MessagesConcat(tools: Tools, p: N.GoodPass, a: seq<Stored>, z: seq<Stored>)
    ensures N.MessagesStep(tools, p, a + z) == N.MessagesStep(tools, N.MessagesStep(tools, p, a), z)
    decreases |a|
  {
    if a == [] {
      assert a + z == z;
    } else {
      MessagesConcat(tools, N.MessageStep(tools, p, a[0]), a[1..], z);
      assert (a + z)[1..] == a[1..] + z;
    }
  }

  lemma {:induction false} AnsweredWereUsed(script: seq<Step>)
    ensures BookOf(script).answered <= BookOf(script).used
  {
    if script != [] {
      AnsweredWereUsed(script[..|script| - 1]);
    }
  }

  lemma SimStep(tools: Tools, l: L.Loop, xs: seq<Item>, p: N.GoodPass, b: Book, s: Step)
    requires Sim(l, xs, p, b) && Admits(b, s) && Renderable(s) && b.answered <= b.used
    ensures var l' := OnInputs(tools, l, Live(s));
            Sim(l', FoldAll([], l'.emitted), N.MessagesStep(tools, p, Kept(s)), Note(b, s))
  {
    hide OnInputs, N.MessagesStep, Live, Kept, FoldAll, Erase, Note, Admits, Concat, Renderable, L.SynthUuid;
    match s {
      case Prompt(_, _, _) => SimPrompt(tools, l, xs, p, b, s);
      case Say(_, _, _, _) => SimSay(tools, l, xs, p, b, s);
      case UseTool(_, _, _, _, _) => SimUseTool(tools, l, xs, p, b, s);
      case ToolReturns(_, _, _, _) => SimToolReturns(tools, l, xs, p, b, s);
      case _ => SimQuiet(tools, l, xs, p, b, s);
    }
  }

  lemma {:induction false} SimScript(tools: Tools, script: seq<Step>)
    requires WellFormed(script) && AllRenderable(script)
    ensures Sim(LiveLoop(tools, script), LiveItems(tools, script), StoredPass(tools, script), BookOf(script))
    decreases |script|
  {
    hide OnInputs, Live, Kept, Note, Admits, Renderable, N.MessageStep;
    if script != [] {
      var init, s := script[..|script| - 1], script[|script| - 1];
      SimScript(tools, init);
      AnsweredWereUsed(init);
      MessagesConcat(tools, N.Pass([], map[]), StoredScript(init), Kept(s));
      SimStep(tools, LiveLoop(tools, init), LiveItems(tools, init), StoredPass(tools, init), BookOf(init), s);
    }
  }

  /** Streaming and reading back agree on every script whose prompts storage gives back. */
  lemma PathsAgree(tools: Tools, script: seq<Step>)
    requires WellFormed(script) && AllRenderable(script)
    ensures Erase(LiveItems(tools, script)) == Erase(StoredItems(tools, script))
  {
    SimScript(tools, script);
  }

  lemma {:induction false} ShownIsWellFormed(script: seq<Step>)
    requires WellFormed(script)
    ensures WellFormed(Shown(script)) && AllRenderable(Shown(script)) && BookOf(Shown(script)) == BookOf(script)
  {
    if script != [] {
      var init, s := script[..|script| - 1], script[|script| - 1];
      ShownIsWellFormed(init);
      if Renderable(s) {
        assert Shown(script)[..|Shown(script)| - 1] == Shown(init) && Shown(script)[|Shown(script)| - 1] == s;
      } else {
        assert Shown(script) == Shown(init);
      }
    }
  }

  lemma {:induction false} StoredForgetsUnrenderable(tools: Tools, script: seq<Step>)
    requires WellFormed(script)
    ensures StoredPass(tools, script) == StoredPass(tools, Shown(script))
    decreases |script|
  {
    hide Kept, Note, N.MessageStep, N.MessagesStep, Renderable;
    if script != [] {
      var init, s := script[..|script| - 1], script[|script| - 1];
      StoredForgetsUnrenderable(tools, init);
      MessagesConcat(tools, N.Pass([], map[]), StoredScript(init), Kept(s));
      if Renderable(s) {
        MessagesConcat(tools, N.Pass([], map[]), StoredScript(Shown(init)), Kept(s));
        assert Shown(script)[..|Shown(script)| - 1] == Shown(init) && Shown(script)[|Shown(script)| - 1] == s;
      } else {
        assert Shown(script) == Shown(init);
        AdmittedAnyTime(BookOf(init), s);
        UnrenderableStored(tools, StoredPass(tools, init), s);
      }
    }
  }

  lemma AdmittedAnyTime(b: Book, s: Step)
    requires !Renderable(s) && Admits(b, s)
    ensures Admits(Book(None, {}, {}), s)
  {
  }

  lemma UnrenderableStored(tools: Tools, p: N.GoodPass, s: Step)
    requires !Renderable(s) && Admits(Book(None, {}, {}), s)
    ensures N.MessagesStep(tools, p, Kept(s)) == p
  {
    hide N.MessagesStep, Kept;
    PromptStored(tools, p, s);
    assert p.out + [] == p.out;
  }

  /** Storage always shows what streaming would have shown without the unrenderable prompts. */
  lemma StoredShows(tools: Tools, script: seq<Step>)
    requires WellFormed(script)
    ensures Erase(StoredItems(tools, script)) == Erase(LiveItems(tools, Shown(script)))
  {
    ShownIsWellFormed(script);
    StoredForgetsUnrenderable(tools, script);
    PathsAgree(tools, Shown(script));
  }

  function Users(xs: seq<Item>): nat {
    if xs == [] then 0 else Users(xs[..|xs| - 1]) + (if xs[|xs| - 1].UserMessage? then 1 else 0)
  }

  function Prompts(script: seq<Step>): nat {
    if script == [] then 0 else Prompts(script[..|script| - 1]) + (if script[|script| - 1].Prompt? then 1 else 0)
  }

  lemma {:induction false} EraseKeepsUsers(xs: seq<Item>)
    ensures Users(Erase(xs)) == Users(xs)
  {
    if xs != [] {
      var init, last := xs[..|xs| - 1], xs[|xs| - 1];
      EraseKeepsUsers(init);
      assert xs == init + [last];
      hide Users, Erase;
      EraseOneMore(init, last);
      UsersOneMore(init, last);
      if EraseItem(last) == [] {
        assert Erase(init) + [] == Erase(init);
      } else {
        UsersOneMore(Erase(init), EraseItem(last)[0]);
      }
    }
  }

  lemma UsersOneMore(xs: seq<Item>, it: Item)
    ensures Users(xs + [it]) == Users(xs) + if it.UserMessage? then 1 else 0
  {
    assert (xs + [it])[..|xs|] == xs;
  }

  function UserAppends(ds: seq<Delta>): nat {
    if ds == [] then 0
    else UserAppends(ds[..|ds| - 1]) + (if ds[|ds| - 1].Append? && ds[|ds| - 1].item.UserMessage? then 1 else 0)
  }

  lemma {:induction false} UsersUpdate(xs: seq<Item>, i: nat, it: Item)
    requires i < |xs| && !it.UserMessage? && !xs[i].UserMessage?
    ensures Users(xs[i := it]) == Users(xs)
  {
    if i < |xs| - 1 {
      UsersUpdate(xs[..|xs| - 1], i, it);
      assert xs[i := it][..|xs| - 1] == xs[..|xs| - 1][i := it];
    } else {
      assert xs[i := it][..|xs| - 1] == xs[..|xs| - 1];
    }
  }

  lemma {:induction false} FoldCountsUsers(ds: seq<Delta>)
    ensures Users(FoldAll([], ds)) == UserAppends(ds)
  {
    if ds != [] {
      var init, d := ds[..|ds| - 1], ds[|ds| - 1];
      FoldCountsUsers(init);
      var xs := FoldAll([], init);
      if d.Append? {
        assert (xs + [d.item])[..|xs|] == xs;
      } else if TargetOf(d).Some? && LastHit(xs, TargetOf(d).value) >= 0 {
        var i := LastHit(xs, TargetOf(d).value);
        UsersUpdate(xs, i, PatchItem(xs[i], d));
      }
    }
  }

  ghost predicate NoNewUser(l: L.Loop, l': L.Loop) {
    !l.expectingCompactSummary ==> !l'.expectingCompactSummary && UserAppends(l'.emitted) == UserAppends(l.emitted)
  }

  lemma EmitNoUser(l: L.Loop, d: Delta)
    requires !(d.Append? && d.item.UserMessage?)
    ensures UserAppends(L.Emit(l, d).emitted) == UserAppends(l.emitted)
  {
    assert (l.emitted + [d])[..|l.emitted|] == l.emitted;
  }

  lemma {:induction false} BlocksNoUser(tools: Tools, l: L.Loop, bs: seq<Block>)
    ensures NoNewUser(l, L.OnToolUses(tools, l, bs)) && NoNewUser(l, L.OnToolResults(tools, l, bs))
    decreases |bs|
  {
    if bs != [] {
      var use, res := L.OnToolUse(tools, l, bs[0]), L.OnToolResult(tools, l, bs[0]);
      if use.emitted != l.emitted { EmitNoUser(l, use.emitted[|l.emitted|]); }
      if res.emitted != l.emitted { EmitNoUser(l, res.emitted[|l.emitted|]); }
      BlocksNoUser(tools, use, bs[1..]);
      BlocksNoUser(tools, res, bs[1..]);
    }
  }

  /** Anything that is neither a prompt nor a compaction. */
  predicate Ordinary(i: Input) {
    !i.Typed? && !(i.FromSdk? && i.message.CompactBoundary?)
  }

  lemma InputNoUser(tools: Tools, l: L.Loop, i: Input)
    requires Ordinary(i)
    ensures NoNewUser(l, OnInput(tools, l, i))
  {
    hide UserAppends, L.OnToolUses, L.OnToolResults;
    if i.FromSdk? && i.message.AssistantEnvelope? && i.message.content.Blocks? {
      BlocksNoUser(tools, l, i.message.content.blocks);
    } else if i.FromSdk? && i.message.UserEnvelope? {
      if i.message.content.Blocks? { BlocksNoUser(tools, l, i.message.content.blocks); }
    } else {
      var l' := OnInput(tools, l, i);
      if l'.emitted != l.emitted { EmitNoUser(l, l'.emitted[|l.emitted|]); }
    }
  }

  lemma {:induction false} InputsNoUser(tools: Tools, l: L.Loop, inputs: seq<Input>)
    requires forall k :: 0 <= k < |inputs| ==> Ordinary(inputs[k])
    ensures NoNewUser(l, OnInputs(tools, l, inputs))
    decreases |inputs|
  {
    hide OnInput, UserAppends;
    if inputs != [] {
      InputsNoUser(tools, l, inputs[..|inputs| - 1]);
      InputNoUser(tools, OnInputs(tools, l, inputs[..|inputs| - 1]), inputs[|inputs| - 1]);
    }
  }

  lemma {:induction false} DeltasOrdinary(index: nat, chunks: seq<string>)
    ensures forall k :: 0 <= k < |Deltas(index, chunks)| ==> Ordinary(Deltas(index, chunks)[k])
  {
    if chunks != [] {
      DeltasOrdinary(index, chunks[..|chunks| - 1]);
    }
  }

  lemma StepUsers(tools: Tools, l: L.Loop, s: Step)
    requires !l.expectingCompactSummary
    ensures var l' := OnInputs(tools, l, Live(s));
            && !l'.expectingCompactSummary
            && UserAppends(l'.emitted) == UserAppends(l.emitted) + if s.Prompt? then 1 else 0
  {
    hide OnInputs, L.OnMessage, Concat;
    if s.Prompt? {
      OneInput(tools, l, Typed(s.uuid, s.text, s.images));
      var ds, d := l.emitted, Append(UserMessage(s.uuid, s.text, s.images));
      assert (ds + [d])[..|ds|] == ds && (ds + [d] + [TurnStarted])[..|ds| + 1] == ds + [d];
    } else {
      if s.Say? { DeltasOrdinary(s.index, s.chunks); }
      InputsNoUser(tools, l, Live(s));
    }
  }

  /** Every prompt is shown live, and nothing else is shown as a user message. */
  lemma {:induction false} LiveUsers(tools: Tools, script: seq<Step>)
    ensures !LiveLoop(tools, script).expectingCompactSummary
    ensures Users(LiveItems(tools, script)) == Prompts(script)
    decreases |script|
  {
    hide OnInputs, Live, FoldAll;
    FoldCountsUsers(LiveLoop(tools, script).emitted);
    if script != [] {
      LiveUsers(tools, script[..|script| - 1]);
      FoldCountsUsers(LiveLoop(tools, script[..|script| - 1]).emitted);
      StepUsers(tools, LiveLoop(tools, script[..|script| - 1]), script[|script| - 1]);
    }
  }

  lemma {:induction false} ShownCountsPrompts(script: seq<Step>)
    ensures Prompts(Shown(script)) <= Prompts(script)
    ensures !AllRenderable(script) ==> Prompts(Shown(script)) < Prompts(script)
  {
    if script != [] {
      var init, s := script[..|script| - 1], script[|script| - 1];
      ShownCountsPrompts(init);
      if Renderable(s) {
        assert Shown(script)[..|Shown(script)| - 1] == Shown(init) && Shown(script)[|Shown(script)| - 1] == s;
        assert AllRenderable(init) ==> AllRenderable(script);
      } else {
        assert Shown(script) == Shown(init);
      }
    }
  }

  /** The two paths agree exactly on the scripts whose every prompt storage gives back. */
  lemma PathsAgreeIff(tools: Tools, script: seq<Step>)
    requires WellFormed(script)
    ensures Erase(LiveItems(tools, script)) == Erase(StoredItems(tools, script)) <==> AllRenderable(script)
  {
    hide LiveItems, StoredItems, Erase, Users, Prompts;
    if AllRenderable(script) {
      PathsAgree(tools, script);
    } else {
      StoredShows(tools, script);
      LiveUsers(tools, script);
      LiveUsers(tools, Shown(script));
      EraseKeepsUsers(LiveItems(tools, script));
      EraseKeepsUsers(LiveItems(tools, Shown(script)));
      ShownCountsPrompts(script);
    }
  }

  // ---- Why a tool must not be answered twice ----

  lemma OneMoreStep(tools: Tools, script: seq<Step>, s: Step)
    ensures StoredPass(tools, script + [s]) == N.MessagesStep(tools, StoredPass(tools, script), Kept(s))
    ensures LiveLoop(tools, script + [s]) == OnInputs(tools, LiveLoop(tools, script), Live(s))
  {
    assert (script + [s])[..|script|] == script;
    MessagesConcat(tools, N.Pass([], map[]), StoredScript(script), Kept(s));
  }

  lemma {:induction false} EraseKeepsTool(xs: seq<Item>, k: nat)
    requires k < |xs| && xs[k].ToolCall? && xs[k].status != Running
    ensures xs[k] in Erase(xs)
  {
    if k < |xs| - 1 {
      EraseKeepsTool(xs[..|xs| - 1], k);
    }
  }

  /** The call is already shown as this result would leave it. */
  predicate AlreadyShows(tools: Tools, it: Item, s: Step)
    requires it.ToolCall? && s.ToolReturns?
  {
    it == N.Settle(tools, it, ToolResultBlock(s.id, s.content, s.isError))
  }

  ghost predicate NoneRunning(xs: seq<Item>) {
    forall i :: 0 <= i < |xs| && xs[i].ToolCall? ==> xs[i].status != Running
  }

  lemma SettleAgain(tools: Tools, p: N.GoodPass, used: set<string>, s: Step)
    requires Indexed(p, used) && s.ToolReturns? && s.id in used
    requires NoneRunning(p.out)
    ensures var q := N.AttachResult(tools, p, ToolResultBlock(s.id, s.content, s.isError));
            Erase(q.out) == Erase(p.out) <==> AlreadyShows(tools, p.out[p.pendingByCallId[s.id]], s)
  {
    hide Erase, SetTool, TextOf, EraseItem;
    var bl := ToolResultBlock(s.id, s.content, s.isError);
    var k, text := p.pendingByCallId[s.id], TextOf(s.content);
    var it := p.out[k];
    var st, err, det := if s.isError then Failed else Completed, if s.isError then Some(text) else None, tools.attach(it.detail, text);
    if AlreadyShows(tools, it, s) {
      assert N.AttachResult(tools, p, bl).out == p.out;
    } else {
      AttachIsSetTool(tools, p, used, bl);
      EraseSetTool(p.out, s.id, st, err, det);
      SetToolAt(Erase(p.out), s.id, st, err, det);
      EraseKeepsTool(p.out, k);
      var j :| 0 <= j < |Erase(p.out)| && Erase(p.out)[j] == it;
      assert SettledItem(it, s.id, st, err, det) != it;
    }
  }

  lemma {:induction false} StoredNeverRunning(tools: Tools, p: N.GoodPass, ms: seq<Stored>)
    requires NoneRunning(p.out)
    ensures NoneRunning(N.MessagesStep(tools, p, ms).out)
    decreases |ms|
  {
    if ms != [] {
      var m := ms[0];
      if m.StoredUser? && m.content.Blocks? {
        AttachNeverRunning(tools, p, m.content.blocks);
      } else if m.StoredAssistant? && m.content.Blocks? {
        BlocksNeverRunning(tools, p, m.uuid, m.stopReason, m.content.blocks);
      }
      StoredNeverRunning(tools, N.MessageStep(tools, p, m), ms[1..]);
    }
  }

  lemma {:induction false} AttachNeverRunning(tools: Tools, p: N.GoodPass, bs: seq<Block>)
    requires NoneRunning(p.out)
    ensures NoneRunning(N.AttachResults(tools, p, bs).out)
    decreases |bs|
  {
    if bs != [] {
      AttachNeverRunning(tools, N.AttachResult(tools, p, bs[0]), bs[1..]);
    }
  }

  lemma {:induction false} BlocksNeverRunning(tools: Tools, p: N.GoodPass, uuid: string, stop: Option<string>, bs: seq<Block>)
    requires NoneRunning(p.out)
    ensures NoneRunning(N.AssistantBlocks(tools, p, uuid, stop, bs).out)
    decreases |bs|
  {
    if bs != [] {
      BlocksNeverRunning(tools, N.AssistantBlock(tools, p, uuid, stop, bs[0]), uuid, stop, bs[1..]);
    }
  }

  /** A second result changes storage's copy only; the paths still agree exactly when it says nothing new. */
  lemma RepeatedResultIff(tools: Tools, script: seq<Step>, s: Step)
    requires WellFormed(script) && AllRenderable(script)
    requires s.ToolReturns? && s.id in BookOf(script).answered
    ensures s.id in StoredPass(tools, script).pendingByCallId
    ensures Erase(LiveItems(tools, script + [s])) == Erase(StoredItems(tools, script + [s])) <==>
            AlreadyShows(tools, StoredItems(tools, script)[StoredPass(tools, script).pendingByCallId[s.id]], s)
  {
    hide OnInputs, N.MessagesStep, LiveLoop, StoredScript, FoldAll, Live, Kept, Erase, N.AttachResult, BookOf;
    SimScript(tools, script);
    AnsweredWereUsed(script);
    OneMoreStep(tools, script, s);
    ResultLive(tools, LiveLoop(tools, script), s);
    ResultStored(tools, StoredPass(tools, script), s);
    StoredNeverRunning(tools, N.Pass([], map[]), StoredScript(script));
    SettleAgain(tools, StoredPass(tools, script), BookOf(script).used, s);
  }
}
