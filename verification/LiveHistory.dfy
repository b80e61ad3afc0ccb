/** What the query loop emits, said over the history of its inputs: turns, prompts, compactions, texts, tool calls. */
module LiveHistory {
  import opened Options
  import opened Timeline
  import opened Sdk
  import opened Text
  import opened Equivalence
  import opened ToolCalls
  import L = LiveStream

  // ---- kinds of events ----

  datatype Kind = TurnKind | UserKind | TextKind | ToolKind | CompactKind

  function KindOf(d: Delta): Kind {
    match d
    case Append(UserMessage(_, _, _)) => UserKind
    case Append(AssistantMessage(_, _, _)) => TextKind
    case Append(ToolCall(_, _, _, _, _, _)) => ToolKind
    case PatchText(_, _) => TextKind
    case PatchToolCall(_, _, _, _) => ToolKind
    case CompactStarted => CompactKind
    case CompactApplied => CompactKind
    case _ => TurnKind
  }

  /** The events of one kind. */
  function Of(k: Kind, ds: seq<Delta>): seq<Delta> {
    if ds == [] then []
    else Of(k, ds[..|ds| - 1]) + (if KindOf(ds[|ds| - 1]) == k then [ds[|ds| - 1]] else [])
  }

  lemma OfOneMore(k: Kind, ds: seq<Delta>, d: Delta)
    ensures Of(k, ds + [d]) == Of(k, ds) + if KindOf(d) == k then [d] else []
  {
    assert (ds + [d])[..|ds|] == ds;
  }

  // ---- scans of the history ----

  function OpenAfter(i: Input, was: Option<string>): Option<string> {
    match i
    case FromSdk(Stream(MessageStart(id))) => id
    case FromSdk(Stream(MessageStop)) => None
    case _ => was
  }

  /** The message that is being streamed. */
  function OpenMessage(inputs: seq<Input>): Option<string> {
    if inputs == [] then None else OpenAfter(inputs[|inputs| - 1], OpenMessage(inputs[..|inputs| - 1]))
  }

  predicate AwaitsAfter(i: Input, was: bool) {
    match i
    case FromSdk(CompactBoundary(wellFormed)) => wellFormed || was
    case FromSdk(UserEnvelope(_, _)) => false
    case _ => was
  }

  /** A compaction has taken effect and no user envelope has come since. */
  predicate AwaitsSummary(inputs: seq<Input>) {
    inputs != [] && AwaitsAfter(inputs[|inputs| - 1], AwaitsSummary(inputs[..|inputs| - 1]))
  }

  predicate CanceledAfter(i: Input, was: bool) {
    match i
    case Interrupt => true
    case Typed(_, _, _) => false
    case FromSdk(ResultEnvelope(_, _)) => false
    case _ => was
  }

  /** There was an interrupt since the last prompt or result. */
  predicate Canceled(inputs: seq<Input>) {
    inputs != [] && CanceledAfter(inputs[|inputs| - 1], Canceled(inputs[..|inputs| - 1]))
  }

  /** Block `index` of message `id` has begun. */
  predicate BlockBegun(inputs: seq<Input>, id: string, index: nat) {
    inputs != [] &&
    (BlockBegun(inputs[..|inputs| - 1], id, index)
     || BeginsBlock(inputs[|inputs| - 1], OpenMessage(inputs[..|inputs| - 1]), id, index))
  }

  predicate BeginsBlock(i: Input, open: Option<string>, id: string, index: nat) {
    i == FromSdk(Stream(TextBlockStart(Some(index)))) && open == Some(id) && id != ""
  }

  /** Tool uses of assistant envelopes and results of user envelopes; a compaction's summary holds no results. */
  function ToolEvents(inputs: seq<Input>): seq<ToolEvent> {
    if inputs == [] then []
    else ToolEvents(inputs[..|inputs| - 1]) + EventsOf(inputs[|inputs| - 1], AwaitsSummary(inputs[..|inputs| - 1]))
  }

  function EventsOf(i: Input, awaitsSummary: bool): seq<ToolEvent> {
    match i
    case FromSdk(AssistantEnvelope(Blocks(bs))) => UsesIn(bs)
    case FromSdk(UserEnvelope(_, Blocks(bs))) => if awaitsSummary then [] else ResultsIn(bs)
    case _ => []
  }

  // ---- what should be emitted ----

  function TurnAt(i: Input, canceled: bool): seq<Delta> {
    match i
    case Typed(_, _, _) => [TurnStarted]
    case Interrupt => [TurnCanceled]
    case FromSdk(ResultEnvelope(success, reason)) =>
      if success then [TurnCompleted] else if canceled then [] else [TurnFailed(reason)]
    case _ => []
  }

  /** A prompt starts a turn and an interrupt cancels it; a result completes it or fails it, a failure after an
    * interrupt being the interrupt's own. */
  function TurnsOf(inputs: seq<Input>): seq<Delta> {
    if inputs == [] then []
    else TurnsOf(inputs[..|inputs| - 1]) + TurnAt(inputs[|inputs| - 1], Canceled(inputs[..|inputs| - 1]))
  }

  /** A summary's text: a string, or the texts of its blocks as paragraphs. */
  function Summary(content: Content): string {
    match content
    case Plain(text) => text
    case Blocks(bs) => Join(TextsOf(bs), "\n\n")
    case NoContent => ""
  }

  function UserAt(i: Input, awaitsSummary: bool): seq<Delta> {
    match i
    case Typed(uuid, text, images) => [Append(UserMessage(uuid, text, images))]
    case FromSdk(UserEnvelope(Some(uuid), content)) =>
      if awaitsSummary && Summary(content) != "" then [Append(UserMessage(uuid, Summary(content), []))] else []
    case _ => []
  }

  /** Prompts, and the summary that follows a compaction. */
  function UsersOf(inputs: seq<Input>): seq<Delta> {
    if inputs == [] then []
    else UsersOf(inputs[..|inputs| - 1]) + UserAt(inputs[|inputs| - 1], AwaitsSummary(inputs[..|inputs| - 1]))
  }

  function CompactionAt(i: Input): seq<Delta> {
    match i
    case FromSdk(CompactingStatus) => [CompactStarted]
    case FromSdk(CompactBoundary(wellFormed)) => if wellFormed then [CompactApplied] else []
    case _ => []
  }

  function CompactionsOf(inputs: seq<Input>): seq<Delta> {
    if inputs == [] then [] else CompactionsOf(inputs[..|inputs| - 1]) + CompactionAt(inputs[|inputs| - 1])
  }

  function TextAt(i: Input, init: seq<Input>): seq<Delta> {
    match i
    case FromSdk(Stream(TextBlockStart(Some(index)))) =>
      if OpenMessage(init) in {None, Some("")} then []
      else [Append(AssistantMessage(OpenMessage(init).value + ":" + Decimal(index), "", None))]
    case FromSdk(Stream(TextDelta(Some(index), text))) =>
      if text == "" || OpenMessage(init) in {None, Some("")} || !BlockBegun(init, OpenMessage(init).value, index) then []
      else [PatchText(OpenMessage(init).value + ":" + Decimal(index), text)]
    case _ => []
  }

  /** Each text block of an open message, named by message and index, and each non-empty chunk of a block that has begun. */
  function TextsStreamed(inputs: seq<Input>): seq<Delta> {
    if inputs == [] then [] else TextsStreamed(inputs[..|inputs| - 1]) + TextAt(inputs[|inputs| - 1], inputs[..|inputs| - 1])
  }

  lemma ScansOneMore(init: seq<Input>, i: Input)
    ensures OpenMessage(init + [i]) == OpenAfter(i, OpenMessage(init))
    ensures AwaitsSummary(init + [i]) == AwaitsAfter(i, AwaitsSummary(init))
    ensures Canceled(init + [i]) == CanceledAfter(i, Canceled(init))
    ensures ToolEvents(init + [i]) == ToolEvents(init) + EventsOf(i, AwaitsSummary(init))
    ensures TurnsOf(init + [i]) == TurnsOf(init) + TurnAt(i, Canceled(init))
    ensures UsersOf(init + [i]) == UsersOf(init) + UserAt(i, AwaitsSummary(init))
    ensures CompactionsOf(init + [i]) == CompactionsOf(init) + CompactionAt(i)
    ensures TextsStreamed(init + [i]) == TextsStreamed(init) + TextAt(i, init)
  {
    assert (init + [i])[..|init|] == init;
    hide OpenAfter, AwaitsAfter, CanceledAfter, EventsOf, TurnAt, UserAt, CompactionAt, TextAt;
  }

  lemma BegunOneMore(init: seq<Input>, i: Input, id: string, index: nat)
    ensures BlockBegun(init + [i], id, index) <==> BlockBegun(init, id, index) || BeginsBlock(i, OpenMessage(init), id, index)
  {
    assert (init + [i])[..|init|] == init;
  }

  /** Each first use of an id, and the first result after it. */
  function ToolDeltas(tools: Tools, evs: seq<ToolEvent>): seq<Delta> {
    if evs == [] then []
    else
      var init, e := evs[..|evs| - 1], evs[|evs| - 1];
      var was := LiveCall(tools, init, e.id);
      ToolDeltas(tools, init) +
      match e
      case Use(_, _, _) => if was.None? then [Append(Opened(tools, e, Running))] else []
      case Result(_, _, _) =>
        if was.Some? && was.value.status.Running? then
          var it := Settled(tools, was.value, e);
          [PatchToolCall(it.callId, it.status, it.error, it.detail)]
        else []
  }

  // ---- the tool loops ----

  /** From `l` to `m` only tool events were emitted. */
  ghost predicate OnlyTooled(l: L.Loop, m: L.Loop) {
    && m == l.(appendedToolUseIds := m.appendedToolUseIds, pendingTools := m.pendingTools, emitted := m.emitted)
    && l.emitted <= m.emitted && forall i :: |l.emitted| <= i < |m.emitted| ==> KindOf(m.emitted[i]).ToolKind?
  }

  ghost predicate ToolState(tools: Tools, l: L.Loop, evs: seq<ToolEvent>) {
    && Of(ToolKind, l.emitted) == ToolDeltas(tools, evs)
    && forall id :: CallState(tools, l, evs, id)
  }

  ghost predicate CallState(tools: Tools, l: L.Loop, evs: seq<ToolEvent>, id: string) {
    var call := LiveCall(tools, evs, id);
    && (id in l.appendedToolUseIds <==> call.Some?)
    && (id in l.pendingTools <==> call.Some? && call.value.status.Running?)
    && (id in l.pendingTools ==> l.pendingTools[id] == call.value.detail)
  }

  lemma ToolDeltasOneMore(tools: Tools, evs: seq<ToolEvent>, e: ToolEvent)
    ensures var was := LiveCall(tools, evs, e.id);
            ToolDeltas(tools, evs + [e]) == ToolDeltas(tools, evs) +
            match e
            case Use(_, _, _) => if was.None? then [Append(Opened(tools, e, Running))] else []
            case Result(_, _, _) =>
              if was.Some? && was.value.status.Running? then
                var it := Settled(tools, was.value, e);
                [PatchToolCall(it.callId, it.status, it.error, it.detail)]
              else []
  {
    assert (evs + [e])[..|evs|] == evs;
  }

  lemma UseState(tools: Tools, l: L.Loop, evs: seq<ToolEvent>, b: Block)
    requires ToolState(tools, l, evs) && b.ToolUseBlock?
    ensures ToolState(tools, L.OnToolUse(tools, l, b), evs + [Use(b.id, b.name, b.input)])
    ensures OnlyTooled(l, L.OnToolUse(tools, l, b))
  {
    hide LiveCall, Of, ToolDeltas;
    var m, e := L.OnToolUse(tools, l, b), Use(b.id, b.name, b.input);
    assert CallState(tools, l, evs, b.id);
    ToolDeltasOneMore(tools, evs, e);
    OfOneMore(ToolKind, l.emitted, Append(Opened(tools, e, Running)));
    assert ToolDeltas(tools, evs) + [] == ToolDeltas(tools, evs);
    forall id ensures CallState(tools, m, evs + [e], id) {
      assert CallState(tools, l, evs, id);
      CallOneMore(tools, evs, e, id);
    }
  }

  lemma ResultState(tools: Tools, l: L.Loop, evs: seq<ToolEvent>, b: Block)
    requires ToolState(tools, l, evs) && b.ToolResultBlock?
    ensures ToolState(tools, L.OnToolResult(tools, l, b), evs + [Result(b.toolUseId, b.content, b.isError)])
    ensures OnlyTooled(l, L.OnToolResult(tools, l, b))
  {
    hide LiveCall, Of, ToolDeltas, TextOf;
    var m, e := L.OnToolResult(tools, l, b), Result(b.toolUseId, b.content, b.isError);
    assert CallState(tools, l, evs, e.id);
    ToolDeltasOneMore(tools, evs, e);
    assert ToolDeltas(tools, evs) + [] == ToolDeltas(tools, evs);
    if m != l { OfOneMore(ToolKind, l.emitted, m.emitted[|l.emitted|]); }
    forall id ensures CallState(tools, m, evs + [e], id) {
      assert CallState(tools, l, evs, id);
      CallOneMore(tools, evs, e, id);
    }
  }

  lemma {:induction false} UsesState(tools: Tools, l: L.Loop, evs: seq<ToolEvent>, bs: seq<Block>)
    requires ToolState(tools, l, evs)
    ensures ToolState(tools, L.OnToolUses(tools, l, bs), evs + UsesIn(bs)) && OnlyTooled(l, L.OnToolUses(tools, l, bs))
    decreases |bs|
  {
    hide ToolState;
    if bs == [] {
      assert evs + [] == evs;
    } else if bs[0].ToolUseBlock? {
      var e := Use(bs[0].id, bs[0].name, bs[0].input);
      UseState(tools, l, evs, bs[0]);
      UsesState(tools, L.OnToolUse(tools, l, bs[0]), evs + [e], bs[1..]);
      assert (evs + [e]) + UsesIn(bs[1..]) == evs + ([e] + UsesIn(bs[1..]));
    } else {
      UsesState(tools, l, evs, bs[1..]);
      assert [] + UsesIn(bs[1..]) == UsesIn(bs[1..]);
    }
  }

  lemma {:induction false} ResultsState(tools: Tools, l: L.Loop, evs: seq<ToolEvent>, bs: seq<Block>)
    requires ToolState(tools, l, evs)
    ensures ToolState(tools, L.OnToolResults(tools, l, bs), evs + ResultsIn(bs)) && OnlyTooled(l, L.OnToolResults(tools, l, bs))
    decreases |bs|
  {
    hide ToolState;
    if bs == [] {
      assert evs + [] == evs;
    } else if bs[0].ToolResultBlock? {
      var e := Result(bs[0].toolUseId, bs[0].content, bs[0].isError);
      ResultState(tools, l, evs, bs[0]);
      ResultsState(tools, L.OnToolResult(tools, l, bs[0]), evs + [e], bs[1..]);
      assert (evs + [e]) + ResultsIn(bs[1..]) == evs + ([e] + ResultsIn(bs[1..]));
    } else {
      ResultsState(tools, l, evs, bs[1..]);
      assert [] + ResultsIn(bs[1..]) == ResultsIn(bs[1..]);
    }
  }

  // ---- the loop remembers its history ----

  /** The loop's state is what a scan of its inputs finds. */
  ghost predicate Remembers(tools: Tools, l: L.Loop, inputs: seq<Input>) {
    && l.currentMessageId == OpenMessage(inputs)
    && l.expectingCompactSummary == AwaitsSummary(inputs)
    && l.interrupted == Canceled(inputs)
    && (forall id, index :: index in L.PerMessage(l, id) <==> BlockBegun(inputs, id, index))
    && (forall id, index :: index in L.PerMessage(l, id) ==> L.PerMessage(l, id)[index] == L.SynthUuid(id, index))
  }

  /** What has been emitted is what the history calls for, kind by kind. */
  ghost predicate Emitted(tools: Tools, l: L.Loop, inputs: seq<Input>) {
    && Of(TurnKind, l.emitted) == TurnsOf(inputs)
    && Of(UserKind, l.emitted) == UsersOf(inputs)
    && Of(TextKind, l.emitted) == TextsStreamed(inputs)
    && Of(CompactKind, l.emitted) == CompactionsOf(inputs)
    && ToolState(tools, l, ToolEvents(inputs))
  }

  lemma {:induction false} OfConcat(k: Kind, a: seq<Delta>, b: seq<Delta>)
    ensures Of(k, a + b) == Of(k, a) + Of(k, b)
    decreases |b|
  {
    if b == [] {
      assert a + b == a;
    } else {
      var init, d := b[..|b| - 1], b[|b| - 1];
      OfConcat(k, a, init);
      assert (a + b)[..|a + b| - 1] == a + init;
    }
  }

  /** The tool part of the state looks at the tools only. */
  lemma ToolStateSame(tools: Tools, l: L.Loop, m: L.Loop, evs: seq<ToolEvent>)
    requires ToolState(tools, l, evs) && m.appendedToolUseIds == l.appendedToolUseIds && m.pendingTools == l.pendingTools
    requires Of(ToolKind, m.emitted) == Of(ToolKind, l.emitted)
    ensures ToolState(tools, m, evs)
  {
    hide LiveCall, Of, ToolDeltas;
    forall id ensures CallState(tools, m, evs, id) {
      assert CallState(tools, l, evs, id);
    }
  }

  /** What one input adds, given what the loop remembers. */
  ghost predicate Adds(l: L.Loop, m: L.Loop, i: Input, ds: seq<Delta>) {
    && m.emitted == l.emitted + ds
    && Of(TurnKind, ds) == TurnAt(i, l.interrupted)
    && Of(UserKind, ds) == UserAt(i, l.expectingCompactSummary)
    && Of(CompactKind, ds) == CompactionAt(i)
    && Of(TextKind, ds) == TextFrom(l, i)
  }

  function TextFrom(l: L.Loop, i: Input): seq<Delta> {
    match i
    case FromSdk(Stream(TextBlockStart(Some(index)))) =>
      if L.InMessage(l) then [Append(AssistantMessage(L.SynthUuid(l.currentMessageId.value, index), "", None))] else []
    case FromSdk(Stream(TextDelta(Some(index), text))) =>
      if text != "" && L.InMessage(l) && index in L.PerMessage(l, l.currentMessageId.value)
      then [PatchText(L.PerMessage(l, l.currentMessageId.value)[index], text)] else []
    case _ => []
  }

  lemma TextFromHistory(tools: Tools, l: L.Loop, init: seq<Input>, i: Input)
    requires Remembers(tools, l, init)
    ensures TextFrom(l, i) == TextAt(i, init)
  {
    hide L.PerMessage, OpenMessage, BlockBegun;
  }

  lemma EmittedMore(tools: Tools, l: L.Loop, m: L.Loop, init: seq<Input>, i: Input, ds: seq<Delta>)
    requires Remembers(tools, l, init) && Emitted(tools, l, init) && Adds(l, m, i, ds)
    requires ToolState(tools, m, ToolEvents(init + [i]))
    ensures Emitted(tools, m, init + [i])
  {
    TextFromHistory(tools, l, init, i);
    ScansOneMore(init, i);
    assert l.interrupted == Canceled(init) && l.expectingCompactSummary == AwaitsSummary(init);
    hide Of, ToolState, TurnAt, UserAt, CompactionAt, TextAt, TextFrom, Remembers, TurnsOf, UsersOf, CompactionsOf, TextsStreamed, ToolEvents;
    OfConcat(TurnKind, l.emitted, ds);
    OfConcat(UserKind, l.emitted, ds);
    OfConcat(TextKind, l.emitted, ds);
    OfConcat(CompactKind, l.emitted, ds);
  }

  lemma OfNone(k: Kind)
    ensures Of(k, []) == []
  {}

  lemma OfOne(k: Kind, d: Delta)
    ensures Of(k, [d]) == if KindOf(d) == k then [d] else []
  {
    assert [d][..0] == [];
  }

  lemma OfTwo(k: Kind, d: Delta, e: Delta)
    ensures Of(k, [d, e]) == (if KindOf(d) == k then [d] else []) + (if KindOf(e) == k then [e] else [])
  {
    OfOne(k, d);
    assert [d, e][..1] == [d];
  }

  lemma {:induction false} OfOthers(k: Kind, ds: seq<Delta>)
    requires forall i :: 0 <= i < |ds| ==> KindOf(ds[i]) != k
    ensures Of(k, ds) == []
  {
    if ds != [] { OfOthers(k, ds[..|ds| - 1]); }
  }

  predicate ForTools(l: L.Loop, i: Input) {
    i.FromSdk? && (i.message.AssistantEnvelope? || (i.message.UserEnvelope? && !l.expectingCompactSummary))
  }

  lemma OfOneKind(ds: seq<Delta>, k: Kind)
    requires |ds| <= 1 && (ds != [] ==> KindOf(ds[0]) == k)
    ensures forall j: Kind :: Of(j, ds) == if j == k then ds else []
  {
    if ds != [] { assert ds == [ds[0]] && ds[..0] == []; }
  }

  /** An input whose events, at most one, are all of one kind. */
  lemma OneKindAdds(l: L.Loop, m: L.Loop, i: Input, ds: seq<Delta>, k: Kind)
    requires m.emitted == l.emitted + ds && |ds| <= 1 && (ds != [] ==> KindOf(ds[0]) == k)
    requires TurnAt(i, l.interrupted) == (if k.TurnKind? then ds else [])
    requires UserAt(i, l.expectingCompactSummary) == (if k.UserKind? then ds else [])
    requires CompactionAt(i) == (if k.CompactKind? then ds else [])
    requires TextFrom(l, i) == (if k.TextKind? then ds else []) && !k.ToolKind?
    ensures l.emitted <= m.emitted && Adds(l, m, i, m.emitted[|l.emitted|..]) && Of(ToolKind, m.emitted[|l.emitted|..]) == []
  {
    hide Of, KindOf, TurnAt, UserAt, CompactionAt, TextFrom;
    OfOneKind(ds, k);
    assert m.emitted[|l.emitted|..] == ds;
  }

  lemma ResultAdds(tools: Tools, l: L.Loop, i: Input)
    requires i.FromSdk? && i.message.ResultEnvelope?
    ensures var m := OnInput(tools, l, i);
            l.emitted <= m.emitted && Adds(l, m, i, m.emitted[|l.emitted|..]) && Of(ToolKind, m.emitted[|l.emitted|..]) == []
  {
    hide Of, Adds;
    assert l.emitted + [] == l.emitted;
    OneKindAdds(l, OnInput(tools, l, i), i, TurnAt(i, l.interrupted), TurnKind);
  }

  lemma CompactionAdds(tools: Tools, l: L.Loop, i: Input)
    requires i.FromSdk? && (i.message.CompactingStatus? || i.message.CompactBoundary? || i.message.OtherMessage?)
    ensures var m := OnInput(tools, l, i);
            l.emitted <= m.emitted && Adds(l, m, i, m.emitted[|l.emitted|..]) && Of(ToolKind, m.emitted[|l.emitted|..]) == []
  {
    hide Of, Adds;
    assert l.emitted + [] == l.emitted;
    OneKindAdds(l, OnInput(tools, l, i), i, CompactionAt(i), CompactKind);
  }

  lemma SdkAdds(tools: Tools, l: L.Loop, i: Input)
    requires i.FromSdk? && !i.message.Stream? && !ForTools(l, i)
    ensures var m := OnInput(tools, l, i);
            l.emitted <= m.emitted && Adds(l, m, i, m.emitted[|l.emitted|..]) && Of(ToolKind, m.emitted[|l.emitted|..]) == []
  {
    hide OnInput, Of, Adds;
    match i.message {
      case ResultEnvelope(_, _) => ResultAdds(tools, l, i);
      case UserEnvelope(_, _) => SummaryAdds(tools, l, i);
      case _ => CompactionAdds(tools, l, i);
    }
  }

  lemma SummaryAdds(tools: Tools, l: L.Loop, i: Input)
    requires i.FromSdk? && i.message.UserEnvelope? && l.expectingCompactSummary
    ensures var m := OnInput(tools, l, i);
            l.emitted <= m.emitted && Adds(l, m, i, m.emitted[|l.emitted|..]) && Of(ToolKind, m.emitted[|l.emitted|..]) == []
  {
    hide Join, TextsOf, Of, Adds;
    assert Summary(i.message.content) == L.SummaryText(i.message.content);
    assert l.emitted + [] == l.emitted;
    OneKindAdds(l, OnInput(tools, l, i), i, UserAt(i, true), UserKind);
  }

  lemma StreamAdds(tools: Tools, l: L.Loop, i: Input)
    requires i.FromSdk? && i.message.Stream?
    ensures var m := OnInput(tools, l, i);
            l.emitted <= m.emitted && Adds(l, m, i, m.emitted[|l.emitted|..]) && Of(ToolKind, m.emitted[|l.emitted|..]) == []
  {
    hide Of, L.SynthUuid, L.PerMessage, Adds;
    assert l.emitted + [] == l.emitted;
    OneKindAdds(l, OnInput(tools, l, i), i, TextFrom(l, i), TextKind);
  }

  lemma PersonAdds(tools: Tools, l: L.Loop, i: Input)
    requires i.Typed? || i.Interrupt?
    ensures var m := OnInput(tools, l, i);
            l.emitted <= m.emitted && Adds(l, m, i, m.emitted[|l.emitted|..]) && Of(ToolKind, m.emitted[|l.emitted|..]) == []
  {
    hide Of;
    var m := OnInput(tools, l, i);
    var ds := m.emitted[|l.emitted|..];
    if i.Typed? {
      var d := Append(UserMessage(i.uuid, i.text, i.images));
      assert ds == [d, TurnStarted];
      forall k: Kind ensures Of(k, ds) == (if KindOf(d) == k then [d] else []) + (if k == TurnKind then [TurnStarted] else []) {
        OfTwo(k, d, TurnStarted);
      }
    } else {
      assert ds == [TurnCanceled];
      forall k: Kind ensures Of(k, ds) == if k == TurnKind then [TurnCanceled] else [] { OfOne(k, TurnCanceled); }
    }
  }

  lemma ToolsAdd(tools: Tools, l: L.Loop, i: Input, evs: seq<ToolEvent>)
    requires ToolState(tools, l, evs) && ForTools(l, i)
    ensures var m := OnInput(tools, l, i);
            && ToolState(tools, m, evs + EventsOf(i, false)) && OnlyTooled(l, m)
            && Adds(l, m, i, m.emitted[|l.emitted|..])
  {
    hide ToolState, L.OnToolUses, L.OnToolResults, UsesIn, ResultsIn, Of;
    var m := OnInput(tools, l, i);
    assert evs + [] == evs;
    if i.message.content.Blocks? {
      if i.message.AssistantEnvelope? {
        UsesState(tools, l, evs, i.message.content.blocks);
      } else {
        ResultsState(tools, l, evs, i.message.content.blocks);
      }
    }
    var ds := m.emitted[|l.emitted|..];
    assert forall j :: 0 <= j < |ds| ==> KindOf(ds[j]) == ToolKind;
    OfOthers(TurnKind, ds);
    OfOthers(UserKind, ds);
    OfOthers(CompactKind, ds);
    OfOthers(TextKind, ds);
  }

  // ---- the loop remembers ----

  ghost predicate FieldsFollow(l: L.Loop, m: L.Loop, i: Input) {
    && m.currentMessageId == OpenAfter(i, l.currentMessageId)
    && m.expectingCompactSummary == AwaitsAfter(i, l.expectingCompactSummary)
    && m.interrupted == CanceledAfter(i, l.interrupted)
    && (!(i.FromSdk? && i.message.Stream?) ==> m.textBlockUuids == l.textBlockUuids)
    && (!ForTools(l, i) ==> m.appendedToolUseIds == l.appendedToolUseIds && m.pendingTools == l.pendingTools)
  }

  lemma TooledFields(l: L.Loop, m: L.Loop, i: Input)
    requires ForTools(l, i) && OnlyTooled(l, m)
    ensures FieldsFollow(l, m, i)
  {}

  lemma StreamFields(tools: Tools, l: L.Loop, i: Input)
    requires i.FromSdk? && i.message.Stream?
    ensures FieldsFollow(l, OnInput(tools, l, i), i)
  {
    hide L.PerMessage, L.SynthUuid;
  }

  lemma SdkFields(tools: Tools, l: L.Loop, i: Input)
    requires i.FromSdk? && !i.message.Stream? && !ForTools(l, i)
    ensures FieldsFollow(l, OnInput(tools, l, i), i)
  {
    hide L.SummaryText, L.OnToolUses, L.OnToolResults, L.OnStream;
  }

  lemma OtherFields(tools: Tools, l: L.Loop, i: Input)
    requires !ForTools(l, i)
    ensures FieldsFollow(l, OnInput(tools, l, i), i)
  {
    if i.FromSdk? {
      hide FieldsFollow, OnInput;
      if i.message.Stream? { StreamFields(tools, l, i); } else { SdkFields(tools, l, i); }
    }
  }

  lemma FieldsRemembered(tools: Tools, l: L.Loop, i: Input, evs: seq<ToolEvent>)
    requires ToolState(tools, l, evs)
    ensures FieldsFollow(l, OnInput(tools, l, i), i)
  {
    hide OnInput, ToolState, Adds, FieldsFollow, OnlyTooled;
    if ForTools(l, i) {
      ToolsAdd(tools, l, i, evs);
      TooledFields(l, OnInput(tools, l, i), i);
    } else {
      OtherFields(tools, l, i);
    }
  }

  lemma BlocksRemembered(tools: Tools, l: L.Loop, init: seq<Input>, i: Input, id: string, index: nat)
    requires Remembers(tools, l, init)
    requires !(i.FromSdk? && i.message.Stream?) ==> OnInput(tools, l, i).textBlockUuids == l.textBlockUuids
    ensures var m := OnInput(tools, l, i);
            && (index in L.PerMessage(m, id) <==> BlockBegun(init + [i], id, index))
            && (index in L.PerMessage(m, id) ==> L.PerMessage(m, id)[index] == L.SynthUuid(id, index))
  {
    hide BlockBegun, OpenMessage, L.OnMessage, L.SynthUuid;
    BegunOneMore(init, i, id, index);
    if i.FromSdk? && i.message.Stream? {
      StreamBlocks(tools, l, i.message.event, id, index);
    }
  }

  lemma StreamBlocks(tools: Tools, l: L.Loop, ev: StreamEvent, id: string, index: nat)
    ensures var m, i := OnInput(tools, l, FromSdk(Stream(ev))), FromSdk(Stream(ev));
            && (index in L.PerMessage(m, id) <==> index in L.PerMessage(l, id) || BeginsBlock(i, l.currentMessageId, id, index))
            && (index in L.PerMessage(m, id) ==>
                  L.PerMessage(m, id)[index] ==
                  if BeginsBlock(i, l.currentMessageId, id, index) then L.SynthUuid(id, index) else L.PerMessage(l, id)[index])
  {
    hide L.SynthUuid;
  }

  lemma StepRemembers(tools: Tools, l: L.Loop, init: seq<Input>, i: Input)
    requires Remembers(tools, l, init) && ToolState(tools, l, ToolEvents(init))
    ensures Remembers(tools, OnInput(tools, l, i), init + [i])
  {
    hide ToolState, OnInput, BlockBegun, L.PerMessage, L.SynthUuid;
    ScansOneMore(init, i);
    FieldsRemembered(tools, l, i, ToolEvents(init));
    forall id, index
      ensures index in L.PerMessage(OnInput(tools, l, i), id) <==> BlockBegun(init + [i], id, index)
      ensures index in L.PerMessage(OnInput(tools, l, i), id) ==> L.PerMessage(OnInput(tools, l, i), id)[index] == L.SynthUuid(id, index)
    {
      BlocksRemembered(tools, l, init, i, id, index);
    }
  }

  lemma ToolsStep(tools: Tools, l: L.Loop, init: seq<Input>, i: Input)
    requires Remembers(tools, l, init) && ToolState(tools, l, ToolEvents(init)) && ForTools(l, i)
    ensures var m := OnInput(tools, l, i);
            l.emitted <= m.emitted && Adds(l, m, i, m.emitted[|l.emitted|..]) && ToolState(tools, m, ToolEvents(init + [i]))
  {
    assert AwaitsSummary(init) ==> !i.message.UserEnvelope?;
    assert EventsOf(i, AwaitsSummary(init)) == EventsOf(i, false);
    hide OnInput, Adds, Of, EventsOf, ToolState, Remembers, ToolEvents, AwaitsSummary;
    ToolsAdd(tools, l, i, ToolEvents(init));
    ScansOneMore(init, i);
  }

  lemma OtherAdds(tools: Tools, l: L.Loop, i: Input)
    requires !ForTools(l, i)
    ensures var m := OnInput(tools, l, i);
            l.emitted <= m.emitted && Adds(l, m, i, m.emitted[|l.emitted|..]) && Of(ToolKind, m.emitted[|l.emitted|..]) == []
  {
    hide OnInput, Adds, Of;
    if i.FromSdk? && i.message.Stream? { StreamAdds(tools, l, i); }
    else if i.FromSdk? { SdkAdds(tools, l, i); }
    else { PersonAdds(tools, l, i); }
  }

  lemma OtherStep(tools: Tools, l: L.Loop, init: seq<Input>, i: Input)
    requires Remembers(tools, l, init) && ToolState(tools, l, ToolEvents(init)) && !ForTools(l, i)
    ensures var m := OnInput(tools, l, i);
            l.emitted <= m.emitted && Adds(l, m, i, m.emitted[|l.emitted|..]) && ToolState(tools, m, ToolEvents(init + [i]))
  {
    assert EventsOf(i, AwaitsSummary(init)) == [];
    hide OnInput, Adds, Of, EventsOf, ToolState, Remembers, ToolEvents, AwaitsSummary;
    OtherAdds(tools, l, i);
    FieldsRemembered(tools, l, i, ToolEvents(init));
    var m := OnInput(tools, l, i);
    var ds := m.emitted[|l.emitted|..];
    assert m.emitted == l.emitted + ds by { AddsEmits(l, m, i, ds); }
    NoToolsAdded(tools, l, m, ds, ToolEvents(init));
    ScansOneMore(init, i);
    assert ToolEvents(init) + [] == ToolEvents(init);
  }

  lemma AddsEmits(l: L.Loop, m: L.Loop, i: Input, ds: seq<Delta>)
    requires Adds(l, m, i, ds)
    ensures m.emitted == l.emitted + ds
  {}

  lemma StepEmits(tools: Tools, l: L.Loop, init: seq<Input>, i: Input)
    requires Remembers(tools, l, init) && Emitted(tools, l, init)
    ensures Emitted(tools, OnInput(tools, l, i), init + [i])
  {
    hide OnInput, Adds, ToolState, Remembers, Emitted, ToolEvents;
    var m := OnInput(tools, l, i);
    EmittedTools(tools, l, init);
    if ForTools(l, i) { ToolsStep(tools, l, init, i); } else { OtherStep(tools, l, init, i); }
    EmittedMore(tools, l, m, init, i, m.emitted[|l.emitted|..]);
  }

  lemma NoToolsAdded(tools: Tools, l: L.Loop, m: L.Loop, ds: seq<Delta>, evs: seq<ToolEvent>)
    requires ToolState(tools, l, evs) && m.appendedToolUseIds == l.appendedToolUseIds && m.pendingTools == l.pendingTools
    requires m.emitted == l.emitted + ds && Of(ToolKind, ds) == []
    ensures ToolState(tools, m, evs)
  {
    hide ToolState, Of;
    OfConcat(ToolKind, l.emitted, ds);
    ToolStateSame(tools, l, m, evs);
  }

  /**
   Whatever the inputs: the turn events, the user messages, the streamed text, the tool events and the compactions that
   have been emitted are each, in order, those that the history of inputs calls for.
   */
  lemma {:induction false} LoopFollowsHistory(tools: Tools, inputs: seq<Input>)
    ensures Remembers(tools, OnInputs(tools, L.NewLoop(), inputs), inputs)
    ensures Emitted(tools, OnInputs(tools, L.NewLoop(), inputs), inputs)
    decreases |inputs|
  {
    hide Remembers, Emitted, OnInput, ToolState;
    if inputs == [] {
      NothingYet(tools);
    } else {
      var init, i := inputs[..|inputs| - 1], inputs[|inputs| - 1];
      LoopFollowsHistory(tools, init);
      StepFollows(tools, OnInputs(tools, L.NewLoop(), init), init, i);
      assert init + [i] == inputs;
    }
  }

  lemma NothingYet(tools: Tools)
    ensures Remembers(tools, L.NewLoop(), []) && Emitted(tools, L.NewLoop(), [])
  {
    assert forall id :: CallState(tools, L.NewLoop(), [], id);
  }

  lemma StepFollows(tools: Tools, l: L.Loop, init: seq<Input>, i: Input)
    requires Remembers(tools, l, init) && Emitted(tools, l, init)
    ensures Remembers(tools, OnInput(tools, l, i), init + [i]) && Emitted(tools, OnInput(tools, l, i), init + [i])
  {
    hide Remembers, Emitted, OnInput, ToolState;
    EmittedTools(tools, l, init);
    StepRemembers(tools, l, init, i);
    StepEmits(tools, l, init, i);
  }

  lemma EmittedTools(tools: Tools, l: L.Loop, inputs: seq<Input>)
    requires Emitted(tools, l, inputs)
    ensures ToolState(tools, l, ToolEvents(inputs))
  {}
}
