/** Consequences of the loop following its history: turns are told, prompts start them, calls end as they should. */
module LiveFacts {
  import opened Options
  import opened Timeline
  import opened Sdk
  import opened Text
  import opened Equivalence
  import opened ToolCalls
  import opened LiveHistory
  import L = LiveStream

  // ---- turns ----

  function Failures(ds: seq<Delta>): seq<string> {
    if ds == [] then []
    else Failures(ds[..|ds| - 1]) + (if ds[|ds| - 1].TurnFailed? then [ds[|ds| - 1].reason] else [])
  }

  /** Reasons of the failed results that no interrupt since the last prompt or result explains. */
  function FailedReasons(inputs: seq<Input>): seq<string> {
    if inputs == [] then []
    else
      FailedReasons(inputs[..|inputs| - 1]) +
      match inputs[|inputs| - 1]
      case FromSdk(ResultEnvelope(false, reason)) => if Canceled(inputs[..|inputs| - 1]) then [] else [reason]
      case _ => []
  }

  predicate Succeeded(i: Input) {
    i.FromSdk? && i.message.ResultEnvelope? && i.message.success
  }

  function Successes(inputs: seq<Input>): nat {
    if inputs == [] then 0 else Successes(inputs[..|inputs| - 1]) + if Succeeded(inputs[|inputs| - 1]) then 1 else 0
  }

  function Prompts(inputs: seq<Input>): seq<Delta> {
    if inputs == [] then []
    else
      Prompts(inputs[..|inputs| - 1]) +
      match inputs[|inputs| - 1]
      case Typed(uuid, text, images) => [Append(UserMessage(uuid, text, images))]
      case _ => []
  }

  function Interrupts(inputs: seq<Input>): nat {
    if inputs == [] then 0 else Interrupts(inputs[..|inputs| - 1]) + if inputs[|inputs| - 1].Interrupt? then 1 else 0
  }

  function CountOf(ds: seq<Delta>, d: Delta): nat {
    if ds == [] then 0 else CountOf(ds[..|ds| - 1], d) + if ds[|ds| - 1] == d then 1 else 0
  }

  lemma CountOneMore(ds: seq<Delta>, d: Delta, e: Delta)
    ensures CountOf(ds + [e], d) == CountOf(ds, d) + if e == d then 1 else 0
    ensures Failures(ds + [e]) == Failures(ds) + if e.TurnFailed? then [e.reason] else []
  {
    assert (ds + [e])[..|ds|] == ds;
  }

  lemma {:induction false} TurnsCount(ds: seq<Delta>, d: Delta)
    ensures KindOf(d) == TurnKind ==> CountOf(Of(TurnKind, ds), d) == CountOf(ds, d)
    ensures Failures(Of(TurnKind, ds)) == Failures(ds)
  {
    if ds != [] {
      var init, e := ds[..|ds| - 1], ds[|ds| - 1];
      TurnsCount(init, d);
      if KindOf(e).TurnKind? { CountOneMore(Of(TurnKind, init), d, e); }
      else { assert Of(TurnKind, init) + [] == Of(TurnKind, init) && Failures(init) + [] == Failures(init); }
    }
  }

  lemma TurnAtCounts(xs: seq<Delta>, i: Input, canceled: bool)
    ensures var ys := xs + TurnAt(i, canceled);
            && CountOf(ys, TurnCompleted) == CountOf(xs, TurnCompleted) + (if Succeeded(i) then 1 else 0)
            && CountOf(ys, TurnStarted) == CountOf(xs, TurnStarted) + (if i.Typed? then 1 else 0)
            && CountOf(ys, TurnCanceled) == CountOf(xs, TurnCanceled) + (if i.Interrupt? then 1 else 0)
            && Failures(ys) == Failures(xs) +
                 match i
                 case FromSdk(ResultEnvelope(success, reason)) => if success || canceled then [] else [reason]
                 case _ => []
  {
    hide CountOf, Failures;
    var ds := TurnAt(i, canceled);
    if ds == [] {
      assert xs + [] == xs && Failures(xs) + [] == Failures(xs);
    } else {
      assert ds == [ds[0]];
      CountOneMore(xs, TurnCompleted, ds[0]);
      CountOneMore(xs, TurnStarted, ds[0]);
      CountOneMore(xs, TurnCanceled, ds[0]);
      assert Failures(xs) + [] == Failures(xs);
    }
  }

  lemma NoTurns()
    ensures CountOf([], TurnCompleted) == CountOf([], TurnStarted) == CountOf([], TurnCanceled) == 0 && Failures([]) == []
  {}

  lemma {:induction false} TurnsOfCount(inputs: seq<Input>)
    ensures CountOf(TurnsOf(inputs), TurnCompleted) == Successes(inputs)
    ensures CountOf(TurnsOf(inputs), TurnStarted) == |Prompts(inputs)|
    ensures CountOf(TurnsOf(inputs), TurnCanceled) == Interrupts(inputs)
    ensures Failures(TurnsOf(inputs)) == FailedReasons(inputs)
  {
    hide Canceled, CountOf, Failures, TurnAt;
    if inputs == [] {
      NoTurns();
    } else {
      var init, i := inputs[..|inputs| - 1], inputs[|inputs| - 1];
      TurnsOfCount(init);
      TurnAtCounts(TurnsOf(init), i, Canceled(init));
    }
  }

  /** Completed turns are the success results; failed ones, in order, the failed results without an interrupt before them;
    * started ones the prompts, canceled ones the interrupts. */
  lemma TurnsAreTold(tools: Tools, inputs: seq<Input>)
    ensures var ds := OnInputs(tools, L.NewLoop(), inputs).emitted;
            && CountOf(ds, TurnCompleted) == Successes(inputs)
            && Failures(ds) == FailedReasons(inputs)
            && CountOf(ds, TurnStarted) == |Prompts(inputs)|
            && CountOf(ds, TurnCanceled) == Interrupts(inputs)
  {
    hide OnInputs, Remembers;
    var ds := OnInputs(tools, L.NewLoop(), inputs).emitted;
    LoopFollowsHistory(tools, inputs);
    TurnsOfCount(inputs);
    TurnsCount(ds, TurnCompleted);
    TurnsCount(ds, TurnStarted);
    TurnsCount(ds, TurnCanceled);
  }

  /** The events directly before the turn starts. */
  function BeforeStarts(ds: seq<Delta>): seq<Delta> {
    if |ds| < 2 then []
    else BeforeStarts(ds[..|ds| - 1]) + (if ds[|ds| - 1].TurnStarted? then [ds[|ds| - 2]] else [])
  }

  lemma {:induction false} NoStartMore(a: seq<Delta>, b: seq<Delta>)
    requires a <= b && forall i :: |a| <= i < |b| ==> !b[i].TurnStarted?
    ensures BeforeStarts(b) == BeforeStarts(a)
    decreases |b|
  {
    if b != a {
      assert a <= b[..|b| - 1];
      NoStartMore(a, b[..|b| - 1]);
    }
  }

  lemma StartMore(ds: seq<Delta>, d: Delta)
    requires !d.TurnStarted?
    ensures BeforeStarts(ds + [d] + [TurnStarted]) == BeforeStarts(ds) + [d]
  {
    NoStartMore(ds, ds + [d]);
    var all := ds + [d] + [TurnStarted];
    assert all[..|all| - 1] == ds + [d] && all[|all| - 2] == d;
  }

  lemma {:induction false} OfKeeps(k: Kind, ds: seq<Delta>, d: Delta)
    requires d in ds && KindOf(d) == k
    ensures d in Of(k, ds)
  {
    var init, last := ds[..|ds| - 1], ds[|ds| - 1];
    if d in init { OfKeeps(k, init, d); } else { assert ds == init + [last] && d == last; }
  }

  lemma NoTurnStart(i: Input, canceled: bool)
    requires !i.Typed?
    ensures TurnStarted !in TurnAt(i, canceled)
  {}

  lemma NoStartIn(l: L.Loop, m: L.Loop, i: Input, ds: seq<Delta>)
    requires !i.Typed? && Adds(l, m, i, ds)
    ensures m.emitted == l.emitted + ds && TurnStarted !in ds
  {
    hide TurnAt, UserAt, CompactionAt, TextFrom, Of;
    NoTurnStart(i, l.interrupted);
    if TurnStarted in ds { OfKeeps(TurnKind, ds, TurnStarted); }
  }

  lemma NoStartAdded(tools: Tools, l: L.Loop, i: Input, evs: seq<ToolEvent>)
    requires !i.Typed? && ToolState(tools, l, evs)
    ensures var m := OnInput(tools, l, i);
            l.emitted <= m.emitted && forall j :: |l.emitted| <= j < |m.emitted| ==> !m.emitted[j].TurnStarted?
  {
    hide OnInput, ToolState, Adds, Of;
    if ForTools(l, i) { ToolsAdd(tools, l, i, evs); } else { OtherAdds(tools, l, i); }
    var m := OnInput(tools, l, i);
    var ds := m.emitted[|l.emitted|..];
    NoStartIn(l, m, i, ds);
    assert forall j :: |l.emitted| <= j < |m.emitted| ==> m.emitted[j] == ds[j - |l.emitted|];
  }

  /** Each prompt starts its turn directly after its own append. */
  lemma {:induction false} PromptsStartTurns(tools: Tools, inputs: seq<Input>)
    ensures BeforeStarts(OnInputs(tools, L.NewLoop(), inputs).emitted) == Prompts(inputs)
    decreases |inputs|
  {
    hide Remembers, Emitted, ToolState, L.OnMessage;
    if inputs != [] {
      var init, i := inputs[..|inputs| - 1], inputs[|inputs| - 1];
      var l := OnInputs(tools, L.NewLoop(), init);
      PromptsStartTurns(tools, init);
      if i.Typed? {
        StartMore(l.emitted, Append(UserMessage(i.uuid, i.text, i.images)));
      } else {
        LoopFollowsHistory(tools, init);
        EmittedTools(tools, l, init);
        NoStartAdded(tools, l, i, ToolEvents(init));
        NoStartMore(l.emitted, OnInput(tools, l, i).emitted);
      }
    }
  }

  // ---- tool calls in the transcript ----

  /** The call `id` after the events. */
  function CallAfter(ds: seq<Delta>, id: string): (r: Option<Item>)
    ensures r.Some? ==> r.value.ToolCall?
  {
    if ds == [] then None
    else
      var was, d := CallAfter(ds[..|ds| - 1], id), ds[|ds| - 1];
      match d
      case Append(it) => if it.ToolCall? && it.callId == id then Some(it) else was
      case PatchToolCall(c, st, err, det) =>
        if c == id && was.Some? then Some(was.value.(status := st, error := err, detail := det)) else was
      case _ => was
  }

  lemma {:induction false} CallInFold(ds: seq<Delta>, id: string)
    ensures CallIn(FoldAll([], ds), id) == CallAfter(ds, id)
  {
    if ds != [] {
      hide LastHit;
      var init, d := ds[..|ds| - 1], ds[|ds| - 1];
      CallInFold(init, id);
      CallFolded(FoldAll([], init), d, id);
    } else {
      NoCall(id);
    }
  }

  lemma NoCall(id: string)
    ensures CallIn([], id) == None
  {}

  lemma CallFolded(xs: seq<Item>, d: Delta, id: string)
    ensures CallIn(FoldDelta(xs, d), id) ==
            match d
            case Append(it) => if it.ToolCall? && it.callId == id then Some(it) else CallIn(xs, id)
            case PatchToolCall(c, st, err, det) =>
              if c == id && CallIn(xs, id).Some? then Some(CallIn(xs, id).value.(status := st, error := err, detail := det)) else CallIn(xs, id)
            case _ => CallIn(xs, id)
  {
    hide LastHit;
    match d
    case Append(it) => CallAppended(xs, it, id);
    case PatchToolCall(c, st, err, det) =>
      var i := LastHit(xs, ToolTarget(c));
      if i >= 0 { CallUpdated(xs, i, PatchItem(xs[i], d), id); }
    case PatchText(u, more) =>
      var i := LastHit(xs, TextTarget(u));
      if i >= 0 { TextPatched(xs, i, PatchItem(xs[i], d), id); }
    case _ =>
  }

  lemma TextPatched(xs: seq<Item>, i: nat, it: Item, id: string)
    requires i < |xs| && !it.ToolCall? && !xs[i].ToolCall?
    ensures CallIn(xs[i := it], id) == CallIn(xs, id)
  {
    LastHitIs(xs[i := it], ToolTarget(id), LastHit(xs, ToolTarget(id)));
  }

  lemma CallAfterOneMore(ds: seq<Delta>, d: Delta, id: string)
    ensures var was := CallAfter(ds, id);
            CallAfter(ds + [d], id) ==
            match d
            case Append(it) => if it.ToolCall? && it.callId == id then Some(it) else was
            case PatchToolCall(c, st, err, det) =>
              if c == id && was.Some? then Some(was.value.(status := st, error := err, detail := det)) else was
            case _ => was
  {
    assert (ds + [d])[..|ds|] == ds;
  }

  lemma {:induction false} CallFromTools(ds: seq<Delta>, id: string)
    ensures CallAfter(Of(ToolKind, ds), id) == CallAfter(ds, id)
  {
    if ds != [] {
      var init, d := ds[..|ds| - 1], ds[|ds| - 1];
      CallFromTools(init, id);
      if KindOf(d).ToolKind? { CallAfterOneMore(Of(ToolKind, init), d, id); }
      else { assert Of(ToolKind, init) + [] == Of(ToolKind, init); }
    }
  }

  lemma {:induction false} CallFromEvents(tools: Tools, evs: seq<ToolEvent>, id: string)
    ensures CallAfter(ToolDeltas(tools, evs), id) == LiveCall(tools, evs, id)
    decreases |evs|
  {
    if evs != [] {
      hide CallAfter, LiveCall, ToolDeltas;
      var init, e := evs[..|evs| - 1], evs[|evs| - 1];
      CallFromEvents(tools, init, id);
      if e.id == id { OwnCall(tools, init, e); } else { OtherCall(tools, init, e, id); }
      CallOneMore(tools, init, e, id);
      assert init + [e] == evs;
    }
  }

  lemma OwnCall(tools: Tools, init: seq<ToolEvent>, e: ToolEvent)
    requires CallAfter(ToolDeltas(tools, init), e.id) == LiveCall(tools, init, e.id)
    ensures CallAfter(ToolDeltas(tools, init + [e]), e.id) == LiveCall(tools, init + [e], e.id)
  {
    hide CallAfter, LiveCall, ToolDeltas, TextOf;
    ToolDeltasOneMore(tools, init, e);
    CallOneMore(tools, init, e, e.id);
    assert ToolDeltas(tools, init) + [] == ToolDeltas(tools, init);
    var was := LiveCall(tools, init, e.id);
    if e.Use? {
      CallAfterOneMore(ToolDeltas(tools, init), Append(Opened(tools, e, Running)), e.id);
    } else if was.Some? {
      var it := Settled(tools, was.value, e);
      CallAfterOneMore(ToolDeltas(tools, init), PatchToolCall(it.callId, it.status, it.error, it.detail), e.id);
    }
  }

  lemma OtherCall(tools: Tools, init: seq<ToolEvent>, e: ToolEvent, id: string)
    requires e.id != id
    ensures CallAfter(ToolDeltas(tools, init + [e]), id) == CallAfter(ToolDeltas(tools, init), id)
  {
    hide CallAfter, LiveCall, ToolDeltas, TextOf;
    ToolDeltasOneMore(tools, init, e);
    assert ToolDeltas(tools, init) + [] == ToolDeltas(tools, init);
    var was := LiveCall(tools, init, e.id);
    if e.Use? { CallAfterOneMore(ToolDeltas(tools, init), Append(Opened(tools, e, Running)), id); }
    else if was.Some? {
      var it := Settled(tools, was.value, e);
      CallAfterOneMore(ToolDeltas(tools, init), PatchToolCall(it.callId, it.status, it.error, it.detail), id);
    }
  }

  /** The call `id` of a streamed transcript: running from its first use, settled by the first result after that. */
  lemma CallsStream(tools: Tools, inputs: seq<Input>, id: string)
    ensures CallIn(FoldAll([], OnInputs(tools, L.NewLoop(), inputs).emitted), id) == LiveCall(tools, ToolEvents(inputs), id)
  {
    hide OnInputs, FoldAll, CallIn, LiveCall, ToolEvents, Remembers;
    var ds := OnInputs(tools, L.NewLoop(), inputs).emitted;
    LoopFollowsHistory(tools, inputs);
    CallInFold(ds, id);
    CallFromTools(ds, id);
    CallFromEvents(tools, ToolEvents(inputs), id);
  }

  /** The item of a running call once a result that says `t` has come: its error, if it failed, and its detail hold `t`. */
  lemma ResultShowsText(tools: Tools, before: seq<Input>, uuid: Option<string>, id: string, content: Content, t: string, isError: bool)
    requires Says(content, t) && !AwaitsSummary(before)
    requires var was := CallIn(FoldAll([], OnInputs(tools, L.NewLoop(), before).emitted), id);
             was.Some? && was.value.status.Running?
    ensures var was := CallIn(FoldAll([], OnInputs(tools, L.NewLoop(), before).emitted), id).value;
            var inputs := before + [FromSdk(UserEnvelope(uuid, Blocks([ToolResultBlock(id, content, isError)])))];
            CallIn(FoldAll([], OnInputs(tools, L.NewLoop(), inputs).emitted), id) ==
            Some(ToolCall(id, was.name, was.summary, if isError then Failed else Completed,
                          if isError then Some(t) else None, tools.attach(was.detail, t)))
  {
    hide OnInputs, FoldAll, CallIn, LiveCall, ToolEvents, AwaitsSummary, TextOf, ResultsIn;
    var i := FromSdk(UserEnvelope(uuid, Blocks([ToolResultBlock(id, content, isError)])));
    CallsStream(tools, before, id);
    CallsStream(tools, before + [i], id);
    ScansOneMore(before, i);
    OneResult(id, content, isError);
    CallOneMore(tools, ToolEvents(before), Result(id, content, isError), id);
    SaidText(content, t);
  }

  // ---- compactions ----

  /** A summary is a string, or paragraphs. */
  lemma SummaryMeans(t: string, u: string)
    ensures Summary(Plain(t)) == t && Summary(Blocks([TextBlock(t)])) == t && Summary(NoContent) == ""
    ensures Summary(Blocks([TextBlock(t), TextBlock(u)])) == t + "\n\n" + u
  {
    var two := [TextBlock(t), TextBlock(u)];
    assert two[1..] == [TextBlock(u)] && [TextBlock(u)][1..] == [] && [TextBlock(t)][1..] == [];
    assert TextsOf([TextBlock(u)]) == [u];
    assert TextsOf(two) == [t] + [u] == [t, u] && [t, u][1..] == [u];
    assert Join([u], "\n\n") == u && Join([t, u], "\n\n") == t + "\n\n" + Join([u], "\n\n");
  }

  /** After a compaction the next user envelope is shown once, as its summary, and the one after that is handled as any other. */
  lemma SummaryOnce(tools: Tools, before: seq<Input>, uuid: string, content: Content, other: Option<string>, bs: seq<Block>)
    ensures var compacted := before + [FromSdk(CompactBoundary(true))];
            var summed := compacted + [FromSdk(UserEnvelope(Some(uuid), content))];
            var after := summed + [FromSdk(UserEnvelope(other, Blocks(bs)))];
            var ds, es := OnInputs(tools, L.NewLoop(), before).emitted, OnInputs(tools, L.NewLoop(), after).emitted;
            && Of(UserKind, es) == Of(UserKind, ds) +
                 (if Summary(content) == "" then [] else [Append(UserMessage(uuid, Summary(content), []))])
            && Of(CompactKind, es) == Of(CompactKind, ds) + [CompactApplied]
            && ToolEvents(after) == ToolEvents(before) + ResultsIn(bs)
  {
    hide OnInputs, Of, ToolEvents, UsersOf, CompactionsOf, AwaitsSummary, Canceled, OpenMessage, TurnsOf, TextsStreamed, Remembers, Summary,
      ToolState, ResultsIn;
    var i, j, k := FromSdk(CompactBoundary(true)), FromSdk(UserEnvelope(Some(uuid), content)), FromSdk(UserEnvelope(other, Blocks(bs)));
    var compacted := before + [i];
    var summed := compacted + [j];
    ScansOneMore(before, i);
    ScansOneMore(compacted, j);
    ScansOneMore(summed, k);
    LoopFollowsHistory(tools, before);
    LoopFollowsHistory(tools, summed + [k]);
  }
}
