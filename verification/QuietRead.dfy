/** When a transcript may be read in mid-run: exactly while the query loop has no text block that can still grow. */
module QuietRead {
  import opened Options
  import opened Timeline
  import opened Sdk
  import opened Erasure
  import opened Follow
  import opened Equivalence
  import L = LiveStream

  /** No text block of the open message has begun. */
  predicate Quiet(l: L.Loop) {
    L.InMessage(l) ==> L.PerMessage(l, l.currentMessageId.value) == map[]
  }

  /** No later message takes the id of one whose text has been streamed. */
  ghost predicate FreshIds(l: L.Loop, inputs: seq<Input>) {
    forall i :: 0 <= i < |inputs| ==> FreshInput(l, inputs[i])
  }

  predicate FreshInput(l: L.Loop, i: Input) {
    i.FromSdk? && i.message.Stream? && i.message.event.MessageStart? && i.message.event.id.Some? ==>
      L.PerMessage(l, i.message.event.id.value) == map[]
  }

  /** The events emitted after `l`. */
  function Since(l: L.Loop, m: L.Loop): seq<Delta> {
    if |l.emitted| <= |m.emitted| then m.emitted[|l.emitted|..] else []
  }

  // ---- inputs that stream no text ----

  /** From `l` to `m` no text was streamed and no message or block began or ended. */
  ghost predicate NoStream(l: L.Loop, m: L.Loop) {
    && m.textBlockUuids == l.textBlockUuids && m.currentMessageId == l.currentMessageId && l.emitted <= m.emitted
    && forall i :: |l.emitted| <= i < |m.emitted| ==> !m.emitted[i].PatchText?
  }

  lemma {:induction false} ToolUsesStreamNothing(tools: Tools, l: L.Loop, bs: seq<Block>)
    ensures NoStream(l, L.OnToolUses(tools, l, bs))
    decreases |bs|
  {
    if bs != [] { ToolUsesStreamNothing(tools, L.OnToolUse(tools, l, bs[0]), bs[1..]); }
  }

  lemma {:induction false} ToolResultsStreamNothing(tools: Tools, l: L.Loop, bs: seq<Block>)
    ensures NoStream(l, L.OnToolResults(tools, l, bs))
    decreases |bs|
  {
    if bs != [] { ToolResultsStreamNothing(tools, L.OnToolResult(tools, l, bs[0]), bs[1..]); }
  }

  lemma UserStreamsNothing(tools: Tools, l: L.Loop, uuid: Option<string>, content: Content)
    ensures NoStream(l, L.OnUser(tools, l, uuid, content))
  {
    hide L.OnToolResults, L.SummaryText;
    if content.Blocks? { ToolResultsStreamNothing(tools, l, content.blocks); }
  }

  lemma OthersStreamNothing(tools: Tools, l: L.Loop, i: Input)
    requires !(i.FromSdk? && i.message.Stream?)
    ensures NoStream(l, OnInput(tools, l, i))
  {
    hide L.OnToolUses, L.OnUser;
    if i.FromSdk? && i.message.AssistantEnvelope? && i.message.content.Blocks? {
      ToolUsesStreamNothing(tools, l, i.message.content.blocks);
    } else if i.FromSdk? && i.message.UserEnvelope? {
      UserStreamsNothing(tools, l, i.message.uuid, i.message.content);
    }
  }

  // ---- what began since ----

  lemma BegunOneMore(ds: seq<Delta>, d: Delta)
    ensures Begun(ds + [d]) == Begun(ds) + if d.Append? && d.item.AssistantMessage? then {d.item.uuid} else {}
    ensures OwnTexts(ds + [d]) <==> OwnTexts(ds) && (d.PatchText? ==> d.uuid in Begun(ds))
  {
    var all := ds + [d];
    assert all[..|ds|] == ds;
    forall i | 0 <= i < |ds| ensures all[..i] == ds[..i] && all[i] == ds[i] {
    }
    assert all[|ds|] == d;
  }

  lemma {:induction false} BegunMore(ds: seq<Delta>, more: seq<Delta>)
    requires forall i :: 0 <= i < |more| ==> !more[i].PatchText?
    ensures Begun(ds) <= Begun(ds + more)
    ensures OwnTexts(ds) ==> OwnTexts(ds + more)
    decreases |more|
  {
    hide Begun, OwnTexts;
    if more == [] {
      assert ds + more == ds;
    } else {
      var init, d := more[..|more| - 1], more[|more| - 1];
      BegunMore(ds, init);
      BegunOneMore(ds + init, d);
      assert ds + more == (ds + init) + [d];
    }
  }

  /** Every block of a message without text at `l` has been begun by an event since. */
  ghost predicate BlocksSince(l: L.Loop, m: L.Loop) {
    forall id, index :: L.PerMessage(l, id) == map[] && index in L.PerMessage(m, id) ==>
      L.PerMessage(m, id)[index] in Begun(Since(l, m))
  }

  ghost predicate QuietSince(l: L.Loop, m: L.Loop) {
    && l.emitted <= m.emitted && BlocksSince(l, m) && OwnTexts(Since(l, m))
    && (L.InMessage(m) ==> L.PerMessage(l, m.currentMessageId.value) == map[])
  }

  lemma NoStreamStaysQuiet(l: L.Loop, m: L.Loop, k: L.Loop)
    requires QuietSince(l, m) && NoStream(m, k)
    ensures QuietSince(l, k)
  {
    hide Begun, OwnTexts;
    var more := k.emitted[|m.emitted|..];
    assert Since(l, k) == Since(l, m) + more;
    BegunMore(Since(l, m), more);
    forall id, j | L.PerMessage(l, id) == map[] && j in L.PerMessage(k, id)
      ensures L.PerMessage(k, id)[j] in Begun(Since(l, k))
    {
      assert L.PerMessage(k, id) == L.PerMessage(m, id);
    }
  }

  lemma SinceEmit(l: L.Loop, m: L.Loop, k: L.Loop, d: Delta)
    requires l.emitted <= m.emitted && k.emitted == m.emitted + [d]
    ensures l.emitted <= k.emitted && Since(l, k) == Since(l, m) + [d]
  {
  }

  lemma BlockStartPerMessage(m: L.Loop, index: nat, id: string)
    requires L.InMessage(m)
    ensures var cur := m.currentMessageId.value;
            L.PerMessage(L.OnStream(m, TextBlockStart(Some(index))), id) ==
            if id == cur then L.PerMessage(m, id)[index := L.SynthUuid(cur, index)] else L.PerMessage(m, id)
  {
  }

  lemma BlockStartStaysQuiet(l: L.Loop, m: L.Loop, index: nat)
    requires QuietSince(l, m) && L.InMessage(m)
    ensures QuietSince(l, L.OnStream(m, TextBlockStart(Some(index))))
  {
    var k := L.OnStream(m, TextBlockStart(Some(index)));
    var uuid := L.SynthUuid(m.currentMessageId.value, index);
    var d := Append(AssistantMessage(uuid, "", None));
    assert k.emitted == m.emitted + [d] && k.currentMessageId == m.currentMessageId;
    hide Begun, OwnTexts, L.PerMessage, L.OnStream;
    SinceEmit(l, m, k, d);
    BegunOneMore(Since(l, m), d);
    forall id, j | L.PerMessage(l, id) == map[] && j in L.PerMessage(k, id)
      ensures L.PerMessage(k, id)[j] in Begun(Since(l, k))
    {
      BlockStartPerMessage(m, index, id);
      if id != m.currentMessageId.value || j != index { assert j in L.PerMessage(m, id); }
    }
  }

  lemma TextStaysQuiet(l: L.Loop, m: L.Loop, index: Option<nat>, text: string)
    requires QuietSince(l, m)
    ensures QuietSince(l, L.OnStream(m, TextDelta(index, text)))
  {
    hide Begun, OwnTexts;
    var k := L.OnStream(m, TextDelta(index, text));
    if k != m {
      var d := k.emitted[|m.emitted|];
      SinceEmit(l, m, k, d);
      BegunOneMore(Since(l, m), d);
      assert forall id :: L.PerMessage(k, id) == L.PerMessage(m, id);
    }
  }

  lemma StreamStaysQuiet(l: L.Loop, m: L.Loop, ev: StreamEvent)
    requires QuietSince(l, m) && FreshInput(l, FromSdk(Stream(ev)))
    ensures QuietSince(l, L.OnStream(m, ev))
  {
    match ev
    case TextBlockStart(index) => if index.Some? && L.InMessage(m) { BlockStartStaysQuiet(l, m, index.value); }
    case TextDelta(index, text) => TextStaysQuiet(l, m, index, text);
    case _ =>
      var k := L.OnStream(m, ev);
      assert Since(l, k) == Since(l, m) && forall id :: L.PerMessage(k, id) == L.PerMessage(m, id);
  }

  lemma {:induction false} InputsStayQuiet(tools: Tools, l: L.Loop, inputs: seq<Input>)
    requires Quiet(l) && FreshIds(l, inputs)
    ensures QuietSince(l, OnInputs(tools, l, inputs))
    decreases |inputs|
  {
    hide Begun, L.OnStream;
    if inputs == [] {
      assert Since(l, l) == [];
    } else {
      var init, i := inputs[..|inputs| - 1], inputs[|inputs| - 1];
      InputsStayQuiet(tools, l, init);
      var m := OnInputs(tools, l, init);
      if i.FromSdk? && i.message.Stream? {
        StreamStaysQuiet(l, m, i.message.event);
      } else {
        OthersStreamNothing(tools, m, i);
        NoStreamStaysQuiet(l, m, OnInput(tools, m, i));
      }
    }
  }

  // ---- the blocks of a loop are in its transcript ----

  lemma LoopBlocksBegun(tools: Tools, inputs: seq<Input>)
    ensures var l := OnInputs(tools, L.NewLoop(), inputs);
            forall id, index :: index in L.PerMessage(l, id) ==> L.PerMessage(l, id)[index] in Begun(l.emitted)
  {
    hide OnInputs, Begun, OwnTexts;
    var l := OnInputs(tools, L.NewLoop(), inputs);
    InputsStayQuiet(tools, L.NewLoop(), inputs);
    assert Since(L.NewLoop(), l) == l.emitted;
  }

  lemma BegunIsShown(base: seq<Item>, ds: seq<Delta>, uuid: string)
    requires uuid in Begun(ds)
    ensures LastHit(FoldAll(base, ds), TextTarget(uuid)) >= 0
  {
    hide LastHit, FoldAll, OldPart, Begun;
    FoldSplit(base, ds);
    BegunAreHit(ds, uuid);
    LastHitConcat(OldPart(base, ds), FoldAll([], ds), TextTarget(uuid));
  }

  /** One more chunk of a block that has begun reopens it. */
  lemma MoreTextReopens(tools: Tools, before: seq<Input>, base: seq<Item>) returns (inputs: seq<Input>)
    requires !Quiet(OnInputs(tools, L.NewLoop(), before))
    ensures var l := OnInputs(tools, L.NewLoop(), before);
            FreshIds(l, inputs) && Reopens(FoldAll(base, l.emitted), Since(l, OnInputs(tools, l, inputs)))
  {
    hide LastHit, FoldAll;
    var l := OnInputs(tools, L.NewLoop(), before);
    var id := l.currentMessageId.value;
    var index :| index in L.PerMessage(l, id);
    inputs := [FromSdk(Stream(TextDelta(Some(index), "x")))];
    ReopenedBy(tools, l, base, index, before);
  }

  lemma ReopenedBy(tools: Tools, l: L.Loop, base: seq<Item>, index: nat, before: seq<Input>)
    requires l == OnInputs(tools, L.NewLoop(), before) && L.InMessage(l) && index in L.PerMessage(l, l.currentMessageId.value)
    ensures Reopens(FoldAll(base, l.emitted), Since(l, OnInputs(tools, l, [FromSdk(Stream(TextDelta(Some(index), "x")))])))
  {
    hide LastHit, FoldAll, Begun;
    var uuid := L.PerMessage(l, l.currentMessageId.value)[index];
    LoopBlocksBegun(tools, before);
    BegunIsShown(base, l.emitted, uuid);
    OneInput(tools, l, FromSdk(Stream(TextDelta(Some(index), "x"))));
    var ds := Since(l, OnInputs(tools, l, [FromSdk(Stream(TextDelta(Some(index), "x")))]));
    assert ds == [PatchText(uuid, "x")];
    NothingHit(ds, TextTarget(uuid));
    assert ReopensAt(FoldAll(base, l.emitted), ds, 0);
  }

  lemma NothingHit(ds: seq<Delta>, t: Target)
    ensures LastHit(FoldAll([], ds[..0]), t) < 0
  {
  }

  /**
   Whatever the query loop has done, and whatever comes next under fresh message ids: no message of the transcript of
   this moment will get more text exactly when no text block of the open message has begun.
   */
  lemma NeverReopensIff(tools: Tools, base: seq<Item>, before: seq<Input>)
    ensures var l := OnInputs(tools, L.NewLoop(), before);
            Quiet(l) <==>
            forall inputs :: FreshIds(l, inputs) ==> !Reopens(FoldAll(base, l.emitted), Since(l, OnInputs(tools, l, inputs)))
  {
    hide OnInputs, FoldAll, Reopens, FreshIds;
    var l := OnInputs(tools, L.NewLoop(), before);
    if Quiet(l) {
      forall inputs | FreshIds(l, inputs) ensures !Reopens(FoldAll(base, l.emitted), Since(l, OnInputs(tools, l, inputs))) {
        InputsStayQuiet(tools, l, inputs);
        OwnTextsNeverReopen(FoldAll(base, l.emitted), Since(l, OnInputs(tools, l, inputs)));
      }
    } else {
      var inputs := MoreTextReopens(tools, before, base);
    }
  }

  // ---- reads in a quiet moment ----

  lemma {:induction false} OwnTextsConcat(a: seq<Delta>, b: seq<Delta>)
    requires OwnTexts(a) && OwnTexts(b)
    ensures OwnTexts(a + b) && Begun(b) <= Begun(a + b)
    decreases |b|
  {
    if b == [] {
      assert a + b == a;
    } else {
      hide Begun, OwnTexts;
      var init, d := b[..|b| - 1], b[|b| - 1];
      assert b == init + [d] && a + b == (a + init) + [d];
      BegunOneMore(init, d);
      OwnTextsConcat(a, init);
      BegunOneMore(a + init, d);
    }
  }

  /** What a run of the query loop emits from its start gives text to its own messages only. */
  lemma LoopOwnsItsTexts(tools: Tools, inputs: seq<Input>)
    ensures OwnTexts(OnInputs(tools, L.NewLoop(), inputs).emitted)
  {
    hide OnInputs, OwnTexts;
    var l := OnInputs(tools, L.NewLoop(), inputs);
    InputsStayQuiet(tools, L.NewLoop(), inputs);
    assert Since(L.NewLoop(), l) == l.emitted;
  }

  /**
   A read taken in a quiet moment that reads like the transcript goes on reading like it, through the rest of the loop's
   run and through the next one.
   */
  lemma QuietReadStaysAlike(tools: Tools, base: seq<Item>, before: seq<Input>, stored: seq<Item>, inputs: seq<Input>, later: seq<Input>)
    requires Quiet(OnInputs(tools, L.NewLoop(), before)) && FreshIds(OnInputs(tools, L.NewLoop(), before), inputs)
    requires Erase(stored) == Erase(FoldAll(base, OnInputs(tools, L.NewLoop(), before).emitted))
    requires UniqueTools(stored) && UniqueTools(FoldAll(base, OnInputs(tools, L.NewLoop(), before).emitted))
    requires Untouched(stored, Rest(tools, OnInputs(tools, L.NewLoop(), before), inputs, later))
    ensures var l := OnInputs(tools, L.NewLoop(), before);
            var ds := Rest(tools, l, inputs, later);
            Erase(FoldAll(stored, ds)) == Erase(FoldAll(FoldAll(base, l.emitted), ds))
  {
    hide OnInputs, FoldAll, Erase, UniqueTools, Untouched, Reopens, Quiet, FreshIds, OwnTexts;
    var l := OnInputs(tools, L.NewLoop(), before);
    InputsStayQuiet(tools, l, inputs);
    LoopOwnsItsTexts(tools, later);
    OwnTextsConcat(Since(l, OnInputs(tools, l, inputs)), OnInputs(tools, L.NewLoop(), later).emitted);
    OwnTextsNeverReopen(FoldAll(base, l.emitted), Rest(tools, l, inputs, later));
    ReadsAlikeIff(stored, FoldAll(base, l.emitted), Rest(tools, l, inputs, later));
  }

  /** The events after `l`: the rest of its run, and the next run. */
  function Rest(tools: Tools, l: L.Loop, inputs: seq<Input>, later: seq<Input>): seq<Delta> {
    Since(l, OnInputs(tools, l, inputs)) + OnInputs(tools, L.NewLoop(), later).emitted
  }
}
