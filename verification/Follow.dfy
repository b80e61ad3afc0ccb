/** Two copies of a transcript that read alike, and the events after both: when they go on reading alike. */
module Follow {
  import opened Options
  import opened Timeline
  import opened Erasure

  // ---- Old items and new ones ----

  /** `d` changes an item that was there before `ds`. */
  predicate TouchesOld(ds: seq<Delta>, d: Delta) {
    TargetOf(d).Some? && LastHit(FoldAll([], ds), TargetOf(d).value) < 0
  }

  /** What the events make of the items that were there before them. */
  function OldPart(xs: seq<Item>, ds: seq<Delta>): seq<Item> {
    if ds == [] then xs
    else
      var init, d := ds[..|ds| - 1], ds[|ds| - 1];
      if TouchesOld(init, d) then FoldDelta(OldPart(xs, init), d) else OldPart(xs, init)
  }

  lemma LastHitConcat(a: seq<Item>, b: seq<Item>, t: Target)
    ensures LastHit(a + b, t) == if LastHit(b, t) >= 0 then |a| + LastHit(b, t) else LastHit(a, t)
  {
    var k := if LastHit(b, t) >= 0 then |a| + LastHit(b, t) else LastHit(a, t);
    forall j | k < j < |a + b| ensures !Hits((a + b)[j], t) {
    }
    LastHitIs(a + b, t, k);
  }

  lemma PatchIn(xs: seq<Item>, d: Delta)
    requires !d.Append?
    ensures FoldDelta(xs, d) ==
            if TargetOf(d).None? || LastHit(xs, TargetOf(d).value) < 0 then xs
            else xs[LastHit(xs, TargetOf(d).value) := PatchItem(xs[LastHit(xs, TargetOf(d).value)], d)]
  {
  }

  lemma UpdateLeft(a: seq<Item>, b: seq<Item>, i: nat, it: Item)
    requires i < |a|
    ensures (a + b)[i := it] == a[i := it] + b
  {
  }

  lemma UpdateRight(a: seq<Item>, b: seq<Item>, i: nat, it: Item)
    requires i < |b|
    ensures (a + b)[|a| + i := it] == a + b[i := it]
  {
  }

  lemma FoldConcat(a: seq<Item>, b: seq<Item>, d: Delta)
    ensures FoldDelta(a + b, d) ==
            if TargetOf(d).Some? && LastHit(b, TargetOf(d).value) < 0 then FoldDelta(a, d) + b else a + FoldDelta(b, d)
  {
    if d.Append? {
      assert (a + b) + [d.item] == a + (b + [d.item]);
    } else {
      PatchConcat(a, b, d);
    }
  }

  lemma PatchConcat(a: seq<Item>, b: seq<Item>, d: Delta)
    requires !d.Append?
    ensures FoldDelta(a + b, d) ==
            if TargetOf(d).Some? && LastHit(b, TargetOf(d).value) < 0 then FoldDelta(a, d) + b else a + FoldDelta(b, d)
  {
    hide FoldDelta, LastHit, PatchItem;
    if TargetOf(d).None? {
      PatchIn(b, d);
      PatchIn(a + b, d);
    } else {
      var t := TargetOf(d).value;
      LastHitConcat(a, b, t);
      PatchIn(a + b, d);
      if LastHit(b, t) >= 0 {
        PatchIn(b, d);
        UpdateRight(a, b, LastHit(b, t), PatchItem(b[LastHit(b, t)], d));
      } else {
        PatchIn(a, d);
        if LastHit(a, t) >= 0 { UpdateLeft(a, b, LastHit(a, t), PatchItem(a[LastHit(a, t)], d)); }
      }
    }
  }

  /** Old items and new ones never mix. */
  lemma {:induction false} FoldSplit(xs: seq<Item>, ds: seq<Delta>)
    ensures FoldAll(xs, ds) == OldPart(xs, ds) + FoldAll([], ds)
  {
    if ds == [] {
      assert xs + [] == xs;
    } else {
      var init, d := ds[..|ds| - 1], ds[|ds| - 1];
      FoldSplit(xs, init);
      hide FoldDelta, LastHit;
      FoldConcat(OldPart(xs, init), FoldAll([], init), d);
      if TouchesOld(init, d) { MissesAreIdle(FoldAll([], init), d); }
    }
  }

  lemma MissesAreIdle(xs: seq<Item>, d: Delta)
    requires TargetOf(d).Some? && LastHit(xs, TargetOf(d).value) < 0
    ensures FoldDelta(xs, d) == xs
  {
  }

  lemma PatchKeepsHits(xs: seq<Item>, d: Delta, t: Target)
    requires !d.Append?
    ensures |FoldDelta(xs, d)| == |xs| && LastHit(FoldDelta(xs, d), t) == LastHit(xs, t)
    ensures UniqueTools(xs) ==> UniqueTools(FoldDelta(xs, d))
  {
    var ys := FoldDelta(xs, d);
    assert forall i :: 0 <= i < |xs| ==> (xs[i].ToolCall? <==> ys[i].ToolCall?) && (xs[i].ToolCall? ==> ys[i].callId == xs[i].callId);
    forall i | 0 <= i < |xs| ensures Hits(ys[i], t) == Hits(xs[i], t) {
    }
    LastHitIs(ys, t, LastHit(xs, t));
  }

  lemma {:induction false} OldPartKeepsHits(xs: seq<Item>, ds: seq<Delta>, t: Target)
    ensures LastHit(OldPart(xs, ds), t) == LastHit(xs, t)
    ensures UniqueTools(xs) ==> UniqueTools(OldPart(xs, ds))
  {
    hide LastHit, FoldDelta, UniqueTools;
    if ds != [] {
      var init, d := ds[..|ds| - 1], ds[|ds| - 1];
      OldPartKeepsHits(xs, init, t);
      if TouchesOld(init, d) { PatchKeepsHits(OldPart(xs, init), d, t); }
    }
  }

  // ---- Reopened texts ----

  /** Event `i` is a non-empty text for a message that `xs` already holds. */
  predicate ReopensAt(xs: seq<Item>, ds: seq<Delta>, i: nat)
    requires i < |ds|
  {
    && ds[i].PatchText? && ds[i].deltaText != ""
    && LastHit(xs, TextTarget(ds[i].uuid)) >= 0 && LastHit(FoldAll([], ds[..i]), TextTarget(ds[i].uuid)) < 0
  }

  /** Some event gives more text to a message that `xs` already holds: its block was open when `xs` was read. */
  ghost predicate Reopens(xs: seq<Item>, ds: seq<Delta>) {
    exists i :: 0 <= i < |ds| && ReopensAt(xs, ds, i)
  }

  lemma ReopensOneMore(xs: seq<Item>, ds: seq<Delta>)
    requires ds != []
    ensures Reopens(xs, ds) <==> Reopens(xs, ds[..|ds| - 1]) || ReopensAt(xs, ds, |ds| - 1)
  {
    var init := ds[..|ds| - 1];
    forall i | 0 <= i < |init| ensures ReopensAt(xs, init, i) <==> ReopensAt(xs, ds, i) {
      assert init[..i] == ds[..i];
    }
    if Reopens(xs, ds) && !ReopensAt(xs, ds, |ds| - 1) {
      var i :| 0 <= i < |ds| && ReopensAt(xs, ds, i);
      assert ReopensAt(xs, init, i);
    }
  }

  /** No text event is addressed to a message of `xs`: stored messages are named by their envelopes, streamed ones by
    * message and block. */
  ghost predicate Untouched(xs: seq<Item>, ds: seq<Delta>) {
    forall i :: 0 <= i < |ds| && ds[i].PatchText? ==> LastHit(xs, TextTarget(ds[i].uuid)) < 0
  }

  // ---- How much text there is ----

  function TextSize(xs: seq<Item>): nat {
    if xs == [] then 0 else TextSize(xs[..|xs| - 1]) + (if xs[|xs| - 1].AssistantMessage? then |xs[|xs| - 1].text| else 0)
  }

  lemma TextSizeOneMore(xs: seq<Item>, it: Item)
    ensures TextSize(xs + [it]) == TextSize(xs) + if it.AssistantMessage? then |it.text| else 0
  {
    assert (xs + [it])[..|xs|] == xs;
  }

  lemma {:induction false} TextSizeConcat(a: seq<Item>, b: seq<Item>)
    ensures TextSize(a + b) == TextSize(a) + TextSize(b)
  {
    if b == [] {
      assert a + b == a;
    } else {
      var init, last := b[..|b| - 1], b[|b| - 1];
      TextSizeConcat(a, init);
      TextSizeOneMore(a + init, last);
      assert a + b == (a + init) + [last];
    }
  }

  lemma {:induction false} EraseKeepsText(xs: seq<Item>)
    ensures TextSize(Erase(xs)) == TextSize(xs)
  {
    if xs != [] {
      var init, last := xs[..|xs| - 1], xs[|xs| - 1];
      EraseKeepsText(init);
      if EraseItem(last) == [] {
        assert Erase(init) + [] == Erase(init);
      } else {
        TextSizeOneMore(Erase(init), EraseItem(last)[0]);
      }
    }
  }

  lemma {:induction false} TextSizeUpdate(xs: seq<Item>, i: nat, it: Item)
    requires i < |xs| && it.AssistantMessage? == xs[i].AssistantMessage?
    ensures TextSize(xs[i := it]) + (if it.AssistantMessage? then |xs[i].text| else 0) ==
            TextSize(xs) + (if it.AssistantMessage? then |it.text| else 0)
  {
    if i < |xs| - 1 {
      TextSizeUpdate(xs[..|xs| - 1], i, it);
      assert xs[i := it][..|xs| - 1] == xs[..|xs| - 1][i := it];
    } else {
      assert xs[i := it][..|xs| - 1] == xs[..|xs| - 1];
    }
  }

  lemma PatchTextSize(xs: seq<Item>, d: Delta)
    requires !d.Append?
    ensures TextSize(FoldDelta(xs, d)) ==
            TextSize(xs) + if d.PatchText? && LastHit(xs, TextTarget(d.uuid)) >= 0 then |d.deltaText| else 0
  {
    if TargetOf(d).Some? && LastHit(xs, TargetOf(d).value) >= 0 {
      var i := LastHit(xs, TargetOf(d).value);
      TextSizeUpdate(xs, i, PatchItem(xs[i], d));
    }
  }

  /** The old items' text grows exactly when a message among them is reopened. */
  lemma {:induction false} OldTextGrowsIff(xs: seq<Item>, ds: seq<Delta>)
    ensures TextSize(OldPart(xs, ds)) >= TextSize(xs)
    ensures TextSize(OldPart(xs, ds)) > TextSize(xs) <==> Reopens(xs, ds)
  {
    hide LastHit, FoldDelta, TextSize;
    if ds != [] {
      var init, d := ds[..|ds| - 1], ds[|ds| - 1];
      OldTextGrowsIff(xs, init);
      ReopensOneMore(xs, ds);
      if TouchesOld(init, d) {
        PatchTextSize(OldPart(xs, init), d);
        OldPartKeepsHits(xs, init, TargetOf(d).value);
      }
    }
  }

  // ---- Going on reading alike ----

  lemma EraseConcatStep(a: seq<Item>, b: seq<Item>, last: Item)
    requires Erase(a + b) == Erase(a) + Erase(b)
    ensures Erase(a + (b + [last])) == Erase(a) + Erase(b + [last])
  {
    hide Erase, EraseItem;
    EraseOneMore(a + b, last);
    EraseOneMore(b, last);
    assert a + (b + [last]) == (a + b) + [last];
    assert Erase(a) + (Erase(b) + EraseItem(last)) == (Erase(a) + Erase(b)) + EraseItem(last);
  }

  lemma EraseConcatEmpty(a: seq<Item>)
    ensures Erase(a + []) == Erase(a) + Erase([])
  {
    assert a + [] == a && Erase(a) + [] == Erase(a);
  }

  lemma {:induction false} EraseConcat(a: seq<Item>, b: seq<Item>)
    ensures Erase(a + b) == Erase(a) + Erase(b)
  {
    hide Erase;
    if b == [] {
      EraseConcatEmpty(a);
    } else {
      var init, last := b[..|b| - 1], b[|b| - 1];
      EraseConcat(a, init);
      EraseConcatStep(a, init, last);
      assert init + [last] == b;
    }
  }

  /** A tool result shows alike in two lists that read alike. */
  lemma ToolPatchAlike(xs: seq<Item>, ys: seq<Item>, d: Delta)
    requires d.PatchToolCall? && UniqueTools(xs) && UniqueTools(ys) && Erase(xs) == Erase(ys)
    ensures Erase(FoldDelta(xs, d)) == Erase(FoldDelta(ys, d))
  {
    hide FoldDelta, Erase, SetTool, UniqueTools;
    PatchIsSetTool(xs, d.callId, d.status, d.error, d.detail);
    PatchIsSetTool(ys, d.callId, d.status, d.error, d.detail);
    EraseSetTool(xs, d.callId, d.status, d.error, d.detail);
    EraseSetTool(ys, d.callId, d.status, d.error, d.detail);
  }

  lemma EmptyTextIdle(xs: seq<Item>, d: Delta)
    requires d.PatchText? && (d.deltaText == "" || LastHit(xs, TextTarget(d.uuid)) < 0)
    ensures FoldDelta(xs, d) == xs
  {
    if LastHit(xs, TextTarget(d.uuid)) >= 0 {
      var i := LastHit(xs, TextTarget(d.uuid));
      assert xs[i].text + "" == xs[i].text;
      assert xs[i := xs[i]] == xs;
    }
  }

  lemma {:induction false} OldPartsAlike(xs: seq<Item>, ys: seq<Item>, ds: seq<Delta>)
    requires Erase(xs) == Erase(ys) && UniqueTools(xs) && UniqueTools(ys)
    requires Untouched(xs, ds) && !Reopens(ys, ds)
    ensures Erase(OldPart(xs, ds)) == Erase(OldPart(ys, ds))
  {
    hide LastHit, FoldDelta, Erase, UniqueTools;
    if ds != [] {
      var init, d := ds[..|ds| - 1], ds[|ds| - 1];
      ReopensOneMore(ys, ds);
      UntouchedInit(xs, ds);
      OldPartsAlike(xs, ys, init);
      if TouchesOld(init, d) {
        OldPartKeepsHits(xs, init, TargetOf(d).value);
        OldPartKeepsHits(ys, init, TargetOf(d).value);
        if d.PatchText? {
          EmptyTextIdle(OldPart(xs, init), d);
          EmptyTextIdle(OldPart(ys, init), d);
        } else {
          ToolPatchAlike(OldPart(xs, init), OldPart(ys, init), d);
        }
      }
    }
  }

  lemma UntouchedInit(xs: seq<Item>, ds: seq<Delta>)
    requires Untouched(xs, ds) && ds != []
    ensures Untouched(xs, ds[..|ds| - 1])
    ensures ds[|ds| - 1].PatchText? ==> LastHit(xs, TextTarget(ds[|ds| - 1].uuid)) < 0
  {
    assert forall i :: 0 <= i < |ds| - 1 ==> ds[..|ds| - 1][i] == ds[i];
  }

  lemma UntouchedNeverReopens(xs: seq<Item>, ds: seq<Delta>)
    requires Untouched(xs, ds)
    ensures !Reopens(xs, ds)
  {
  }

  /** How much text a folded list reads: what its old items came to, and what the events brought. */
  lemma FoldedText(xs: seq<Item>, ds: seq<Delta>)
    ensures TextSize(Erase(FoldAll(xs, ds))) == TextSize(OldPart(xs, ds)) + TextSize(FoldAll([], ds))
    ensures TextSize(Erase(xs)) == TextSize(xs)
  {
    hide Erase, TextSize, FoldAll, OldPart;
    FoldSplit(xs, ds);
    EraseKeepsText(FoldAll(xs, ds));
    EraseKeepsText(xs);
    TextSizeConcat(OldPart(xs, ds), FoldAll([], ds));
  }

  lemma FoldedErasure(xs: seq<Item>, ds: seq<Delta>)
    ensures Erase(FoldAll(xs, ds)) == Erase(OldPart(xs, ds)) + Erase(FoldAll([], ds))
  {
    hide Erase, FoldAll, OldPart;
    FoldSplit(xs, ds);
    EraseConcat(OldPart(xs, ds), FoldAll([], ds));
  }

  /**
   A stored copy that reads like the transcript goes on reading like it exactly when no later event gives more text
   to a message the transcript already held.
   */
  lemma ReadsAlikeIff(stored: seq<Item>, truth: seq<Item>, ds: seq<Delta>)
    requires Erase(stored) == Erase(truth) && UniqueTools(stored) && UniqueTools(truth) && Untouched(stored, ds)
    ensures Erase(FoldAll(stored, ds)) == Erase(FoldAll(truth, ds)) <==> !Reopens(truth, ds)
  {
    hide Erase, UniqueTools, FoldAll, OldPart, TextSize, Reopens, Untouched;
    if Reopens(truth, ds) {
      OldTextGrowsIff(truth, ds);
      UntouchedNeverReopens(stored, ds);
      OldTextGrowsIff(stored, ds);
      FoldedText(stored, ds);
      FoldedText(truth, ds);
    } else {
      OldPartsAlike(stored, truth, ds);
      FoldedErasure(stored, ds);
      FoldedErasure(truth, ds);
    }
  }

  // ---- Events that bring their own messages ----

  /** Messages appended by the events. */
  function Begun(ds: seq<Delta>): set<string> {
    if ds == [] then {}
    else Begun(ds[..|ds| - 1]) + (if ds[|ds| - 1].Append? && ds[|ds| - 1].item.AssistantMessage? then {ds[|ds| - 1].item.uuid} else {})
  }

  /** Every text event is for a message that an earlier one of these events appended. */
  ghost predicate OwnTexts(ds: seq<Delta>) {
    forall i :: 0 <= i < |ds| && ds[i].PatchText? ==> ds[i].uuid in Begun(ds[..i])
  }

  lemma {:induction false} BegunAreHit(ds: seq<Delta>, uuid: string)
    requires uuid in Begun(ds)
    ensures LastHit(FoldAll([], ds), TextTarget(uuid)) >= 0
  {
    hide LastHit;
    var init, d := ds[..|ds| - 1], ds[|ds| - 1];
    if d.Append? {
      LastHitConcat(FoldAll([], init), [d.item], TextTarget(uuid));
      OneHit(d.item, TextTarget(uuid));
      if uuid in Begun(init) { BegunAreHit(init, uuid); }
    } else {
      BegunAreHit(init, uuid);
      PatchKeepsHits(FoldAll([], init), d, TextTarget(uuid));
    }
  }

  lemma OneHit(it: Item, t: Target)
    ensures LastHit([it], t) == if Hits(it, t) then 0 else -1
  {
  }

  /** Such events reopen nothing. */
  lemma OwnTextsNeverReopen(xs: seq<Item>, ds: seq<Delta>)
    requires OwnTexts(ds)
    ensures !Reopens(xs, ds)
  {
    forall i | 0 <= i < |ds| ensures !ReopensAt(xs, ds, i) {
      if ds[i].PatchText? { BegunAreHit(ds[..i], ds[i].uuid); }
    }
  }
}
