/** A tool call's detail object is shared between the buffered append event and the running tool, and is
  * completed in place before the patch event is emitted. Replaying the already completed append is harmless. */
module Aliasing {
  import opened Timeline

  ghost predicate SameButDetail(x: Item, y: Item, id: string) {
    x.ToolCall? && y.ToolCall? && x.callId == id && x == y.(detail := x.detail)
  }

  /** Two lists that differ at most in the detail of the call that patches for `id` reach. */
  ghost predicate Twins(xs: seq<Item>, ys: seq<Item>, id: string) {
    var k := LastHit(xs, ToolTarget(id));
    && |xs| == |ys| && k >= 0 && k == LastHit(ys, ToolTarget(id)) && SameButDetail(xs[k], ys[k], id)
    && forall i :: 0 <= i < |xs| && i != k ==> xs[i] == ys[i]
  }

  predicate Appends(d: Delta, id: string) {
    d.Append? && d.item.ToolCall? && d.item.callId == id
  }

  lemma TwinsHitTogether(xs: seq<Item>, ys: seq<Item>, id: string, t: Target)
    requires Twins(xs, ys, id)
    ensures LastHit(xs, t) == LastHit(ys, t)
  {
    forall j | 0 <= j < |xs| ensures Hits(xs[j], t) == Hits(ys[j], t) {
    }
    LastHitIs(xs, t, LastHit(ys, t));
  }

  lemma TwinsStep(xs: seq<Item>, ys: seq<Item>, id: string, d: Delta)
    requires Twins(xs, ys, id) && !Appends(d, id)
    ensures Twins(FoldDelta(xs, d), FoldDelta(ys, d), id)
  {
    hide LastHit;
    var k := LastHit(xs, ToolTarget(id));
    var xs', ys' := FoldDelta(xs, d), FoldDelta(ys, d);
    if TargetOf(d).Some? {
      TwinsHitTogether(xs, ys, id, TargetOf(d).value);
    }
    LastHitIs(xs', ToolTarget(id), k);
    LastHitIs(ys', ToolTarget(id), k);
  }

  lemma {:induction false} TwinsRun(xs: seq<Item>, ys: seq<Item>, id: string, ds: seq<Delta>)
    requires Twins(xs, ys, id) && forall i :: 0 <= i < |ds| ==> !Appends(ds[i], id)
    ensures Twins(FoldAll(xs, ds), FoldAll(ys, ds), id)
  {
    if ds != [] {
      TwinsRun(xs, ys, id, ds[..|ds| - 1]);
      TwinsStep(FoldAll(xs, ds[..|ds| - 1]), FoldAll(ys, ds[..|ds| - 1]), id, ds[|ds| - 1]);
    }
  }

  lemma FoldOne(xs: seq<Item>, d: Delta)
    ensures FoldAll(xs, [d]) == FoldDelta(xs, d)
  {
    assert [d][..0] == [];
  }

  lemma FoldAround(xs: seq<Item>, d: Delta, between: seq<Delta>, e: Delta)
    ensures FoldAll(xs, [d] + between + [e]) == FoldDelta(FoldAll(FoldDelta(xs, d), between), e)
  {
    hide FoldAll, FoldDelta;
    FoldAllConcat(xs, [d], between);
    FoldAllConcat(xs, [d] + between, [e]);
    FoldOne(xs, d);
    FoldOne(FoldAll(FoldDelta(xs, d), between), e);
  }

  lemma PatchEqualizesTwins(xs: seq<Item>, ys: seq<Item>, patch: Delta)
    requires patch.PatchToolCall? && Twins(xs, ys, patch.callId)
    ensures FoldDelta(xs, patch) == FoldDelta(ys, patch)
  {
  }

  /** Replaying the append with its detail already completed gives the same transcript once the patch has run. */
  lemma CompletedAppendHarmless(xs: seq<Item>, it: Item, completed: Detail, between: seq<Delta>, patch: Delta)
    requires it.ToolCall? && patch.PatchToolCall? && patch.callId == it.callId
    requires forall i :: 0 <= i < |between| ==> !Appends(between[i], it.callId)
    ensures FoldAll(xs, [Append(it)] + between + [patch]) == FoldAll(xs, [Append(it.(detail := completed))] + between + [patch])
  {
    hide FoldAll;
    var it' := it.(detail := completed);
    FoldAround(xs, Append(it), between, patch);
    FoldAround(xs, Append(it'), between, patch);
    LastHitIs(xs + [it], ToolTarget(it.callId), |xs|);
    LastHitIs(xs + [it'], ToolTarget(it.callId), |xs|);
    TwinsRun(xs + [it], xs + [it'], it.callId, between);
    PatchEqualizesTwins(FoldAll(xs + [it], between), FoldAll(xs + [it'], between), patch);
  }
}
