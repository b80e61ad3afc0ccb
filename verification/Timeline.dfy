/** Transcript items, the deltas that build them, and the daemon's in-place reducer. */
module Timeline {
  import opened Options

  datatype Image = Image(data: string, mediaType: string)

  datatype Status = Running | Completed | Failed

  /** A typed tool-call detail: which tool, what was asked, what came back. */
  datatype Detail = Detail(tool: string, input: string, output: string)

  datatype Item =
    | UserMessage(uuid: string, text: string, images: seq<Image>)
    | AssistantMessage(uuid: string, text: string, stopReason: Option<string>)
    | ToolCall(callId: string, name: string, summary: string, status: Status, error: Option<string>, detail: Detail)

  datatype Delta =
    | Append(item: Item)
    | PatchText(uuid: string, deltaText: string)
    | PatchToolCall(callId: string, status: Status, error: Option<string>, detail: Detail)
    | TurnStarted
    | TurnCompleted
    | TurnFailed(reason: string)
    | TurnCanceled
    | CompactStarted
    | CompactApplied

  /** What a patch addresses: an assistant message by uuid, or a tool call by call id. */
  datatype Target = TextTarget(uuid: string) | ToolTarget(callId: string)

  predicate Hits(it: Item, t: Target) {
    match t
    case TextTarget(u) => it.AssistantMessage? && it.uuid == u
    case ToolTarget(c) => it.ToolCall? && it.callId == c
  }

  /** Index of the last item hit by `t`, or -1. */
  function LastHit(xs: seq<Item>, t: Target): (r: int)
    ensures -1 <= r < |xs|
    ensures r >= 0 ==> Hits(xs[r], t)
    ensures forall j :: r < j < |xs| ==> !Hits(xs[j], t)
  {
    if xs == [] then -1
    else if Hits(xs[|xs| - 1], t) then |xs| - 1
    else LastHit(xs[..|xs| - 1], t)
  }

  lemma LastHitIs(xs: seq<Item>, t: Target, k: int)
    requires -1 <= k < |xs| && (k >= 0 ==> Hits(xs[k], t))
    requires forall j :: k < j < |xs| ==> !Hits(xs[j], t)
    ensures LastHit(xs, t) == k
  {
  }

  function PatchItem(it: Item, d: Delta): Item {
    match d
    case PatchText(_, more) => if it.AssistantMessage? then AssistantMessage(it.uuid, it.text + more, it.stopReason) else it
    case PatchToolCall(_, st, err, det) => if it.ToolCall? then it.(status := st, error := err, detail := det) else it
    case _ => it
  }

  function TargetOf(d: Delta): Option<Target> {
    match d
    case PatchText(u, _) => Some(TextTarget(u))
    case PatchToolCall(c, _, _, _) => Some(ToolTarget(c))
    case _ => None
  }

  /** One reducer step: push, patch the last item hit, or leave the list alone. */
  function FoldDelta(xs: seq<Item>, d: Delta): seq<Item> {
    if d.Append? then xs + [d.item]
    else match TargetOf(d)
      case None => xs
      case Some(t) =>
        var i := LastHit(xs, t);
        if i < 0 then xs else xs[i := PatchItem(xs[i], d)]
  }

  /** A patch changes the last item it addresses, in the patched fields only, and nothing else. */
  lemma PatchesOne(xs: seq<Item>, d: Delta)
    requires TargetOf(d).Some?
    ensures var h, ys := LastHit(xs, TargetOf(d).value), FoldDelta(xs, d);
            && |ys| == |xs| && (forall i :: 0 <= i < |xs| && i != h ==> ys[i] == xs[i])
            && (h >= 0 && d.PatchText? ==> ys[h] == AssistantMessage(d.uuid, xs[h].text + d.deltaText, xs[h].stopReason))
            && (h >= 0 && d.PatchToolCall? ==>
                  ys[h] == ToolCall(d.callId, xs[h].name, xs[h].summary, d.status, d.error, d.detail))
  {
  }

  function FoldAll(xs: seq<Item>, ds: seq<Delta>): seq<Item> {
    if ds == [] then xs else FoldDelta(FoldAll(xs, ds[..|ds| - 1]), ds[|ds| - 1])
  }

  lemma {:induction false} FoldAllConcat(xs: seq<Item>, a: seq<Delta>, b: seq<Delta>)
    ensures FoldAll(xs, a + b) == FoldAll(FoldAll(xs, a), b)
    decreases |b|
  {
    if b == [] {
      assert a + b == a;
    } else {
      FoldAllConcat(xs, a, b[..|b| - 1]);
      assert (a + b)[..|a + b| - 1] == a + b[..|b| - 1];
    }
  }

  lemma FoldAllStep(xs: seq<Item>, ds: seq<Delta>, c: nat)
    requires c < |ds|
    ensures FoldAll(xs, ds[..c + 1]) == FoldDelta(FoldAll(xs, ds[..c]), ds[c])
  {
    assert ds[..c + 1][..c] == ds[..c];
  }

  /** `settled`: the mutable list the daemon folds each delta into. */
  class SettledList {
    var items: seq<Item>

    constructor (initial: seq<Item>)
      ensures items == initial
    {
      items := initial;
    }

    method FoldEventDelta(d: Delta)
      modifies this
      ensures items == FoldDelta(old(items), d)
    {
      match d {
        case Append(it) =>
          items := items + [it];
        case PatchText(uuid, deltaText) =>
          var i := |items| - 1;
          while i >= 0
            invariant -1 <= i < |items|
            invariant items == old(items)
            invariant LastHit(items, TextTarget(uuid)) <= i
          {
            if items[i].AssistantMessage? && items[i].uuid == uuid {
              items := items[i := AssistantMessage(uuid, items[i].text + deltaText, items[i].stopReason)];
              return;
            }
            i := i - 1;
          }
        case PatchToolCall(callId, status, error, detail) =>
          var i := |items| - 1;
          while i >= 0
            invariant -1 <= i < |items|
            invariant items == old(items)
            invariant LastHit(items, ToolTarget(callId)) <= i
          {
            if items[i].ToolCall? && items[i].callId == callId {
              items := items[i := items[i].(status := status, error := error, detail := detail)];
              return;
            }
            i := i - 1;
          }
        case _ =>
      }
    }
  }
}
