/** What a reader of a transcript can tell apart, and how settling a tool call shows there. */
module Erasure {
  import opened Options
  import opened Timeline

  // ---- What a reader can tell apart ----

  /** Storage takes a tool whose result is missing for completed. */
  function Finished(st: Status): Status {
    if st == Running then Completed else st
  }

  /** An item without what the two paths name differently: uuid, stop reason, empty text, an unfinished tool. */
  function EraseItem(it: Item): seq<Item> {
    match it
    case UserMessage(_, _, _) => [it]
    case AssistantMessage(_, text, _) => if text == "" then [] else [AssistantMessage("", text, None)]
    case ToolCall(id, name, summary, status, error, detail) =>
      [ToolCall(id, name, summary, Finished(status), error, detail)]
  }

  function Erase(xs: seq<Item>): seq<Item> {
    if xs == [] then [] else Erase(xs[..|xs| - 1]) + EraseItem(xs[|xs| - 1])
  }

  // ---- Settling a tool call, as a map over the list ----

  function SettledItem(it: Item, id: string, st: Status, err: Option<string>, det: Detail): Item {
    if it.ToolCall? && it.callId == id then ToolCall(id, it.name, it.summary, st, err, det) else it
  }

  function SetTool(xs: seq<Item>, id: string, st: Status, err: Option<string>, det: Detail): seq<Item> {
    if xs == [] then []
    else SetTool(xs[..|xs| - 1], id, st, err, det) + [SettledItem(xs[|xs| - 1], id, st, err, det)]
  }

  lemma {:induction false} SetToolAt(xs: seq<Item>, id: string, st: Status, err: Option<string>, det: Detail)
    ensures |SetTool(xs, id, st, err, det)| == |xs|
    ensures forall i :: 0 <= i < |xs| ==> SetTool(xs, id, st, err, det)[i] == SettledItem(xs[i], id, st, err, det)
  {
    if xs != [] {
      SetToolAt(xs[..|xs| - 1], id, st, err, det);
    }
  }

  lemma SetToolOneMore(xs: seq<Item>, it: Item, id: string, st: Status, err: Option<string>, det: Detail)
    ensures SetTool(xs + [it], id, st, err, det) == SetTool(xs, id, st, err, det) + [SettledItem(it, id, st, err, det)]
  {
    assert (xs + [it])[..|xs|] == xs;
  }

  lemma EraseOneMore(xs: seq<Item>, it: Item)
    ensures Erase(xs + [it]) == Erase(xs) + EraseItem(it)
  {
    assert (xs + [it])[..|xs|] == xs;
  }

  lemma SettleErased(xs: seq<Item>, it: Item, id: string, st: Status, err: Option<string>, det: Detail)
    ensures SetTool(xs + EraseItem(it), id, Finished(st), err, det) ==
            SetTool(xs, id, Finished(st), err, det) + EraseItem(SettledItem(it, id, st, err, det))
  {
    hide SetTool;
    if EraseItem(it) == [] {
      assert xs + [] == xs;
    } else {
      SetToolOneMore(xs, EraseItem(it)[0], id, Finished(st), err, det);
    }
  }

  lemma NothingToSettle(id: string, st: Status, err: Option<string>, det: Detail)
    ensures SetTool([], id, st, err, det) == [] && SetTool([], id, Finished(st), err, det) == [] && Erase([]) == []
  {
  }

  lemma {:induction false} EraseSetTool(xs: seq<Item>, id: string, st: Status, err: Option<string>, det: Detail)
    ensures Erase(SetTool(xs, id, st, err, det)) == SetTool(Erase(xs), id, Finished(st), err, det)
  {
    hide SetTool, Erase, EraseItem, SettledItem;
    if xs == [] {
      NothingToSettle(id, st, err, det);
    } else {
      var init, last := xs[..|xs| - 1], xs[|xs| - 1];
      EraseSetTool(init, id, st, err, det);
      assert xs == init + [last];
      SetToolOneMore(init, last, id, st, err, det);
      EraseOneMore(SetTool(init, id, st, err, det), SettledItem(last, id, st, err, det));
      EraseOneMore(init, last);
      SettleErased(Erase(init), last, id, st, err, det);
    }
  }

  /** No call id occurs on two tool calls. */
  ghost predicate UniqueTools(xs: seq<Item>) {
    forall i, j :: 0 <= i < j < |xs| && xs[i].ToolCall? && xs[j].ToolCall? ==> xs[i].callId != xs[j].callId
  }

  lemma PatchIsSetTool(xs: seq<Item>, id: string, st: Status, err: Option<string>, det: Detail)
    requires UniqueTools(xs)
    ensures FoldDelta(xs, PatchToolCall(id, st, err, det)) == SetTool(xs, id, st, err, det)
  {
    SetToolAt(xs, id, st, err, det);
    var ys := FoldDelta(xs, PatchToolCall(id, st, err, det));
    assert |ys| == |xs|;
    forall i | 0 <= i < |xs|
      ensures ys[i] == SetTool(xs, id, st, err, det)[i]
    {
      var k := LastHit(xs, ToolTarget(id));
      if Hits(xs[i], ToolTarget(id)) {
        assert k == i;
      }
    }
  }
}
