/** The client's keyed, ordered transcript collection and its agreement with the daemon's list reducer. */
module Collection {
  import opened Timeline

  datatype Row = Row(item: Item, order: nat)
  type Rows = map<string, Row>

  /** Tool calls are identified by call id, messages by uuid. */
  function Key(it: Item): string {
    if it.ToolCall? then it.callId else it.uuid
  }

  function KeysOf(xs: seq<Item>): seq<string> {
    seq(|xs|, i requires 0 <= i < |xs| => Key(xs[i]))
  }

  predicate KeysUnique(xs: seq<Item>) {
    forall i, j :: 0 <= i < j < |xs| ==> Key(xs[i]) != Key(xs[j])
  }

  /** Effect of one event on the stored rows. */
  function ApplyEvent(rows: Rows, d: Delta): Rows {
    match d
    case Append(it) =>
      var order := if Key(it) in rows then rows[Key(it)].order else |rows|;
      rows[Key(it) := Row(it, order)]
    case PatchText(u, _) =>
      if u in rows && rows[u].item.AssistantMessage?
      then rows[u := rows[u].(item := PatchItem(rows[u].item, d))] else rows
    case PatchToolCall(c, _, _, _) =>
      if c in rows && rows[c].item.ToolCall?
      then rows[c := rows[c].(item := PatchItem(rows[c].item, d))] else rows
    case _ => rows
  }

  function ApplyAll(rows: Rows, ds: seq<Delta>): Rows {
    if ds == [] then rows else ApplyEvent(ApplyAll(rows, ds[..|ds| - 1]), ds[|ds| - 1])
  }

  /** Rows after a truncate followed by inserting `settled` at orders 0, 1, 2, ... */
  function Ingest(settled: seq<Item>): Rows {
    if settled == [] then map[]
    else Ingest(settled[..|settled| - 1])[Key(settled[|settled| - 1]) := Row(settled[|settled| - 1], |settled| - 1)]
  }

  /** The rows hold exactly the items of `xs`, the i-th one at order i. */
  ghost predicate Represents(rows: Rows, xs: seq<Item>) {
    && |rows| == |xs|
    && (forall i :: 0 <= i < |xs| ==> Key(xs[i]) in rows && rows[Key(xs[i])] == Row(xs[i], i))
    && (forall k :: k in rows ==> rows[k].order < |xs| && Key(xs[rows[k].order]) == k)
  }

  /** `shown` is what the UI renders: every row once, by increasing order. */
  ghost predicate SortedListing(rows: Rows, shown: seq<Row>) {
    && (forall i, j :: 0 <= i < j < |shown| ==> shown[i].order < shown[j].order)
    && (forall i :: 0 <= i < |shown| ==> Key(shown[i].item) in rows && rows[Key(shown[i].item)] == shown[i])
    && (forall k :: k in rows ==> rows[k] in shown)
  }

  class TranscriptCollection {
    var rows: Rows

    constructor ()
      ensures rows == map[]
    {
      rows := map[];
    }

    method OnEvent(d: Delta)
      modifies this
      ensures rows == ApplyEvent(old(rows), d)
    {
      match d {
        case Append(it) =>
          var key := if it.ToolCall? then it.callId else it.uuid;
          var order := if key in rows then rows[key].order else |rows|;
          rows := rows[key := Row(it, order)];
        case PatchText(uuid, deltaText) =>
          if uuid !in rows || !rows[uuid].item.AssistantMessage? { return; }
          var current := rows[uuid];
          var patched := AssistantMessage(current.item.uuid, current.item.text + deltaText, current.item.stopReason);
          rows := rows[uuid := current.(item := patched)];
        case PatchToolCall(callId, status, error, detail) =>
          if callId !in rows || !rows[callId].item.ToolCall? { return; }
          var current := rows[callId];
          rows := rows[callId := current.(item := current.item.(status := status, error := error, detail := detail))];
        case _ =>
      }
    }

    method OnSubscribed(recovered: bool, settled: seq<Item>)
      modifies this
      ensures rows == if recovered then old(rows) else Ingest(settled)
    {
      if !recovered {
        rows := map[];
        for i := 0 to |settled|
          invariant rows == Ingest(settled[..i])
        {
          assert settled[..i + 1][..i] == settled[..i];
          rows := rows[Key(settled[i]) := Row(settled[i], i)];
        }
        assert settled[..|settled|] == settled;
      }
    }
  }

  // ---- the two reducers agree ----

  /** Folding only pushes at the end or rewrites in place: earlier keys never change. */
  lemma FoldDeltaKeys(xs: seq<Item>, d: Delta)
    ensures KeysOf(FoldDelta(xs, d)) == if d.Append? then KeysOf(xs) + [Key(d.item)] else KeysOf(xs)
  {}

  lemma {:induction false} FoldAllKeysPrefix(xs: seq<Item>, ds: seq<Delta>, c: nat)
    requires c <= |ds|
    ensures KeysOf(FoldAll(xs, ds[..c])) <= KeysOf(FoldAll(xs, ds))
    decreases |ds| - c
  {
    if c == |ds| {
      assert ds[..c] == ds;
    } else {
      FoldAllStep(xs, ds, c);
      FoldDeltaKeys(FoldAll(xs, ds[..c]), ds[c]);
      FoldAllKeysPrefix(xs, ds, c + 1);
    }
  }

  lemma UniqueKeysPrefix(xs: seq<Item>, ys: seq<Item>)
    requires KeysOf(xs) <= KeysOf(ys) && KeysUnique(ys)
    ensures KeysUnique(xs)
  {
    forall i, j | 0 <= i < j < |xs| ensures Key(xs[i]) != Key(xs[j]) {
      assert KeysOf(xs)[i] == KeysOf(ys)[i] && KeysOf(xs)[j] == KeysOf(ys)[j];
    }
  }

  /** The key of an item that ends a key-unique list is not among the rows before it. */
  lemma FreshKey(rows: Rows, xs: seq<Item>, it: Item)
    requires Represents(rows, xs) && KeysUnique(xs + [it])
    ensures Key(it) !in rows
  {
    var ys := xs + [it];
    forall i | 0 <= i < |xs| ensures Key(xs[i]) != Key(it) {
      assert ys[i] == xs[i] && ys[|xs|] == it;
    }
  }

  lemma AppendAgrees(rows: Rows, xs: seq<Item>, it: Item)
    requires Represents(rows, xs) && KeysUnique(xs + [it])
    ensures Key(it) !in rows && Represents(rows[Key(it) := Row(it, |xs|)], xs + [it])
  {
    FreshKey(rows, xs, it);
    forall i | 0 <= i < |xs| ensures Key(xs[i]) != Key(it) {
      assert Key(xs[i]) in rows;
    }
  }

  /** One event keeps the keyed rows and the list in step, orders included. */
  lemma ApplyEventAgrees(rows: Rows, xs: seq<Item>, d: Delta)
    requires Represents(rows, xs) && KeysUnique(FoldDelta(xs, d))
    ensures Represents(ApplyEvent(rows, d), FoldDelta(xs, d))
  {
    if d.Append? {
      AppendAgrees(rows, xs, d.item);
    } else if TargetOf(d).Some? {
      PatchAgrees(rows, xs, d);
    }
  }

  function TargetKey(t: Target): string {
    match t
    case TextTarget(u) => u
    case ToolTarget(c) => c
  }

  /** Keyed lookup and backward scan find the same item, or both find none. */
  lemma LookupIsLastHit(rows: Rows, xs: seq<Item>, t: Target)
    requires Represents(rows, xs)
    ensures var k := TargetKey(t);
            LastHit(xs, t) == if k in rows && Hits(rows[k].item, t) then rows[k].order as int else -1
  {
    var h := LastHit(xs, t);
    if h >= 0 {
      assert Key(xs[h]) == TargetKey(t);
    }
  }

  lemma PatchAgrees(rows: Rows, xs: seq<Item>, d: Delta)
    requires Represents(rows, xs) && TargetOf(d).Some?
    ensures Represents(ApplyEvent(rows, d), FoldDelta(xs, d))
  {
    var t := TargetOf(d).value;
    LookupIsLastHit(rows, xs, t);
    var h := LastHit(xs, t);
    if h >= 0 {
      var it := PatchItem(xs[h], d);
      assert ApplyEvent(rows, d) == rows[Key(it) := Row(it, h)];
      RewriteAgrees(rows, xs, h, it);
    }
  }

  lemma RewriteAgrees(rows: Rows, xs: seq<Item>, h: nat, it: Item)
    requires Represents(rows, xs) && h < |xs| && Key(it) == Key(xs[h])
    ensures Represents(rows[Key(it) := Row(it, h)], xs[h := it])
  {
    var out := rows[Key(it) := Row(it, h)];
    assert out.Keys == rows.Keys;
    forall i | 0 <= i < |xs| && i != h ensures Key(xs[i]) != Key(it) {
      assert rows[Key(xs[i])].order == i && rows[Key(xs[h])].order == h;
    }
  }

  /** An item that is appended again, as a prompt the client has already shown, replaces its row in place. */
  lemma ReappendKeepsPlace(rows: Rows, xs: seq<Item>, h: nat, it: Item)
    requires Represents(rows, xs) && h < |xs| && Key(it) == Key(xs[h])
    ensures Represents(ApplyEvent(rows, Append(it)), xs[h := it])
  {
    RewriteAgrees(rows, xs, h, it);
  }

  /** A snapshot is ingested faithfully exactly when its keys are distinct. */
  lemma {:induction false} IngestFaithfulIff(xs: seq<Item>)
    ensures Represents(Ingest(xs), xs) <==> KeysUnique(xs)
  {
    if KeysUnique(xs) {
      IngestUnique(xs);
    }
    if Represents(Ingest(xs), xs) {
      forall i, j | 0 <= i < j < |xs| ensures Key(xs[i]) != Key(xs[j]) {
        assert Ingest(xs)[Key(xs[i])].order == i && Ingest(xs)[Key(xs[j])].order == j;
      }
    }
  }

  lemma {:induction false} IngestUnique(xs: seq<Item>)
    requires KeysUnique(xs)
    ensures Represents(Ingest(xs), xs)
  {
    if xs != [] {
      var n := |xs| - 1;
      IngestUnique(xs[..n]);
      assert xs[..n] + [xs[n]] == xs;
      AppendAgrees(Ingest(xs[..n]), xs[..n], xs[n]);
    }
  }

  /** For every key-unique delta log the client's rows are the daemon's list, with orders 0..n-1. */
  lemma {:induction false} ReducersAgree(base: seq<Item>, ds: seq<Delta>)
    requires KeysUnique(FoldAll(base, ds))
    ensures Represents(ApplyAll(Ingest(base), ds), FoldAll(base, ds))
    decreases |ds|
  {
    if ds == [] {
      IngestUnique(base);
    } else {
      var n := |ds| - 1;
      FoldAllKeysPrefix(base, ds, n);
      UniqueKeysPrefix(FoldAll(base, ds[..n]), FoldAll(base, ds));
      ReducersAgree(base, ds[..n]);
      ApplyEventAgrees(ApplyAll(Ingest(base), ds[..n]), FoldAll(base, ds[..n]), ds[n]);
    }
  }

  /** Sorting the rows by order shows the represented list, and nothing else. */
  lemma RenderedOrder(rows: Rows, xs: seq<Item>, shown: seq<Row>)
    requires Represents(rows, xs) && SortedListing(rows, shown)
    ensures |shown| == |xs|
    ensures forall i :: 0 <= i < |xs| ==> shown[i] == Row(xs[i], i)
  {
    forall i | 0 <= i < |shown| ensures shown[i].order < |xs| && shown[i] == Row(xs[shown[i].order], shown[i].order) {
      assert rows[Key(shown[i].item)] == shown[i];
    }
    OrdersAtLeast(shown, |shown|);
    if shown != [] {
      assert shown[|shown| - 1].order < |xs|;
    }
    OrdersReached(rows, xs, shown, |xs|);
  }

  lemma {:induction false} OrdersAtLeast(shown: seq<Row>, n: nat)
    requires forall i, j :: 0 <= i < j < |shown| ==> shown[i].order < shown[j].order
    requires n <= |shown|
    ensures forall i :: 0 <= i < n ==> shown[i].order >= i
  {
    if n > 1 {
      OrdersAtLeast(shown, n - 1);
      assert shown[n - 2].order < shown[n - 1].order;
    }
  }

  lemma RowIsShown(rows: Rows, xs: seq<Item>, shown: seq<Row>, i: nat)
    requires Represents(rows, xs) && SortedListing(rows, shown) && i < |xs|
    ensures Row(xs[i], i) in shown
  {
    assert rows[Key(xs[i])] == Row(xs[i], i);
  }

  lemma {:induction false} OrdersReached(rows: Rows, xs: seq<Item>, shown: seq<Row>, n: nat)
    requires Represents(rows, xs) && SortedListing(rows, shown) && n <= |xs|
    requires forall i :: 0 <= i < |shown| ==> shown[i].order >= i
    ensures n <= |shown|
    ensures forall i :: 0 <= i < n ==> shown[i].order == i
  {
    if n > 0 {
      OrdersReached(rows, xs, shown, n - 1);
      RowIsShown(rows, xs, shown, n - 1);
      hide Represents, SortedListing;
      var p :| 0 <= p < |shown| && shown[p] == Row(xs[n - 1], n - 1);
      assert p <= n - 1;
    }
  }
}
