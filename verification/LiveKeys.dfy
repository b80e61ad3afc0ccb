/** Names of streamed items: when the streamed transcript has distinct keys. */
module LiveKeys {
  import opened Options
  import opened Timeline
  import opened Collection
  import opened Sdk
  import opened Text
  import opened Names
  import opened Equivalence
  import opened ToolCalls
  import opened LiveHistory
  import L = LiveStream

  /** Keys of the items that events append, in order. */
  function AppendedKeys(ds: seq<Delta>): seq<string> {
    if ds == [] then []
    else AppendedKeys(ds[..|ds| - 1]) + (if ds[|ds| - 1].Append? then [Key(ds[|ds| - 1].item)] else [])
  }

  lemma {:induction false} FoldedKeys(ds: seq<Delta>)
    ensures KeysOf(FoldAll([], ds)) == AppendedKeys(ds)
  {
    if ds != [] {
      FoldedKeys(ds[..|ds| - 1]);
      FoldDeltaKeys(FoldAll([], ds[..|ds| - 1]), ds[|ds| - 1]);
    }
  }

  lemma KeysOneMore(ds: seq<Delta>, d: Delta)
    ensures AppendedKeys(ds + [d]) == AppendedKeys(ds) + if d.Append? then [Key(d.item)] else []
  {
    assert (ds + [d])[..|ds|] == ds;
  }

  function KeysOfKind(k: Kind, ds: seq<Delta>): seq<string> {
    AppendedKeys(Of(k, ds))
  }

  lemma KeysOfKindOneMore(k: Kind, ds: seq<Delta>, d: Delta)
    ensures KeysOfKind(k, ds + [d]) == KeysOfKind(k, ds) + if d.Append? && KindOf(d) == k then [Key(d.item)] else []
  {
    hide Of, AppendedKeys;
    OfOneMore(k, ds, d);
    if KindOf(d) == k { KeysOneMore(Of(k, ds), d); } else { assert Of(k, ds) + [] == Of(k, ds); }
    assert KeysOfKind(k, ds) + [] == KeysOfKind(k, ds);
  }

  lemma OneMoreKey(ds: seq<Delta>, d: Delta)
    ensures multiset(AppendedKeys(ds + [d])) == multiset(AppendedKeys(ds)) + if d.Append? then multiset{Key(d.item)} else multiset{}
  {
    hide AppendedKeys;
    KeysOneMore(ds, d);
  }

  lemma OneMoreOfKind(k: Kind, ds: seq<Delta>, d: Delta)
    ensures multiset(KeysOfKind(k, ds + [d])) ==
            multiset(KeysOfKind(k, ds)) + if d.Append? && KindOf(d) == k then multiset{Key(d.item)} else multiset{}
  {
    hide KeysOfKind;
    KeysOfKindOneMore(k, ds, d);
  }

  lemma AppendedKinds(d: Delta)
    requires d.Append?
    ensures KindOf(d) in {UserKind, TextKind, ToolKind}
  {}

  lemma AnyOfThree(u: multiset<string>, v: multiset<string>, w: multiset<string>, x: multiset<string>)
    ensures (u + v + w) + x == (u + x) + v + w
    ensures (u + v + w) + x == u + (v + x) + w
    ensures (u + v + w) + x == u + v + (w + x)
    ensures x == multiset{} ==> u + x == u && v + x == v && w + x == w
  {}

  lemma KeysByKindStep(init: seq<Delta>, d: Delta)
    requires multiset(AppendedKeys(init)) ==
             multiset(KeysOfKind(UserKind, init)) + multiset(KeysOfKind(TextKind, init)) + multiset(KeysOfKind(ToolKind, init))
    ensures multiset(AppendedKeys(init + [d])) ==
            multiset(KeysOfKind(UserKind, init + [d])) + multiset(KeysOfKind(TextKind, init + [d]))
            + multiset(KeysOfKind(ToolKind, init + [d]))
  {
    hide Of, KeysOfKind, AppendedKeys, KindOf;
    OneMoreKey(init, d);
    OneMoreOfKind(UserKind, init, d);
    OneMoreOfKind(TextKind, init, d);
    OneMoreOfKind(ToolKind, init, d);
    var u, v, w := multiset(KeysOfKind(UserKind, init)), multiset(KeysOfKind(TextKind, init)), multiset(KeysOfKind(ToolKind, init));
    AnyOfThree(u, v, w, multiset{});
    if d.Append? {
      AppendedKinds(d);
      AnyOfThree(u, v, w, multiset{Key(d.item)});
    }
  }

  /** Every appended item is a user's, a text or a tool call. */
  ghost predicate Partitioned(ds: seq<Delta>) {
    multiset(AppendedKeys(ds)) ==
    multiset(KeysOfKind(UserKind, ds)) + multiset(KeysOfKind(TextKind, ds)) + multiset(KeysOfKind(ToolKind, ds))
  }

  lemma {:induction false} KeysByKind(ds: seq<Delta>)
    ensures Partitioned(ds)
  {
    hide Partitioned;
    if ds == [] {
      NothingPartitioned();
    } else {
      KeysByKind(ds[..|ds| - 1]);
      StaysPartitioned(ds[..|ds| - 1], ds[|ds| - 1]);
      assert ds[..|ds| - 1] + [ds[|ds| - 1]] == ds;
    }
  }

  lemma NothingPartitioned()
    ensures Partitioned([])
  {
    assert AppendedKeys([]) == [] && Of(UserKind, []) == [] && Of(TextKind, []) == [] && Of(ToolKind, []) == [];
  }

  lemma StaysPartitioned(init: seq<Delta>, d: Delta)
    requires Partitioned(init)
    ensures Partitioned(init + [d])
  {
    hide Of, KeysOfKind, AppendedKeys, KindOf;
    KeysByKindStep(init, d);
  }

  // ---- names by history ----

  /** Uuids of prompts and summaries. */
  function UserNames(inputs: seq<Input>): seq<string> {
    AppendedKeys(UsersOf(inputs))
  }

  /** Message and index of each text block that begins. */
  function BlockStarts(inputs: seq<Input>): seq<(string, nat)> {
    if inputs == [] then [] else BlockStarts(inputs[..|inputs| - 1]) + StartAt(inputs[|inputs| - 1], OpenMessage(inputs[..|inputs| - 1]))
  }

  function StartAt(i: Input, open: Option<string>): seq<(string, nat)> {
    match i
    case FromSdk(Stream(TextBlockStart(Some(index)))) => if open in {None, Some("")} then [] else [(open.value, index)]
    case _ => []
  }

  function BlockName(b: (string, nat)): string {
    b.0 + ":" + Decimal(b.1)
  }

  function BlockNames(bs: seq<(string, nat)>): seq<string> {
    seq(|bs|, i requires 0 <= i < |bs| => BlockName(bs[i]))
  }

  /** The ids of the calls, each where it is first used. */
  function CallNames(evs: seq<ToolEvent>): seq<string> {
    if evs == [] then []
    else
      var init, e := evs[..|evs| - 1], evs[|evs| - 1];
      CallNames(init) + (if e.Use? && e.id !in CallNames(init) then [e.id] else [])
  }

  lemma KeysConcatOne(ds: seq<Delta>, es: seq<Delta>)
    requires |es| <= 1
    ensures AppendedKeys(ds + es) == AppendedKeys(ds) + AppendedKeys(es)
  {
    if es == [] {
      assert ds + es == ds;
    } else {
      assert es == [es[0]] && es[..0] == [];
      KeysOneMore(ds, es[0]);
    }
  }

  lemma NamesConcat(a: seq<(string, nat)>, b: seq<(string, nat)>)
    ensures BlockNames(a + b) == BlockNames(a) + BlockNames(b)
  {
    hide BlockName;
  }

  lemma OneTextName(init: seq<Input>, i: Input)
    ensures |TextAt(i, init)| <= 1 && BlockNames(StartAt(i, OpenMessage(init))) == AppendedKeys(TextAt(i, init))
  {
    hide BlockBegun, Decimal, OpenMessage;
    var ds := TextAt(i, init);
    if ds != [] { assert ds == [ds[0]] && ds[..0] == []; }
  }

  lemma {:induction false} TextNames(inputs: seq<Input>)
    ensures AppendedKeys(TextsStreamed(inputs)) == BlockNames(BlockStarts(inputs))
  {
    hide TextAt, StartAt, OpenMessage, BlockNames, AppendedKeys;
    if inputs == [] {
      NoNames();
    } else {
      var init, i := inputs[..|inputs| - 1], inputs[|inputs| - 1];
      TextNames(init);
      OneTextName(init, i);
      KeysConcatOne(TextsStreamed(init), TextAt(i, init));
      NamesConcat(BlockStarts(init), StartAt(i, OpenMessage(init)));
    }
  }

  lemma NoNames()
    ensures AppendedKeys([]) == [] && BlockNames([]) == []
  {}

  lemma {:induction false} ToolNames(tools: Tools, evs: seq<ToolEvent>)
    ensures AppendedKeys(ToolDeltas(tools, evs)) == CallNames(evs)
    ensures forall id :: id in CallNames(evs) <==> LiveCall(tools, evs, id).Some?
    ensures NoRepeats(CallNames(evs))
    decreases |evs|
  {
    if evs != [] {
      hide TextOf, AppendedKeys;
      var init, e := evs[..|evs| - 1], evs[|evs| - 1];
      ToolNames(tools, init);
      assert init + [e] == evs;
      OneToolName(tools, init, e);
      forall id ensures id in CallNames(evs) <==> LiveCall(tools, evs, id).Some? {
        CallOneMore(tools, init, e, id);
      }
    } else {
      assert AppendedKeys([]) == [];
    }
  }

  lemma OneToolName(tools: Tools, init: seq<ToolEvent>, e: ToolEvent)
    requires AppendedKeys(ToolDeltas(tools, init)) == CallNames(init)
    requires e.id in CallNames(init) <==> LiveCall(tools, init, e.id).Some?
    ensures AppendedKeys(ToolDeltas(tools, init + [e])) ==
            CallNames(init) + if e.Use? && e.id !in CallNames(init) then [e.id] else []
  {
    hide AppendedKeys, LiveCall, ToolDeltas, TextOf, CallNames;
    ToolDeltasOneMore(tools, init, e);
    var was := LiveCall(tools, init, e.id);
    assert ToolDeltas(tools, init) + [] == ToolDeltas(tools, init) && CallNames(init) + [] == CallNames(init);
    if e.Use? {
      KeysOneMore(ToolDeltas(tools, init), Append(Opened(tools, e, Running)));
    } else if was.Some? {
      var it := Settled(tools, was.value, e);
      KeysOneMore(ToolDeltas(tools, init), PatchToolCall(it.callId, it.status, it.error, it.detail));
    }
  }

  /** The streamed transcript has distinct keys exactly when prompts and summaries, blocks and calls are named apart. */
  lemma LiveKeysUniqueIff(tools: Tools, inputs: seq<Input>)
    ensures KeysUnique(FoldAll([], OnInputs(tools, L.NewLoop(), inputs).emitted)) <==>
            NoRepeats(UserNames(inputs) + BlockNames(BlockStarts(inputs)) + CallNames(ToolEvents(inputs)))
  {
    hide OnInputs, FoldAll, KeysOf, AppendedKeys, Remembers, ToolEvents, BlockStarts, BlockNames, NoRepeats, CallNames, UsersOf, TextsStreamed;
    var ds := OnInputs(tools, L.NewLoop(), inputs).emitted;
    LoopFollowsHistory(tools, inputs);
    FoldedKeys(ds);
    KeysByKind(ds);
    TextNames(inputs);
    ToolNames(tools, ToolEvents(inputs));
    var names := UserNames(inputs) + BlockNames(BlockStarts(inputs)) + CallNames(ToolEvents(inputs));
    assert multiset(AppendedKeys(ds)) == multiset(names);
    SameNames(AppendedKeys(ds), names);
    KeysApartIff(FoldAll([], ds));
  }

  lemma SameNames(xs: seq<string>, ys: seq<string>)
    requires multiset(xs) == multiset(ys)
    ensures NoRepeats(xs) <==> NoRepeats(ys)
  {
    hide NoRepeats;
    if NoRepeats(xs) { FewerNamesNoRepeats(ys, xs); }
    if NoRepeats(ys) { FewerNamesNoRepeats(xs, ys); }
  }

  lemma KeysApartIff(xs: seq<Item>)
    ensures KeysUnique(xs) <==> NoRepeats(KeysOf(xs))
  {
    if NoRepeats(KeysOf(xs)) {
      forall i, j | 0 <= i < j < |xs| ensures Key(xs[i]) != Key(xs[j]) {
        assert KeysOf(xs)[i] != KeysOf(xs)[j];
      }
    }
  }

  // ---- block names ----

  lemma ColonInside(a: string, x: string, b: string, y: string)
    requires a + ":" + x == b + ":" + y && |a| < |b|
    ensures ':' in x
  {
    assert (a + ":" + x)[|b|] == x[|b| - |a| - 1];
    assert (b + ":" + y)[|b|] == ':';
  }

  lemma LastColon(a: string, x: string, b: string, y: string)
    requires a + ":" + x == b + ":" + y && ':' !in x && ':' !in y
    ensures a == b && x == y
  {
    if |a| < |b| { ColonInside(a, x, b, y); }
    if |b| < |a| { ColonInside(b, y, a, x); }
    var s := a + ":" + x;
    assert s[..|a|] == a && s[|a| + 1..] == x;
    assert s[..|b|] == b && s[|b| + 1..] == y;
  }

  lemma BlockNameInjective(b: (string, nat), c: (string, nat))
    requires BlockName(b) == BlockName(c)
    ensures b == c
  {
    LastColon(b.0, Decimal(b.1), c.0, Decimal(c.1));
    DecimalInjective(b.1, c.1);
  }

  /** Different blocks have different names, whatever the message ids. */
  lemma BlockNamesApart(bs: seq<(string, nat)>)
    ensures NoRepeats(BlockNames(bs)) <==> NoRepeats(bs)
  {
    if NoRepeats(bs) {
      forall i, j | 0 <= i < j < |bs| ensures BlockNames(bs)[i] != BlockNames(bs)[j] {
        if BlockName(bs[i]) == BlockName(bs[j]) { BlockNameInjective(bs[i], bs[j]); }
      }
    } else {
      var i, j :| 0 <= i < j < |bs| && bs[i] == bs[j];
      assert BlockNames(bs)[i] == BlockNames(bs)[j];
    }
  }
}
