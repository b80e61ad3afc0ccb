/** What a stored conversation reads back as, said over its envelopes: items, their order, their names. */
module ReadBack {
  import opened Options
  import opened Timeline
  import opened Collection
  import opened Sdk
  import opened Text
  import opened Names
  import opened ToolCalls
  import N = Normalize

  // ---- assistant texts ----

  function Assistants(xs: seq<Item>): seq<Item> {
    if xs == [] then []
    else Assistants(xs[..|xs| - 1]) + (if xs[|xs| - 1].AssistantMessage? then [xs[|xs| - 1]] else [])
  }

  /** The non-empty text blocks of one assistant envelope, under the envelope's uuid and stop reason. */
  function TextsIn(uuid: string, bs: seq<Block>, stop: Option<string>): seq<Item> {
    if bs == [] then []
    else (if bs[0].TextBlock? && bs[0].text != "" then [AssistantMessage(uuid, bs[0].text, stop)] else []) + TextsIn(uuid, bs[1..], stop)
  }

  function AssistantTexts(ms: seq<Stored>): seq<Item> {
    if ms == [] then []
    else (if ms[0].StoredAssistant? && ms[0].content.Blocks? then TextsIn(ms[0].uuid, ms[0].content.blocks, ms[0].stopReason) else [])
         + AssistantTexts(ms[1..])
  }

  // ---- all items, tool calls as they are used ----

  const BLANK := Detail("", "", "")

  /** An item without what a tool result changes. */
  function BareItem(it: Item): Item {
    if it.ToolCall? then ToolCall(it.callId, it.name, it.summary, Completed, None, BLANK) else it
  }

  function Bare(xs: seq<Item>): seq<Item> {
    seq(|xs|, i requires 0 <= i < |xs| => BareItem(xs[i]))
  }

  predicate Interruption(text: string) {
    text == "[Request interrupted by user]" || text == "[Request interrupted by user for tool use]"
  }

  function Prose(bs: seq<Block>): seq<string> {
    if bs == [] then [] else (if bs[0].TextBlock? && bs[0].text != "" then [bs[0].text] else []) + Prose(bs[1..])
  }

  function Pictures(bs: seq<Block>): seq<Image> {
    if bs == [] then []
    else (if bs[0].InlineImageBlock? && bs[0].mediaType in {"image/jpeg", "image/png"} then [Image(bs[0].data, bs[0].mediaType)] else [])
         + Pictures(bs[1..])
  }

  /** A user envelope shows its prose and pictures, unless there are none or it is an interruption and nothing else. */
  function UserItems(uuid: string, content: Content): seq<Item> {
    match content
    case Plain(text) => if text == "" || Interruption(text) then [] else [UserMessage(uuid, text, [])]
    case Blocks(bs) =>
      var text, images := Join(Prose(bs), "\n\n"), Pictures(bs);
      if images == [] && (text == "" || Interruption(text)) then [] else [UserMessage(uuid, text, images)]
    case NoContent => []
  }

  /** Texts and tool uses of an assistant envelope, in order. */
  function BlockItems(tools: Tools, uuid: string, bs: seq<Block>, stop: Option<string>): seq<Item> {
    if bs == [] then []
    else
      (match bs[0]
       case TextBlock(text) => if text == "" then [] else [AssistantMessage(uuid, text, stop)]
       case ToolUseBlock(id, name, input) =>
         [ToolCall(id, name, tools.summary(tools.build(name, input), name), Completed, None, BLANK)]
       case _ => [])
      + BlockItems(tools, uuid, bs[1..], stop)
  }

  function EnvelopeItems(tools: Tools, m: Stored): seq<Item> {
    match m
    case StoredSystem => []
    case StoredUser(uuid, content) => UserItems(uuid, content)
    case StoredAssistant(uuid, content, stop) => if content.Blocks? then BlockItems(tools, uuid, content.blocks, stop) else []
  }

  function ConversationItems(tools: Tools, ms: seq<Stored>): seq<Item> {
    if ms == [] then [] else EnvelopeItems(tools, ms[0]) + ConversationItems(tools, ms[1..])
  }

  function ReadItems(tools: Tools, ms: seq<Stored>): seq<Item> {
    N.MessagesStep(tools, N.Pass([], map[]), ms).out
  }

  lemma {:induction false} SettlingKeepsBare(tools: Tools, p: N.GoodPass, bs: seq<Block>)
    ensures Bare(N.AttachResults(tools, p, bs).out) == Bare(p.out)
    decreases |bs|
  {
    if bs != [] { SettlingKeepsBare(tools, N.AttachResult(tools, p, bs[0]), bs[1..]); }
  }

  lemma {:induction false} ProseIs(bs: seq<Block>)
    ensures Prose(bs) == N.NonEmptyTexts(bs) && Pictures(bs) == N.ImagesOf(bs)
    ensures forall i :: 0 <= i < |Prose(bs)| ==> Prose(bs)[i] != ""
    decreases |bs|
  {
    if bs != [] { ProseIs(bs[1..]); }
  }

  lemma JoinedEmpty(parts: seq<string>, sep: string)
    requires sep != "" && forall i :: 0 <= i < |parts| ==> parts[i] != ""
    ensures Join(parts, sep) == "" <==> parts == []
  {
  }

  lemma UserReadsBack(tools: Tools, p: N.GoodPass, uuid: string, content: Content)
    ensures Bare(N.UserStep(tools, p, uuid, content).out) == Bare(p.out) + UserItems(uuid, content)
  {
    hide N.AttachResults, Prose, Pictures, N.NonEmptyTexts, N.ImagesOf, Join;
    if content.Blocks? {
      var bs := content.blocks;
      ProseIs(bs);
      SettlingKeepsBare(tools, p, bs);
      JoinedEmpty(Prose(bs), "\n\n");
    }
  }

  lemma {:induction false} BlocksReadBack(tools: Tools, p: N.GoodPass, uuid: string, stop: Option<string>, bs: seq<Block>)
    ensures Bare(N.AssistantBlocks(tools, p, uuid, stop, bs).out) == Bare(p.out) + BlockItems(tools, uuid, bs, stop)
    decreases |bs|
  {
    if bs == [] {
      assert Bare(p.out) + [] == Bare(p.out);
    } else {
      var q := N.AssistantBlock(tools, p, uuid, stop, bs[0]);
      BlocksReadBack(tools, q, uuid, stop, bs[1..]);
      OneBlockReadsBack(tools, p, uuid, stop, bs[0], BlockItems(tools, uuid, bs[1..], stop));
    }
  }

  lemma OneBlockReadsBack(tools: Tools, p: N.GoodPass, uuid: string, stop: Option<string>, b: Block, rest: seq<Item>)
    ensures Bare(N.AssistantBlock(tools, p, uuid, stop, b).out) + rest ==
            Bare(p.out) +
            ((match b
              case TextBlock(text) => if text == "" then [] else [AssistantMessage(uuid, text, stop)]
              case ToolUseBlock(id, name, input) =>
                [ToolCall(id, name, tools.summary(tools.build(name, input), name), Completed, None, BLANK)]
              case _ => []) + rest)
  {
  }

  lemma {:induction false} PassReadsBack(tools: Tools, p: N.GoodPass, ms: seq<Stored>)
    ensures Bare(N.MessagesStep(tools, p, ms).out) == Bare(p.out) + ConversationItems(tools, ms)
    decreases |ms|
  {
    hide N.MessageStep, EnvelopeItems, Bare;
    if ms == [] {
      assert Bare(p.out) + [] == Bare(p.out);
    } else {
      var q := N.MessageStep(tools, p, ms[0]);
      EnvelopeReadsBack(tools, p, ms[0]);
      PassReadsBack(tools, q, ms[1..]);
      assert (Bare(p.out) + EnvelopeItems(tools, ms[0])) + ConversationItems(tools, ms[1..])
          == Bare(p.out) + (EnvelopeItems(tools, ms[0]) + ConversationItems(tools, ms[1..]));
    }
  }

  lemma EnvelopeReadsBack(tools: Tools, p: N.GoodPass, m: Stored)
    ensures Bare(N.MessageStep(tools, p, m).out) == Bare(p.out) + EnvelopeItems(tools, m)
  {
    hide N.UserStep, UserItems, N.AssistantBlocks, BlockItems, Bare;
    match m
    case StoredSystem => assert Bare(p.out) + [] == Bare(p.out);
    case StoredUser(uuid, content) => UserReadsBack(tools, p, uuid, content);
    case StoredAssistant(uuid, content, stop) =>
      if content.Blocks? { BlocksReadBack(tools, p, uuid, stop, content.blocks); }
      else { assert Bare(p.out) + [] == Bare(p.out); }
  }

  /**
   Every stored conversation reads back as its envelopes' items in order: prompts under their envelope's uuid with prose
   and jpeg or png pictures, each non-empty assistant text under its envelope's uuid and stop reason, each tool use under
   its id. Nothing else is added, and only tool results change anything afterwards.
   */
  lemma ConversationReadsBack(tools: Tools, ms: seq<Stored>)
    ensures Bare(ReadItems(tools, ms)) == ConversationItems(tools, ms)
  {
    PassReadsBack(tools, N.Pass([], map[]), ms);
    assert Bare([]) == [] && [] + ConversationItems(tools, ms) == ConversationItems(tools, ms);
  }

  // ---- the assistant messages among them ----

  lemma {:induction false} AssistantsConcat(a: seq<Item>, b: seq<Item>)
    ensures Assistants(a + b) == Assistants(a) + Assistants(b)
    decreases |b|
  {
    if b == [] {
      assert a + b == a;
    } else {
      AssistantsConcat(a, b[..|b| - 1]);
      assert (a + b)[..|a + b| - 1] == a + b[..|b| - 1];
    }
  }

  lemma {:induction false} BareKeepsAssistants(xs: seq<Item>)
    ensures Assistants(Bare(xs)) == Assistants(xs)
  {
    if xs != [] {
      BareKeepsAssistants(xs[..|xs| - 1]);
      assert Bare(xs)[..|xs| - 1] == Bare(xs[..|xs| - 1]);
    }
  }

  lemma {:induction false} BlockAssistants(tools: Tools, uuid: string, bs: seq<Block>, stop: Option<string>)
    ensures Assistants(BlockItems(tools, uuid, bs, stop)) == TextsIn(uuid, bs, stop)
    decreases |bs|
  {
    if bs != [] {
      BlockAssistants(tools, uuid, bs[1..], stop);
      var rest := BlockItems(tools, uuid, bs[1..], stop);
      var all := BlockItems(tools, uuid, bs, stop);
      var first := all[..|all| - |rest|];
      assert all == first + rest;
      AssistantsConcat(first, rest);
      if first != [] { assert first[..0] == []; }
    }
  }

  lemma {:induction false} ConversationAssistants(tools: Tools, ms: seq<Stored>)
    ensures Assistants(ConversationItems(tools, ms)) == AssistantTexts(ms)
    decreases |ms|
  {
    hide BlockItems, TextsIn;
    if ms != [] {
      ConversationAssistants(tools, ms[1..]);
      AssistantsConcat(EnvelopeItems(tools, ms[0]), ConversationItems(tools, ms[1..]));
      if ms[0].StoredAssistant? && ms[0].content.Blocks? {
        BlockAssistants(tools, ms[0].uuid, ms[0].content.blocks, ms[0].stopReason);
      } else if EnvelopeItems(tools, ms[0]) != [] {
        assert EnvelopeItems(tools, ms[0])[..0] == [];
      }
    }
  }

  /** The assistant messages of a conversation are, in order, the non-empty text blocks of its assistant envelopes, each
    * with its envelope's uuid and stop reason. */
  lemma AssistantsReadBack(tools: Tools, ms: seq<Stored>)
    ensures Assistants(ReadItems(tools, ms)) == AssistantTexts(ms)
  {
    ConversationReadsBack(tools, ms);
    BareKeepsAssistants(ReadItems(tools, ms));
    ConversationAssistants(tools, ms);
  }

  // ---- what results make of the calls ----

  function EnvelopeEvents(m: Stored): seq<ToolEvent> {
    match m
    case StoredUser(_, Blocks(bs)) => ResultsIn(bs)
    case StoredAssistant(_, Blocks(bs), _) => UsesIn(bs)
    case _ => []
  }

  /** Uses and results of a conversation, in order. */
  function StoredEvents(ms: seq<Stored>): seq<ToolEvent> {
    if ms == [] then [] else EnvelopeEvents(ms[0]) + StoredEvents(ms[1..])
  }

  /** The pass knows each call's item and where it is. */
  ghost predicate Knows(tools: Tools, p: N.GoodPass, evs: seq<ToolEvent>) {
    forall id :: KnowsCall(tools, p, evs, id)
  }

  ghost predicate KnowsCall(tools: Tools, p: N.GoodPass, evs: seq<ToolEvent>, id: string) {
    && CallIn(p.out, id) == StoredCall(tools, evs, id)
    && (id in p.pendingByCallId <==> LastHit(p.out, ToolTarget(id)) >= 0)
    && (id in p.pendingByCallId ==> p.pendingByCallId[id] == LastHit(p.out, ToolTarget(id)))
  }

  lemma ResultKnown(tools: Tools, p: N.GoodPass, evs: seq<ToolEvent>, b: Block)
    requires Knows(tools, p, evs) && b.ToolResultBlock?
    ensures Knows(tools, N.AttachResult(tools, p, b), evs + [Result(b.toolUseId, b.content, b.isError)])
  {
    hide StoredCall, TextOf, LastHit;
    var q, e := N.AttachResult(tools, p, b), Result(b.toolUseId, b.content, b.isError);
    assert KnowsCall(tools, p, evs, e.id);
    forall id ensures KnowsCall(tools, q, evs + [e], id) {
      assert KnowsCall(tools, p, evs, id);
      CallOneMore(tools, evs, e, id);
      if e.id in p.pendingByCallId {
        var i := p.pendingByCallId[e.id];
        CallUpdated(p.out, i, N.Settle(tools, p.out[i], b), id);
      }
    }
  }

  lemma {:induction false} ResultsKnown(tools: Tools, p: N.GoodPass, evs: seq<ToolEvent>, bs: seq<Block>)
    requires Knows(tools, p, evs)
    ensures Knows(tools, N.AttachResults(tools, p, bs), evs + ResultsIn(bs))
    decreases |bs|
  {
    hide Knows;
    if bs == [] {
      assert evs + [] == evs;
    } else if bs[0].ToolResultBlock? {
      var e := Result(bs[0].toolUseId, bs[0].content, bs[0].isError);
      ResultKnown(tools, p, evs, bs[0]);
      ResultsKnown(tools, N.AttachResult(tools, p, bs[0]), evs + [e], bs[1..]);
      assert (evs + [e]) + ResultsIn(bs[1..]) == evs + ([e] + ResultsIn(bs[1..]));
    } else {
      ResultsKnown(tools, p, evs, bs[1..]);
      assert [] + ResultsIn(bs[1..]) == ResultsIn(bs[1..]);
    }
  }

  /** An item that is no tool call tells the pass nothing about calls. */
  lemma MessageKnown(tools: Tools, p: N.GoodPass, evs: seq<ToolEvent>, it: Item)
    requires Knows(tools, p, evs) && !it.ToolCall?
    ensures Knows(tools, p.(out := p.out + [it]), evs)
  {
    hide StoredCall, LastHit;
    forall id ensures KnowsCall(tools, p.(out := p.out + [it]), evs, id) {
      assert KnowsCall(tools, p, evs, id);
      CallAppended(p.out, it, id);
    }
  }

  lemma UseKnown(tools: Tools, p: N.GoodPass, evs: seq<ToolEvent>, uuid: string, stop: Option<string>, b: Block)
    requires Knows(tools, p, evs) && b.ToolUseBlock?
    ensures Knows(tools, N.AssistantBlock(tools, p, uuid, stop, b), evs + [Use(b.id, b.name, b.input)])
  {
    hide StoredCall, LastHit;
    var q, e := N.AssistantBlock(tools, p, uuid, stop, b), Use(b.id, b.name, b.input);
    forall id ensures KnowsCall(tools, q, evs + [e], id) {
      assert KnowsCall(tools, p, evs, id);
      CallOneMore(tools, evs, e, id);
      CallAppended(p.out, Opened(tools, e, Completed), id);
    }
  }

  lemma {:induction false} UsesKnown(tools: Tools, p: N.GoodPass, evs: seq<ToolEvent>, uuid: string, stop: Option<string>, bs: seq<Block>)
    requires Knows(tools, p, evs)
    ensures Knows(tools, N.AssistantBlocks(tools, p, uuid, stop, bs), evs + UsesIn(bs))
    decreases |bs|
  {
    hide Knows;
    if bs == [] {
      assert evs + [] == evs;
    } else {
      var q := N.AssistantBlock(tools, p, uuid, stop, bs[0]);
      if bs[0].ToolUseBlock? {
        var e := Use(bs[0].id, bs[0].name, bs[0].input);
        UseKnown(tools, p, evs, uuid, stop, bs[0]);
        UsesKnown(tools, q, evs + [e], uuid, stop, bs[1..]);
        assert (evs + [e]) + UsesIn(bs[1..]) == evs + ([e] + UsesIn(bs[1..]));
      } else {
        if q != p { MessageKnown(tools, p, evs, AssistantMessage(uuid, bs[0].text, stop)); }
        UsesKnown(tools, q, evs, uuid, stop, bs[1..]);
        assert [] + UsesIn(bs[1..]) == UsesIn(bs[1..]);
      }
    }
  }

  lemma EnvelopeKnown(tools: Tools, p: N.GoodPass, evs: seq<ToolEvent>, m: Stored)
    requires Knows(tools, p, evs)
    ensures Knows(tools, N.MessageStep(tools, p, m), evs + EnvelopeEvents(m))
  {
    hide Knows, N.AttachResults, N.AssistantBlocks, Join, N.NonEmptyTexts, N.ImagesOf;
    assert evs + [] == evs;
    var q := N.MessageStep(tools, p, m);
    match m
    case StoredSystem =>
    case StoredUser(uuid, content) =>
      var base := if content.Blocks? then N.AttachResults(tools, p, content.blocks) else p;
      if content.Blocks? { ResultsKnown(tools, p, evs, content.blocks); }
      if q != base { MessageKnown(tools, base, evs + EnvelopeEvents(m), q.out[|base.out|]); }
    case StoredAssistant(uuid, content, stop) =>
      if content.Blocks? { UsesKnown(tools, p, evs, uuid, stop, content.blocks); }
  }

  lemma {:induction false} PassKnows(tools: Tools, p: N.GoodPass, evs: seq<ToolEvent>, ms: seq<Stored>)
    requires Knows(tools, p, evs)
    ensures Knows(tools, N.MessagesStep(tools, p, ms), evs + StoredEvents(ms))
    decreases |ms|
  {
    hide Knows, N.MessageStep, EnvelopeEvents;
    if ms == [] {
      assert evs + [] == evs;
    } else {
      EnvelopeKnown(tools, p, evs, ms[0]);
      PassKnows(tools, N.MessageStep(tools, p, ms[0]), evs + EnvelopeEvents(ms[0]), ms[1..]);
      assert (evs + EnvelopeEvents(ms[0])) + StoredEvents(ms[1..]) == evs + (EnvelopeEvents(ms[0]) + StoredEvents(ms[1..]));
    }
  }

  /** The call `id` of a read back conversation is its last use with every later result attached, the last one giving
    * status and error; results without a use before them change nothing. */
  lemma CallsReadBack(tools: Tools, ms: seq<Stored>, id: string)
    ensures CallIn(ReadItems(tools, ms), id) == StoredCall(tools, StoredEvents(ms), id)
  {
    var none := N.Pass([], map[]);
    assert Knows(tools, none, []);
    PassKnows(tools, none, [], ms);
    assert [] + StoredEvents(ms) == StoredEvents(ms);
    assert KnowsCall(tools, N.MessagesStep(tools, none, ms), StoredEvents(ms), id);
  }

  lemma {:induction false} EventsConcat(a: seq<Stored>, b: seq<Stored>)
    ensures StoredEvents(a + b) == StoredEvents(a) + StoredEvents(b)
    decreases |a|
  {
    hide EnvelopeEvents;
    if a == [] {
      assert a + b == b && [] + StoredEvents(b) == StoredEvents(b);
    } else {
      var first := EnvelopeEvents(a[0]);
      EventsConcat(a[1..], b);
      assert (a + b)[1..] == a[1..] + b && (a + b)[0] == a[0];
      assert StoredEvents(a + b) == first + (StoredEvents(a[1..]) + StoredEvents(b));
      assert StoredEvents(a) == first + StoredEvents(a[1..]);
    }
  }

  /** The item of a call once a stored result that says `t` has come: its error, if it failed, and its detail hold `t`. */
  lemma StoredResultShowsText(tools: Tools, ms: seq<Stored>, uuid: string, id: string, content: Content, t: string, isError: bool)
    requires Says(content, t) && CallIn(ReadItems(tools, ms), id).Some?
    ensures var was := CallIn(ReadItems(tools, ms), id).value;
            CallIn(ReadItems(tools, ms + [StoredUser(uuid, Blocks([ToolResultBlock(id, content, isError)]))]), id) ==
            Some(ToolCall(id, was.name, was.summary, if isError then Failed else Completed,
                          if isError then Some(t) else None, tools.attach(was.detail, t)))
  {
    hide ReadItems, CallIn, StoredCall, TextOf, ResultsIn;
    var m, e := StoredUser(uuid, Blocks([ToolResultBlock(id, content, isError)])), Result(id, content, isError);
    CallsReadBack(tools, ms, id);
    CallsReadBack(tools, ms + [m], id);
    EventsConcat(ms, [m]);
    assert [m][1..] == [];
    OneResult(id, content, isError);
    assert StoredEvents([m]) == [e];
    CallOneMore(tools, StoredEvents(ms), e, id);
    SaidText(content, t);
  }

  // ---- names ----

  /** The uuids of the user and assistant envelopes. */
  function Uuids(ms: seq<Stored>): seq<string> {
    if ms == [] then [] else (if ms[0].StoredSystem? then [] else [ms[0].uuid]) + Uuids(ms[1..])
  }

  function ToolIdsIn(bs: seq<Block>): seq<string> {
    if bs == [] then [] else (if bs[0].ToolUseBlock? then [bs[0].id] else []) + ToolIdsIn(bs[1..])
  }

  function ToolIds(ms: seq<Stored>): seq<string> {
    if ms == [] then []
    else (if ms[0].StoredAssistant? && ms[0].content.Blocks? then ToolIdsIn(ms[0].content.blocks) else []) + ToolIds(ms[1..])
  }

  /** No assistant envelope has two texts to show. */
  predicate OneTextEach(ms: seq<Stored>) {
    forall m :: m in ms && m.StoredAssistant? && m.content.Blocks? ==> |TextsIn(m.uuid, m.content.blocks, m.stopReason)| <= 1
  }

  lemma BareKeepsKeys(xs: seq<Item>)
    ensures KeysOf(Bare(xs)) == KeysOf(xs)
  {}

  lemma KeysConcat(a: seq<Item>, b: seq<Item>)
    ensures KeysOf(a + b) == KeysOf(a) + KeysOf(b)
  {}

  lemma KeysUniqueIff(xs: seq<Item>)
    ensures KeysUnique(xs) <==> NoRepeats(KeysOf(xs))
  {
    if NoRepeats(KeysOf(xs)) {
      forall i, j | 0 <= i < j < |xs| ensures Key(xs[i]) != Key(xs[j]) {
        assert KeysOf(xs)[i] != KeysOf(xs)[j];
      }
    }
  }

  lemma {:induction false} BlockKeys(tools: Tools, uuid: string, bs: seq<Block>, stop: Option<string>)
    ensures multiset(KeysOf(BlockItems(tools, uuid, bs, stop))) ==
            multiset(ToolIdsIn(bs)) + multiset{}[uuid := |TextsIn(uuid, bs, stop)|]
    decreases |bs|
  {
    if bs == [] {
      NoKeys();
    } else {
      BlockKeys(tools, uuid, bs[1..], stop);
      var rest, all := BlockItems(tools, uuid, bs[1..], stop), BlockItems(tools, uuid, bs, stop);
      var first := all[..|all| - |rest|];
      assert all == first + rest;
      KeysConcat(first, rest);
      OneBlockKey(first, bs[0], uuid);
      hide KeysOf, BlockItems;
    }
  }

  lemma OneBlockKey(first: seq<Item>, b: Block, uuid: string)
    requires |first| <= 1
    requires first != [] ==> Key(first[0]) == if b.ToolUseBlock? then b.id else uuid
    requires first == [] <==> (b.TextBlock? ==> b.text == "") && !b.ToolUseBlock?
    ensures KeysOf(first) == if b.ToolUseBlock? then [b.id] else if b.TextBlock? && b.text != "" then [uuid] else []
  {}

  lemma EnvelopeKeys(tools: Tools, m: Stored)
    requires OneTextEach([m])
    ensures multiset(KeysOf(EnvelopeItems(tools, m))) <= multiset(Uuids([m])) + multiset(ToolIds([m]))
  {
    assert m in [m] && [m][1..] == [];
    if m.StoredAssistant? && m.content.Blocks? {
      BlockKeys(tools, m.uuid, m.content.blocks, m.stopReason);
    }
  }

  lemma {:induction false} ConversationKeys(tools: Tools, ms: seq<Stored>)
    requires OneTextEach(ms)
    ensures multiset(KeysOf(ConversationItems(tools, ms))) <= multiset(Uuids(ms)) + multiset(ToolIds(ms))
    decreases |ms|
  {
    hide EnvelopeItems, TextsIn, KeysOf, ToolIdsIn;
    if ms == [] {
      assert KeysOf([]) == [] by { NoKeys(); }
    } else {
      assert forall m :: m in ms[1..] || m in [ms[0]] ==> m in ms;
      ConversationKeys(tools, ms[1..]);
      EnvelopeKeys(tools, ms[0]);
      KeysConcat(EnvelopeItems(tools, ms[0]), ConversationItems(tools, ms[1..]));
      FirstNames(ms);
    }
  }

  lemma NoKeys()
    ensures KeysOf([]) == []
  {}

  lemma FirstNames(ms: seq<Stored>)
    requires ms != []
    ensures Uuids(ms) == Uuids([ms[0]]) + Uuids(ms[1..]) && ToolIds(ms) == ToolIds([ms[0]]) + ToolIds(ms[1..])
  {
    assert [ms[0]][1..] == [];
  }

  /** A read back conversation has distinct keys when its envelopes have distinct uuids and one text each, and its tool
    * uses distinct ids; then it is stored by the client item by item. */
  lemma ReadBackKeysUnique(tools: Tools, ms: seq<Stored>)
    requires OneTextEach(ms) && NoRepeats(Uuids(ms) + ToolIds(ms))
    ensures KeysUnique(ReadItems(tools, ms)) && Represents(Ingest(ReadItems(tools, ms)), ReadItems(tools, ms))
  {
    hide KeysOf, OneTextEach, ReadItems, KeysUnique, Represents, NoRepeats;
    var out := ReadItems(tools, ms);
    ConversationReadsBack(tools, ms);
    BareKeepsKeys(out);
    ConversationKeys(tools, ms);
    FewerNamesNoRepeats(KeysOf(out), Uuids(ms) + ToolIds(ms));
    KeysUniqueIff(out);
    IngestUnique(out);
  }

  /** And exactly when the items the envelopes show have distinct keys. */
  lemma ReadBackFaithfulIff(tools: Tools, ms: seq<Stored>)
    ensures Represents(Ingest(ReadItems(tools, ms)), ReadItems(tools, ms)) <==> NoRepeats(KeysOf(ConversationItems(tools, ms)))
  {
    hide KeysOf, ReadItems, KeysUnique, Represents, NoRepeats;
    var out := ReadItems(tools, ms);
    ConversationReadsBack(tools, ms);
    BareKeepsKeys(out);
    KeysUniqueIff(out);
    IngestFaithfulIff(out);
  }
}
