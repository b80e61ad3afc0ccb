/** Tool uses and their results, and the transcript item of a call as a scan over them. */
module ToolCalls {
  import opened Options
  import opened Timeline
  import opened Sdk

  datatype ToolEvent = Use(id: string, name: string, input: string) | Result(id: string, content: Content, isError: bool)

  function UsesIn(bs: seq<Block>): seq<ToolEvent> {
    if bs == [] then [] else (if bs[0].ToolUseBlock? then [Use(bs[0].id, bs[0].name, bs[0].input)] else []) + UsesIn(bs[1..])
  }

  function ResultsIn(bs: seq<Block>): seq<ToolEvent> {
    if bs == [] then []
    else (if bs[0].ToolResultBlock? then [Result(bs[0].toolUseId, bs[0].content, bs[0].isError)] else []) + ResultsIn(bs[1..])
  }

  /** The item of a tool that has just been used. */
  function Opened(tools: Tools, e: ToolEvent, st: Status): Item
    requires e.Use?
  {
    var detail := tools.build(e.name, e.input);
    ToolCall(e.id, e.name, tools.summary(detail, e.name), st, None, detail)
  }

  /** The item once its result is in: a failed one carries the result's text as its error. */
  function Settled(tools: Tools, it: Item, e: ToolEvent): Item
    requires it.ToolCall? && e.Result?
  {
    var text := TextOf(e.content);
    ToolCall(it.callId, it.name, it.summary, if e.isError then Failed else Completed,
             if e.isError then Some(text) else None, tools.attach(it.detail, text))
  }

  /** The call `id` on the live path: its first use opens it, the first result after that settles it. */
  function LiveCall(tools: Tools, evs: seq<ToolEvent>, id: string): (r: Option<Item>)
    ensures r.Some? ==> r.value.ToolCall? && r.value.callId == id
  {
    if evs == [] then None
    else
      var was, e := LiveCall(tools, evs[..|evs| - 1], id), evs[|evs| - 1];
      if e.id != id then was
      else match e
        case Use(_, _, _) => if was.None? then Some(Opened(tools, e, Running)) else was
        case Result(_, _, _) => if was.Some? && was.value.status.Running? then Some(Settled(tools, was.value, e)) else was
  }

  /** The call `id` as storage gives it back: its last use, settled by every result after that. */
  function StoredCall(tools: Tools, evs: seq<ToolEvent>, id: string): (r: Option<Item>)
    ensures r.Some? ==> r.value.ToolCall? && r.value.callId == id
  {
    if evs == [] then None
    else
      var was, e := StoredCall(tools, evs[..|evs| - 1], id), evs[|evs| - 1];
      if e.id != id then was
      else match e
        case Use(_, _, _) => Some(Opened(tools, e, Completed))
        case Result(_, _, _) => if was.Some? then Some(Settled(tools, was.value, e)) else None
  }

  lemma CallOneMore(tools: Tools, evs: seq<ToolEvent>, e: ToolEvent, id: string)
    ensures e.id != id ==> LiveCall(tools, evs + [e], id) == LiveCall(tools, evs, id)
    ensures e.id != id ==> StoredCall(tools, evs + [e], id) == StoredCall(tools, evs, id)
    ensures e.id == id && e.Use? ==> StoredCall(tools, evs + [e], id) == Some(Opened(tools, e, Completed))
    ensures e.id == id && e.Use? ==>
              LiveCall(tools, evs + [e], id) ==
              if LiveCall(tools, evs, id).None? then Some(Opened(tools, e, Running)) else LiveCall(tools, evs, id)
    ensures e.id == id && e.Result? ==>
              var was := StoredCall(tools, evs, id);
              StoredCall(tools, evs + [e], id) == if was.Some? then Some(Settled(tools, was.value, e)) else None
    ensures e.id == id && e.Result? ==>
              var was := LiveCall(tools, evs, id);
              LiveCall(tools, evs + [e], id) ==
              if was.Some? && was.value.status.Running? then Some(Settled(tools, was.value, e)) else was
  {
    assert (evs + [e])[..|evs|] == evs;
  }

  // ---- a call in a transcript ----

  /** The last item of the call. */
  function CallIn(xs: seq<Item>, id: string): (r: Option<Item>)
    ensures r.Some? ==> r.value.ToolCall? && r.value.callId == id
  {
    var i := LastHit(xs, ToolTarget(id));
    if i < 0 then None else Some(xs[i])
  }

  lemma CallAppended(xs: seq<Item>, it: Item, id: string)
    ensures LastHit(xs + [it], ToolTarget(id)) == if Hits(it, ToolTarget(id)) then |xs| else LastHit(xs, ToolTarget(id))
    ensures CallIn(xs + [it], id) == if Hits(it, ToolTarget(id)) then Some(it) else CallIn(xs, id)
  {
    assert (xs + [it])[..|xs|] == xs;
  }

  lemma CallUpdated(xs: seq<Item>, i: nat, it: Item, id: string)
    requires i < |xs| && it.ToolCall? && xs[i].ToolCall? && it.callId == xs[i].callId && i == LastHit(xs, ToolTarget(it.callId))
    ensures LastHit(xs[i := it], ToolTarget(id)) == LastHit(xs, ToolTarget(id))
    ensures CallIn(xs[i := it], id) == if id == it.callId then Some(it) else CallIn(xs, id)
  {
    LastHitIs(xs[i := it], ToolTarget(id), LastHit(xs, ToolTarget(id)));
  }

  // ---- results that say something ----

  /** A tool result as either path gets it: a string, or one block of text. */
  predicate Says(content: Content, t: string) {
    content == Plain(t) || content == Blocks([TextBlock(t)])
  }

  lemma SaidText(content: Content, t: string)
    requires Says(content, t)
    ensures TextOf(content) == t
  {
    TextOfMeans(t, OtherBlock, [], []);
  }

  lemma OneResult(id: string, content: Content, isError: bool)
    ensures ResultsIn([ToolResultBlock(id, content, isError)]) == [Result(id, content, isError)]
  {
    var bs := [ToolResultBlock(id, content, isError)];
    assert bs[1..] == [];
  }
}
