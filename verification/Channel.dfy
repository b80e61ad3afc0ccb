/** The async FIFO channel that feeds prompts to the agent: queued items, waiting consumers, an end. */
module Channel {

  /** What a `next()` call resolves to. */
  datatype Got<T> = Item(value: T) | Done

  /** `waiters` are the calls still unresolved, `results` the resolved ones, both by call number. */
  datatype Channel<T> = Channel(queue: seq<T>, waiters: seq<nat>, closed: bool, calls: nat, results: map<nat, Got<T>>)

  function Empty<T>(): Channel<T> {
    Channel([], [], false, 0, map[])
  }

  function Push<T>(c: Channel<T>, msg: T): Channel<T> {
    if c.closed then c
    else if c.waiters != [] then c.(waiters := c.waiters[1..], results := c.results[c.waiters[0] := Item(msg)])
    else c.(queue := c.queue + [msg])
  }

  /** Every waiter is told the stream is over. */
  function Release<T>(results: map<nat, Got<T>>, waiters: seq<nat>): map<nat, Got<T>>
    decreases |waiters|
  {
    if waiters == [] then results else Release(results[waiters[0] := Done], waiters[1..])
  }

  function End<T>(c: Channel<T>): Channel<T> {
    if c.closed then c else c.(closed := true, waiters := [], results := Release(c.results, c.waiters))
  }

  function Next<T>(c: Channel<T>): Channel<T> {
    var d := c.(calls := c.calls + 1);
    if c.queue != [] then d.(queue := c.queue[1..], results := c.results[c.calls := Item(c.queue[0])])
    else if c.closed then d.(results := c.results[c.calls := Done])
    else d.(waiters := c.waiters + [c.calls])
  }

  class AsyncMessageInput<T> {
    var queue: seq<T>
    var waiters: seq<nat>
    var closed: bool
    var calls: nat
    var results: map<nat, Got<T>>

    ghost function State(): Channel<T>
      reads this
    {
      Channel(queue, waiters, closed, calls, results)
    }

    constructor ()
      ensures State() == Empty()
    {
      queue, waiters, closed, calls, results := [], [], false, 0, map[];
    }

    method PushMessage(msg: T)
      modifies this
      ensures State() == Push(old(State()), msg)
    {
      if closed { return; }
      if |waiters| > 0 {
        var waiter := waiters[0];
        waiters := waiters[1..];
        results := results[waiter := Item(msg)];
        return;
      }
      queue := queue + [msg];
    }

    method EndStream()
      modifies this
      ensures State() == End(old(State()))
    {
      if closed { return; }
      closed := true;
      while |waiters| > 0
        invariant closed && queue == old(queue) && calls == old(calls)
        invariant Release(results, waiters) == Release(old(results), old(waiters))
        decreases |waiters|
      {
        results := results[waiters[0] := Done];
        waiters := waiters[1..];
      }
    }

    method NextMessage() returns (call: nat)
      modifies this
      ensures State() == Next(old(State())) && call == old(calls)
    {
      call := calls;
      calls := calls + 1;
      if |queue| > 0 {
        results := results[call := Item(queue[0])];
        queue := queue[1..];
      } else if closed {
        results := results[call := Done];
      } else {
        waiters := waiters + [call];
      }
    }
  }

  // ---- What the channel means ----

  datatype Op<T> = DoPush(msg: T) | DoEnd | DoNext

  function Take<T>(c: Channel<T>, op: Op<T>): Channel<T> {
    match op
    case DoPush(msg) => Push(c, msg)
    case DoEnd => End(c)
    case DoNext => Next(c)
  }

  function After<T>(ops: seq<Op<T>>): Channel<T> {
    if ops == [] then Empty() else Take(After(ops[..|ops| - 1]), ops[|ops| - 1])
  }

  predicate Ended<T(==)>(ops: seq<Op<T>>) {
    DoEnd in ops
  }

  /** The messages pushed before the first end, in order. */
  function Accepted<T(==)>(ops: seq<Op<T>>): seq<T> {
    if ops == [] then []
    else
      var init, last := ops[..|ops| - 1], ops[|ops| - 1];
      Accepted(init) + (if last.DoPush? && !Ended(init) then [last.msg] else [])
  }

  function Calls<T>(ops: seq<Op<T>>): nat {
    if ops == [] then 0 else Calls(ops[..|ops| - 1]) + (if ops[|ops| - 1].DoNext? then 1 else 0)
  }

  function Least(a: nat, b: nat): nat { if a < b then a else b }

  function Span(lo: nat, hi: nat): (r: seq<nat>)
    requires lo <= hi
    ensures |r| == hi - lo && forall i :: 0 <= i < |r| ==> r[i] == lo + i
    decreases hi - lo
  {
    if lo == hi then [] else [lo] + Span(lo + 1, hi)
  }

  /** The channel with these messages accepted and this many calls made: call `k` gets message `k` once there is one,
    * and is told the stream is over if there never will be. */
  ghost predicate Meets<T>(c: Channel<T>, accepted: seq<T>, calls: nat, ended: bool) {
    var n := Least(calls, |accepted|);
    && c.closed == ended && c.calls == calls
    && c.queue == accepted[n..]
    && c.waiters == (if ended then [] else Span(n, calls))
    && (forall k: nat :: k in c.results <==> k < calls && (k < |accepted| || ended))
    && (forall k: nat :: k in c.results ==> c.results[k] == if k < |accepted| then Item(accepted[k]) else Done)
  }

  lemma {:induction false} ReleaseAll<T>(results: map<nat, Got<T>>, lo: nat, hi: nat)
    requires lo <= hi
    ensures forall k: nat :: k in Release(results, Span(lo, hi)) <==> k in results || lo <= k < hi
    ensures forall k: nat :: k in Release(results, Span(lo, hi)) ==>
              Release(results, Span(lo, hi))[k] == if lo <= k < hi then Done else results[k]
    decreases hi - lo
  {
    if lo < hi {
      assert Span(lo, hi)[1..] == Span(lo + 1, hi);
      ReleaseAll(results[lo := Done], lo + 1, hi);
    }
  }

  lemma PushHands<T>(c: Channel<T>, accepted: seq<T>, calls: nat, msg: T)
    requires Meets(c, accepted, calls, false) && calls > |accepted|
    ensures Meets(Push(c, msg), accepted + [msg], calls, false)
  {
    assert c.queue == [] && c.waiters[0] == |accepted|;
    assert Span(|accepted|, calls)[1..] == Span(|accepted| + 1, calls);
    hide Span;
  }

  lemma PushQueues<T>(c: Channel<T>, accepted: seq<T>, calls: nat, msg: T)
    requires Meets(c, accepted, calls, false) && calls <= |accepted|
    ensures Meets(Push(c, msg), accepted + [msg], calls, false)
  {
    assert Span(calls, calls) == [] && c.waiters == [];
    assert (accepted + [msg])[calls..] == accepted[calls..] + [msg];
    hide Span;
  }

  lemma PushMeets<T>(c: Channel<T>, accepted: seq<T>, calls: nat, ended: bool, msg: T)
    requires Meets(c, accepted, calls, ended)
    ensures Meets(Push(c, msg), if ended then accepted else accepted + [msg], calls, ended)
  {
    if !ended {
      hide Meets, Push;
      if calls > |accepted| { PushHands(c, accepted, calls, msg); } else { PushQueues(c, accepted, calls, msg); }
    }
  }

  lemma EndMeets<T>(c: Channel<T>, accepted: seq<T>, calls: nat, ended: bool)
    requires Meets(c, accepted, calls, ended)
    ensures Meets(End(c), accepted, calls, true)
  {
    if !ended {
      ReleaseAll(c.results, Least(calls, |accepted|), calls);
    }
  }

  lemma NextTakes<T>(c: Channel<T>, accepted: seq<T>, calls: nat, ended: bool)
    requires Meets(c, accepted, calls, ended) && calls < |accepted|
    ensures Meets(Next(c), accepted, calls + 1, ended)
  {
    assert c.queue[0] == accepted[calls] && c.queue[1..] == accepted[calls + 1..];
    assert Span(calls, calls) == [] && Span(calls + 1, calls + 1) == [];
    hide Span;
  }

  lemma NextWaits<T>(c: Channel<T>, accepted: seq<T>, calls: nat, ended: bool)
    requires Meets(c, accepted, calls, ended) && calls >= |accepted|
    ensures Meets(Next(c), accepted, calls + 1, ended)
  {
    assert c.queue == [];
    assert Span(|accepted|, calls) + [calls] == Span(|accepted|, calls + 1);
    hide Span;
  }

  lemma NextMeets<T>(c: Channel<T>, accepted: seq<T>, calls: nat, ended: bool)
    requires Meets(c, accepted, calls, ended)
    ensures Meets(Next(c), accepted, calls + 1, ended)
  {
    hide Meets, Next;
    if calls < |accepted| { NextTakes(c, accepted, calls, ended); } else { NextWaits(c, accepted, calls, ended); }
  }

  /** Over any sequence of pushes, ends and calls. */
  lemma {:induction false} ChannelIsFifo<T>(ops: seq<Op<T>>)
    ensures Meets(After(ops), Accepted(ops), Calls(ops), Ended(ops))
  {
    hide Meets, Push, End, Next;
    if ops == [] {
      EmptyMeets<T>();
    } else {
      var init, last := ops[..|ops| - 1], ops[|ops| - 1];
      ChannelIsFifo(init);
      assert ops == init + [last];
      assert Accepted(init) + [] == Accepted(init);
      match last {
        case DoPush(msg) => PushMeets(After(init), Accepted(init), Calls(init), Ended(init), msg);
        case DoEnd => EndMeets(After(init), Accepted(init), Calls(init), Ended(init));
        case DoNext => NextMeets(After(init), Accepted(init), Calls(init), Ended(init));
      }
    }
  }

  lemma EmptyMeets<T>()
    ensures Meets(Empty<T>(), [], 0, false)
  {
  }

  /** Queue and waiters are never both non-empty; the k-th call gets the k-th accepted message; a call is told the
    * stream is over only once it has ended and every accepted message has gone to an earlier call. */
  lemma FifoFacts<T>(ops: seq<Op<T>>, k: nat)
    ensures var c, accepted := After(ops), Accepted(ops);
            && (c.queue == [] || c.waiters == [])
            && (k < c.calls && k < |accepted| ==> k in c.results && c.results[k] == Item(accepted[k]))
            && (k in c.results && c.results[k] == Done ==>
                  Ended(ops) && c.queue == [] && |accepted| <= k
                  && forall j :: 0 <= j < |accepted| ==> j in c.results && c.results[j] == Item(accepted[j]))
  {
    hide After, Accepted, Ended;
    ChannelIsFifo(ops);
  }
}
