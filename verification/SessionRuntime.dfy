/** Per-session event ring with monotone cursors, a continuously folded snapshot, and live fan-out. */
module SessionRuntime {
  import opened Options
  import opened Timeline

  datatype Event = Event(cursor: nat, delta: Delta)

  /** A response to `subscribe`. */
  datatype Response = Response(req: nat, settled: seq<Item>, cursor: nat, epoch: nat, recovered: bool)

  datatype Frame = ResponseFrame(response: Response) | EventFrame(event: Event)

  /** The replication-relevant fields of a session runtime. */
  datatype Runtime = Runtime(
    buffer: seq<Event>,
    next: nat,
    cap: nat,
    settled: Option<seq<Item>>,
    settledCursor: nat,
    queryLive: bool)

  function Fresh(cap: nat): Runtime {
    Runtime([], 1, cap, None, 0, false)
  }

  function Current(rt: Runtime): int {
    rt.next - 1
  }

  function Oldest(rt: Runtime): Option<nat> {
    if rt.buffer == [] then None else Some(rt.buffer[0].cursor)
  }

  function Push(rt: Runtime, d: Delta): Runtime {
    var buffer := rt.buffer + [Event(rt.next, d)];
    var kept := if |buffer| > rt.cap then buffer[1..] else buffer;
    match rt.settled
    case None => rt.(buffer := kept, next := rt.next + 1)
    case Some(xs) => rt.(buffer := kept, next := rt.next + 1, settled := Some(FoldDelta(xs, d)), settledCursor := rt.next)
  }

  /** Buffered events from the first one past `since` onwards. */
  function Replay(buffer: seq<Event>, since: int): seq<Event> {
    if buffer == [] || buffer[0].cursor > since then buffer else Replay(buffer[1..], since)
  }

  function Frames(es: seq<Event>): seq<Frame> {
    seq(|es|, i requires 0 <= i < |es| => EventFrame(es[i]))
  }

  // ---- lifecycle of the SDK loop ----

  function SeedCreate(rt: Runtime): Runtime {
    rt.(settled := Some([]), settledCursor := 0, queryLive := true)
  }

  function SpawnResume(rt: Runtime): Runtime {
    rt.(queryLive := true)
  }

  function LoopExit(rt: Runtime): Runtime {
    rt.(settled := None, settledCursor := 0, queryLive := false)
  }

  function DisposeQuery(rt: Runtime): Runtime {
    rt.(queryLive := false)
  }

  // ---- what the ring holds ----

  /** Events with cursors lo+1 .. hi of a log. */
  function Slice(log: seq<Delta>, lo: nat, hi: nat): seq<Event>
    requires lo <= hi <= |log|
  {
    seq(hi - lo, i requires 0 <= i < hi - lo => Event(lo + i + 1, log[lo + i]))
  }

  function RingStart(log: seq<Delta>, cap: nat): nat {
    if |log| <= cap then 0 else |log| - cap
  }

  /** The ring is the newest `cap` events of the log. */
  ghost predicate RingHolds(rt: Runtime, log: seq<Delta>) {
    rt.next == |log| + 1 && rt.buffer == Slice(log, RingStart(log, rt.cap), |log|)
  }

  lemma PushKeepsRing(rt: Runtime, log: seq<Delta>, d: Delta)
    requires RingHolds(rt, log)
    ensures RingHolds(Push(rt, d), log + [d])
  {
    var lo := RingStart(log, rt.cap);
    assert Slice(log + [d], lo, |log| + 1) == rt.buffer + [Event(rt.next, d)];
  }

  /** Replaying from the ring yields every logged event past `since` that has not been evicted. */
  lemma {:induction false} ReplaySlice(log: seq<Delta>, lo: nat, since: nat)
    requires lo <= |log| && since <= |log|
    ensures var s := if since < lo then lo else since;
            Replay(Slice(log, lo, |log|), since) == Slice(log, s, |log|)
    decreases |log| - lo
  {
    if lo < |log| && lo < since {
      assert Slice(log, lo, |log|)[1..] == Slice(log, lo + 1, |log|);
      ReplaySlice(log, lo + 1, since);
    } else if lo == |log| {
      assert Slice(log, lo, |log|) == [];
    }
  }

  /** One connected client, as the daemon's fan-out callbacks see it. */
  class Peer {
    var sent: seq<Frame>

    constructor ()
      ensures sent == []
    {
      sent := [];
    }

    method Send(f: Frame)
      modifies this
      ensures sent == old(sent) + [f]
    {
      sent := sent + [f];
    }
  }

  predicate Distinct(ps: seq<Peer>) {
    forall i, j :: 0 <= i < j < |ps| ==> ps[i] != ps[j]
  }

  method FanOut(ps: seq<Peer>, f: Frame)
    requires Distinct(ps)
    modifies ps
    ensures forall p :: p in ps ==> p.sent == old(p.sent) + [f]
  {
    for i := 0 to |ps|
      invariant forall j :: 0 <= j < i ==> ps[j].sent == old(ps[j].sent) + [f]
      invariant forall j :: i <= j < |ps| ==> ps[j].sent == old(ps[j].sent)
    {
      ps[i].Send(f);
    }
  }

  method SendAll(p: Peer, es: seq<Event>)
    modifies p
    ensures p.sent == old(p.sent) + Frames(es)
  {
    for i := 0 to |es|
      invariant p.sent == old(p.sent) + Frames(es[..i])
    {
      p.Send(EventFrame(es[i]));
    }
  }

  class LiveRuntime {
    const bufferCap: nat
    var buffer: seq<Event>
    var nextCursor: nat
    var settled: Option<seq<Item>>
    var settledCursor: nat
    var query: bool
    var subscribers: seq<Peer>

    ghost predicate Valid()
      reads this
    {
      nextCursor >= 1 && Distinct(subscribers)
    }

    ghost function State(): Runtime
      reads this
    {
      Runtime(buffer, nextCursor, bufferCap, settled, settledCursor, query)
    }

    constructor (cap: nat)
      ensures Valid() && State() == Fresh(cap) && subscribers == []
    {
      bufferCap := cap;
      buffer, nextCursor := [], 1;
      settled, settledCursor, query := None, 0, false;
      subscribers := [];
    }

    /** Assign the next cursor, push, evict, fold, then fan out to every subscriber. */
    method AddEvent(payload: Delta)
      requires Valid()
      modifies this, subscribers
      ensures Valid() && subscribers == old(subscribers)
      ensures State() == Push(old(State()), payload)
      ensures forall p :: p in subscribers ==> p.sent == old(p.sent) + [EventFrame(Event(old(nextCursor), payload))]
    {
      var event := Event(nextCursor, payload);
      nextCursor := nextCursor + 1;
      buffer := buffer + [event];
      if |buffer| > bufferCap {
        buffer := buffer[1..];
      }
      if settled.Some? {
        var list := new SettledList(settled.value);
        list.FoldEventDelta(payload);
        settled := Some(list.items);
        settledCursor := event.cursor;
      }
      FanOut(subscribers, EventFrame(event));
    }

    /** Replay the ring past `since` to `cb`, then register it. */
    method Subscribe(cb: Peer, since: nat)
      requires Valid() && cb !in subscribers
      modifies this`subscribers, cb
      ensures Valid() && subscribers == old(subscribers) + [cb]
      ensures State() == old(State())
      ensures cb.sent == old(cb.sent) + Frames(Replay(buffer, since))
    {
      var start := 0;
      while start < |buffer| && buffer[start].cursor <= since
        invariant 0 <= start <= |buffer|
        invariant Replay(buffer, since) == Replay(buffer[start..], since)
      {
        assert buffer[start..][1..] == buffer[start + 1..];
        start := start + 1;
      }
      var replay := buffer[start..];
      assert Replay(buffer, since) == replay;
      SendAll(cb, replay);
      subscribers := subscribers + [cb];
    }

    /** Remove `cb` if present; a second call changes nothing. */
    method Unsubscribe(cb: Peer)
      requires Valid()
      modifies this`subscribers
      ensures Valid() && State() == old(State())
      ensures cb !in subscribers
      ensures forall p :: p in subscribers <==> p in old(subscribers) && p != cb
      ensures cb !in old(subscribers) ==> subscribers == old(subscribers)
    {
      var i := 0;
      while i < |subscribers| && subscribers[i] != cb
        invariant 0 <= i <= |subscribers|
        invariant cb !in subscribers[..i]
      {
        i := i + 1;
      }
      if i < |subscribers| {
        ghost var was := subscribers;
        subscribers := subscribers[..i] + subscribers[i + 1..];
        forall p | p in was && p != cb ensures p in subscribers {
          var j :| 0 <= j < |was| && was[j] == p;
          assert subscribers[if j < i then j else j - 1] == p;
        }
      }
    }
  }
}
