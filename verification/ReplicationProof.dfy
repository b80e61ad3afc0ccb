/** Every step of the replication system keeps its invariant; what the client shows follows. */
module ReplicationProof {
  import opened Options
  import opened Timeline
  import opened Collection
  import opened SessionRuntime
  import opened Router
  import opened Replication

  /** Logs only grow, epochs are only added. */
  ghost predicate Extends(s: System, t: System) {
    && |s.logs| <= |t.logs| && |s.bases| == |s.logs| && |t.bases| == |t.logs|
    && forall e :: 0 <= e < |s.logs| ==> s.bases[e] == t.bases[e] && s.logs[e] <= t.logs[e]
  }

  lemma TruthStable(s: System, t: System, e: nat, c: nat)
    requires Extends(s, t) && e < |s.logs| && c <= |s.logs[e]|
    ensures TruthAt(t, e, c) == TruthAt(s, e, c)
  {
    assert t.logs[e][..c] == s.logs[e][..c];
  }

  lemma ContentStable(s: System, t: System, c: Client)
    requires DaemonInv(s) && DaemonInv(t) && Extends(s, t) && ContentInv(s, c)
    ensures ContentInv(t, c)
  {
    if c.epoch.Some? {
      var a, b := s.logs[c.epoch.value], t.logs[c.epoch.value];
      ComesFromStable(c.snapshot, c.source, a, b, c.origin);
      assert b[c.origin..c.applied] == a[c.origin..c.applied];
    }
  }

  lemma ComesFromStable(items: seq<Item>, source: Source, a: seq<Delta>, b: seq<Delta>, upTo: nat)
    requires ComesFrom(items, source, a, upTo) && a <= b
    ensures ComesFrom(items, source, b, upTo)
  {
    assert b[source.at..upTo] == a[source.at..upTo];
  }

  lemma SliceStable(a: seq<Delta>, b: seq<Delta>, lo: nat, hi: nat)
    requires a <= b && lo <= hi <= |a|
    ensures Slice(a, lo, hi) == Slice(b, lo, hi)
  {}

  /** A tail on a dead link stays a slice of its own epoch's log, whatever the daemon does. */
  lemma TailStable(s: System, t: System, l: Link, m: Link, frames: seq<Packet>, e: nat, lo: nat)
    requires DaemonInv(s) && DaemonInv(t) && Extends(s, t) && EventTail(s, l, frames, e, lo) && !m.open
    ensures EventTail(t, m, frames, e, lo)
  {
    SliceStable(s.logs[e], t.logs[e], lo, lo + |frames|);
  }

  lemma TailPrefix(s: System, l: Link, m: Link, frames: seq<Packet>, e: nat, lo: nat, k: nat)
    requires DaemonInv(s) && EventTail(s, l, frames, e, lo) && !m.open && k <= |frames|
    ensures EventTail(s, m, frames[..k], e, lo)
  {
    assert Slice(s.logs[e], lo, lo + |frames|)[..k] == Slice(s.logs[e], lo, lo + k);
  }

  // ---- AddEvent ----

  lemma TailLength(s: System, l: Link, frames: seq<Packet>, e: nat, lo: nat)
    requires DaemonInv(s) && EventTail(s, l, frames, e, lo)
    ensures e < |s.logs| && lo <= |s.logs[e]|
  {}

  lemma AddEventTruth(s: System, d: Delta)
    requires Shaped(s)
    ensures var t := AddEvent(s, d);
            && Shaped(t) && Epoch(t) == Epoch(s) && Log(t) == Log(s) + [d] && Extends(s, t) && t.bases == s.bases
            && t.rt == Push(s.rt, d) && Truth(t) == FoldDelta(Truth(s), d)
  {
    hide FoldDelta;
    var log := Log(s);
    assert (log + [d])[..|log| + 1] == log + [d] && (log + [d])[..|log|] == log && log[..|log|] == log;
  }

  lemma AddEventKeys(s: System, d: Delta)
    requires Shaped(s) && KeysInv(s) && KeysUnique(FoldDelta(Truth(s), d))
    ensures KeysInv(AddEvent(s, d))
  {
    hide KeysUnique, FoldDelta, Push;
    var t := AddEvent(s, d);
    AddEventTruth(s, d);
    assert Log(t)[..|Log(t)|] == Log(t);
    forall e | 0 <= e < |t.logs| ensures KeysUnique(FoldAll(t.bases[e], t.logs[e])) {
    }
  }

  lemma AddEventSnapshot(s: System, d: Delta)
    requires Shaped(s) && SnapshotInv(s) && s.rt.next == |Log(s)| + 1
    ensures Shaped(AddEvent(s, d)) && SnapshotInv(AddEvent(s, d))
  {
    hide FoldDelta;
    AddEventTruth(s, d);
    if s.rt.settled.Some? { ComesFromStep(s.rt.settled.value, s.source, Log(s), d); }
  }

  lemma ComesFromStep(items: seq<Item>, source: Source, log: seq<Delta>, d: Delta)
    requires ComesFrom(items, source, log, |log|)
    ensures ComesFrom(FoldDelta(items, d), source, log + [d], |log| + 1)
  {
    var ds := log[source.at..|log|];
    assert (log + [d])[source.at..|log| + 1] == ds + [d] && (ds + [d])[..|ds|] == ds;
  }

  lemma AddEventDaemon(s: System, d: Delta)
    requires DaemonInv(s) && KeysUnique(FoldDelta(Truth(s), d))
    ensures DaemonInv(AddEvent(s, d)) && Extends(s, AddEvent(s, d))
    ensures Truth(AddEvent(s, d)) == FoldDelta(Truth(s), d)
  {
    hide KeysInv, KeysUnique, SnapshotInv, FoldDelta;
    AddEventTruth(s, d);
    AddEventKeys(s, d);
    AddEventSnapshot(s, d);
    PushKeepsRing(s.rt, Log(s), d);
  }

  lemma SliceGrows(log: seq<Delta>, d: Delta, lo: nat)
    requires lo <= |log|
    ensures Packets(Slice(log + [d], lo, |log| + 1)) == Packets(Slice(log, lo, |log|)) + [EventPacket(Event(|log| + 1, d))]
  {}

  lemma RingNext(s: System)
    requires DaemonInv(s)
    ensures s.rt.next == |Log(s)| + 1
  {}

  lemma AddEventTail(s: System, d: Delta, l: Link, frames: seq<Packet>, e: nat, lo: nat)
    requires DaemonInv(s) && KeysUnique(FoldDelta(Truth(s), d)) && EventTail(s, l, frames, e, lo)
    ensures DaemonInv(AddEvent(s, d))
    ensures var more := if l.open then [EventPacket(Event(s.rt.next, d))] else [];
            EventTail(AddEvent(s, d), l, frames + more, e, lo)
  {
    hide KeysInv, RingHolds, SnapshotInv, KeysUnique, FoldDelta, FoldAll, Slice;
    AddEventTruth(s, d);
    AddEventDaemon(s, d);
    RingNext(s);
    if l.open {
      SliceGrows(Log(s), d, lo);
    } else {
      TailStable(s, AddEvent(s, d), l, l, frames, e, lo);
      assert frames + [] == frames;
    }
  }

  lemma AddEventInv(s: System, d: Delta)
    requires Inv(s) && KeysUnique(FoldDelta(Truth(s), d))
    ensures Inv(AddEvent(s, d))
  {
    AddEventDaemon(s, d);
    var t := AddEvent(s, d);
    if s.client.Some? {
      var c := s.client.value;
      ContentStable(s, t, c);
      if c.phase.Live? {
        AddEventTail(s, d, s.link.value, s.link.value.down, c.epoch.value, c.applied);
        assert s.link.value.down + [] == s.link.value.down;
      } else if c.phase.Waiting? {
        AddEventWaiting(s, d, s.link.value, t.link.value, c, c.phase.req);
      }
    }
  }

  lemma AnswerAtAppend(down: seq<Packet>, more: seq<Packet>, req: nat)
    ensures AnswerAt(down, req) < |down| ==> AnswerAt(down + more, req) == AnswerAt(down, req)
    ensures AnswerAt(down, req) == |down| ==> AnswerAt(down + more, req) == |down| + AnswerAt(more, req)
  {
    if down == [] {
      assert down + more == more;
    } else {
      assert (down + more)[1..] == down[1..] + more;
      assert (down + more)[0] == down[0];
      if !Answers(down[0], req) {
        AnswerAtAppend(down[1..], more, req);
      }
    }
  }

  lemma AddEventWaiting(s: System, d: Delta, l: Link, m: Link, c: Client, req: nat)
    requires DaemonInv(s) && KeysUnique(FoldDelta(Truth(s), d)) && s.link == Some(l)
    requires WaitingInv(s, l, c, req) && AddEvent(s, d).link == Some(m)
    ensures DaemonInv(AddEvent(s, d)) && WaitingInv(AddEvent(s, d), m, c, req)
  {
    hide KeysInv, SnapshotInv, RingHolds, KeysUnique, ComesFrom, EventTail, Slice;
    AddEventDaemon(s, d);
    var k := AnswerAt(l.down, req);
    if k < |l.down| {
      AddEventFound(s, AddEvent(s, d), d, l, m, c, req, k);
    } else {
      NoAnswer(m.down, req);
    }
  }

  lemma LinkAfterAddEvent(s: System, d: Delta, l: Link)
    requires Shaped(s) && s.link == Some(l) && (l.open ==> s.subscribed)
    ensures AddEvent(s, d).link ==
            Some(l.(down := l.down + if l.open then [EventPacket(Event(s.rt.next, d))] else []))
  {
    assert l.down + [] == l.down;
  }

  lemma AddEventFound(s: System, t: System, d: Delta, l: Link, m: Link, c: Client, req: nat, k: nat)
    requires DaemonInv(s) && KeysUnique(FoldDelta(Truth(s), d)) && DaemonInv(t) && t == AddEvent(s, d)
    requires s.link == Some(l) && t.link == Some(m) && req < s.nextReq && k == AnswerAt(l.down, req) < |l.down|
    requires l.up == [] && (c.epoch.Some? ==> k == 0) && ResponseInv(s, l, c, l.down[k], l.down[k + 1..])
    ensures WaitingInv(t, m, c, req)
  {
    hide KeysInv, SnapshotInv, RingHolds, KeysUnique, ComesFrom, Slice, EventTail;
    var more := if l.open then [EventPacket(Event(s.rt.next, d))] else [];
    var (before, p, rest) := (l.down[..k], l.down[k], l.down[k + 1..]);
    AddEventAnswered(s, d, l, c, p, rest);
    OpenIsSubscribed(s, l, c, p, rest);
    LinkAfterAddEvent(s, d, l);
    assert m.down == before + [p] + (rest + more);
    ResponseStable(t, t, l, m, c, p, rest + more);
    AwaitedServed(t, before, m, c, req, p, rest + more);
  }

  lemma OpenIsSubscribed(s: System, l: Link, c: Client, p: Packet, rest: seq<Packet>)
    requires DaemonInv(s) && p.ResponsePacket? && ResponseInv(s, l, c, p, rest)
    ensures l.open ==> s.subscribed
  {}

  lemma AddEventAnswered(s: System, d: Delta, l: Link, c: Client, p: Packet, rest: seq<Packet>)
    requires DaemonInv(s) && KeysUnique(FoldDelta(Truth(s), d)) && p.ResponsePacket? && ResponseInv(s, l, c, p, rest)
    ensures DaemonInv(AddEvent(s, d))
    ensures var more := if l.open then [EventPacket(Event(s.rt.next, d))] else [];
            ResponseInv(AddEvent(s, d), l, c, p, rest + more)
  {
    AddEventDaemon(s, d);
    var lo := if p.response.recovered then c.cursor.value else p.origin;
    AddEventTail(s, d, l, rest, p.response.epoch, lo);
    if !p.response.recovered {
      ComesFromStable(p.response.settled, p.source, s.logs[p.response.epoch], AddEvent(s, d).logs[p.response.epoch], p.origin);
    }
  }

  // ---- Serve ----

  lemma OriginIsReplayStart(s: System, since: nat)
    requires DaemonInv(s) && since <= |Log(s)|
    ensures Origin(s, since) <= |Log(s)|
    ensures Replay(s.rt.buffer, since) == Slice(Log(s), Origin(s, since), |Log(s)|)
  {
    ReplaySlice(Log(s), RingStart(Log(s), s.rt.cap), since);
  }

  lemma FreshSource(items: seq<Item>, log: seq<Delta>)
    ensures ComesFrom(items, Source(items, |log|), log, |log|)
  {
    assert log[|log|..|log|] == [];
  }

  lemma HandleDaemon(s: System, cmd: Command, disk: seq<Item>)
    requires DaemonInv(s)
    ensures var out := Handle(s.rt, cmd, Epoch(s), disk);
            DaemonInv(ServeOther(s, cmd, disk)) && out.rt.buffer == s.rt.buffer && out.rt.next == s.rt.next
  {
    hide KeysInv, FoldAll;
    FreshSource(disk, Log(s));
    assert RingHolds(Handle(s.rt, cmd, Epoch(s), disk).rt, Log(s));
    KeysStable(s, ServeOther(s, cmd, disk));
  }

  lemma KeysStable(s: System, t: System)
    requires KeysInv(s) && t.logs == s.logs && t.bases == s.bases
    ensures KeysInv(t)
  {}

  /** The daemon's invariant looks at its logs and its runtime only. */
  lemma DaemonStable(s: System, t: System)
    requires DaemonInv(s) && t.logs == s.logs && t.bases == s.bases && t.rt == s.rt && t.source == s.source
    ensures DaemonInv(t)
  {
    hide KeysInv, RingHolds;
    KeysStable(s, t);
  }

  /** The answer to the request the client waits for is right, and its replay is the rest of the log. */
  lemma ServedResponse(s: System, c: Client, l: Link, cmd: Command, disk: seq<Item>)
    requires DaemonInv(s) && ContentInv(s, c) && cmd == Hints(c, cmd.req)
    requires l.open && s.subscribed
    ensures var (out, p) := Respond(s, cmd, disk);
            ResponseInv(s, l, c, p, Packets(Replay(out.rt.buffer, out.since)))
  {
    var (out, p) := Respond(s, cmd, disk);
    HandleDaemon(s, cmd, disk);
    assert out.since <= |Log(s)|;
    OriginIsReplayStart(s, out.since);
    if out.response.recovered {
      WarmReplaysMissedSlice(s.rt, Log(s), cmd, Epoch(s), disk);
      assert Packets(Slice(Log(s), out.since, |Log(s)|)) == Packets(Replay(out.rt.buffer, out.since));
    }
  }

  lemma AfterServe(s: System, l: Link, cmd: Command, disk: seq<Item>)
    requires Shaped(s) && s.link == Some(l) && l.open && l.up != [] && l.up[0] == Subscribe(cmd)
    ensures var (out, p) := Respond(s, cmd, disk);
            var tail := Packets(Replay(out.rt.buffer, out.since));
            Serve(s, disk) == s.(rt := out.rt, source := SourceAfter(s, cmd, disk), subscribed := true, link := Some(Link(l.up[1..], l.down + [p] + tail, true)))
  {}

  lemma WireGrows(l: Link, p: Packet, tail: seq<Packet>, nextReq: nat)
    requires WireInv(l, nextReq) && l.open && l.up != [] && p.ResponsePacket? && p.response.req < nextReq
    requires forall i :: 0 <= i < |tail| ==> tail[i].EventPacket?
    ensures WireInv(Link(l.up[1..], l.down + [p] + tail, true), nextReq)
  {}

  lemma ServeDaemon(s: System, disk: seq<Item>)
    requires Inv(s) && Enabled(s, ServeStep(disk))
    ensures DaemonInv(Serve(s, disk)) && Serve(s, disk).logs == s.logs && Serve(s, disk).bases == s.bases
    ensures WireInv(Serve(s, disk).link.value, s.nextReq)
  {
    hide KeysInv, RingHolds, SnapshotInv, ClientInv, Handle, SourceAfter;
    var l := s.link.value;
    if l.up[0].Subscribe? {
      var cmd := l.up[0].cmd;
      AfterServe(s, l, cmd, disk);
      HandleDaemon(s, cmd, disk);
      DaemonStable(ServeOther(s, cmd, disk), Serve(s, disk));
      RespondShape(s, cmd, disk);
      var (out, p) := Respond(s, cmd, disk);
      WireGrows(l, p, Packets(Replay(out.rt.buffer, out.since)), s.nextReq);
    } else {
      DaemonStable(s, Serve(s, disk));
    }
  }

  lemma RespondShape(s: System, cmd: Command, disk: seq<Item>)
    requires Shaped(s)
    ensures var p := Respond(s, cmd, disk).1;
            p.ResponsePacket? && p.response.req == cmd.req && p.response.epoch == Epoch(s)
  {}

  lemma ServeInv(s: System, disk: seq<Item>)
    requires Inv(s) && Enabled(s, ServeStep(disk))
    ensures Inv(Serve(s, disk))
  {
    hide KeysInv, RingHolds, SnapshotInv, EventTail, Handle, SourceAfter;
    ServeDaemon(s, disk);
    if s.client.Some? {
      var c := s.client.value;
      ContentStable(s, Serve(s, disk), c);
      assert c.phase.Waiting?;
      if s.link.value.up[0].Unsubscribe? {
        ServeUnsubscribe(s, c, c.phase.req, disk);
      } else {
        ServeSubscribe(s, s.link.value, c, c.phase.req, s.link.value.up[0].cmd, disk);
      }
    }
  }

  lemma ServeUnsubscribe(s: System, c: Client, req: nat, disk: seq<Item>)
    requires Inv(s) && Enabled(s, ServeStep(disk)) && s.client == Some(c) && c.phase == Waiting(req)
    requires s.link.value.up[0].Unsubscribe? && DaemonInv(Serve(s, disk))
    ensures WaitingInv(Serve(s, disk), Serve(s, disk).link.value, c, req)
  {
    hide KeysInv, RingHolds, SnapshotInv, EventTail, ContentInv;
    var l := s.link.value;
    assert AnswerAt(l.down, req) == |l.down|;
    assert |l.up| > 1;
  }

  lemma ServeSubscribe(s: System, l: Link, c: Client, req: nat, cmd: Command, disk: seq<Item>)
    requires DaemonInv(s) && ContentInv(s, c) && WaitingInv(s, l, c, req) && s.link == Some(l) && l.open
    requires l.up != [] && l.up[0] == Subscribe(cmd) && DaemonInv(Serve(s, disk))
    ensures Serve(s, disk).link.Some? && WaitingInv(Serve(s, disk), Serve(s, disk).link.value, c, req)
  {
    hide KeysInv, RingHolds, SnapshotInv, EventTail, ContentInv, Handle, SourceAfter;
    AfterServe(s, l, cmd, disk);
    RespondShape(s, cmd, disk);
    var (out, p) := Respond(s, cmd, disk);
    var tail := Packets(Replay(out.rt.buffer, out.since));
    if |l.up| == 1 {
      ServeAwaited(s, Serve(s, disk), l, Serve(s, disk).link.value, c, req, cmd, disk, p, tail);
    } else {
      NoAnswer(l.down + [p] + tail, req);
    }
  }

  lemma ServeAwaited(s: System, t: System, l: Link, m: Link, c: Client, req: nat, cmd: Command, disk: seq<Item>,
                     p: Packet, tail: seq<Packet>)
    requires DaemonInv(s) && ContentInv(s, c) && WaitingInv(s, l, c, req) && l.open
    requires l.up == [Subscribe(cmd)] && m == Link([], l.down + [p] + tail, true)
    requires DaemonInv(t) && t.logs == s.logs && t.bases == s.bases && t.subscribed && t.nextReq == s.nextReq
    requires var (out, q) := Respond(s, cmd, disk); p == q && tail == Packets(Replay(out.rt.buffer, out.since))
    ensures WaitingInv(t, m, c, req)
  {
    hide KeysInv, RingHolds, SnapshotInv, EventTail, ComesFrom, Handle, Replay, ResponseInv;
    assert cmd == Hints(c, req);
    var u := s.(subscribed := true);
    DaemonStable(s, u);
    SubscribedResponds(s, u, c, cmd, disk);
    RespondShape(s, cmd, disk);
    ServedResponse(u, c, l, cmd, disk);
    ResponseStable(u, t, l, m, c, p, tail);
    AwaitedServed(t, l.down, m, c, req, p, tail);
  }

  /** Who is subscribed does not matter to an answer, nor to what the client stands for. */
  lemma SubscribedResponds(s: System, u: System, c: Client, cmd: Command, disk: seq<Item>)
    requires DaemonInv(s) && DaemonInv(u) && u == s.(subscribed := true) && ContentInv(s, c)
    ensures Respond(u, cmd, disk) == Respond(s, cmd, disk) && ContentInv(u, c)
  {
    hide KeysInv, RingHolds, SnapshotInv, ComesFrom, Handle, FoldAll, ApplyAll, Ingest;
  }

  /** A link whose first answer to `req` is `p`, followed by `tail`, satisfies the waiting client's invariant. */
  lemma AwaitedServed(t: System, before: seq<Packet>, m: Link, c: Client, req: nat, p: Packet, tail: seq<Packet>)
    requires DaemonInv(t) && req < t.nextReq && m.up == [] && m.down == before + [p] + tail
    requires (forall i :: 0 <= i < |before| ==> !Answers(before[i], req)) && Answers(p, req)
    requires c.epoch.Some? ==> before == []
    requires ResponseInv(t, m, c, p, tail)
    ensures WaitingInv(t, m, c, req)
  {
    hide KeysInv, RingHolds, SnapshotInv, ResponseInv, EventTail;
    NoAnswer(before, req);
    AnswerAtAppend(before, [p] + tail, req);
    assert m.down == before + ([p] + tail);
    assert ([p] + tail)[0] == p;
    assert m.down[|before| + 1..] == tail;
  }

  lemma ResponseStable(s: System, t: System, l: Link, m: Link, c: Client, p: Packet, rest: seq<Packet>)
    requires DaemonInv(s) && DaemonInv(t) && t.logs == s.logs && t.bases == s.bases && t.subscribed == s.subscribed
    requires m.open == l.open && p.ResponsePacket? && ResponseInv(s, l, c, p, rest)
    ensures ResponseInv(t, m, c, p, rest)
  {}

  lemma NoAnswer(ps: seq<Packet>, req: nat)
    requires forall i :: 0 <= i < |ps| ==> !Answers(ps[i], req)
    ensures AnswerAt(ps, req) == |ps|
  {}

  // ---- Deliver ----

  lemma TailHead(s: System, l: Link, m: Link, frames: seq<Packet>, e: nat, lo: nat)
    requires DaemonInv(s) && EventTail(s, l, frames, e, lo) && frames != [] && m.open == l.open
    ensures frames[0] == EventPacket(Event(lo + 1, s.logs[e][lo]))
    ensures EventTail(s, m, frames[1..], e, lo + 1)
  {
    assert Slice(s.logs[e], lo, lo + |frames|)[1..] == Slice(s.logs[e], lo + 1, lo + |frames|);
  }

  lemma ApplyAllStep(rows: Rows, log: seq<Delta>, lo: nat, hi: nat)
    requires lo <= hi < |log|
    ensures ApplyAll(rows, log[lo..hi + 1]) == ApplyEvent(ApplyAll(rows, log[lo..hi]), log[hi])
  {
    assert log[lo..hi + 1][..hi - lo] == log[lo..hi];
  }

  lemma PrefixUnique(s: System, e: nat, c: nat)
    requires DaemonInv(s) && e < |s.logs| && c <= |s.logs[e]|
    ensures KeysUnique(TruthAt(s, e, c))
  {
    FoldAllKeysPrefix(s.bases[e], s.logs[e], c);
    UniqueKeysPrefix(TruthAt(s, e, c), FoldAll(s.bases[e], s.logs[e]));
  }

  /** Consuming the next event of the tail moves the rows one log position forward. */
  lemma LiveEvent(s: System, l: Link, m: Link, c: Client)
    requires DaemonInv(s) && ContentInv(s, c) && c.phase.Live? && c.epoch.Some? && l.down != [] && m.open == l.open
    requires EventTail(s, l, l.down, c.epoch.value, c.applied)
    ensures var c' := OnPacket(c, l.down[0]);
            && ContentInv(s, c') && c'.phase.Live? && c'.epoch == c.epoch
            && c'.cursor == Some(c'.applied)
            && EventTail(s, m, l.down[1..], c'.epoch.value, c'.applied)
  {
    hide KeysInv, RingHolds, SnapshotInv, FoldDelta, ApplyEvent, ApplyAll, Ingest, ComesFrom, FoldAll, KeysUnique, EventTail;
    var e := c.epoch.value;
    TailLength(s, l, l.down, e, c.applied);
    TailHead(s, l, m, l.down, e, c.applied);
    ApplyAllStep(Ingest(c.snapshot), s.logs[e], c.origin, c.applied);
  }

  /** The awaited response puts the client where the rest of the frames continue. */
  lemma AwaitedResponse(s: System, l: Link, m: Link, c: Client)
    requires DaemonInv(s) && ContentInv(s, c) && l.down != [] && c.phase.Waiting? && Answers(l.down[0], c.phase.req)
    requires ResponseInv(s, l, c, l.down[0], l.down[1..]) && m.open == l.open
    ensures var c' := OnPacket(c, l.down[0]);
            && ContentInv(s, c') && c'.phase.Live? && c'.epoch.Some?
            && EventTail(s, m, l.down[1..], c'.epoch.value, c'.applied)
  {
    var p := l.down[0];
    if !p.response.recovered {
      assert s.logs[p.response.epoch][p.origin..p.origin] == [];
    }
  }

  lemma DeliverInv(s: System)
    requires Inv(s) && Enabled(s, DeliverStep)
    ensures Inv(Deliver(s))
  {
    hide KeysInv, RingHolds, SnapshotInv, ContentInv, WaitingInv, EventTail, OnPacket;
    var t := Deliver(s);
    DaemonStable(s, t);
    if s.client.Some? {
      DeliverClient(s, s.link.value, t.link.value, s.client.value);
      ClientStable(s, t, t.link.value, t.client.value);
    }
  }

  lemma DeliverClient(s: System, l: Link, m: Link, c: Client)
    requires DaemonInv(s) && ClientInv(s, Some(l), c) && l.down != [] && m == l.(down := l.down[1..])
    ensures ClientInv(s, Some(m), OnPacket(c, l.down[0]))
  {
    if c.phase.Live? {
      LiveEvent(s, l, m, c);
    } else if Answers(l.down[0], c.phase.req) {
      AwaitedResponse(s, l, m, c);
    } else {
      StaleFrame(s, l, m, c, c.phase.req);
    }
  }

  /** Client facts only look at the logs, the subscription flag and the request counter. */
  lemma ClientStable(s: System, t: System, l: Link, c: Client)
    requires DaemonInv(s) && DaemonInv(t) && t.logs == s.logs && t.bases == s.bases
    requires t.subscribed == s.subscribed && t.nextReq == s.nextReq
    requires ClientInv(s, Some(l), c)
    ensures ClientInv(t, Some(l), c)
  {}

  /** Frames that precede the awaited response belong to an older subscription and change no hint that counts. */
  lemma StaleFrame(s: System, l: Link, m: Link, c: Client, req: nat)
    requires DaemonInv(s) && ContentInv(s, c) && WaitingInv(s, l, c, req) && c.phase == Waiting(req)
    requires l.down != [] && !Answers(l.down[0], req) && m == l.(down := l.down[1..])
    ensures var c' := OnPacket(c, l.down[0]);
            c'.phase == c.phase && ContentInv(s, c') && WaitingInv(s, m, c', req)
  {
    hide KeysInv, RingHolds, SnapshotInv, ComesFrom, Slice, FoldAll, ApplyAll, ApplyEvent, Ingest;
    var k := AnswerAt(l.down, req);
    assert AnswerAt(m.down, req) == k - 1;
    if k < |l.down| {
      assert m.down[k - 1] == l.down[k] && m.down[k..] == l.down[k + 1..];
      StaleResponse(s, l, m, c, OnPacket(c, l.down[0]), l.down[k], l.down[k + 1..]);
    }
  }

  /** A client without an epoch awaits no warm answer, so what a stale frame does to it is beside the point. */
  lemma StaleResponse(s: System, l: Link, m: Link, c: Client, c': Client, p: Packet, rest: seq<Packet>)
    requires DaemonInv(s) && p.ResponsePacket? && ResponseInv(s, l, c, p, rest) && m.open == l.open && c.epoch.None?
    ensures ResponseInv(s, m, c', p, rest)
  {
    hide KeysInv, RingHolds, SnapshotInv, Slice, FoldAll;
  }

  // ---- the remaining steps ----

  lemma BreakInv(s: System, k: nat)
    requires Inv(s) && Enabled(s, BreakStep(k))
    ensures Inv(Break(s, k))
  {
    var t := Break(s, k);
    var l := s.link.value;
    var m := t.link.value;
    hide KeysInv, RingHolds, SnapshotInv, EventTail, ContentInv, WaitingInv;
    DaemonStable(s, t);
    if s.client.Some? {
      var c := s.client.value;
      ContentStable(s, t, c);
      if c.phase.Live? {
        TailPrefix(s, l, m, l.down, c.epoch.value, c.applied, k);
        TailStable(s, t, m, m, m.down, c.epoch.value, c.applied);
      } else {
        BreakWaiting(s, t, l, m, c, c.phase.req, k);
      }
    }
  }

  lemma AnswerAtPrefix(down: seq<Packet>, k: nat, req: nat)
    requires k <= |down|
    ensures AnswerAt(down[..k], req) == if AnswerAt(down, req) < k then AnswerAt(down, req) else k
  {
    assert down == down[..k] + down[k..];
    AnswerAtAppend(down[..k], down[k..], req);
  }

  lemma BreakWaiting(s: System, t: System, l: Link, m: Link, c: Client, req: nat, k: nat)
    requires DaemonInv(s) && WaitingInv(s, l, c, req) && k <= |l.down| && m == Link([], l.down[..k], false)
    requires DaemonInv(t) && t.logs == s.logs && t.bases == s.bases && t.nextReq == s.nextReq && !t.subscribed
    ensures WaitingInv(t, m, c, req)
  {
    hide KeysInv, RingHolds, SnapshotInv, EventTail, ResponseInv;
    AnswerAtPrefix(l.down, k, req);
    var a := AnswerAt(l.down, req);
    if a < k {
      var rest := l.down[a + 1..];
      ResponseCut(s, t, l, m, c, l.down[a], rest, k - a - 1);
      AwaitedServed(t, l.down[..a], m, c, req, l.down[a], rest[..k - a - 1]);
    }
  }

  lemma ResponseCut(s: System, t: System, l: Link, m: Link, c: Client, p: Packet, rest: seq<Packet>, n: nat)
    requires DaemonInv(s) && DaemonInv(t) && t.logs == s.logs && t.bases == s.bases && !m.open
    requires p.ResponsePacket? && ResponseInv(s, l, c, p, rest) && n <= |rest|
    ensures ResponseInv(t, m, c, p, rest[..n])
  {
    hide KeysInv, RingHolds, SnapshotInv, Slice;
    var lo := if p.response.recovered then c.cursor.value else p.origin;
    TailPrefix(s, l, m, rest, p.response.epoch, lo, n);
  }

  lemma RestartDaemon(s: System, base: seq<Item>)
    requires DaemonInv(s) && KeysUnique(base)
    ensures DaemonInv(Restart(s, base)) && Extends(s, Restart(s, base))
  {
    hide KeysUnique;
    var t := Restart(s, base);
    forall e | 0 <= e < |t.logs| ensures KeysUnique(FoldAll(t.bases[e], t.logs[e])) {
      assert e < |s.logs| ==> KeysUnique(FoldAll(s.bases[e], s.logs[e]));
    }
    assert Log(t) == [] && t.rt.buffer == Slice([], 0, 0);
  }

  /** What a restarted daemon leaves on the wire still answers the client of the old epoch. */
  lemma RestartWaiting(s: System, t: System, l: Link, m: Link, c: Client, req: nat)
    requires DaemonInv(s) && DaemonInv(t) && Extends(s, t) && WaitingInv(s, l, c, req)
    requires m == Link([], l.down, false) && !t.subscribed && t.nextReq == s.nextReq
    ensures WaitingInv(t, m, c, req)
  {
    hide KeysInv, RingHolds, SnapshotInv, EventTail;
    var a := AnswerAt(l.down, req);
    if a < |l.down| {
      var p := l.down[a];
      var lo := if p.response.recovered then c.cursor.value else p.origin;
      TailLength(s, l, l.down[a + 1..], p.response.epoch, lo);
      TailStable(s, t, l, m, l.down[a + 1..], p.response.epoch, lo);
      if !p.response.recovered {
        ComesFromStable(p.response.settled, p.source, s.logs[p.response.epoch], t.logs[p.response.epoch], p.origin);
      }
    }
  }

  lemma RestartInv(s: System, base: seq<Item>)
    requires Inv(s) && KeysUnique(base)
    ensures Inv(Restart(s, base))
  {
    hide KeysInv, RingHolds, SnapshotInv, KeysUnique, ContentInv, WaitingInv, EventTail, Extends;
    var t := Restart(s, base);
    RestartDaemon(s, base);
    if s.client.Some? {
      var c := s.client.value;
      ContentStable(s, t, c);
      if s.link.Some? {
        var l, m := s.link.value, t.link.value;
        if c.phase.Live? {
          TailStable(s, t, l, m, l.down, c.epoch.value, c.applied);
        } else {
          RestartWaiting(s, t, l, m, c, c.phase.req);
        }
      }
    }
  }

  lemma MountInv(s: System, isNew: bool)
    requires Inv(s)
    ensures Inv(Mount(s, isNew))
  {
    hide KeysInv, RingHolds, SnapshotInv, EventTail, ResponseInv;
    DaemonStable(s, Mount(s, isNew));
    if s.link.Some? {
      NoAnswer(s.link.value.down, s.nextReq);
    }
  }

  /** Steps that touch only the runtime's snapshot. */
  lemma RuntimeStepInv(s: System, t: System)
    requires Inv(s) && DaemonInv(t) && t == s.(rt := t.rt, source := t.source)
    ensures Inv(t)
  {
    hide KeysInv, RingHolds, SnapshotInv, WaitingInv, EventTail, ContentInv;
    if s.client.Some? {
      ContentStable(s, t, s.client.value);
      if s.link.Some? { ClientStable(s, t, s.link.value, s.client.value); }
    }
  }

  lemma ConnectInv(s: System)
    requires Inv(s) && s.link.None?
    ensures Inv(Connect(s))
  {
    hide KeysInv, RingHolds, SnapshotInv, EventTail, ContentInv;
    DaemonStable(s, Connect(s));
    if s.client.Some? {
      ContentStable(s, Connect(s), s.client.value);
      PhaseIrrelevant(Connect(s), s.client.value, Connect(s).client.value);
    }
  }

  lemma DisconnectInv(s: System)
    requires Inv(s) && s.link.Some?
    ensures Inv(Disconnect(s))
  {
    hide KeysInv, RingHolds, SnapshotInv, EventTail, ContentInv, WaitingInv;
    DaemonStable(s, Disconnect(s));
    if s.client.Some? {
      ContentStable(s, Disconnect(s), s.client.value);
      PhaseIrrelevant(Disconnect(s), s.client.value, Disconnect(s).client.value);
    }
  }

  lemma PhaseIrrelevant(s: System, c: Client, c': Client)
    requires DaemonInv(s) && ContentInv(s, c) && c' == c.(phase := c'.phase)
    ensures ContentInv(s, c')
  {
    hide KeysInv, RingHolds, SnapshotInv, ComesFrom, ApplyAll, Ingest;
  }

  /** A create, over whatever transcript, leaves a snapshot whose source is on record. */
  lemma SeedDaemon(s: System)
    requires DaemonInv(s)
    ensures DaemonInv(Seed(s))
  {
    hide KeysInv, FoldAll;
    FreshSource([], Log(s));
    KeysStable(s, Seed(s));
  }

  lemma LifecycleDaemon(s: System)
    requires DaemonInv(s)
    ensures DaemonInv(s.(rt := SpawnResume(s.rt))) && DaemonInv(s.(rt := LoopExit(s.rt))) && DaemonInv(s.(rt := DisposeQuery(s.rt)))
  {
    hide KeysInv, FoldAll;
    KeysStable(s, s.(rt := SpawnResume(s.rt)));
    KeysStable(s, s.(rt := LoopExit(s.rt)));
    KeysStable(s, s.(rt := DisposeQuery(s.rt)));
  }

  lemma RuntimeStepsKeepInv(s: System, step: Step)
    requires Inv(s) && Enabled(s, step)
    requires step.SeedStep? || step.SpawnResumeStep? || step.LoopExitStep? || step.DisposeStep? || step.OtherSubscribeStep?
    ensures Inv(Take(s, step))
  {
    hide DaemonInv, ClientInv, WireInv, Handle, SourceAfter;
    if step.OtherSubscribeStep? {
      HandleDaemon(s, step.cmd, step.disk);
    } else if step.SeedStep? {
      SeedDaemon(s);
    } else {
      LifecycleDaemon(s);
    }
    RuntimeStepInv(s, Take(s, step));
  }

  lemma ConsumerStepsKeepInv(s: System, step: Step)
    requires Inv(s) && Enabled(s, step)
    requires step.UnmountStep? || step.LateUnsubscribeStep?
    ensures Inv(Take(s, step))
  {
    hide KeysInv, RingHolds, SnapshotInv, EventTail, ContentInv, WaitingInv;
    DaemonStable(s, Take(s, step));
  }

  lemma StepKeepsInv(s: System, step: Step)
    requires Inv(s) && Enabled(s, step)
    ensures Inv(Take(s, step))
  {
    hide DaemonInv, ClientInv, WireInv;
    match step
    case AddEventStep(d) => AddEventInv(s, d);
    case ServeStep(disk) => ServeInv(s, disk);
    case DeliverStep => DeliverInv(s);
    case MountStep(isNew) => MountInv(s, isNew);
    case UnmountStep | LateUnsubscribeStep => ConsumerStepsKeepInv(s, step);
    case ConnectStep => ConnectInv(s);
    case DisconnectStep => DisconnectInv(s);
    case BreakStep(k) => BreakInv(s, k);
    case RestartStep(base) => RestartInv(s, base);
    case _ => RuntimeStepsKeepInv(s, step);
  }

  lemma {:induction false} RunKeepsInv(s: System, steps: seq<Step>, t: System)
    requires Inv(s) && RunsTo(s, steps, t)
    ensures Inv(t)
    decreases |steps|
  {
    if steps != [] {
      StepKeepsInv(s, steps[0]);
      RunKeepsInv(Take(s, steps[0]), steps[1..], t);
    }
  }
}
