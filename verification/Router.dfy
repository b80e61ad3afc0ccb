/** The daemon's `subscribe` handler: brand-new fast path, warm replay, cold snapshot. */
module Router {
  import opened Options
  import opened Timeline
  import opened SessionRuntime

  datatype Command = Command(req: nat, since: Option<nat>, sinceEpoch: Option<nat>, isNew: bool)

  /** The runtime afterwards, the response sent, and the cursor the replay starts after. */
  datatype Outcome = Outcome(rt: Runtime, response: Response, since: nat)

  predicate EpochOk(cmd: Command, epoch: nat) {
    cmd.since.Some? && cmd.sinceEpoch.Some? && cmd.sinceEpoch.value == epoch
  }

  predicate BufferOk(rt: Runtime, cmd: Command) {
    && cmd.since.Some?
    && match Oldest(rt)
       case None => cmd.since.value >= Current(rt)
       case Some(o) => cmd.since.value + 1 >= o
  }

  predicate CanRecover(rt: Runtime, cmd: Command, epoch: nat) {
    EpochOk(cmd, epoch) && BufferOk(rt, cmd)
  }

  /** `disk` is what the transcript store would return if it were read. */
  function Handle(rt: Runtime, cmd: Command, epoch: nat, disk: seq<Item>): Outcome
    requires rt.next >= 1
  {
    var current := rt.next - 1;
    if cmd.isNew && cmd.since.None? then
      var settled := if rt.settled.Some? then rt.settled.value else [];
      var since := if rt.settled.Some? then rt.settledCursor else 0;
      Outcome(rt, Response(cmd.req, settled, current, epoch, false), since)
    else if CanRecover(rt, cmd, epoch) then
      Outcome(rt, Response(cmd.req, [], current, epoch, true), cmd.since.value)
    else if rt.settled.Some? then
      Outcome(rt, Response(cmd.req, rt.settled.value, current, epoch, false), rt.settledCursor)
    else
      var rt' := if rt.queryLive then rt.(settled := Some(disk), settledCursor := current) else rt;
      Outcome(rt', Response(cmd.req, disk, current, epoch, false), current)
  }

  method HandleSubscribe(rt: LiveRuntime, peer: Peer, cmd: Command, epoch: nat, disk: seq<Item>)
    requires rt.Valid()
    modifies rt, peer
    ensures rt.Valid()
    ensures forall p :: p in rt.subscribers <==> p == peer || p in old(rt.subscribers)
    ensures var out := Handle(old(rt.State()), cmd, epoch, disk);
            && rt.State() == out.rt
            && peer.sent == old(peer.sent) + [ResponseFrame(out.response)] + Frames(Replay(out.rt.buffer, out.since))
  {
    hide Replay, Frames;
    rt.Unsubscribe(peer);
    var current := rt.nextCursor - 1;
    var since: nat;
    if cmd.isNew && cmd.since.None? {
      var settled := if rt.settled.Some? then rt.settled.value else [];
      since := if rt.settled.Some? then rt.settledCursor else 0;
      peer.Send(ResponseFrame(Response(cmd.req, settled, current, epoch, false)));
    } else {
      var epochOk := cmd.since.Some? && cmd.sinceEpoch.Some? && cmd.sinceEpoch.value == epoch;
      var bufferOk := cmd.since.Some? &&
        (if rt.buffer == [] then cmd.since.value >= current else cmd.since.value + 1 >= rt.buffer[0].cursor);
      if epochOk && bufferOk {
        since := cmd.since.value;
        peer.Send(ResponseFrame(Response(cmd.req, [], current, epoch, true)));
      } else {
        var settled: seq<Item>;
        if rt.settled.Some? {
          settled, since := rt.settled.value, rt.settledCursor;
        } else {
          settled, since := disk, current;
          if rt.query {
            rt.settled, rt.settledCursor := Some(settled), since;
          }
        }
        peer.Send(ResponseFrame(Response(cmd.req, settled, current, epoch, false)));
      }
    }
    rt.Subscribe(peer, since);
  }

  predicate Buffered(rt: Runtime, c: nat) {
    exists i :: 0 <= i < |rt.buffer| && rt.buffer[i].cursor == c
  }

  /** The ring still holds every event in (since, current]. */
  ghost predicate RingComplete(rt: Runtime, since: nat) {
    forall c: nat :: since < c <= Current(rt) ==> Buffered(rt, c)
  }

  /** For any capacity and history, the warm path is taken exactly when the epoch matches and nothing needed was evicted. */
  lemma WarmIffComplete(rt: Runtime, log: seq<Delta>, cmd: Command, epoch: nat)
    requires RingHolds(rt, log) && cmd.since.Some? && cmd.since.value <= |log|
    ensures CanRecover(rt, cmd, epoch) <==> cmd.sinceEpoch == Some(epoch) && RingComplete(rt, cmd.since.value)
  {
    var since := cmd.since.value;
    var lo := RingStart(log, rt.cap);
    assert BufferOk(rt, cmd) <==> since >= lo || since == |log|;
    forall c: nat | c <= |log| ensures Buffered(rt, c) <==> lo < c {
      if lo < c {
        assert rt.buffer[c - 1 - lo].cursor == c;
      }
    }
    if since < lo {
      assert !Buffered(rt, since + 1);
    }
  }

  /** On the warm path the replay is exactly the missed slice of the log. */
  lemma WarmReplaysMissedSlice(rt: Runtime, log: seq<Delta>, cmd: Command, epoch: nat, disk: seq<Item>)
    requires RingHolds(rt, log) && cmd.since.Some? && cmd.since.value <= |log|
    requires CanRecover(rt, cmd, epoch)
    ensures var out := Handle(rt, cmd, epoch, disk);
            && out.rt == rt && out.response.recovered && out.response.settled == []
            && Replay(out.rt.buffer, out.since) == Slice(log, cmd.since.value, |log|)
  {
    ReplaySlice(log, RingStart(log, rt.cap), cmd.since.value);
  }
}
