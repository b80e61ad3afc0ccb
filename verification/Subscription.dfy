/** The client facade's per-session subscription object, over transports that come and go. */
module Subscription {
  import opened Options
  import opened Timeline
  import opened Collection
  import opened SessionRuntime
  import opened Router
  import opened Replication

  class SubscriptionHandle {
    const isNew: bool
    const collection: TranscriptCollection
    var cursor: Option<nat>
    var epoch: Option<nat>
    var phase: Phase
    ghost var applied: nat
    ghost var lost: bool
    ghost var snapshot: seq<Item>
    ghost var origin: nat
    ghost var source: Source

    ghost function State(): Client
      reads this, collection
    {
      Client(collection.rows, cursor, epoch, phase, isNew, applied, lost, snapshot, origin, source)
    }

    constructor (isNew: bool)
      ensures State() == NewClient(isNew) && fresh(collection)
    {
      this.isNew := isNew;
      collection := new TranscriptCollection();
      cursor, epoch, phase := None, None, Detached;
      applied, lost, snapshot, origin, source := 0, false, [], 0, Source([], 0);
    }

    /** A transport came up: ask for the session with whatever resume hint there is. */
    method Attach(req: nat) returns (cmd: Command)
      modifies this
      ensures State() == old(State()).(phase := Waiting(req))
      ensures cmd == Hints(old(State()), req)
    {
      phase := Waiting(req);
      if cursor.Some? && epoch.Some? {
        cmd := Command(req, cursor, epoch, false);
      } else {
        cmd := Command(req, None, None, isNew);
      }
    }

    method Detach()
      modifies this
      ensures State() == old(State()).(phase := Detached)
    {
      phase := Detached;
    }

    /** The wrapped event callback: remember the wire cursor, then let the collection reduce the delta. */
    method OnEvent(ev: Event)
      modifies this, collection
      ensures State() == OnPacket(old(State()), EventPacket(ev))
    {
      cursor := Some(ev.cursor);
      collection.OnEvent(ev.delta);
      applied := applied + 1;
    }

    /** The subscribe call resolved. `origin` and `source` say what the snapshot stands for and where it came from. */
    method OnResponse(r: Response, ghost origin: nat, ghost source: Source)
      modifies this, collection
      ensures State() == OnPacket(old(State()), ResponsePacket(r, origin, source))
    {
      if phase != Waiting(r.req) {
        return;
      }
      epoch := Some(r.epoch);
      phase := Live;
      if r.recovered {
        lost := lost || cursor != Some(applied);
        applied := if cursor.Some? then cursor.value else 0;
      } else {
        cursor := Some(r.cursor);
        applied, lost := origin, false;
        this.snapshot, this.origin, this.source := r.settled, origin, source;
      }
      collection.OnSubscribed(r.recovered, r.settled);
    }
  }
}
