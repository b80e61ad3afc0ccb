/** What the life of the query loop means to the answers a subscriber gets. */
module Lifecycle {
  import opened Options
  import opened Timeline
  import opened SessionRuntime
  import opened Router

  /** A full answer for a session that is not new to its client. */
  predicate Cold(rt: Runtime, cmd: Command, epoch: nat) {
    !(cmd.isNew && cmd.since.None?) && !CanRecover(rt, cmd, epoch)
  }

  lemma {:induction false} ReplayAll(log: seq<Delta>, lo: nat)
    requires lo <= |log|
    ensures Replay(Slice(log, lo, |log|), 0) == Slice(log, lo, |log|)
  {
    if lo < |log| { assert Slice(log, lo, |log|)[0].cursor == lo + 1; }
  }

  /** After a create a full answer is empty and everything in the ring is replayed; the store is not read. */
  lemma CreatedAnswers(rt: Runtime, log: seq<Delta>, cmd: Command, epoch: nat, disk: seq<Item>)
    requires RingHolds(rt, log) && !Handle(SeedCreate(rt), cmd, epoch, disk).response.recovered
    ensures var out := Handle(SeedCreate(rt), cmd, epoch, disk);
            && out.response.settled == [] && Replay(out.rt.buffer, out.since) == rt.buffer && out.rt == SeedCreate(rt)
  {
    ReplayAll(log, RingStart(log, rt.cap));
  }

  /** After the loop has ended every cold answer is read from the store, replays nothing, and is not kept. */
  lemma EndedAnswers(rt: Runtime, log: seq<Delta>, cmd: Command, epoch: nat, disk: seq<Item>)
    requires RingHolds(rt, log) && Cold(LoopExit(rt), cmd, epoch)
    ensures var out := Handle(LoopExit(rt), cmd, epoch, disk);
            && out.response == Response(cmd.req, disk, |log|, epoch, false)
            && Replay(out.rt.buffer, out.since) == [] && out.rt == LoopExit(rt)
  {
    ReplaySlice(log, RingStart(log, rt.cap), |log|);
  }

  /** A read is kept as the snapshot exactly while a loop runs: from its start until it is disposed of or ends. */
  lemma ReadIsKeptIff(rt: Runtime, cmd: Command, epoch: nat, disk: seq<Item>)
    requires rt.next >= 1 && rt.settled.None? && Cold(rt, cmd, epoch)
    ensures var out := Handle(rt, cmd, epoch, disk);
            && (rt.queryLive ==> out.rt == rt.(settled := Some(disk), settledCursor := rt.next - 1))
            && (!rt.queryLive ==> out.rt == rt)
    ensures SpawnResume(rt).queryLive && SeedCreate(rt).queryLive && !DisposeQuery(rt).queryLive && !LoopExit(rt).queryLive
    ensures SpawnResume(rt).settled == rt.settled && DisposeQuery(rt).settled == rt.settled && LoopExit(rt).settled.None?
  {
  }
}
