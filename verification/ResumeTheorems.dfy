/** What reconnecting promises: which events the rows hold, and exactly when the shown transcript reads like the log's. */
module ResumeTheorems {
  import opened Options
  import opened Timeline
  import opened Collection
  import opened SessionRuntime
  import opened Router
  import opened Replication
  import opened ReplicationProof
  import opened Erasure
  import opened Follow

  lemma BootInv(base: seq<Item>, cap: nat)
    requires KeysUnique(base)
    ensures Inv(Boot(base, cap))
  {}

  /**
   At every reachable state, unless a resume has jumped over events, the rows are the snapshot last ingested folded
   with exactly the events from where it stands up to the position the client has applied, which never passes its
   resume cursor; and that snapshot is its source folded with the events before.
   */
  lemma ShownIsLogPrefix(base: seq<Item>, cap: nat, steps: seq<Step>, s: System)
    requires KeysUnique(base) && RunsTo(Boot(base, cap), steps, s)
    requires s.client.Some? && s.client.value.epoch.Some? && !s.client.value.lost
    ensures var c := s.client.value;
            && Shaped(s) && c.epoch.value < |s.logs| && c.cursor.Some?
            && var log := s.logs[c.epoch.value];
            && c.source.at <= c.origin <= c.applied <= c.cursor.value <= |log|
            && c.snapshot == FoldAll(c.source.items, log[c.source.at..c.origin])
            && c.rows == ApplyAll(Ingest(c.snapshot), log[c.origin..c.applied])
  {
    BootInv(base, cap);
    RunKeepsInv(Boot(base, cap), steps, s);
  }

  ghost predicate Drained(s: System) {
    && s.link.Some? && s.link.value.open && s.link.value.down == []
    && s.client.Some? && s.client.value.phase.Live?
  }

  /** A drained client has applied the current epoch's whole log. */
  lemma DrainedIsCurrent(s: System)
    requires Inv(s) && Drained(s)
    ensures var c := s.client.value;
            c.epoch == Some(Epoch(s)) && c.cursor == Some(|Log(s)|) && c.applied == |Log(s)|
  {}

  // ---- what the rows represent ----

  function ItemsOf(shown: seq<Row>): seq<Item> {
    seq(|shown|, i requires 0 <= i < |shown| => shown[i].item)
  }

  /** What the events made of the source up to log position `upTo`. */
  function Expected(source: Source, log: seq<Delta>, upTo: nat): seq<Item>
    requires source.at <= upTo <= |log|
  {
    FoldAll(source.items, log[source.at..upTo])
  }

  lemma FoldInTwo(xs: seq<Item>, ds: seq<Delta>, lo: nat, mid: nat, hi: nat)
    requires lo <= mid <= hi <= |ds|
    ensures FoldAll(xs, ds[lo..hi]) == FoldAll(FoldAll(xs, ds[lo..mid]), ds[mid..hi])
  {
    FoldAllConcat(xs, ds[lo..mid], ds[mid..hi]);
    assert ds[lo..mid] + ds[mid..hi] == ds[lo..hi];
  }

  /** With distinct keys the rows show the source followed by the events, one after the other. */
  lemma RowsShowExpected(c: Client, log: seq<Delta>, shown: seq<Row>)
    requires ComesFrom(c.snapshot, c.source, log, c.origin) && c.origin <= c.applied <= |log|
    requires c.rows == ApplyAll(Ingest(c.snapshot), log[c.origin..c.applied])
    requires KeysUnique(Expected(c.source, log, c.applied)) && SortedListing(c.rows, shown)
    ensures ItemsOf(shown) == Expected(c.source, log, c.applied)
    ensures forall i :: 0 <= i < |shown| ==> shown[i].order == i
  {
    hide KeysUnique, SortedListing, ApplyAll, Ingest, FoldAll, Represents;
    FoldInTwo(c.source.items, log, c.source.at, c.origin, c.applied);
    ReducersAgree(c.snapshot, log[c.origin..c.applied]);
    RenderedOrder(c.rows, Expected(c.source, log, c.applied), shown);
  }

  /** The transcript at `upTo` is the transcript at `lo` and the events between. */
  lemma TruthInTwo(s: System, e: nat, lo: nat, upTo: nat)
    requires |s.logs| == |s.bases| && e < |s.logs| && lo <= upTo <= |s.logs[e]|
    ensures TruthAt(s, e, upTo) == FoldAll(TruthAt(s, e, lo), s.logs[e][lo..upTo])
  {
    FoldInTwo(s.bases[e], s.logs[e], 0, lo, upTo);
    assert s.logs[e][..lo] == s.logs[e][0..lo] && s.logs[e][..upTo] == s.logs[e][0..upTo];
  }

  /** The whole current log is on show, after what was read or created; it is the transcript if that was. */
  ghost predicate ShowsWholeLog(s: System, c: Client, shown: seq<Row>) {
    && Shaped(s) && |s.logs| == |s.bases| && c.epoch == Some(Epoch(s)) && c.cursor == Some(|Log(s)|) && c.source.at <= |Log(s)|
    && var all := Expected(c.source, Log(s), |Log(s)|);
    && (KeysUnique(all) ==> ItemsOf(shown) == all && forall i :: 0 <= i < |shown| ==> shown[i].order == i)
    && (c.source.items == TruthAt(s, Epoch(s), c.source.at) ==> ItemsOf(shown) == Truth(s))
  }

  lemma DrainedShows(s: System, shown: seq<Row>)
    requires Inv(s) && Drained(s) && !s.client.value.lost && SortedListing(s.client.value.rows, shown)
    ensures ShowsWholeLog(s, s.client.value, shown)
  {
    hide SortedListing, KeysUnique, FoldAll;
    DrainedIsCurrent(s);
    var c, log := s.client.value, Log(s);
    TruthInTwo(s, Epoch(s), c.source.at, |log|);
    PrefixUnique(s, Epoch(s), |log|);
    if KeysUnique(Expected(c.source, log, |log|)) { RowsShowExpected(c, log, shown); }
  }

  /** A drained client, unless a resume has jumped over events, shows its source followed by the whole rest of the log. */
  lemma DrainedShowsWholeLog(base: seq<Item>, cap: nat, steps: seq<Step>, s: System, shown: seq<Row>)
    requires KeysUnique(base) && RunsTo(Boot(base, cap), steps, s)
    requires Drained(s) && !s.client.value.lost && SortedListing(s.client.value.rows, shown)
    ensures ShowsWholeLog(s, s.client.value, shown)
  {
    hide SortedListing, KeysUnique, FoldAll, ShowsWholeLog;
    BootInv(base, cap);
    RunKeepsInv(Boot(base, cap), steps, s);
    DrainedShows(s, shown);
  }

  // ---- honest resume hints ----

  /** A response whose cursor is the position its snapshot stands for. */
  predicate Honest(s: System, cmd: Command, disk: seq<Item>)
    requires Shaped(s)
  {
    var out := Handle(s.rt, cmd, Epoch(s), disk);
    out.response.recovered || out.since == out.response.cursor
  }

  ghost predicate HonestStep(s: System, step: Step)
    requires Enabled(s, step)
  {
    step.ServeStep? && s.link.value.up[0].Subscribe? ==> Honest(s, s.link.value.up[0].cmd, step.disk)
  }

  ghost predicate HonestRun(s: System, steps: seq<Step>, t: System)
    decreases |steps|
  {
    if steps == [] then s == t
    else Enabled(s, steps[0]) && HonestStep(s, steps[0]) && HonestRun(Take(s, steps[0]), steps[1..], t)
  }

  /** The runtime would answer with a snapshot older than the cursor it puts on it. */
  predicate LateLabel(rt: Runtime, cmd: Command, epoch: nat) {
    if cmd.isNew && cmd.since.None? && rt.settled.None? then rt.next != 1
    else rt.settled.Some? && rt.settledCursor != Current(rt) && !(CanRecover(rt, cmd, epoch) && !(cmd.isNew && cmd.since.None?))
  }

  /** Which answers are dishonest, as the runtime can tell: they all carry nothing, under the cursor of a log that has events. */
  lemma HonestIff(s: System, cmd: Command, disk: seq<Item>)
    requires DaemonInv(s)
    ensures Honest(s, cmd, disk) <==> !LateLabel(s.rt, cmd, Epoch(s))
    ensures !Honest(s, cmd, disk) ==>
              var p := Respond(s, cmd, disk).1;
              p.response.settled == [] && p.response.cursor == |Log(s)| > 0 && p.source.items == []
  {
    hide KeysInv, ComesFrom;
  }

  /** Every snapshot in flight, and the client, stand exactly where their cursors say. */
  ghost predicate ExactInv(s: System) {
    && (s.link.Some? ==> forall i :: 0 <= i < |s.link.value.down| ==> ExactPacket(s.link.value.down[i]))
    && (s.client.Some? && s.client.value.epoch.Some? ==> ExactClient(s.client.value))
  }

  predicate ExactPacket(p: Packet) {
    p.ResponsePacket? && !p.response.recovered ==> p.origin == p.response.cursor
  }

  predicate ExactClient(c: Client) {
    !c.lost && c.cursor == Some(c.applied)
  }

  lemma ServeExact(s: System, disk: seq<Item>)
    requires Inv(s) && ExactInv(s) && Enabled(s, ServeStep(disk)) && HonestStep(s, ServeStep(disk))
    ensures ExactInv(Serve(s, disk))
  {
    hide DaemonInv, Handle, SourceAfter, AnswerSource, EventTail, ContentInv, WaitingInv;
    var l := s.link.value;
    if l.up[0].Subscribe? {
      AfterServe(s, l, l.up[0].cmd, disk);
      HonestOrigin(s, l.up[0].cmd, disk);
    }
  }

  lemma HonestOrigin(s: System, cmd: Command, disk: seq<Item>)
    requires DaemonInv(s) && Honest(s, cmd, disk)
    ensures ExactPacket(Respond(s, cmd, disk).1)
  {
    hide KeysInv, SnapshotInv, FoldAll, AnswerSource;
  }

  lemma DeliverExact(s: System)
    requires Inv(s) && ExactInv(s) && Enabled(s, DeliverStep)
    ensures ExactInv(Deliver(s))
  {
    hide DaemonInv, FoldAll, Slice, Ingest, ApplyEvent, ApplyAll, ComesFrom, WireInv;
    if s.client.Some? {
      var l := s.link.value;
      var c := s.client.value;
      assert ExactPacket(l.down[0]);
      if c.phase.Live? {
        LiveEvent(s, l, l, c);
      }
    }
  }

  lemma StepKeepsExact(s: System, step: Step)
    requires Inv(s) && ExactInv(s) && Enabled(s, step) && HonestStep(s, step)
    ensures ExactInv(Take(s, step))
  {
    hide DaemonInv, ClientInv;
    match step
    case ServeStep(disk) => ServeExact(s, disk);
    case DeliverStep => DeliverExact(s);
    case _ =>
  }

  lemma {:induction false} HonestRunExact(s: System, steps: seq<Step>, t: System)
    requires Inv(s) && ExactInv(s) && HonestRun(s, steps, t)
    ensures Inv(t) && ExactInv(t)
    decreases |steps|
  {
    if steps != [] {
      StepKeepsInv(s, steps[0]);
      StepKeepsExact(s, steps[0]);
      HonestRunExact(Take(s, steps[0]), steps[1..], t);
    }
  }

  /**
   When every full answer is served at its own cursor, whatever the store returned, the rows are at every reachable
   state the snapshot last ingested folded with exactly the log up to the stored resume cursor: a resume neither skips
   nor repeats an event. If what the store returned was the transcript, they show the log's own prefix.
   */
  lemma ResumeHintNeverSkips(base: seq<Item>, cap: nat, steps: seq<Step>, s: System)
    requires KeysUnique(base) && HonestRun(Boot(base, cap), steps, s)
    requires s.client.Some? && s.client.value.epoch.Some?
    ensures var c := s.client.value;
            && Shaped(s) && c.epoch.value < |s.logs| && !c.lost && c.cursor == Some(c.applied)
            && var log := s.logs[c.epoch.value];
            && c.source.at <= c.origin <= c.cursor.value <= |log|
            && c.snapshot == FoldAll(c.source.items, log[c.source.at..c.origin])
            && c.rows == ApplyAll(Ingest(c.snapshot), log[c.origin..c.cursor.value])
            && (c.source.items == TruthAt(s, c.epoch.value, c.source.at) ==>
                  Represents(c.rows, TruthAt(s, c.epoch.value, c.cursor.value)))
  {
    hide FoldAll, ApplyAll, Ingest, Represents, KeysUnique;
    BootInv(base, cap);
    HonestRunExact(Boot(base, cap), steps, s);
    var c := s.client.value;
    var e, log := c.epoch.value, s.logs[c.epoch.value];
    TruthInTwo(s, e, c.source.at, c.applied);
    FoldInTwo(c.source.items, log, c.source.at, c.origin, c.applied);
    if c.source.items == TruthAt(s, e, c.source.at) {
      PrefixUnique(s, e, c.applied);
      ReducersAgree(c.snapshot, log[c.origin..c.applied]);
    }
  }

  /** With no late label a drained client always does: nothing is ever jumped over. */
  lemma HonestDrainedShowsWholeLog(base: seq<Item>, cap: nat, steps: seq<Step>, s: System, shown: seq<Row>)
    requires KeysUnique(base) && HonestRun(Boot(base, cap), steps, s)
    requires Drained(s) && SortedListing(s.client.value.rows, shown)
    ensures ShowsWholeLog(s, s.client.value, shown)
  {
    hide SortedListing, KeysUnique, FoldAll, ShowsWholeLog;
    BootInv(base, cap);
    HonestRunExact(Boot(base, cap), steps, s);
    DrainedIsCurrent(s);
    DrainedShows(s, shown);
  }

  // ---- what a snapshot lacks ----

  function Appends(ds: seq<Delta>): nat {
    if ds == [] then 0 else Appends(ds[..|ds| - 1]) + if ds[|ds| - 1].Append? then 1 else 0
  }

  lemma {:induction false} FoldLength(xs: seq<Item>, ds: seq<Delta>)
    ensures |FoldAll(xs, ds)| == |xs| + Appends(ds)
  {
    if ds != [] {
      FoldLength(xs, ds[..|ds| - 1]);
    }
  }

  /** A snapshot lacks for good as many items as its source lacked: no event brings them back. */
  lemma SeededSnapshotLacks(base: seq<Item>, cap: nat, steps: seq<Step>, s: System)
    requires KeysUnique(base) && RunsTo(Boot(base, cap), steps, s)
    ensures Shaped(s)
    ensures s.rt.settled.Some? ==>
              && s.source.at <= |Log(s)|
              && var before := TruthAt(s, Epoch(s), s.source.at);
              && |Truth(s)| + |s.source.items| == |s.rt.settled.value| + |before|
              && (s.source.items == [] ==> (s.rt.settled.value == Truth(s) <==> before == []))
  {
    hide FoldAll;
    BootInv(base, cap);
    RunKeepsInv(Boot(base, cap), steps, s);
    if s.rt.settled.Some? {
      TruthInTwo(s, Epoch(s), s.source.at, |Log(s)|);
      FoldLength(TruthAt(s, Epoch(s), s.source.at), Log(s)[s.source.at..|Log(s)|]);
      FoldLength(s.source.items, Log(s)[s.source.at..|Log(s)|]);
    }
  }

  // ---- careful daemons ----

  /** The same list, or one that reads the same. */
  predicate Same(exact: bool, xs: seq<Item>, ys: seq<Item>) {
    if exact then xs == ys else Erase(xs) == Erase(ys)
  }

  /** A create finds an empty transcript, a session that is new to its client has one, a disk read returns the whole one. */
  predicate CarefulStep(exact: bool, s: System, step: Step)
    requires Shaped(s)
  {
    match step
    case SeedStep => Same(exact, [], Truth(s))
    case OtherSubscribeStep(cmd, disk) => ReadsDisk(s.rt, cmd, Epoch(s)) ==> Same(exact, disk, Truth(s))
    case ServeStep(disk) =>
      s.link.Some? && s.link.value.up != [] && s.link.value.up[0].Subscribe? ==> CarefulAnswer(exact, s, s.link.value.up[0].cmd, disk)
    case _ => true
  }

  predicate CarefulAnswer(exact: bool, s: System, cmd: Command, disk: seq<Item>)
    requires Shaped(s)
  {
    && (ReadsDisk(s.rt, cmd, Epoch(s)) ==> Same(exact, disk, Truth(s)))
    && (cmd.isNew && cmd.since.None? && s.rt.settled.None? ==> Same(exact, [], Truth(s)))
  }

  ghost predicate CarefulRun(exact: bool, s: System, steps: seq<Step>, t: System)
    decreases |steps|
  {
    if steps == [] then s == t
    else Enabled(s, steps[0]) && CarefulStep(exact, s, steps[0]) && HonestStep(s, steps[0])
         && CarefulRun(exact, Take(s, steps[0]), steps[1..], t)
  }

  /** The source was the transcript of its time. */
  predicate TrueSource(exact: bool, s: System, e: nat, source: Source) {
    && e < |s.logs| == |s.bases| && source.at <= |s.logs[e]|
    && Same(exact, source.items, TruthAt(s, e, source.at))
  }

  predicate TruePacket(exact: bool, s: System, p: Packet) {
    p.ResponsePacket? && !p.response.recovered ==> TrueSource(exact, s, p.response.epoch, p.source)
  }

  ghost predicate TrueInv(exact: bool, s: System) {
    && Shaped(s)
    && (s.rt.settled.Some? ==> TrueSource(exact, s, Epoch(s), s.source))
    && (s.link.Some? ==> forall i :: 0 <= i < |s.link.value.down| ==> TruePacket(exact, s, s.link.value.down[i]))
    && (s.client.Some? && s.client.value.epoch.Some? ==> TrueSource(exact, s, s.client.value.epoch.value, s.client.value.source))
  }

  lemma TrueSourceStable(exact: bool, s: System, t: System, e: nat, source: Source)
    requires TrueSource(exact, s, e, source) && Extends(s, t)
    ensures TrueSource(exact, t, e, source)
  {
    hide Same;
    TruthStable(s, t, e, source.at);
  }

  lemma TruthIsAtEnd(s: System)
    requires Shaped(s)
    ensures TruthAt(s, Epoch(s), |Log(s)|) == Truth(s)
  {}

  /** What a careful answer leaves in memory and puts on the wire was the transcript of its time. */
  lemma CarefulAnswerTrue(exact: bool, s: System, cmd: Command, disk: seq<Item>)
    requires DaemonInv(s) && (s.rt.settled.Some? ==> TrueSource(exact, s, Epoch(s), s.source))
    requires ReadsDisk(s.rt, cmd, Epoch(s)) ==> Same(exact, disk, Truth(s))
    ensures var t := ServeOther(s, cmd, disk);
            t.rt.settled.Some? ==> TrueSource(exact, s, Epoch(s), t.source)
    ensures CarefulAnswer(exact, s, cmd, disk) && Honest(s, cmd, disk) ==> TruePacket(exact, s, Respond(s, cmd, disk).1)
  {
    hide KeysInv, SnapshotInv, FoldAll, Same, CanRecover;
    TruthIsAtEnd(s);
  }

  lemma StepExtends(s: System, step: Step)
    requires Enabled(s, step) && DaemonInv(s)
    ensures Extends(s, Take(s, step))
  {
    hide KeysInv, RingHolds, SnapshotInv, FoldDelta, FoldAll, Push, Handle, SourceAfter, AnswerSource, Replay, OnPacket;
    if step.AddEventStep? { AddEventTruth(s, step.d); }
  }

  /** On a careful daemon the snapshot in memory came from the transcript of its time, and later steps do not change that. */
  lemma CarefulMemory(exact: bool, s: System, step: Step)
    requires Inv(s) && TrueInv(exact, s) && Enabled(s, step) && CarefulStep(exact, s, step)
    ensures var t := Take(s, step);
            Shaped(t) && (t.rt.settled.Some? ==> TrueSource(exact, t, Epoch(t), t.source))
  {
    hide KeysInv, RingHolds, SnapshotInv, ClientInv, WireInv, FoldDelta, FoldAll, Handle, SourceAfter, Replay, OnPacket, Same,
      TrueSource, Extends;
    var t := Take(s, step);
    StepKeepsInv(s, step);
    StepExtends(s, step);
    match step
    case AddEventStep(d) => AddEventTruth(s, d); if s.rt.settled.Some? { TrueSourceStable(exact, s, t, Epoch(s), s.source); }
    case SeedStep => SeedTrue(exact, s);
    case OtherSubscribeStep(cmd, disk) => CarefulAnswerTrue(exact, s, cmd, disk); SameTruths(exact, s, t);
    case ServeStep(disk) =>
      if s.link.value.up[0].Subscribe? { CarefulAnswerTrue(exact, s, s.link.value.up[0].cmd, disk); }
      SameTruths(exact, s, t);
    case RestartStep(_) =>
    case _ => SameTruths(exact, s, t);
  }

  lemma SameTruths(exact: bool, s: System, t: System)
    requires t.logs == s.logs && t.bases == s.bases
    ensures forall e, source :: TrueSource(exact, t, e, source) <==> TrueSource(exact, s, e, source)
  {
    hide Same;
  }

  lemma SeedTrue(exact: bool, s: System)
    requires Shaped(s) && Same(exact, [], Truth(s))
    ensures TrueSource(exact, Seed(s), Epoch(s), Seed(s).source)
  {
    hide Same;
    TruthIsAtEnd(s);
  }

  /** What is on the wire, and what the client takes off it. */
  lemma CarefulWire(exact: bool, s: System, step: Step)
    requires Inv(s) && TrueInv(exact, s) && Enabled(s, step) && CarefulStep(exact, s, step) && HonestStep(s, step)
    ensures var t := Take(s, step);
            t.link.Some? ==> forall i :: 0 <= i < |t.link.value.down| ==> TruePacket(exact, t, t.link.value.down[i])
  {
    hide KeysInv, RingHolds, SnapshotInv, ClientInv, WireInv, FoldDelta, FoldAll, Handle, SourceAfter, AnswerSource, Replay, OnPacket,
      Same, TrueSource, Extends, Push;
    var t := Take(s, step);
    StepExtends(s, step);
    if s.link.Some? {
      forall i | 0 <= i < |s.link.value.down| ensures TruePacket(exact, t, s.link.value.down[i]) {
        var p := s.link.value.down[i];
        assert TruePacket(exact, s, p);
        if p.ResponsePacket? && !p.response.recovered { TrueSourceStable(exact, s, t, p.response.epoch, p.source); }
      }
    }
    if step.ServeStep? && s.link.value.up[0].Subscribe? {
      var cmd := s.link.value.up[0].cmd;
      AfterServe(s, s.link.value, cmd, step.disk);
      CarefulAnswerTrue(exact, s, cmd, step.disk);
      SameTruths(exact, s, t);
      assert TruePacket(exact, t, Respond(s, cmd, step.disk).1);
    }
  }

  lemma CarefulClient(exact: bool, s: System, step: Step)
    requires Inv(s) && TrueInv(exact, s) && Enabled(s, step)
    ensures var t := Take(s, step);
            t.client.Some? && t.client.value.epoch.Some? ==> TrueSource(exact, t, t.client.value.epoch.value, t.client.value.source)
  {
    hide KeysInv, RingHolds, SnapshotInv, WireInv, FoldDelta, FoldAll, Handle, SourceAfter, AnswerSource, Replay, Same, TrueSource,
      Extends, Push, EventTail, ContentInv, ApplyEvent, Ingest, ComesFrom;
    var t := Take(s, step);
    StepExtends(s, step);
    if s.client.Some? && s.client.value.epoch.Some? {
      TrueSourceStable(exact, s, t, s.client.value.epoch.value, s.client.value.source);
    }
    if step.DeliverStep? && s.client.Some? {
      assert TruePacket(exact, s, s.link.value.down[0]);
      SameTruths(exact, s, t);
    }
  }

  lemma {:induction false} CarefulRunTrue(exact: bool, s: System, steps: seq<Step>, t: System)
    requires Inv(s) && TrueInv(exact, s) && CarefulRun(exact, s, steps, t)
    ensures HonestRun(s, steps, t) && Inv(t) && TrueInv(exact, t)
    decreases |steps|
  {
    if steps != [] {
      StepKeepsInv(s, steps[0]);
      CarefulMemory(exact, s, steps[0]);
      CarefulWire(exact, s, steps[0]);
      CarefulClient(exact, s, steps[0]);
      CarefulRunTrue(exact, Take(s, steps[0]), steps[1..], t);
    }
  }

  /** Keys stay distinct, and no event gives text to a message of the source under the source's own name for it. */
  ghost predicate Named(source: Source, log: seq<Delta>, upTo: nat) {
    && source.at <= upTo <= |log|
    && KeysUnique(Expected(source, log, upTo)) && Untouched(source.items, log[source.at..upTo])
  }

  lemma UniqueKeysTools(xs: seq<Item>)
    requires KeysUnique(xs)
    ensures UniqueTools(xs)
  {
    forall i, j | 0 <= i < j < |xs| && xs[i].ToolCall? && xs[j].ToolCall? ensures xs[i].callId != xs[j].callId {
      assert Key(xs[i]) != Key(xs[j]);
    }
  }

  lemma SourceTools(s: System, e: nat, source: Source, upTo: nat)
    requires DaemonInv(s) && e < |s.logs| && Named(source, s.logs[e], upTo)
    ensures UniqueTools(source.items) && UniqueTools(TruthAt(s, e, source.at))
  {
    hide KeysUnique, UniqueTools, Untouched, FoldAll;
    PrefixUnique(s, e, source.at);
    UniqueKeysTools(TruthAt(s, e, source.at));
    var ds := s.logs[e][source.at..upTo];
    NothingFolded(source.items, ds);
    FoldAllKeysPrefix(source.items, ds, 0);
    UniqueKeysPrefix(source.items, FoldAll(source.items, ds));
    UniqueKeysTools(source.items);
  }

  lemma NothingFolded(xs: seq<Item>, ds: seq<Delta>)
    ensures FoldAll(xs, ds[..0]) == xs
  {}

  /** A source that read like the transcript of its time: what came of it reads like the transcript exactly when nothing
    * the transcript held at that time was given more text since. */
  lemma ExpectedReadsAlikeIff(s: System, e: nat, source: Source, upTo: nat)
    requires DaemonInv(s) && TrueSource(false, s, e, source) && Named(source, s.logs[e], upTo)
    ensures Erase(Expected(source, s.logs[e], upTo)) == Erase(TruthAt(s, e, upTo)) <==>
            !Reopens(TruthAt(s, e, source.at), s.logs[e][source.at..upTo])
  {
    hide KeysUnique, UniqueTools, Untouched, FoldAll, Erase, Reopens, KeysInv, RingHolds, SnapshotInv;
    SourceTools(s, e, source, upTo);
    TruthInTwo(s, e, source.at, upTo);
    ReadsAlikeIff(source.items, TruthAt(s, e, source.at), s.logs[e][source.at..upTo]);
  }

  lemma BootCareful(exact: bool, base: seq<Item>, cap: nat, steps: seq<Step>, s: System)
    requires KeysUnique(base) && CarefulRun(exact, Boot(base, cap), steps, s)
    ensures HonestRun(Boot(base, cap), steps, s) && Inv(s) && ExactInv(s) && TrueInv(exact, s)
  {
    BootInv(base, cap);
    CarefulRunTrue(exact, Boot(base, cap), steps, s);
    HonestRunExact(Boot(base, cap), steps, s);
  }

  /**
   A daemon that creates sessions once, reads transcripts that read like the log's, and labels answers on time:
   whatever drops, remounts, restarts and other subscribers there are, a client shows what reads like the transcript at
   its stored cursor exactly when no message that was in the transcript at its snapshot's read got more text since.
   */
  lemma ResumedReadsAlikeIff(base: seq<Item>, cap: nat, steps: seq<Step>, s: System, shown: seq<Row>)
    requires KeysUnique(base) && CarefulRun(false, Boot(base, cap), steps, s)
    requires s.client.Some? && s.client.value.epoch.Some? && SortedListing(s.client.value.rows, shown)
    ensures var c := s.client.value;
            && Shaped(s) && c.epoch.value < |s.logs| && c.cursor.Some? && c.source.at <= c.cursor.value <= |s.logs[c.epoch.value]|
            && var log := s.logs[c.epoch.value];
            && (Named(c.source, log, c.cursor.value) ==>
                  (Erase(ItemsOf(shown)) == Erase(TruthAt(s, c.epoch.value, c.cursor.value)) <==>
                   !Reopens(TruthAt(s, c.epoch.value, c.source.at), log[c.source.at..c.cursor.value])))
    ensures Drained(s) ==> s.client.value.epoch == Some(Epoch(s)) && s.client.value.cursor == Some(|Log(s)|)
  {
    hide CarefulRun, HonestRun, TrueSource, KeysUnique, SortedListing, Erase, Reopens, Untouched, FoldAll, ApplyAll, Ingest;
    BootCareful(false, base, cap, steps, s);
    if Drained(s) { DrainedIsCurrent(s); }
    var c := s.client.value;
    if Named(c.source, s.logs[c.epoch.value], c.cursor.value) {
      RowsShowExpected(c, s.logs[c.epoch.value], shown);
      ExpectedReadsAlikeIff(s, c.epoch.value, c.source, c.cursor.value);
    }
  }

  /** And so does the snapshot the daemon keeps in memory. */
  lemma SnapshotReadsAlikeIff(base: seq<Item>, cap: nat, steps: seq<Step>, s: System)
    requires KeysUnique(base) && CarefulRun(false, Boot(base, cap), steps, s)
    ensures Shaped(s)
    ensures s.rt.settled.Some? && Named(s.source, Log(s), |Log(s)|) ==>
              (Erase(s.rt.settled.value) == Erase(Truth(s)) <==>
               !Reopens(TruthAt(s, Epoch(s), s.source.at), Log(s)[s.source.at..]))
  {
    hide CarefulRun, HonestRun, TrueSource, KeysUnique, Erase, Reopens, Untouched, FoldAll;
    BootCareful(false, base, cap, steps, s);
    if s.rt.settled.Some? && Named(s.source, Log(s), |Log(s)|) {
      ExpectedReadsAlikeIff(s, Epoch(s), s.source, |Log(s)|);
      TruthIsAtEnd(s);
      assert Log(s)[s.source.at..] == Log(s)[s.source.at..|Log(s)|];
    }
  }

  /** When every read and create finds the log's own items, the rows stand for the stored cursor, the snapshot in memory
    * is the log's, and a drained client shows all of it. */
  lemma CarefulDaemonResumes(base: seq<Item>, cap: nat, steps: seq<Step>, s: System)
    requires KeysUnique(base) && CarefulRun(true, Boot(base, cap), steps, s)
    ensures Shaped(s) && (s.rt.settled.Some? ==> s.rt.settled.value == Truth(s))
    ensures s.client.Some? && s.client.value.epoch.Some? ==>
              var c := s.client.value;
              && c.epoch.value < |s.logs| && c.cursor.Some? && c.cursor.value <= |s.logs[c.epoch.value]|
              && Represents(c.rows, TruthAt(s, c.epoch.value, c.cursor.value))
    ensures Drained(s) ==> Represents(s.client.value.rows, Truth(s))
  {
    hide CarefulRun, HonestRun, KeysUnique, FoldAll, ApplyAll, Ingest, Represents, Erase;
    BootCareful(true, base, cap, steps, s);
    if s.rt.settled.Some? { TruthInTwo(s, Epoch(s), s.source.at, |Log(s)|); }
    if s.client.Some? && s.client.value.epoch.Some? {
      ResumeHintNeverSkips(base, cap, steps, s);
      if Drained(s) { DrainedIsCurrent(s); }
    }
  }

  // ---- when a snapshot lags its cursor ----

  ghost predicate NoAppend(ds: seq<Delta>) {
    forall i :: 0 <= i < |ds| ==> !ds[i].Append?
  }

  lemma {:induction false} EmptyUntilAppend(ds: seq<Delta>)
    ensures FoldAll([], ds) == [] <==> NoAppend(ds)
    decreases |ds|
  {
    if ds != [] {
      var n := |ds| - 1;
      EmptyUntilAppend(ds[..n]);
      assert ds == ds[..n] + [ds[n]];
      if !NoAppend(ds[..n]) {
        FoldDeltaKeys(FoldAll([], ds[..n]), ds[n]);
        assert |KeysOf(FoldAll([], ds[..n]))| > 0;
      }
    }
  }

  /**
   A full answer may be labelled with a cursor ahead of its contents. Resuming from that label gives what its replay
   would have given exactly when no item was appended in between.
   */
  lemma LabelHonestIffNoAppend(s: System, cmd: Command, disk: seq<Item>)
    requires DaemonInv(s) && !Respond(s, cmd, disk).0.response.recovered
    ensures var p := Respond(s, cmd, disk).1;
            && p.origin <= p.response.cursor == |Log(s)|
            && var gap := Log(s)[p.origin..p.response.cursor];
            && (FoldAll(p.response.settled, gap) == p.response.settled <==> NoAppend(gap))
            && (p.response.settled == TruthAt(s, Epoch(s), p.origin) ==>
                  (p.response.settled == TruthAt(s, Epoch(s), p.response.cursor) <==> NoAppend(gap)))
  {
    hide KeysInv;
    var p := Respond(s, cmd, disk).1;
    var gap := Log(s)[p.origin..|Log(s)|];
    TruthInTwo(s, Epoch(s), p.origin, |Log(s)|);
    if gap != [] { EmptyUntilAppend(gap); }
  }
}
