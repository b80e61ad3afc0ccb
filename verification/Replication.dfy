/**
 The resumable transcript stream as a whole: one daemon, one client subscription, a lossy FIFO link,
 reconnects, remounts and daemon restarts. The state keeps every epoch's full event log so that what
 the client shows can be compared with what the log says it should show.
 */
module Replication {
  import opened Options
  import opened Timeline
  import opened Collection
  import opened SessionRuntime
  import opened Router

  datatype Request = Subscribe(cmd: Command) | Unsubscribe

  /** Items read from the store, or created, when the log had `at` events. */
  datatype Source = Source(items: seq<Item>, at: nat)

  /** A frame on the wire; a response remembers the log position its snapshot stands for and where that came from. */
  datatype Packet =
    | ResponsePacket(response: Response, origin: nat, source: Source)
    | EventPacket(event: Event)

  datatype Link = Link(up: seq<Request>, down: seq<Packet>, open: bool)

  datatype Phase = Detached | Waiting(req: nat) | Live

  /**
   The facade's `Subscription` plus the collection it feeds. `cursor` and `epoch` are the resume hint.
   `applied` is the log position the rows really stand for; `lost` records a resume that jumped past it.
   `snapshot` is the last one ingested: it stands for log position `origin` and came from `source`.
   */
  datatype Client = Client(
    rows: Rows,
    cursor: Option<nat>,
    epoch: Option<nat>,
    phase: Phase,
    isNew: bool,
    applied: nat,
    lost: bool,
    snapshot: seq<Item>,
    origin: nat,
    source: Source)

  /** `source` is where the snapshot in memory came from. */
  datatype System = System(
    bases: seq<seq<Item>>,
    logs: seq<seq<Delta>>,
    rt: Runtime,
    source: Source,
    subscribed: bool,
    link: Option<Link>,
    client: Option<Client>,
    nextReq: nat)

  predicate Shaped(s: System) {
    |s.logs| == |s.bases| > 0 && s.rt.next >= 1
  }

  function Epoch(s: System): nat
    requires Shaped(s)
  {
    |s.logs| - 1
  }

  function Log(s: System): seq<Delta>
    requires Shaped(s)
  {
    s.logs[|s.logs| - 1]
  }

  /** The transcript after the first `c` events of epoch `e`. */
  function TruthAt(s: System, e: nat, c: nat): seq<Item>
    requires |s.logs| == |s.bases| && e < |s.logs| && c <= |s.logs[e]|
  {
    FoldAll(s.bases[e], s.logs[e][..c])
  }

  function Truth(s: System): seq<Item>
    requires Shaped(s)
  {
    TruthAt(s, Epoch(s), |Log(s)|)
  }

  // ---- daemon steps ----

  function Packets(es: seq<Event>): seq<Packet> {
    seq(|es|, i requires 0 <= i < |es| => EventPacket(es[i]))
  }

  /** `addEvent`: log, ring, fold, fan out. */
  function AddEvent(s: System, d: Delta): System
    requires Shaped(s)
  {
    var sent := [EventPacket(Event(s.rt.next, d))];
    s.(logs := s.logs[Epoch(s) := Log(s) + [d]],
       rt := Push(s.rt, d),
       link := if s.link.Some? && s.link.value.open && s.subscribed
               then Some(s.link.value.(down := s.link.value.down + sent)) else s.link)
  }

  /** Log position a replay starting after `since` really begins at: evicted events are gone. */
  function Origin(s: System, since: nat): nat
    requires Shaped(s)
  {
    var lo := RingStart(Log(s), s.rt.cap);
    if since < lo then lo else if since > |Log(s)| then |Log(s)| else since
  }

  /** The subscribe is answered from disk. */
  predicate ReadsDisk(rt: Runtime, cmd: Command, epoch: nat) {
    !(cmd.isNew && cmd.since.None?) && !CanRecover(rt, cmd, epoch) && rt.settled.None?
  }

  /** What is read while a loop runs becomes the snapshot in memory. */
  function SourceAfter(s: System, cmd: Command, disk: seq<Item>): Source
    requires Shaped(s)
  {
    if ReadsDisk(s.rt, cmd, Epoch(s)) && s.rt.queryLive then Source(disk, |Log(s)|) else s.source
  }

  /** Where the snapshot of a full answer came from; one that lags its log stands for nothing before its replay. */
  function AnswerSource(s: System, cmd: Command, disk: seq<Item>): Source
    requires Shaped(s)
  {
    if ReadsDisk(s.rt, cmd, Epoch(s)) then Source(disk, |Log(s)|)
    else if s.rt.settled.Some? && s.rt.settledCursor == |Log(s)| then s.source
    else Source([], Origin(s, Handle(s.rt, cmd, Epoch(s), disk).since))
  }

  function Respond(s: System, cmd: Command, disk: seq<Item>): (Outcome, Packet)
    requires Shaped(s)
  {
    var out := Handle(s.rt, cmd, Epoch(s), disk);
    (out, ResponsePacket(out.response, Origin(s, out.since), AnswerSource(s, cmd, disk)))
  }

  /** The daemon takes the next request off the link; `disk` is what the transcript store holds if it is read. */
  function Serve(s: System, disk: seq<Item>): System
    requires Shaped(s) && s.link.Some? && s.link.value.open && s.link.value.up != []
  {
    var l := s.link.value;
    match l.up[0]
    case Unsubscribe =>
      s.(subscribed := false, link := Some(l.(up := l.up[1..])))
    case Subscribe(cmd) =>
      var (out, response) := Respond(s, cmd, disk);
      var down := l.down + [response] + Packets(Replay(out.rt.buffer, out.since));
      s.(rt := out.rt, source := SourceAfter(s, cmd, disk), subscribed := true,
         link := Some(l.(up := l.up[1..], down := down)))
  }

  /** Another client of the same session subscribes. */
  function ServeOther(s: System, cmd: Command, disk: seq<Item>): System
    requires Shaped(s)
  {
    s.(rt := Handle(s.rt, cmd, Epoch(s), disk).rt, source := SourceAfter(s, cmd, disk))
  }

  /** A create-mode spawn: an empty snapshot, whatever has been logged. */
  function Seed(s: System): System
    requires Shaped(s)
  {
    s.(rt := SeedCreate(s.rt), source := Source([], |Log(s)|))
  }

  // ---- client steps ----

  function Hints(c: Client, req: nat): Command {
    if c.cursor.Some? && c.epoch.Some? then Command(req, c.cursor, c.epoch, false)
    else Command(req, None, None, c.isNew)
  }

  function OnPacket(c: Client, p: Packet): Client {
    match p
    case EventPacket(ev) =>
      c.(cursor := Some(ev.cursor), rows := ApplyEvent(c.rows, ev.delta), applied := c.applied + 1)
    case ResponsePacket(r, origin, source) =>
      if c.phase != Waiting(r.req) then c
      else if r.recovered then
        c.(epoch := Some(r.epoch), phase := Live,
           lost := c.lost || c.cursor != Some(c.applied),
           applied := if c.cursor.Some? then c.cursor.value else 0)
      else
        c.(epoch := Some(r.epoch), phase := Live, cursor := Some(r.cursor), rows := Ingest(r.settled),
           applied := origin, lost := false, snapshot := r.settled, origin := origin, source := source)
  }

  function Deliver(s: System): System
    requires s.link.Some? && s.link.value.down != []
  {
    var l := s.link.value;
    s.(link := Some(l.(down := l.down[1..])),
       client := if s.client.Some? then Some(OnPacket(s.client.value, l.down[0])) else None)
  }

  function NewClient(isNew: bool): Client {
    Client(map[], None, None, Detached, isNew, 0, false, [], 0, Source([], 0))
  }

  /** A consumer mounts: a fresh subscription, attached at once when a link is up. */
  function Mount(s: System, isNew: bool): System {
    var c := NewClient(isNew);
    match s.link
    case None => s.(client := Some(c))
    case Some(l) =>
      s.(client := Some(c.(phase := Waiting(s.nextReq))),
         link := Some(if l.open then l.(up := l.up + [Subscribe(Hints(c, s.nextReq))]) else l),
         nextReq := s.nextReq + 1)
  }

  /** A new link: the registry replays the subscription with its resume hint. */
  function Connect(s: System): System {
    match s.client
    case None => s.(link := Some(Link([], [], true)), subscribed := false)
    case Some(c) =>
      s.(link := Some(Link([Subscribe(Hints(c, s.nextReq))], [], true)),
         subscribed := false,
         client := Some(c.(phase := Waiting(s.nextReq))),
         nextReq := s.nextReq + 1)
  }

  function Disconnect(s: System): System {
    s.(link := None, subscribed := false,
       client := if s.client.Some? then Some(s.client.value.(phase := Detached)) else None)
  }

  /** The link dies: requests and all but the first `k` frames in flight are gone. */
  function Break(s: System, k: nat): System
    requires s.link.Some? && k <= |s.link.value.down|
  {
    s.(link := Some(Link([], s.link.value.down[..k], false)), subscribed := false)
  }

  /** A new daemon process: new epoch, empty log, empty ring; `base` is the transcript it finds on disk. */
  function Restart(s: System, base: seq<Item>): System {
    s.(logs := s.logs + [[]], bases := s.bases + [base], rt := Fresh(s.rt.cap), subscribed := false,
       link := if s.link.Some? then Some(Link([], s.link.value.down, false)) else None)
  }

  // ---- the step relation ----

  datatype Step =
    | AddEventStep(d: Delta)
    | SeedStep
    | SpawnResumeStep
    | LoopExitStep
    | DisposeStep
    | OtherSubscribeStep(cmd: Command, disk: seq<Item>)
    | ServeStep(disk: seq<Item>)
    | DeliverStep
    | MountStep(isNew: bool)
    | UnmountStep
    | LateUnsubscribeStep
    | ConnectStep
    | DisconnectStep
    | BreakStep(k: nat)
    | RestartStep(base: seq<Item>)

  /** When a step can happen. Item keys are unique. */
  ghost predicate Enabled(s: System, step: Step) {
    && Shaped(s)
    && match step
       case AddEventStep(d) => KeysUnique(FoldDelta(Truth(s), d))
       case SeedStep | SpawnResumeStep | LoopExitStep | DisposeStep => true
       case OtherSubscribeStep(_, _) => true
       case ServeStep(_) => s.link.Some? && s.link.value.open && s.link.value.up != []
       case DeliverStep => s.link.Some? && s.link.value.down != []
       case MountStep(_) => true
       case UnmountStep => s.client.Some?
       case LateUnsubscribeStep => s.client.None? && s.link.Some? && s.link.value.open
       case ConnectStep => s.link.None?
       case DisconnectStep => s.link.Some?
       case BreakStep(k) => s.link.Some? && k <= |s.link.value.down|
       case RestartStep(base) => KeysUnique(base)
  }

  function Take(s: System, step: Step): System
    requires Enabled(s, step)
  {
    match step
    case AddEventStep(d) => AddEvent(s, d)
    case SeedStep => Seed(s)
    case SpawnResumeStep => s.(rt := SpawnResume(s.rt))
    case LoopExitStep => s.(rt := LoopExit(s.rt))
    case DisposeStep => s.(rt := DisposeQuery(s.rt))
    case OtherSubscribeStep(cmd, disk) => ServeOther(s, cmd, disk)
    case ServeStep(disk) => Serve(s, disk)
    case DeliverStep => Deliver(s)
    case MountStep(isNew) => Mount(s, isNew)
    case UnmountStep => s.(client := None)
    case LateUnsubscribeStep => s.(link := Some(s.link.value.(up := s.link.value.up + [Unsubscribe])))
    case ConnectStep => Connect(s)
    case DisconnectStep => Disconnect(s)
    case BreakStep(k) => Break(s, k)
    case RestartStep(base) => Restart(s, base)
  }

  /** A daemon that has just started over the transcript `base`, with nobody connected. */
  function Boot(base: seq<Item>, cap: nat): System {
    System([base], [[]], Fresh(cap), Source([], 0), false, None, None, 0)
  }

  ghost predicate RunsTo(s: System, steps: seq<Step>, t: System)
    decreases |steps|
  {
    if steps == [] then s == t
    else Enabled(s, steps[0]) && RunsTo(Take(s, steps[0]), steps[1..], t)
  }

  // ---- invariant ----

  ghost predicate KeysInv(s: System) {
    |s.logs| == |s.bases| && forall e :: 0 <= e < |s.logs| ==> KeysUnique(FoldAll(s.bases[e], s.logs[e]))
  }

  /** `items` are what the events of `log` from `source.at` up to `upTo` made of the source. */
  ghost predicate ComesFrom(items: seq<Item>, source: Source, log: seq<Delta>, upTo: nat) {
    source.at <= upTo <= |log| && items == FoldAll(source.items, log[source.at..upTo])
  }

  /** The snapshot in memory is its source folded with every event since. */
  ghost predicate SnapshotInv(s: System)
    requires Shaped(s)
  {
    s.rt.settled.Some? ==>
      && (s.rt.settledCursor == |Log(s)| || (s.rt.settledCursor == 0 && s.rt.settled.value == []))
      && ComesFrom(s.rt.settled.value, s.source, Log(s), |Log(s)|)
  }

  ghost predicate DaemonInv(s: System) {
    && Shaped(s)
    && KeysInv(s)
    && RingHolds(s.rt, Log(s))
    && SnapshotInv(s)
  }

  /** Where the client's snapshot and its rows stand in the log of the epoch it last heard from. */
  ghost predicate ContentInv(s: System, c: Client)
    requires DaemonInv(s)
  {
    c.epoch.Some? ==>
      && c.epoch.value < |s.logs|
      && c.cursor.Some?
      && c.origin <= c.applied <= c.cursor.value <= |s.logs[c.epoch.value]|
      && ComesFrom(c.snapshot, c.source, s.logs[c.epoch.value], c.origin)
      && (!c.lost ==> c.rows == ApplyAll(Ingest(c.snapshot), s.logs[c.epoch.value][c.origin..c.applied]))
  }

  /** The frames are exactly events lo+1.. of epoch `e`; on an open link they reach the end of the current log. */
  ghost predicate EventTail(s: System, l: Link, frames: seq<Packet>, e: nat, lo: nat)
    requires DaemonInv(s)
  {
    && e < |s.logs| && lo <= |s.logs[e]|
    && lo + |frames| <= |s.logs[e]|
    && frames == Packets(Slice(s.logs[e], lo, lo + |frames|))
    && (l.open ==> e == Epoch(s) && s.subscribed && lo + |frames| == |Log(s)|)
  }

  predicate Answers(p: Packet, req: nat) {
    p.ResponsePacket? && p.response.req == req
  }

  /** The answer the client waits for describes the log it belongs to. */
  ghost predicate ResponseInv(s: System, l: Link, c: Client, p: Packet, rest: seq<Packet>)
    requires DaemonInv(s) && p.ResponsePacket?
  {
    var r := p.response;
    && r.epoch < |s.logs|
    && if r.recovered then
         && c.epoch == Some(r.epoch) && c.cursor.Some?
         && EventTail(s, l, rest, r.epoch, c.cursor.value)
       else
         && p.origin <= r.cursor <= |s.logs[r.epoch]|
         && ComesFrom(r.settled, p.source, s.logs[r.epoch], p.origin)
         && EventTail(s, l, rest, r.epoch, p.origin)
  }

  /** Index of the first frame that answers `req`, or the number of frames. */
  function AnswerAt(down: seq<Packet>, req: nat): (k: nat)
    ensures k <= |down|
    ensures k < |down| ==> Answers(down[k], req)
    ensures forall i :: 0 <= i < k ==> !Answers(down[i], req)
  {
    if down == [] || Answers(down[0], req) then 0 else 1 + AnswerAt(down[1..], req)
  }

  /** The awaited request is still on its way, or was lost with the link. */
  ghost predicate UnansweredInv(l: Link, subscribed: bool, c: Client, req: nat) {
    && (c.epoch.Some? ==> l.down == [] && |l.up| <= 1 && !subscribed)
    && (l.open ==> l.up != [] && l.up[|l.up| - 1] == Subscribe(Hints(c, req)))
    && (forall i :: 0 <= i < |l.up| - 1 ==> l.up[i].Subscribe? ==> l.up[i].cmd.req != req)
  }

  ghost predicate WaitingInv(s: System, l: Link, c: Client, req: nat)
    requires DaemonInv(s)
  {
    var k := AnswerAt(l.down, req);
    && req < s.nextReq
    && if k < |l.down|
       then l.up == [] && (c.epoch.Some? ==> k == 0) && ResponseInv(s, l, c, l.down[k], l.down[k + 1..])
       else UnansweredInv(l, s.subscribed, c, req)
  }

  /** Request ids on the wire have been handed out; a dead link carries no requests. */
  ghost predicate WireInv(l: Link, nextReq: nat) {
    && (!l.open ==> l.up == [])
    && (forall i :: 0 <= i < |l.down| ==> l.down[i].ResponsePacket? ==> l.down[i].response.req < nextReq)
    && (forall i :: 0 <= i < |l.up| ==> l.up[i].Subscribe? ==> l.up[i].cmd.req < nextReq)
  }

  ghost predicate ClientInv(s: System, link: Option<Link>, c: Client)
    requires DaemonInv(s)
  {
    && ContentInv(s, c)
    && match c.phase
       case Detached => link.None?
       case Waiting(req) => link.Some? && WaitingInv(s, link.value, c, req)
       case Live =>
         && link.Some? && c.epoch.Some? && link.value.up == []
         && EventTail(s, link.value, link.value.down, c.epoch.value, c.applied)
  }

  ghost predicate Inv(s: System) {
    && DaemonInv(s)
    && (s.link.Some? ==> WireInv(s.link.value, s.nextReq))
    && (s.client.Some? ==> ClientInv(s, s.link, s.client.value))
  }
}
