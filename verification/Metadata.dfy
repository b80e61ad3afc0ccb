/** One session's metadata: a file with two writers, the manager's cache of it, and the runtime's mirror. */
module Metadata {
  import opened Options

  datatype TitleSource = Derived | Renamed

  /** The fields the manager owns. */
  datatype Profile = Profile(model: Option<string>, title: string, source: TitleSource, lastActivityAt: int, rest: string)

  /** The subtree the bridge service owns. */
  datatype Worker = Worker(cseSessionId: string, seqNum: int, backfilled: bool)

  datatype Record = Record(profile: Profile, bridge: Option<Worker>)

  /** The live runtime's mirror fields. */
  datatype Mirror = Mirror(currentModel: Option<string>, lastActivityAt: int, running: bool)

  datatype Store = Store(disk: Option<Record>, cache: Option<Record>, runtime: Option<Mirror>)

  datatype Step =
    | Create(profile: Profile)
    | SetModel(model: Option<string>)
    | SetTitle(title: string, source: TitleSource)
    | Activity(running: bool, now: int)
    | GetRuntime(now: int)
    | DropRuntime
    | Restart
    | RefreshFromDisk
    | NotifyBridge
    | WriteBridge(worker: Worker)
    | UpdateSeq(seqNum: int)
    | MarkBackfilled
    | ClearBridge

  function BridgeOnDisk(s: Store): Option<Worker> {
    if s.disk.Some? then s.disk.value.bridge else None
  }

  /** Write the cached record with a new profile, under the bridge subtree that is on disk. */
  function Persist(s: Store, profile: Profile): Store {
    if s.cache.None? then s
    else
      var whole := Some(Record(profile, BridgeOnDisk(s)));
      s.(cache := whole, disk := whole)
  }

  function Take(s: Store, step: Step): Store {
    match step
    case Create(profile) => s.(cache := Some(Record(profile, None)), disk := Some(Record(profile, None)))
    case SetModel(model) =>
      if s.cache.None? || s.cache.value.profile.model == model then s
      else Persist(s.(runtime := if s.runtime.Some? then Some(s.runtime.value.(currentModel := model)) else None),
                   s.cache.value.profile.(model := model))
    case SetTitle(title, source) =>
      if s.cache.None? || (source.Derived? && s.cache.value.profile.source.Renamed?) then s
      else Persist(s, s.cache.value.profile.(title := title, source := source))
    case Activity(running, now) =>
      if s.runtime.None? then s
      else
        var t := s.(runtime := Some(s.runtime.value.(running := running, lastActivityAt := now)));
        if s.runtime.value.running == running || s.cache.None? || now <= s.cache.value.profile.lastActivityAt then t
        else Persist(t, s.cache.value.profile.(lastActivityAt := now))
    case GetRuntime(now) =>
      if s.runtime.Some? then s
      else s.(runtime := Some(if s.cache.Some? then Mirror(s.cache.value.profile.model, s.cache.value.profile.lastActivityAt, false)
                              else Mirror(None, now, false)))
    case DropRuntime => s.(runtime := None)
    case Restart => s.(cache := s.disk, runtime := None)
    case RefreshFromDisk => s.(cache := s.disk)
    case NotifyBridge => if s.cache.None? then s else s.(cache := Some(s.cache.value.(bridge := BridgeOnDisk(s))))
    case WriteBridge(worker) => if s.disk.None? then s else s.(disk := Some(s.disk.value.(bridge := Some(worker))))
    case UpdateSeq(n) =>
      if BridgeOnDisk(s).None? || n <= BridgeOnDisk(s).value.seqNum then s
      else s.(disk := Some(s.disk.value.(bridge := Some(BridgeOnDisk(s).value.(seqNum := n)))))
    case MarkBackfilled =>
      if BridgeOnDisk(s).None? then s
      else s.(disk := Some(s.disk.value.(bridge := Some(BridgeOnDisk(s).value.(backfilled := true)))))
    case ClearBridge => if s.disk.None? then s else s.(disk := Some(s.disk.value.(bridge := None)))
  }

  /** The model a client is shown. */
  function PublishedModel(s: Store): Option<string> {
    if s.runtime.Some? && s.runtime.value.currentModel.Some? then s.runtime.value.currentModel
    else if s.cache.Some? then s.cache.value.profile.model
    else None
  }

  function PersistedModel(s: Store): Option<string> {
    if s.disk.Some? then s.disk.value.profile.model else None
  }

  /** The manager and the bridge service, writing one session's file. */
  class SessionFile {
    var disk: Option<Record>
    var cache: Option<Record>
    var runtime: Option<Mirror>

    ghost function State(): Store
      reads this
    {
      Store(disk, cache, runtime)
    }

    constructor ()
      ensures State() == Store(None, None, None)
    {
      disk, cache, runtime := None, None, None;
    }

    method PersistMetadata(profile: Profile)
      modifies this`cache, this`disk
      ensures State() == Persist(old(State()), profile)
    {
      if cache.None? { return; }
      var next := cache.value.(profile := profile);
      cache := Some(next);
      var toWrite;
      if disk.Some? && disk.value.bridge.Some? {
        toWrite := next.(bridge := disk.value.bridge);
        cache := Some(toWrite);
      } else {
        toWrite := next.(bridge := None);
        if next.bridge.Some? { cache := Some(toWrite); }
      }
      disk := Some(toWrite);
    }

    method CreateSession(profile: Profile)
      modifies this`cache, this`disk
      ensures State() == Take(old(State()), Create(profile))
    {
      cache := Some(Record(profile, None));
      disk := cache;
    }

    method ChangeModel(model: Option<string>) returns (changed: bool)
      modifies this
      ensures State() == Take(old(State()), SetModel(model))
      ensures changed <==> old(cache).Some? && old(cache).value.profile.model != model
    {
      if cache.None? || cache.value.profile.model == model { return false; }
      if runtime.Some? { runtime := Some(runtime.value.(currentModel := model)); }
      PersistMetadata(cache.value.profile.(model := model));
      return true;
    }

    method ChangeTitle(title: string, source: TitleSource)
      modifies this
      ensures State() == Take(old(State()), SetTitle(title, source))
    {
      if cache.None? { return; }
      if source.Derived? && cache.value.profile.source.Renamed? { return; }
      PersistMetadata(cache.value.profile.(title := title, source := source));
    }

    method OnStateChanged()
      requires runtime.Some?
      modifies this`cache, this`disk
      ensures State() == if old(cache).None? || runtime.value.lastActivityAt <= old(cache).value.profile.lastActivityAt then old(State())
                         else Persist(old(State()), old(cache).value.profile.(lastActivityAt := runtime.value.lastActivityAt))
    {
      if cache.None? { return; }
      if runtime.value.lastActivityAt > cache.value.profile.lastActivityAt {
        PersistMetadata(cache.value.profile.(lastActivityAt := runtime.value.lastActivityAt));
      }
    }

    method MarkActivity(running: bool, now: int)
      modifies this
      ensures State() == Take(old(State()), Activity(running, now))
    {
      if runtime.None? { return; }
      var changed := runtime.value.running != running;
      runtime := Some(runtime.value.(running := running, lastActivityAt := now));
      if changed { OnStateChanged(); }
    }

    method GetOrCreate(now: int)
      modifies this`runtime
      ensures State() == Take(old(State()), GetRuntime(now))
    {
      if runtime.Some? { return; }
      var created := Mirror(None, now, false);
      if cache.Some? && cache.value.profile.model.Some? { created := created.(currentModel := cache.value.profile.model); }
      if cache.Some? { created := created.(lastActivityAt := cache.value.profile.lastActivityAt); }
      runtime := Some(created);
    }

    method NotifyBridgeChanged()
      modifies this`cache
      ensures State() == Take(old(State()), NotifyBridge)
    {
      if cache.Some? {
        if disk.Some? && disk.value.bridge.Some? {
          cache := Some(cache.value.(bridge := disk.value.bridge));
        } else if cache.value.bridge.Some? {
          cache := Some(cache.value.(bridge := None));
        }
      }
    }

    method WriteBridgeWorkerState(worker: Worker) returns (found: bool)
      modifies this`disk
      ensures State() == Take(old(State()), WriteBridge(worker)) && found == old(disk).Some?
    {
      if disk.None? { return false; }
      disk := Some(disk.value.(bridge := Some(worker)));
      return true;
    }

    method UpdateBridgeSequenceNum(n: int)
      modifies this`disk
      ensures State() == Take(old(State()), UpdateSeq(n))
    {
      if disk.None? || disk.value.bridge.None? { return; }
      if n <= disk.value.bridge.value.seqNum { return; }
      disk := Some(disk.value.(bridge := Some(disk.value.bridge.value.(seqNum := n))));
    }

    method MarkBridgeBackfilled()
      modifies this`disk
      ensures State() == Take(old(State()), MarkBackfilled)
    {
      if disk.None? || disk.value.bridge.None? || disk.value.bridge.value.backfilled { return; }
      disk := Some(disk.value.(bridge := Some(disk.value.bridge.value.(backfilled := true))));
    }

    method ClearBridgeWorkerState()
      modifies this`disk
      ensures State() == Take(old(State()), ClearBridge)
    {
      if disk.None? || disk.value.bridge.None? { return; }
      disk := Some(disk.value.(bridge := None));
    }
  }

  // ---- The two registers the file stands for ----

  /** One register per writer: nothing a writer does is visible in the other's. */
  datatype Registers = Registers(profile: Option<Profile>, bridge: Option<Worker>)

  /** What a step means to the manager's register; `edge` says whether an activity call changed the activity. */
  function OnProfile(p: Option<Profile>, step: Step, edge: bool): Option<Profile> {
    match step
    case Create(profile) => Some(profile)
    case SetModel(model) => if p.Some? then Some(p.value.(model := model)) else None
    case SetTitle(title, source) =>
      if p.None? || (source.Derived? && p.value.source.Renamed?) then p else Some(p.value.(title := title, source := source))
    case Activity(_, now) =>
      if edge && p.Some? && now > p.value.lastActivityAt then Some(p.value.(lastActivityAt := now)) else p
    case _ => p
  }

  /** What a step means to the bridge service's register; only a session that exists has one. */
  function OnBridge(b: Option<Worker>, step: Step, present: bool): Option<Worker> {
    match step
    case WriteBridge(worker) => if present then Some(worker) else b
    case UpdateSeq(n) => if b.Some? && n > b.value.seqNum then Some(b.value.(seqNum := n)) else b
    case MarkBackfilled => if b.Some? then Some(b.value.(backfilled := true)) else b
    case ClearBridge => None
    case _ => b
  }

  predicate Edge(s: Store, step: Step) {
    step.Activity? && s.runtime.Some? && s.runtime.value.running != step.running
  }

  function OnRegisters(r: Registers, step: Step, edge: bool): Registers {
    Registers(OnProfile(r.profile, step, edge), OnBridge(r.bridge, step, r.profile.Some?))
  }

  /** The file is exactly the two registers; the cache has the manager's; the mirror's model, if set, is that one's. */
  predicate Stands(s: Store, r: Registers) {
    && s.disk == (if r.profile.Some? then Some(Record(r.profile.value, r.bridge)) else None)
    && (r.profile.None? ==> r.bridge.None?)
    && (s.cache.Some? <==> r.profile.Some?)
    && (s.cache.Some? ==> s.cache.value.profile == r.profile.value)
    && (s.runtime.Some? && s.runtime.value.currentModel.Some? ==>
          r.profile.Some? && r.profile.value.model == s.runtime.value.currentModel)
  }

  /** A session is created at most once. */
  predicate Once(r: Registers, step: Step) {
    step.Create? ==> r.profile.None?
  }

  lemma StepStands(s: Store, r: Registers, step: Step)
    requires Stands(s, r) && Once(r, step)
    ensures Stands(Take(s, step), OnRegisters(r, step, Edge(s, step)))
  {
  }

  function After(steps: seq<Step>): (Store, Registers) {
    if steps == [] then (Store(None, None, None), Registers(None, None))
    else
      var before, step := After(steps[..|steps| - 1]), steps[|steps| - 1];
      (Take(before.0, step), OnRegisters(before.1, step, Edge(before.0, step)))
  }

  predicate CreatedOnce(steps: seq<Step>) {
    steps == [] || (CreatedOnce(steps[..|steps| - 1]) && Once(After(steps[..|steps| - 1]).1, steps[|steps| - 1]))
  }

  /** Over any interleaving of the two writers no update is lost: the file is the manager's register and the bridge
    * service's register side by side, and the cache has the manager's. */
  lemma {:induction false} NoUpdateLost(steps: seq<Step>)
    requires CreatedOnce(steps)
    ensures Stands(After(steps).0, After(steps).1)
  {
    hide Take, OnRegisters, Stands, Edge;
    if steps == [] {
      NothingYet();
    } else {
      var before := After(steps[..|steps| - 1]);
      NoUpdateLost(steps[..|steps| - 1]);
      StepStands(before.0, before.1, steps[|steps| - 1]);
    }
  }

  lemma NothingYet()
    ensures Stands(Store(None, None, None), Registers(None, None))
  {
  }

  /** The published model is the persisted one in every reachable state. */
  lemma PublishedIsPersisted(steps: seq<Step>)
    requires CreatedOnce(steps)
    ensures PublishedModel(After(steps).0) == PersistedModel(After(steps).0)
  {
    hide After, CreatedOnce;
    NoUpdateLost(steps);
  }

  /** A second create breaks that exactly when a live mirror holds a different pick; it drops the bridge subtree. */
  lemma SecondCreateIff(s: Store, r: Registers, profile: Profile)
    requires Stands(s, r) && r.profile.Some?
    ensures var u := Take(s, Create(profile));
            && u.disk == Some(Record(profile, None))
            && (PublishedModel(u) == PersistedModel(u) <==>
                  s.runtime.Some? && s.runtime.value.currentModel.Some? ==> s.runtime.value.currentModel == profile.model)
  {
  }

  /** Steps that neither record nor clear the bridge's worker state, nor create the session. */
  predicate KeepsWorker(step: Step) {
    !step.WriteBridge? && !step.ClearBridge? && !step.Create?
  }

  function Run(s: Store, steps: seq<Step>): Store
    decreases |steps|
  {
    if steps == [] then s else Run(Take(s, steps[0]), steps[1..])
  }

  /** Between two worker-state writes the stored sequence number never decreases, whatever the manager writes, and
    * a set backfilled flag stays set. */
  lemma {:induction false} SeqNeverDecreases(s: Store, r: Registers, steps: seq<Step>)
    requires Stands(s, r) && BridgeOnDisk(s).Some?
    requires forall i :: 0 <= i < |steps| ==> KeepsWorker(steps[i])
    ensures var w, w' := BridgeOnDisk(s), BridgeOnDisk(Run(s, steps));
            && w'.Some? && w'.value.seqNum >= w.value.seqNum && w'.value.cseSessionId == w.value.cseSessionId
            && (w.value.backfilled ==> w'.value.backfilled)
    decreases |steps|
  {
    if steps != [] {
      StepStands(s, r, steps[0]);
      SeqNeverDecreases(Take(s, steps[0]), OnRegisters(r, steps[0], Edge(s, steps[0])), steps[1..]);
    }
  }

  /** The stored activity time never decreases once the session exists. */
  lemma {:induction false} ActivityNeverDecreases(s: Store, r: Registers, steps: seq<Step>)
    requires Stands(s, r) && s.disk.Some?
    requires forall i :: 0 <= i < |steps| ==> !steps[i].Create?
    ensures Run(s, steps).disk.Some?
    ensures Run(s, steps).disk.value.profile.lastActivityAt >= s.disk.value.profile.lastActivityAt
    decreases |steps|
  {
    if steps != [] {
      StepStands(s, r, steps[0]);
      ActivityNeverDecreases(Take(s, steps[0]), OnRegisters(r, steps[0], Edge(s, steps[0])), steps[1..]);
    }
  }

  /** After the bridge notification the cache is the file, so the published `bridged` flag is the stored one. */
  lemma NotifiedCacheIsFile(s: Store, r: Registers)
    requires Stands(s, r)
    ensures Take(s, NotifyBridge).cache == s.disk
  {
  }
}
