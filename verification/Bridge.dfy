/** Recovery of cloud mirrors: one reconnect at a time per session, two timers, a bounded backoff ladder. */
module Bridge {
  import opened Options

  /** Entries of the backoff ladder: 30 s, 120 s, 600 s. */
  const LADDER: seq<nat> := [30_000, 120_000, 600_000]

  /** The record of one attached session: its live transport, its timers, its place on the ladder, its recovery. */
  datatype Attached = Attached(
    sid: string, transport: nat, refresh: Option<nat>, backoff: Option<nat>, attempt: nat, inFlight: Option<nat>)

  datatype Stage = Auth | Creds | Swap | Reattach

  /** A recovery that waits for the outcome of its stage; it holds on to the record it started from. */
  datatype Run = Run(sid: string, obj: nat, stage: Stage)

  /** `sessions` maps a session to its record; records, timers, recoveries and transports are numbered by `next`.
    * `bridge` is the slot of each session's runtime. */
  datatype Service = Service(
    sessions: map<string, nat>,
    objs: map<nat, Attached>,
    timers: map<nat, string>,
    runs: map<nat, Run>,
    bridge: map<string, nat>,
    attaching: set<string>,
    stopped: bool,
    next: nat)

  function Fresh(): Service {
    Service(map[], map[], map[], map[], map[], {}, false, 0)
  }

  predicate Has(s: Service, sid: string) {
    sid in s.sessions && s.sessions[sid] in s.objs
  }

  function Of(s: Service, sid: string): Attached
    requires Has(s, sid)
  {
    s.objs[s.sessions[sid]]
  }

  function HandleSet(h: Option<nat>): set<nat> {
    if h.Some? then {h.value} else {}
  }

  function SetObj(s: Service, o: nat, a: Attached): Service {
    s.(objs := s.objs[o := a])
  }

  function CancelTimers(s: Service, o: nat): Service
    requires o in s.objs
  {
    var a := s.objs[o];
    SetObj(s, o, a.(refresh := None, backoff := None)).(timers := s.timers - HandleSet(a.refresh) - HandleSet(a.backoff))
  }

  function ArmRefresh(s: Service, sid: string): Service {
    if !Has(s, sid) then s
    else
      var a := Of(s, sid);
      SetObj(s, s.sessions[sid], a.(refresh := Some(s.next))).(
        timers := (s.timers - HandleSet(a.refresh))[s.next := sid], next := s.next + 1)
  }

  function ScheduleBackoff(s: Service, sid: string): Service {
    if !Has(s, sid) then s
    else
      var a := Of(s, sid);
      var timers := s.timers - HandleSet(a.backoff);
      if a.attempt >= |LADDER| then SetObj(s, s.sessions[sid], a.(backoff := None)).(timers := timers)
      else SetObj(s, s.sessions[sid], a.(backoff := Some(s.next), attempt := a.attempt + 1)).(
             timers := timers[s.next := sid], next := s.next + 1)
  }

  /** Start a recovery, unless the service is stopped, the session is not attached, or one is in flight. */
  function Reconnect(s: Service, sid: string): Service {
    if s.stopped || !Has(s, sid) || Of(s, sid).inFlight.Some? then s
    else
      var o := s.sessions[sid];
      var t := CancelTimers(s, o);
      SetObj(t, o, t.objs[o].(inFlight := Some(s.next))).(runs := t.runs[s.next := Run(sid, o, Auth)], next := s.next + 1)
  }

  /** Drop the record; clear the runtime's slot if it still holds this transport. */
  function Forget(s: Service, sid: string): Service {
    if !Has(s, sid) then s
    else
      var a := Of(s, sid);
      var t := CancelTimers(s, s.sessions[sid]);
      t.(sessions := s.sessions - {sid},
         bridge := if sid in s.bridge && s.bridge[sid] == a.transport then s.bridge - {sid} else s.bridge)
  }

  function HandleClose(s: Service, sid: string, clean: bool, firing: Option<nat>): Service {
    if Has(s, sid) && firing.Some? && firing.value != Of(s, sid).transport then s
    else if clean then Forget(s, sid)
    else Reconnect(s, sid)
  }

  /** The recovery is over: its record's slot is freed if it is still its own. */
  function Finish(s: Service, r: nat): Service
    requires r in s.runs && s.runs[r].obj in s.objs
  {
    var o := s.runs[r].obj;
    var a := s.objs[o];
    SetObj(s, o, if a.inFlight == Some(r) then a.(inFlight := None) else a).(runs := s.runs - {r})
  }

  /** What a stage's call came back with. */
  datatype Outcome =
    | AuthOk | AuthFailed
    | CredsThrew | CredsGone | CredsOk(connected: bool)
    | SwapOk | SwapThrew
    | ReattachOk(transport: nat) | ReattachThrew

  predicate Fits(stage: Stage, out: Outcome) {
    match stage
    case Auth => out.AuthOk? || out.AuthFailed?
    case Creds => out.CredsThrew? || out.CredsGone? || out.CredsOk?
    case Swap => out.SwapOk? || out.SwapThrew?
    case Reattach => out.ReattachOk? || out.ReattachThrew?
  }

  function SetStage(s: Service, r: nat, stage: Stage): Service
    requires r in s.runs
  {
    s.(runs := s.runs[r := s.runs[r].(stage := stage)])
  }

  function ResetAttempt(s: Service, o: nat): Service
    requires o in s.objs
  {
    SetObj(s, o, s.objs[o].(attempt := 0))
  }

  function NewTransport(s: Service, o: nat, sid: string, t: nat): Service
    requires o in s.objs
  {
    SetObj(s, o, s.objs[o].(transport := t)).(bridge := s.bridge[sid := t])
  }

  /** One stage of a recovery comes back. */
  function Advance(s: Service, r: nat, out: Outcome): Service
    requires r in s.runs && s.runs[r].obj in s.objs && Fits(s.runs[r].stage, out)
  {
    var run := s.runs[r];
    match out
    case AuthOk => SetStage(s, r, Creds)
    case CredsOk(connected) => SetStage(s, r, if connected then Swap else Reattach)
    case AuthFailed => Finish(ScheduleBackoff(s, run.sid), r)
    case CredsThrew => Finish(ScheduleBackoff(s, run.sid), r)
    case SwapThrew => Finish(ScheduleBackoff(s, run.sid), r)
    case ReattachThrew => Finish(ScheduleBackoff(s, run.sid), r)
    case CredsGone => Finish(Forget(s, run.sid), r)
    case SwapOk => Finish(ArmRefresh(ResetAttempt(s, run.obj), run.sid), r)
    case ReattachOk(t) => Finish(ArmRefresh(ResetAttempt(NewTransport(s, run.obj, run.sid, t), run.obj), run.sid), r)
  }

  function AttachDone(s: Service, sid: string, t: Option<nat>): Service {
    var rest := s.(attaching := s.attaching - {sid});
    if t.None? then rest
    else
      var a := Attached(sid, t.value, None, None, 0, None);
      ArmRefresh(SetObj(rest, s.next, a).(sessions := s.sessions[sid := s.next], bridge := s.bridge[sid := t.value],
                                        next := s.next + 1), sid)
  }

  /** An armed timer that some attached session's record holds. */
  predicate Held(s: Service, h: nat) {
    exists o :: o in s.sessions.Values && o in s.objs && HoldsHandle(s.objs[o], h)
  }

  predicate HoldsHandle(a: Attached, h: nat) {
    a.refresh == Some(h) || a.backoff == Some(h)
  }

  /** Cancel every attached session's timers and drop the sessions; runtimes' slots and recoveries stay. */
  ghost function Shutdown(s: Service): Service {
    if s.stopped then s
    else
      s.(stopped := true, sessions := map[],
         timers := map h | h in s.timers && !Held(s, h) :: s.timers[h],
         objs := map o | o in s.objs ::
           if o in s.sessions.Values then s.objs[o].(refresh := None, backoff := None) else s.objs[o])
  }

  datatype Step =
    | AttachStart(sid: string)
    | AttachEnd(sid: string, transport: Option<nat>)
    | Close(sid: string, clean: bool, firing: Option<nat>)
    | TimerFires(handle: nat)
    | Call(sid: string)
    | StageDone(run: nat, out: Outcome)
    | Detach(sid: string)
    | Stop

  /** What can happen next; attaches of one session do not overlap. */
  predicate Enabled(s: Service, step: Step) {
    match step
    case AttachStart(sid) => sid !in s.attaching
    case AttachEnd(sid, _) => sid in s.attaching
    case TimerFires(h) => h in s.timers
    case StageDone(r, out) => r in s.runs && s.runs[r].obj in s.objs && Fits(s.runs[r].stage, out)
    case _ => true
  }

  ghost function Take(s: Service, step: Step): Service
    requires Enabled(s, step)
  {
    match step
    case AttachStart(sid) => if s.stopped || Has(s, sid) then s else s.(attaching := s.attaching + {sid})
    case AttachEnd(sid, t) => AttachDone(s, sid, t)
    case Close(sid, clean, firing) => HandleClose(s, sid, clean, firing)
    case TimerFires(h) => Reconnect(s.(timers := s.timers - {h}), s.timers[h])
    case Call(sid) => Reconnect(s, sid)
    case StageDone(r, out) => Advance(s, r, out)
    case Detach(sid) => Forget(s, sid)
    case Stop => Shutdown(s)
  }
}
