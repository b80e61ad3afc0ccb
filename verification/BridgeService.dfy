/** The service itself: methods over a session map, pending timers and the runtimes' slots. */
module BridgeService {
  import opened Options
  import opened Bridge

  class BridgeService {
    var sessions: map<string, nat>
    var objs: map<nat, Attached>
    var timers: map<nat, string>
    var runs: map<nat, Run>
    var bridge: map<string, nat>
    var attaching: set<string>
    var stopped: bool
    var next: nat

    ghost function State(): Service
      reads this
    {
      Service(sessions, objs, timers, runs, bridge, attaching, stopped, next)
    }

    constructor ()
      ensures State() == Fresh()
    {
      sessions, objs, timers, runs, bridge, attaching, stopped, next := map[], map[], map[], map[], map[], {}, false, 0;
    }

    method SetTimer(sid: string) returns (handle: nat)
      modifies this`timers, this`next
      ensures handle == old(next) && next == old(next) + 1 && timers == old(timers)[handle := sid]
    {
      handle := next;
      timers, next := timers[handle := sid], next + 1;
    }

    method ClearTimer(h: Option<nat>)
      modifies this`timers
      ensures timers == old(timers) - HandleSet(h)
    {
      if h.Some? { timers := timers - {h.value}; } else { assert timers - {} == timers; }
    }

    method CancelBoth(o: nat)
      requires o in objs
      modifies this
      ensures State() == CancelTimers(old(State()), o)
    {
      ClearTimer(objs[o].refresh);
      ClearTimer(objs[o].backoff);
      objs := objs[o := objs[o].(refresh := None, backoff := None)];
    }

    method ArmProactiveRefresh(sid: string)
      modifies this
      ensures State() == ArmRefresh(old(State()), sid)
    {
      if sid !in sessions || sessions[sid] !in objs { return; }
      var o := sessions[sid];
      ClearTimer(objs[o].refresh);
      var handle := SetTimer(sid);
      objs := objs[o := objs[o].(refresh := Some(handle))];
    }

    method ScheduleBackoffRetry(sid: string)
      modifies this
      ensures State() == ScheduleBackoff(old(State()), sid)
    {
      if sid !in sessions || sessions[sid] !in objs { return; }
      var o := sessions[sid];
      ClearTimer(objs[o].backoff);
      objs := objs[o := objs[o].(backoff := None)];
      var idx := objs[o].attempt;
      if idx >= |LADDER| { return; }
      objs := objs[o := objs[o].(attempt := idx + 1)];
      var handle := SetTimer(sid);
      objs := objs[o := objs[o].(backoff := Some(handle))];
    }

    /** Up to the first wait; a call during a recovery joins it. */
    method StartReconnect(sid: string)
      modifies this
      ensures State() == Reconnect(old(State()), sid)
    {
      if stopped || sid !in sessions || sessions[sid] !in objs { return; }
      var o := sessions[sid];
      if objs[o].inFlight.Some? { return; }
      CancelBoth(o);
      runs := runs[next := Run(sid, o, Auth)];
      objs := objs[o := objs[o].(inFlight := Some(next))];
      next := next + 1;
    }

    method ForgetSession(sid: string)
      modifies this
      ensures State() == Forget(old(State()), sid)
    {
      if sid !in sessions || sessions[sid] !in objs { return; }
      var o := sessions[sid];
      CancelBoth(o);
      sessions := sessions - {sid};
      if sid in bridge && bridge[sid] == objs[o].transport {
        bridge := bridge - {sid};
      }
    }

    method OnClose(sid: string, clean: bool, firing: Option<nat>)
      modifies this
      ensures State() == HandleClose(old(State()), sid, clean, firing)
    {
      if sid in sessions && sessions[sid] in objs && firing.Some? && objs[sessions[sid]].transport != firing.value { return; }
      if clean {
        ForgetSession(sid);
      } else {
        StartReconnect(sid);
      }
    }

    method FinishRun(r: nat)
      requires r in runs && runs[r].obj in objs
      modifies this
      ensures State() == Finish(old(State()), r)
    {
      var o := runs[r].obj;
      if objs[o].inFlight == Some(r) {
        objs := objs[o := objs[o].(inFlight := None)];
      } else {
        assert objs == objs[o := objs[o]];
      }
      runs := runs - {r};
    }

    /** A recovery continues with what its stage's call came back with. */
    method Continue(r: nat, out: Outcome)
      requires r in runs && runs[r].obj in objs && Fits(runs[r].stage, out)
      modifies this
      ensures State() == Advance(old(State()), r, out)
    {
      hide Finish, ScheduleBackoff, ArmRefresh, Forget;
      var sid, o := runs[r].sid, runs[r].obj;
      match out {
        case AuthOk => runs := runs[r := runs[r].(stage := Creds)];
        case CredsOk(connected) => runs := runs[r := runs[r].(stage := if connected then Swap else Reattach)];
        case CredsGone =>
          RunsKept(State(), sid, r);
          ForgetSession(sid);
          FinishRun(r);
        case SwapOk =>
          objs := objs[o := objs[o].(attempt := 0)];
          RunsKept(State(), sid, r);
          ArmProactiveRefresh(sid);
          FinishRun(r);
        case ReattachOk(t) =>
          objs := objs[o := objs[o].(transport := t)];
          bridge := bridge[sid := t];
          objs := objs[o := objs[o].(attempt := 0)];
          RunsKept(State(), sid, r);
          ArmProactiveRefresh(sid);
          FinishRun(r);
        case _ =>
          RunsKept(State(), sid, r);
          ScheduleBackoffRetry(sid);
          FinishRun(r);
      }
    }

    method AttachReturned(sid: string, t: Option<nat>)
      requires sid in attaching
      modifies this
      ensures State() == AttachDone(old(State()), sid, t)
    {
      attaching := attaching - {sid};
      if t.None? { return; }
      objs := objs[next := Attached(sid, t.value, None, None, 0, None)];
      sessions, next := sessions[sid := next], next + 1;
      bridge := bridge[sid := t.value];
      ArmProactiveRefresh(sid);
    }
  }

  lemma RunsKept(s: Service, sid: string, r: nat)
    requires r in s.runs && s.runs[r].obj in s.objs
    ensures r in ScheduleBackoff(s, sid).runs && ScheduleBackoff(s, sid).runs[r].obj in ScheduleBackoff(s, sid).objs
    ensures r in ArmRefresh(s, sid).runs && ArmRefresh(s, sid).runs[r].obj in ArmRefresh(s, sid).objs
    ensures r in Forget(s, sid).runs && Forget(s, sid).runs[r].obj in Forget(s, sid).objs
  {
  }
}
