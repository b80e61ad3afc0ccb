/** What every reachable state of the recovery machine keeps. */
module BridgeProof {
  import opened Options
  import opened Bridge

  /** Each attached session has its own record, and nothing is numbered past `next`. */
  ghost predicate Tracked(s: Service) {
    && (forall sid :: sid in s.sessions ==> s.sessions[sid] in s.objs && s.objs[s.sessions[sid]].sid == sid)
    && (forall o :: o in s.objs ==> o < s.next)
    && (forall h :: h in s.timers ==> h < s.next)
    && (forall r :: r in s.runs ==> r < s.next)
  }

  /** An armed timer belongs to an attached session, as its refresh or its backoff timer. */
  predicate Owned(s: Service, h: nat)
    requires h in s.timers
  {
    Has(s, s.timers[h]) && (Of(s, s.timers[h]).refresh == Some(h) || Of(s, s.timers[h]).backoff == Some(h))
  }

  /** At most one of the two timers, none while recovering, and the ladder is not overrun. */
  predicate Calm(a: Attached) {
    && !(a.refresh.Some? && a.backoff.Some?)
    && (a.inFlight.Some? ==> a.refresh.None? && a.backoff.None?)
    && a.attempt <= |LADDER|
  }

  /** A recovery is the one its record names, and its record is the attached one. */
  predicate Guarded(s: Service, r: nat)
    requires r in s.runs
  {
    var run := s.runs[r];
    && run.obj in s.objs && s.objs[run.obj].sid == run.sid && s.objs[run.obj].inFlight == Some(r)
    && (run.sid in s.sessions ==> s.sessions[run.sid] == run.obj)
    && (!s.stopped ==> run.sid in s.sessions)
    && run.sid !in s.attaching
  }

  /** A handle the session holds is not yet to be given out, and if it is armed it is the session's own. */
  predicate OwnHandle(s: Service, sid: string, h: Option<nat>) {
    h.Some? ==> h.value < s.next && (h.value in s.timers ==> s.timers[h.value] == sid)
  }

  /** An attached session: calm, its slot holding its transport, its recovery a real one. */
  predicate Sound(s: Service, sid: string)
    requires Has(s, sid)
  {
    var a := Of(s, sid);
    && OwnHandle(s, sid, a.refresh) && OwnHandle(s, sid, a.backoff)
    && Calm(a) && sid in s.bridge && s.bridge[sid] == a.transport && sid !in s.attaching
    && (a.inFlight.Some? ==> a.inFlight.value in s.runs && s.runs[a.inFlight.value].obj == s.sessions[sid])
  }

  /** A runtime forwards only while its session is attached; shutdown alone leaves slots behind. */
  ghost predicate Slots(s: Service) {
    !s.stopped ==> forall sid :: sid in s.bridge ==> sid in s.sessions
  }

  ghost predicate Inv(s: Service) {
    && Tracked(s) && Slots(s)
    && (forall h :: h in s.timers ==> Owned(s, h))
    && (forall r :: r in s.runs ==> Guarded(s, r))
    && (forall sid :: sid in s.sessions ==> Has(s, sid) && Sound(s, sid))
  }

  lemma CancelTracked(s: Service, sid: string)
    requires Inv(s) && Has(s, sid)
    ensures Tracked(CancelTimers(s, s.sessions[sid])) && Slots(CancelTimers(s, s.sessions[sid]))
  {
    hide Owned, Guarded, Sound;
  }

  lemma CancelOwned(s: Service, sid: string, h: nat)
    requires Inv(s) && Has(s, sid) && h in CancelTimers(s, s.sessions[sid]).timers
    ensures Owned(CancelTimers(s, s.sessions[sid]), h)
  {
    hide Guarded, Sound, Slots;
    assert Owned(s, h);
  }

  lemma CancelGuarded(s: Service, sid: string, r: nat)
    requires Inv(s) && Has(s, sid) && r in s.runs
    ensures Guarded(CancelTimers(s, s.sessions[sid]), r)
  {
    hide Owned, Sound, Slots;
    assert Guarded(s, r);
  }

  lemma CancelSound(s: Service, sid: string, x: string)
    requires Inv(s) && Has(s, sid) && x in s.sessions
    ensures Has(CancelTimers(s, s.sessions[sid]), x) && Sound(CancelTimers(s, s.sessions[sid]), x)
  {
    hide Owned, Guarded, Slots;
    assert Sound(s, x);
  }

  lemma CancelFields(s: Service, sid: string)
    requires Has(s, sid)
    ensures var t := CancelTimers(s, s.sessions[sid]);
            && Has(t, sid) && Of(t, sid) == Of(s, sid).(refresh := None, backoff := None)
            && t.runs == s.runs && t.sessions == s.sessions && t.timers.Keys <= s.timers.Keys
  {
  }

  lemma CancelKeepsInv(s: Service, sid: string)
    requires Inv(s) && Has(s, sid)
    ensures Inv(CancelTimers(s, s.sessions[sid]))
    ensures var t := CancelTimers(s, s.sessions[sid]);
            Has(t, sid) && Of(t, sid) == Of(s, sid).(refresh := None, backoff := None)
  {
    hide CancelTimers, Tracked, Slots, Owned, Guarded, Sound;
    var t := CancelTimers(s, s.sessions[sid]);
    CancelFields(s, sid);
    CancelTracked(s, sid);
    forall h | h in t.timers ensures Owned(t, h) { CancelOwned(s, sid, h); }
    forall r | r in t.runs ensures Guarded(t, r) { CancelGuarded(s, sid, r); }
    forall x | x in t.sessions ensures Has(t, x) && Sound(t, x) { CancelSound(s, sid, x); }
  }

  /** A recovery starts on an attached record whose timers have been cancelled. */
  function Started(t: Service, sid: string): Service
    requires Has(t, sid)
  {
    var o := t.sessions[sid];
    t.(objs := t.objs[o := t.objs[o].(inFlight := Some(t.next))], runs := t.runs[t.next := Run(sid, o, Auth)], next := t.next + 1)
  }

  predicate Startable(t: Service, sid: string) {
    Has(t, sid) && Of(t, sid).inFlight.None? && Of(t, sid).refresh.None? && Of(t, sid).backoff.None?
  }

  lemma StartedTracked(t: Service, sid: string)
    requires Inv(t) && !t.stopped && Startable(t, sid)
    ensures Tracked(Started(t, sid)) && Slots(Started(t, sid))
  {
    hide Owned, Guarded, Sound;
  }

  lemma StartedOwned(t: Service, sid: string, h: nat)
    requires Inv(t) && !t.stopped && Startable(t, sid) && h in t.timers
    ensures Owned(Started(t, sid), h)
  {
    hide Guarded, Sound, Slots;
    assert Owned(t, h);
  }

  lemma StartedGuarded(t: Service, sid: string, r: nat)
    requires Inv(t) && !t.stopped && Startable(t, sid) && r in Started(t, sid).runs
    ensures Guarded(Started(t, sid), r)
  {
    hide Owned, Slots;
    assert Sound(t, sid);
    if r != t.next { assert Guarded(t, r); }
  }

  lemma StartedSound(t: Service, sid: string, x: string)
    requires Inv(t) && !t.stopped && Startable(t, sid) && x in t.sessions
    ensures Has(Started(t, sid), x) && Sound(Started(t, sid), x)
  {
    hide Owned, Guarded, Slots;
    assert Sound(t, x);
  }

  lemma StartedKeepsInv(t: Service, sid: string)
    requires Inv(t) && !t.stopped && Startable(t, sid)
    ensures Inv(Started(t, sid))
  {
    hide Tracked, Slots, Owned, Guarded, Sound;
    var u := Started(t, sid);
    StartedTracked(t, sid);
    forall h | h in u.timers ensures Owned(u, h) { StartedOwned(t, sid, h); }
    forall r | r in u.runs ensures Guarded(u, r) { StartedGuarded(t, sid, r); }
    forall x | x in u.sessions ensures Has(u, x) && Sound(u, x) { StartedSound(t, sid, x); }
  }

  lemma ReconnectStarts(s: Service, sid: string)
    requires Has(s, sid) && !s.stopped && Of(s, sid).inFlight.None?
    ensures Startable(CancelTimers(s, s.sessions[sid]), sid)
    ensures Reconnect(s, sid) == Started(CancelTimers(s, s.sessions[sid]), sid)
  {
  }

  lemma ReconnectKeepsInv(s: Service, sid: string)
    requires Inv(s)
    ensures Inv(Reconnect(s, sid))
  {
    if Has(s, sid) && !s.stopped && Of(s, sid).inFlight.None? {
      ReconnectStarts(s, sid);
      CancelKeepsInv(s, sid);
      hide Inv, CancelTimers, Started, Reconnect, Startable;
      StartedKeepsInv(CancelTimers(s, s.sessions[sid]), sid);
    }
  }

  lemma TimerKeepsInv(s: Service, h: nat)
    requires Inv(s) && h in s.timers
    ensures Inv(s.(timers := s.timers - {h}))
  {
    var t := s.(timers := s.timers - {h});
    forall k | k in t.timers ensures Owned(t, k) {
      assert Owned(s, k);
    }
    forall r | r in t.runs ensures Guarded(t, r) {
      assert Guarded(s, r);
    }
    forall x | x in t.sessions ensures Has(t, x) && Sound(t, x) {
      assert Sound(s, x);
    }
  }

  /** No recovery is in flight for the session, or nothing can come of it any more. */
  predicate Settled(s: Service, sid: string) {
    Has(s, sid) && !s.stopped ==> Of(s, sid).inFlight.None?
  }

  /** A record whose timers have been cancelled is dropped, and the slot it fills is cleared. */
  function Dropped(t: Service, sid: string): Service {
    t.(sessions := t.sessions - {sid}, bridge := t.bridge - {sid})
  }

  /** The session has nothing armed, and nothing in flight that could still come back to it. */
  predicate Droppable(t: Service, sid: string) {
    Has(t, sid) && Of(t, sid).refresh.None? && Of(t, sid).backoff.None? && (!t.stopped ==> Of(t, sid).inFlight.None?)
  }

  lemma DroppedTracked(t: Service, sid: string)
    requires Inv(t) && Droppable(t, sid)
    ensures Tracked(Dropped(t, sid)) && Slots(Dropped(t, sid))
  {
    hide Owned, Guarded, Sound;
  }

  lemma DroppedOwned(t: Service, sid: string, h: nat)
    requires Inv(t) && Droppable(t, sid) && h in t.timers
    ensures Owned(Dropped(t, sid), h)
  {
    hide Guarded, Sound, Slots;
    assert Owned(t, h);
  }

  lemma DroppedGuarded(t: Service, sid: string, r: nat)
    requires Inv(t) && Droppable(t, sid) && r in t.runs
    ensures Guarded(Dropped(t, sid), r)
  {
    hide Owned, Sound, Slots;
    assert Guarded(t, r);
  }

  lemma DroppedSound(t: Service, sid: string, x: string)
    requires Inv(t) && Droppable(t, sid) && x in t.sessions && x != sid
    ensures Has(Dropped(t, sid), x) && Sound(Dropped(t, sid), x)
  {
    hide Owned, Guarded, Slots;
    assert Sound(t, x);
  }

  lemma ForgetDrops(s: Service, sid: string)
    requires Has(s, sid) && sid in s.bridge && s.bridge[sid] == Of(s, sid).transport && Settled(s, sid)
    ensures var t := CancelTimers(s, s.sessions[sid]); Droppable(t, sid) && Forget(s, sid) == Dropped(t, sid)
  {
  }

  lemma ForgetKeepsInv(s: Service, sid: string)
    requires Inv(s) && Settled(s, sid)
    ensures Inv(Forget(s, sid))
  {
    if Has(s, sid) {
      assert Sound(s, sid);
      ForgetDrops(s, sid);
      CancelKeepsInv(s, sid);
      hide CancelTimers, Forget, Tracked, Slots, Owned, Guarded, Sound, Droppable;
      var t := CancelTimers(s, s.sessions[sid]);
      var u := Dropped(t, sid);
      DroppedTracked(t, sid);
      forall h | h in u.timers ensures Owned(u, h) { DroppedOwned(t, sid, h); }
      forall r | r in u.runs ensures Guarded(u, r) { DroppedGuarded(t, sid, r); }
      forall x | x in u.sessions ensures Has(u, x) && Sound(u, x) { DroppedSound(t, sid, x); }
    }
  }

  /** The state in which a recovery of an attached session ends: record `a`, timers `timers`, slot as given. */
  function Ended(s: Service, r: nat, a: Attached, timers: map<nat, string>, slot: nat, next: nat): Service
    requires r in s.runs
  {
    s.(objs := s.objs[s.runs[r].obj := a], timers := timers, runs := s.runs - {r},
       bridge := s.bridge[s.runs[r].sid := slot], next := next)
  }

  /** The record and timers a recovery may end with. */
  predicate EndsWith(s: Service, r: nat, a: Attached, slot: nat, armed: bool) {
    && r in s.runs && s.runs[r].sid in s.sessions
    && a.sid == s.runs[r].sid && a.transport == slot && a.inFlight.None? && Calm(a)
    && (armed ==> a.refresh == Some(s.next) || a.backoff == Some(s.next))
    && (a.refresh.Some? ==> armed && a.refresh.value == s.next)
    && (a.backoff.Some? ==> armed && a.backoff.value == s.next)
  }

  function EndedArmed(s: Service, r: nat, a: Attached, slot: nat, armed: bool): Service
    requires r in s.runs
  {
    Ended(s, r, a, if armed then s.timers[s.next := a.sid] else s.timers, slot, if armed then s.next + 1 else s.next)
  }

  lemma EndTimersOwned(s: Service, r: nat, a: Attached, slot: nat, armed: bool, h: nat)
    requires Inv(s) && EndsWith(s, r, a, slot, armed) && h in EndedArmed(s, r, a, slot, armed).timers
    ensures Owned(EndedArmed(s, r, a, slot, armed), h)
  {
    assert Guarded(s, r) && Sound(s, a.sid);
    if h in s.timers { assert Owned(s, h); }
  }

  lemma EndRunsGuarded(s: Service, r: nat, a: Attached, slot: nat, armed: bool, q: nat)
    requires Inv(s) && EndsWith(s, r, a, slot, armed) && q in EndedArmed(s, r, a, slot, armed).runs
    ensures Guarded(EndedArmed(s, r, a, slot, armed), q)
  {
    assert Guarded(s, r) && Guarded(s, q);
  }

  lemma EndSessionsSound(s: Service, r: nat, a: Attached, slot: nat, armed: bool, x: string)
    requires Inv(s) && EndsWith(s, r, a, slot, armed) && x in s.sessions
    ensures Has(EndedArmed(s, r, a, slot, armed), x) && Sound(EndedArmed(s, r, a, slot, armed), x)
  {
    assert Guarded(s, r) && Sound(s, x);
  }

  lemma EndTracked(s: Service, r: nat, a: Attached, slot: nat, armed: bool)
    requires Inv(s) && EndsWith(s, r, a, slot, armed)
    ensures Tracked(EndedArmed(s, r, a, slot, armed))
  {
    assert Guarded(s, r);
  }

  lemma EndSlots(s: Service, r: nat, a: Attached, slot: nat, armed: bool)
    requires Inv(s) && EndsWith(s, r, a, slot, armed)
    ensures Slots(EndedArmed(s, r, a, slot, armed))
  {
  }

  lemma EndKeepsInv(s: Service, r: nat, a: Attached, slot: nat, armed: bool)
    requires Inv(s) && EndsWith(s, r, a, slot, armed)
    ensures Inv(EndedArmed(s, r, a, slot, armed))
  {
    hide Tracked, Slots, Owned, Guarded, Sound;
    var u := EndedArmed(s, r, a, slot, armed);
    EndTracked(s, r, a, slot, armed);
    EndSlots(s, r, a, slot, armed);
    forall h | h in u.timers ensures Owned(u, h) { EndTimersOwned(s, r, a, slot, armed, h); }
    forall q | q in u.runs ensures Guarded(u, q) { EndRunsGuarded(s, r, a, slot, armed, q); }
    forall x | x in u.sessions ensures Has(u, x) && Sound(u, x) { EndSessionsSound(s, r, a, slot, armed, x); }
  }

  /** A recovery that the service's shutdown left behind ends without touching any session. */
  lemma OrphanEndKeepsInv(s: Service, r: nat, a: Attached, bridge: map<string, nat>)
    requires Inv(s) && r in s.runs && s.runs[r].sid !in s.sessions && a.sid == s.runs[r].sid
    requires forall x :: x in s.sessions ==> x in bridge && x in s.bridge && bridge[x] == s.bridge[x]
    ensures Inv(s.(objs := s.objs[s.runs[r].obj := a], runs := s.runs - {r}, bridge := bridge))
  {
    var u := s.(objs := s.objs[s.runs[r].obj := a], runs := s.runs - {r}, bridge := bridge);
    assert Guarded(s, r);
    forall h | h in u.timers ensures Owned(u, h) {
      assert Owned(s, h);
    }
    forall q | q in u.runs ensures Guarded(u, q) {
      assert Guarded(s, q);
    }
    forall x | x in u.sessions ensures Has(u, x) && Sound(u, x) {
      assert Sound(s, x);
    }
  }

  /** What a run of an attached session knows about its record. */
  predicate Live(s: Service, r: nat) {
    && r in s.runs && s.runs[r].obj in s.objs
    && s.runs[r].sid in s.sessions && s.sessions[s.runs[r].sid] == s.runs[r].obj
    && s.objs[s.runs[r].obj].inFlight == Some(r) && s.objs[s.runs[r].obj].sid == s.runs[r].sid
    && s.objs[s.runs[r].obj].refresh.None? && s.objs[s.runs[r].obj].backoff.None?
    && s.runs[r].sid in s.bridge && s.bridge[s.runs[r].sid] == s.objs[s.runs[r].obj].transport
  }

  lemma GuardedIsLive(s: Service, r: nat)
    requires Inv(s) && r in s.runs
    ensures s.runs[r].obj in s.objs && s.objs[s.runs[r].obj].sid == s.runs[r].sid && s.objs[s.runs[r].obj].inFlight == Some(r)
    ensures s.runs[r].sid in s.sessions ==> Live(s, r) && Calm(s.objs[s.runs[r].obj])
  {
    assert Guarded(s, r);
    if s.runs[r].sid in s.sessions {
      assert Sound(s, s.runs[r].sid);
    }
  }

  /** The record after a failed recovery: one step up the ladder and a retry armed, or nothing armed past its end. */
  function Retried(a: Attached, handle: nat): Attached {
    if a.attempt < |LADDER| then a.(backoff := Some(handle), attempt := a.attempt + 1, inFlight := None)
    else a.(backoff := None, inFlight := None)
  }

  lemma RetryEnds(s: Service, r: nat)
    requires Live(s, r)
    ensures var sid, a := s.runs[r].sid, s.objs[s.runs[r].obj];
            var armed := a.attempt < |LADDER|;
            Finish(ScheduleBackoff(s, sid), r) ==
            Ended(s, r, Retried(a, s.next), if armed then s.timers[s.next := sid] else s.timers, a.transport,
                  if armed then s.next + 1 else s.next)
  {
    assert s.timers - {} == s.timers;
  }

  lemma RetryAttached(s: Service, r: nat)
    requires Inv(s) && Live(s, r) && Calm(s.objs[s.runs[r].obj])
    ensures Inv(Finish(ScheduleBackoff(s, s.runs[r].sid), r))
  {
    hide Inv, Finish, ScheduleBackoff, Ended;
    var a := s.objs[s.runs[r].obj];
    RetryEnds(s, r);
    EndKeepsInv(s, r, Retried(a, s.next), a.transport, a.attempt < |LADDER|);
  }

  lemma SlotsKnown(s: Service)
    requires Inv(s)
    ensures forall x :: x in s.sessions ==> x in s.bridge
  {
    forall x | x in s.sessions ensures x in s.bridge { assert Sound(s, x); }
  }

  lemma RetryKeepsInv(s: Service, r: nat)
    requires Inv(s) && r in s.runs
    ensures s.runs[r].obj in s.objs && Inv(Finish(ScheduleBackoff(s, s.runs[r].sid), r))
  {
    hide Inv;
    GuardedIsLive(s, r);
    if s.runs[r].sid in s.sessions {
      RetryAttached(s, r);
    } else {
      var a := s.objs[s.runs[r].obj];
      SlotsKnown(s);
      OrphanEndKeepsInv(s, r, a.(inFlight := None), s.bridge);
      assert Finish(ScheduleBackoff(s, s.runs[r].sid), r)
          == s.(objs := s.objs[s.runs[r].obj := a.(inFlight := None)], runs := s.runs - {r}, bridge := s.bridge);
    }
  }

  /** The slot and transport a successful recovery leaves: a new one after a re-attach, else the same. */
  function Swapped(s: Service, r: nat, slot: Option<nat>): Service
    requires r in s.runs && s.runs[r].obj in s.objs
  {
    if slot.Some? then NewTransport(s, s.runs[r].obj, s.runs[r].sid, slot.value) else s
  }

  function Succeeded(s: Service, r: nat, slot: Option<nat>): Service
    requires r in s.runs && s.runs[r].obj in s.objs
  {
    Finish(ArmRefresh(ResetAttempt(Swapped(s, r, slot), s.runs[r].obj), s.runs[r].sid), r)
  }

  lemma SuccessEnds(s: Service, r: nat, slot: Option<nat>)
    requires Live(s, r)
    ensures var a := s.objs[s.runs[r].obj];
            var t := if slot.Some? then slot.value else a.transport;
            Succeeded(s, r, slot) ==
            Ended(s, r, a.(transport := t, refresh := Some(s.next), attempt := 0, inFlight := None),
                  s.timers[s.next := s.runs[r].sid], t, s.next + 1)
  {
    hide ArmRefresh;
    ArmIsFirst(ResetAttempt(Swapped(s, r, slot), s.runs[r].obj), s.runs[r].sid);
  }

  lemma SuccessOrphan(s: Service, r: nat, slot: Option<nat>)
    requires r in s.runs && s.runs[r].obj in s.objs && s.runs[r].sid !in s.sessions
    requires s.objs[s.runs[r].obj].inFlight == Some(r)
    ensures var a := s.objs[s.runs[r].obj];
            var t := if slot.Some? then slot.value else a.transport;
            Succeeded(s, r, slot) ==
            s.(objs := s.objs[s.runs[r].obj := a.(transport := t, attempt := 0, inFlight := None)], runs := s.runs - {r},
               bridge := Swapped(s, r, slot).bridge)
  {
  }

  lemma SuccessAttached(s: Service, r: nat, slot: Option<nat>)
    requires Inv(s) && Live(s, r) && Calm(s.objs[s.runs[r].obj])
    ensures Inv(Succeeded(s, r, slot))
  {
    hide Inv, Succeeded, Ended;
    var a := s.objs[s.runs[r].obj];
    var t := if slot.Some? then slot.value else a.transport;
    SuccessEnds(s, r, slot);
    EndKeepsInv(s, r, a.(transport := t, refresh := Some(s.next), attempt := 0, inFlight := None), t, true);
  }

  lemma SuccessKeepsInv(s: Service, r: nat, slot: Option<nat>)
    requires Inv(s) && r in s.runs
    ensures s.runs[r].obj in s.objs && Inv(Succeeded(s, r, slot))
  {
    hide Inv, Succeeded;
    GuardedIsLive(s, r);
    if s.runs[r].sid in s.sessions {
      SuccessAttached(s, r, slot);
    } else {
      var a := s.objs[s.runs[r].obj];
      var t := if slot.Some? then slot.value else a.transport;
      SlotsKnown(s);
      SuccessOrphan(s, r, slot);
      OrphanEndKeepsInv(s, r, a.(transport := t, attempt := 0, inFlight := None), Swapped(s, r, slot).bridge);
    }
  }

  lemma FinishEnds(s: Service, r: nat)
    requires Live(s, r)
    ensures var a := s.objs[s.runs[r].obj];
            Finish(s, r) == Ended(s, r, a.(inFlight := None), s.timers, a.transport, s.next)
  {
  }

  lemma FinishForgetCommute(s: Service, r: nat)
    requires Live(s, r)
    ensures Forget(Finish(s, r), s.runs[r].sid) == Finish(Forget(s, s.runs[r].sid), r)
  {
  }

  lemma GoneAttached(s: Service, r: nat)
    requires Inv(s) && Live(s, r) && Calm(s.objs[s.runs[r].obj])
    ensures Inv(Finish(Forget(s, s.runs[r].sid), r))
  {
    var a := s.objs[s.runs[r].obj];
    var freed := Finish(s, r);
    assert Has(freed, s.runs[r].sid) && Of(freed, s.runs[r].sid).inFlight.None?;
    hide Inv, Forget, Ended, Finish;
    FinishForgetCommute(s, r);
    FinishEnds(s, r);
    EndKeepsInv(s, r, a.(inFlight := None), a.transport, false);
    ForgetKeepsInv(freed, s.runs[r].sid);
  }

  lemma GoneKeepsInv(s: Service, r: nat)
    requires Inv(s) && r in s.runs
    ensures s.runs[r].obj in s.objs && Inv(Finish(Forget(s, s.runs[r].sid), r))
  {
    hide Inv;
    GuardedIsLive(s, r);
    if s.runs[r].sid in s.sessions {
      GoneAttached(s, r);
    } else {
      SlotsKnown(s);
      var a := s.objs[s.runs[r].obj].(inFlight := None);
      OrphanEndKeepsInv(s, r, a, s.bridge);
      assert Finish(Forget(s, s.runs[r].sid), r) == s.(objs := s.objs[s.runs[r].obj := a], runs := s.runs - {r}, bridge := s.bridge);
    }
  }

  lemma StageKeepsInv(s: Service, r: nat, stage: Stage)
    requires Inv(s) && r in s.runs
    ensures Inv(SetStage(s, r, stage))
  {
    var u := SetStage(s, r, stage);
    forall h | h in u.timers ensures Owned(u, h) {
      assert Owned(s, h);
    }
    forall q | q in u.runs ensures Guarded(u, q) {
      assert Guarded(s, q);
    }
    forall x | x in u.sessions ensures Has(u, x) && Sound(u, x) {
      assert Sound(s, x);
    }
  }

  lemma AdvanceKeepsInv(s: Service, r: nat, out: Outcome)
    requires Inv(s) && r in s.runs && s.runs[r].obj in s.objs && Fits(s.runs[r].stage, out)
    ensures Inv(Advance(s, r, out))
  {
    hide Inv, Finish, ScheduleBackoff, ArmRefresh, Forget, ResetAttempt, NewTransport, SetStage;
    match out {
      case AuthOk => StageKeepsInv(s, r, Creds);
      case CredsOk(connected) => StageKeepsInv(s, r, if connected then Swap else Reattach);
      case CredsGone => GoneKeepsInv(s, r);
      case SwapOk => SuccessKeepsInv(s, r, None);
      case ReattachOk(t) => SuccessKeepsInv(s, r, Some(t));
      case _ => RetryKeepsInv(s, r);
    }
  }

  lemma AttachStartKeepsInv(s: Service, sid: string)
    requires Inv(s) && Enabled(s, AttachStart(sid))
    ensures Inv(Take(s, AttachStart(sid)))
  {
    var u := s.(attaching := s.attaching + {sid});
    if !(s.stopped || Has(s, sid)) {
      forall h | h in u.timers ensures Owned(u, h) {
        assert Owned(s, h);
      }
      forall q | q in u.runs ensures Guarded(u, q) {
        assert Guarded(s, q);
      }
      forall x | x in u.sessions ensures Has(u, x) && Sound(u, x) {
        assert Sound(s, x);
      }
    }
  }

  /** The session with a first refresh timer. */
  function FirstArmed(s: Service, sid: string): Service
    requires Has(s, sid)
  {
    s.(objs := s.objs[s.sessions[sid] := Of(s, sid).(refresh := Some(s.next))], timers := s.timers[s.next := sid], next := s.next + 1)
  }

  lemma ArmIsFirst(s: Service, sid: string)
    requires Has(s, sid) && Of(s, sid).refresh.None?
    ensures ArmRefresh(s, sid) == FirstArmed(s, sid)
  {
    assert s.timers - {} == s.timers;
  }

  lemma ArmedTracked(s: Service, sid: string)
    requires Inv(s) && Startable(s, sid)
    ensures Tracked(FirstArmed(s, sid)) && Slots(FirstArmed(s, sid))
  {
    hide Owned, Guarded, Sound;
  }

  lemma ArmedOwned(s: Service, sid: string, h: nat)
    requires Inv(s) && Startable(s, sid) && h in FirstArmed(s, sid).timers
    ensures Owned(FirstArmed(s, sid), h)
  {
    hide Guarded, Sound, Slots;
    if h != s.next { assert Owned(s, h); }
  }

  lemma ArmedGuarded(s: Service, sid: string, r: nat)
    requires Inv(s) && Startable(s, sid) && r in s.runs
    ensures Guarded(FirstArmed(s, sid), r)
  {
    hide Owned, Sound, Slots;
    assert Guarded(s, r);
  }

  lemma ArmedSound(s: Service, sid: string, x: string)
    requires Inv(s) && Startable(s, sid) && x in s.sessions
    ensures Has(FirstArmed(s, sid), x) && Sound(FirstArmed(s, sid), x)
  {
    hide Owned, Guarded, Slots;
    assert Sound(s, x);
  }

  lemma ArmKeepsInv(s: Service, sid: string)
    requires Inv(s) && Startable(s, sid)
    ensures Inv(ArmRefresh(s, sid))
  {
    hide ArmRefresh, Tracked, Slots, Owned, Guarded, Sound;
    ArmIsFirst(s, sid);
    var u := FirstArmed(s, sid);
    ArmedTracked(s, sid);
    forall h | h in u.timers ensures Owned(u, h) { ArmedOwned(s, sid, h); }
    forall r | r in u.runs ensures Guarded(u, r) { ArmedGuarded(s, sid, r); }
    forall x | x in u.sessions ensures Has(u, x) && Sound(u, x) { ArmedSound(s, sid, x); }
  }

  /** The session as it stands before its refresh timer is armed. */
  function Registered(s: Service, sid: string, t: nat): Service {
    s.(attaching := s.attaching - {sid}, objs := s.objs[s.next := Attached(sid, t, None, None, 0, None)],
       sessions := s.sessions[sid := s.next], bridge := s.bridge[sid := t], next := s.next + 1)
  }

  lemma RegisteredOwned(s: Service, sid: string, t: nat, h: nat)
    requires Inv(s) && sid in s.attaching && h in s.timers
    ensures Owned(Registered(s, sid, t), h)
  {
    hide Guarded, Slots;
    assert Owned(s, h) && Sound(s, s.timers[h]);
  }

  lemma RegisteredGuarded(s: Service, sid: string, t: nat, r: nat)
    requires Inv(s) && sid in s.attaching && r in s.runs
    ensures Guarded(Registered(s, sid, t), r)
  {
    hide Owned, Sound, Slots;
    assert Guarded(s, r);
  }

  lemma RegisteredSound(s: Service, sid: string, t: nat, x: string)
    requires Inv(s) && sid in s.attaching && (x == sid || x in s.sessions)
    ensures Has(Registered(s, sid, t), x) && Sound(Registered(s, sid, t), x)
  {
    hide Owned, Guarded, Slots;
    if x in s.sessions { assert Sound(s, x); }
  }

  lemma RegisteredTracked(s: Service, sid: string, t: nat)
    requires Inv(s)
    ensures Tracked(Registered(s, sid, t)) && Slots(Registered(s, sid, t))
  {
    hide Owned, Guarded, Sound;
  }

  lemma RegisterKeepsInv(s: Service, sid: string, t: nat)
    requires Inv(s) && sid in s.attaching
    ensures Inv(Registered(s, sid, t))
  {
    hide Tracked, Slots, Owned, Guarded, Sound;
    var u := Registered(s, sid, t);
    RegisteredTracked(s, sid, t);
    forall h | h in u.timers ensures Owned(u, h) { RegisteredOwned(s, sid, t, h); }
    forall r | r in u.runs ensures Guarded(u, r) { RegisteredGuarded(s, sid, t, r); }
    forall x | x in u.sessions ensures Has(u, x) && Sound(u, x) { RegisteredSound(s, sid, t, x); }
  }

  lemma AttachFailKeepsInv(s: Service, sid: string)
    requires Inv(s)
    ensures Inv(s.(attaching := s.attaching - {sid}))
  {
    var u := s.(attaching := s.attaching - {sid});
    forall h | h in u.timers ensures Owned(u, h) {
      assert Owned(s, h);
    }
    forall q | q in u.runs ensures Guarded(u, q) {
      assert Guarded(s, q);
    }
    forall x | x in u.sessions ensures Has(u, x) && Sound(u, x) {
      assert Sound(s, x);
    }
  }

  lemma AttachEndKeepsInv(s: Service, sid: string, t: Option<nat>)
    requires Inv(s) && sid in s.attaching
    ensures Inv(AttachDone(s, sid, t))
  {
    hide Inv, ArmRefresh;
    if t.None? {
      AttachFailKeepsInv(s, sid);
    } else {
      RegisterKeepsInv(s, sid, t.value);
      ArmKeepsInv(Registered(s, sid, t.value), sid);
    }
  }

  lemma ShutdownKeepsInv(s: Service)
    requires Inv(s)
    ensures Inv(Shutdown(s))
  {
    var u := Shutdown(s);
    if !s.stopped {
      forall h | h in s.timers ensures Held(s, h) {
        assert Owned(s, h);
        assert s.sessions[s.timers[h]] in s.sessions.Values && HoldsHandle(Of(s, s.timers[h]), h);
      }
      assert u.timers == map[];
      forall q | q in u.runs ensures Guarded(u, q) {
        assert Guarded(s, q);
      }
    }
  }

  /** A session is not detached, or cleanly closed by its own transport, while it recovers. */
  predicate Allowed(s: Service, step: Step) {
    match step
    case Detach(sid) => Settled(s, sid)
    case Close(sid, clean, firing) =>
      clean && Has(s, sid) && (firing.Some? ==> firing.value == Of(s, sid).transport) ==> Settled(s, sid)
    case _ => true
  }

  lemma StepKeepsInv(s: Service, step: Step)
    requires Inv(s) && Enabled(s, step) && Allowed(s, step)
    ensures Inv(Take(s, step))
  {
    hide Inv, Reconnect, Advance, AttachDone, Forget, Shutdown, Settled;
    match step {
      case AttachStart(sid) => AttachStartKeepsInv(s, sid);
      case AttachEnd(sid, t) => AttachEndKeepsInv(s, sid, t);
      case Close(sid, clean, firing) =>
        if clean && (!Has(s, sid) || firing.None? || firing.value == Of(s, sid).transport) { ForgetIfSettled(s, sid); }
        ReconnectKeepsInv(s, sid);
      case TimerFires(h) =>
        TimerKeepsInv(s, h);
        ReconnectKeepsInv(s.(timers := s.timers - {h}), s.timers[h]);
      case Call(sid) => ReconnectKeepsInv(s, sid);
      case StageDone(r, out) => AdvanceKeepsInv(s, r, out);
      case Detach(sid) => ForgetKeepsInv(s, sid);
      case Stop => ShutdownKeepsInv(s);
    }
  }

  lemma ForgetIfSettled(s: Service, sid: string)
    requires Inv(s) && (Has(s, sid) ==> Settled(s, sid))
    ensures Inv(Forget(s, sid))
  {
    ForgetKeepsInv(s, sid);
  }

  lemma UnsettledForgetBreaks(s: Service, sid: string)
    requires Inv(s) && !Settled(s, sid)
    ensures !Inv(Forget(s, sid))
  {
    var u := Forget(s, sid);
    assert Sound(s, sid);
    var r := Of(s, sid).inFlight.value;
    assert Guarded(s, r);
    assert r in u.runs && !Guarded(u, r);
  }

  /** The invariant survives a step exactly when the step does not pull a session from under its recovery. */
  lemma StepKeepsInvIff(s: Service, step: Step)
    requires Inv(s) && Enabled(s, step)
    ensures Inv(Take(s, step)) <==> Allowed(s, step)
  {
    hide Inv, Forget, Settled;
    if Allowed(s, step) {
      StepKeepsInv(s, step);
    } else {
      UnsettledForgetBreaks(s, step.sid);
    }
  }

  // ---- Whole runs ----

  /** The service after a sequence of events. */
  ghost function After(steps: seq<Step>): Service
    decreases |steps|
  {
    if steps == [] then Fresh()
    else
      var before, step := After(steps[..|steps| - 1]), steps[|steps| - 1];
      if Enabled(before, step) then Take(before, step) else before
  }

  /** No event of the sequence pulls a session from under its recovery. */
  ghost predicate Legal(steps: seq<Step>)
    decreases |steps|
  {
    steps == [] || (Legal(steps[..|steps| - 1]) && Allowed(After(steps[..|steps| - 1]), steps[|steps| - 1]))
  }

  lemma {:induction false} ReachableInv(steps: seq<Step>)
    requires Legal(steps)
    ensures Inv(After(steps))
    decreases |steps|
  {
    hide Inv, Take, Enabled, Allowed;
    if steps == [] {
      FreshInv();
    } else {
      ReachableInv(steps[..|steps| - 1]);
      if Enabled(After(steps[..|steps| - 1]), steps[|steps| - 1]) {
        StepKeepsInv(After(steps[..|steps| - 1]), steps[|steps| - 1]);
      }
    }
  }

  lemma FreshInv()
    ensures Inv(Fresh())
  {
  }

  /** What the machine promises about one attached session. */
  ghost predicate OneAtATime(s: Service, sid: string)
    requires Has(s, sid)
  {
    && (forall r, q :: r in s.runs && q in s.runs && s.runs[r].sid == sid && s.runs[q].sid == sid ==> r == q)
    && (forall h, k :: h in s.timers && k in s.timers && s.timers[h] == sid && s.timers[k] == sid ==> h == k)
    && (forall r, h :: r in s.runs && h in s.timers ==> !(s.runs[r].sid == sid && s.timers[h] == sid))
    && sid in s.bridge && s.bridge[sid] == Of(s, sid).transport
  }

  /** In every interleaving an attached session has at most one recovery, at most one armed timer, never both, and
    * its runtime forwards to its current transport. */
  lemma ReachableOneAtATime(steps: seq<Step>, sid: string)
    requires Legal(steps) && sid in After(steps).sessions
    ensures Has(After(steps), sid) && OneAtATime(After(steps), sid)
  {
    ReachableInv(steps);
    InvOneAtATime(After(steps), sid);
  }

  lemma InvOneAtATime(s: Service, sid: string)
    requires Inv(s) && sid in s.sessions
    ensures Has(s, sid) && OneAtATime(s, sid)
  {
    assert Sound(s, sid);
    forall r | r in s.runs && s.runs[r].sid == sid ensures Of(s, sid).inFlight == Some(r) {
      assert Guarded(s, r);
    }
    forall h | h in s.timers && s.timers[h] == sid ensures Of(s, sid).refresh == Some(h) || Of(s, sid).backoff == Some(h) {
      assert Owned(s, h);
    }
  }

  /** Nothing is left of a session that is not attached: no timer, no recovery, and its runtime forwards nowhere. */
  lemma DetachedIsSilent(steps: seq<Step>, sid: string)
    requires Legal(steps) && !After(steps).stopped && sid !in After(steps).sessions
    ensures var s := After(steps);
            && sid !in s.bridge
            && (forall h :: h in s.timers ==> s.timers[h] != sid)
            && (forall r :: r in s.runs ==> s.runs[r].sid != sid)
  {
    hide After, Legal;
    ReachableInv(steps);
    var s := After(steps);
    forall h | h in s.timers ensures s.timers[h] != sid {
      assert Owned(s, h);
    }
    forall r | r in s.runs ensures s.runs[r].sid != sid {
      assert Guarded(s, r);
    }
  }

  /** Detaching touches no other session. */
  lemma ForgetLeavesOthers(s: Service, sid: string, other: string)
    requires Inv(s) && other != sid && Has(s, other)
    ensures var u := Forget(s, sid);
            && sid !in u.sessions && Has(u, other) && Of(u, other) == Of(s, other)
            && (other in u.bridge <==> other in s.bridge) && (other in s.bridge ==> u.bridge[other] == s.bridge[other])
            && forall h :: h in s.timers && s.timers[h] == other ==> h in u.timers && u.timers[h] == other
  {
    assert Sound(s, other);
    if Has(s, sid) { assert Sound(s, sid); }
  }
}
