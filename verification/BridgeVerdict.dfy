/** What each outcome of a recovery's stage leads to, and what attaching, failing for good and shutting down leave behind. */
module BridgeVerdict {
  import opened Options
  import opened Bridge
  import opened BridgeProof

  /** Nothing of the session is left: no record in use, no slot, no armed timer, no recovery. */
  ghost predicate Gone(s: Service, sid: string) {
    && sid !in s.sessions && sid !in s.bridge
    && (forall h :: h in s.timers ==> s.timers[h] != sid)
    && (forall r :: r in s.runs ==> s.runs[r].sid != sid)
  }

  /** Another session is as it was: its record, its slot, its timers, its recoveries. */
  ghost predicate Untouched(s: Service, u: Service, x: string) {
    && (Has(s, x) <==> Has(u, x)) && (Has(s, x) ==> u.sessions[x] == s.sessions[x] && Of(u, x) == Of(s, x))
    && (x in s.bridge <==> x in u.bridge) && (x in s.bridge ==> u.bridge[x] == s.bridge[x])
    && (forall h :: h in s.timers && s.timers[h] == x <==> h in u.timers && u.timers[h] == x)
    && (forall r :: r in s.runs && s.runs[r].sid == x <==> r in u.runs && u.runs[r].sid == x)
    && (forall r :: r in s.runs && s.runs[r].sid == x ==> u.runs[r] == s.runs[r])
  }

  lemma ForgetFinish(s: Service, r: nat)
    requires Live(s, r)
    ensures var sid, o := s.runs[r].sid, s.runs[r].obj;
            Finish(Forget(s, sid), r) ==
            s.(sessions := s.sessions - {sid}, bridge := s.bridge - {sid}, runs := s.runs - {r},
               objs := s.objs[o := s.objs[o].(inFlight := None)])
  {
    assert s.timers - {} == s.timers;
  }

  lemma InvGuarded(s: Service, r: nat)
    requires Inv(s) && r in s.runs && !s.stopped
    ensures Guarded(s, r) && Live(s, r)
  {
    GuardedIsLive(s, r);
    assert Guarded(s, r);
  }

  lemma InvOwned(s: Service, h: nat)
    requires Inv(s) && h in s.timers
    ensures Owned(s, h)
  {}

  lemma InvTracked(s: Service, x: string)
    requires Inv(s) && x in s.sessions
    ensures Has(s, x) && Of(s, x).sid == x
  {}

  /** Credentials that are gone end everything about the session, and nothing about any other. */
  lemma GoneIsFinal(s: Service, r: nat)
    requires Inv(s) && !s.stopped && r in s.runs && s.runs[r].stage.Creds?
    ensures s.runs[r].obj in s.objs && Fits(s.runs[r].stage, CredsGone)
    ensures Gone(Advance(s, r, CredsGone), s.runs[r].sid)
    ensures forall x :: x != s.runs[r].sid ==> Untouched(s, Advance(s, r, CredsGone), x)
  {
    hide Inv, Owned, Guarded, Forget, Finish;
    InvGuarded(s, r);
    var sid, u := s.runs[r].sid, Advance(s, r, CredsGone);
    ForgetFinish(s, r);
    forall h | h in u.timers ensures u.timers[h] != sid { OwnTimer(s, r, h); }
    forall q | q in u.runs ensures u.runs[q].sid != sid { OwnRun(s, r, q); }
    forall x | x != sid ensures Untouched(s, u, x) {
      if x in s.sessions { InvTracked(s, x); InvTracked(s, sid); }
    }
  }

  lemma OwnTimer(s: Service, r: nat, h: nat)
    requires Inv(s) && Live(s, r) && h in s.timers
    ensures s.timers[h] != s.runs[r].sid
  {
    InvOwned(s, h);
  }

  lemma OwnRun(s: Service, r: nat, q: nat)
    requires Inv(s) && !s.stopped && r in s.runs && q in s.runs && q != r
    ensures s.runs[q].sid != s.runs[r].sid
  {
    InvGuarded(s, r);
    InvGuarded(s, q);
  }

  /** The session in every reachable state in which its recovery waits for credentials. */
  lemma ReachableGoneIsFinal(steps: seq<Step>, r: nat)
    requires Legal(steps) && !After(steps).stopped && r in After(steps).runs && After(steps).runs[r].stage.Creds?
    ensures var s := After(steps);
            && Enabled(s, StageDone(r, CredsGone))
            && Gone(Take(s, StageDone(r, CredsGone)), s.runs[r].sid)
            && forall x :: x != s.runs[r].sid ==> Untouched(s, Take(s, StageDone(r, CredsGone)), x)
  {
    hide Inv, After, Legal, Gone, Untouched, Advance;
    ReachableInv(steps);
    GoneIsFinal(After(steps), r);
  }

  // ---- the verdict of each outcome ----

  predicate Transient(out: Outcome) {
    out.AuthFailed? || out.CredsThrew? || out.SwapThrew? || out.ReattachThrew?
  }

  /** What an outcome leaves of its own session. */
  ghost predicate Verdict(s: Service, u: Service, r: nat, out: Outcome)
    requires Live(s, r)
  {
    var sid := s.runs[r].sid;
    && (sid in u.sessions <==> !out.CredsGone?)
    && (sid in u.bridge <==> !out.CredsGone?)
    && (!out.CredsGone? ==>
          && Has(u, sid) && u.sessions[sid] == s.sessions[sid] && u.bridge[sid] == Of(u, sid).transport
          && Of(u, sid).transport == if out.ReattachOk? then out.transport else Of(s, sid).transport)
    && (r in u.runs <==> out.AuthOk? || out.CredsOk?)
    && (out.AuthOk? ==> u.runs[r] == s.runs[r].(stage := Creds))
    && (out.CredsOk? ==> u.runs[r] == s.runs[r].(stage := if out.connected then Swap else Reattach))
    && (Transient(out) ==> Of(u, sid) == Retried(Of(s, sid), s.next))
  }

  lemma StageVerdict(s: Service, r: nat, out: Outcome)
    requires Live(s, r) && (out.AuthOk? || out.CredsOk?) && Fits(s.runs[r].stage, out)
    ensures Verdict(s, Advance(s, r, out), r, out)
  {}

  lemma GoneVerdict(s: Service, r: nat)
    requires Live(s, r) && s.runs[r].stage.Creds?
    ensures Verdict(s, Advance(s, r, CredsGone), r, CredsGone)
  {
    ForgetFinish(s, r);
    hide Forget, Finish;
  }

  lemma SuccessVerdict(s: Service, r: nat, out: Outcome)
    requires Live(s, r) && (out.SwapOk? || out.ReattachOk?) && Fits(s.runs[r].stage, out)
    ensures Verdict(s, Advance(s, r, out), r, out)
  {
    var slot := if out.SwapOk? then None else Some(out.transport);
    assert Advance(s, r, out) == Succeeded(s, r, slot);
    SuccessEnds(s, r, slot);
    hide Succeeded, Advance;
  }

  lemma TransientVerdict(s: Service, r: nat, out: Outcome)
    requires Live(s, r) && Transient(out) && Fits(s.runs[r].stage, out)
    ensures Verdict(s, Advance(s, r, out), r, out)
  {
    assert Advance(s, r, out) == Finish(ScheduleBackoff(s, s.runs[r].sid), r);
    RetryEnds(s, r);
    hide ScheduleBackoff, Finish, Advance;
  }

  /** A session is dropped by gone credentials and by nothing else; transient failures keep its record and transport and
    * go one step up the ladder; only a re-attach changes the transport. */
  lemma Verdicts(s: Service, r: nat, out: Outcome)
    requires Inv(s) && !s.stopped && r in s.runs && Fits(s.runs[r].stage, out)
    ensures Live(s, r) && Verdict(s, Advance(s, r, out), r, out)
  {
    InvGuarded(s, r);
    hide Inv, Guarded, Advance, Verdict;
    match out {
      case AuthOk => StageVerdict(s, r, out);
      case CredsOk(_) => StageVerdict(s, r, out);
      case CredsGone => GoneVerdict(s, r);
      case SwapOk => SuccessVerdict(s, r, out);
      case ReattachOk(t) => SuccessVerdict(s, r, out);
      case _ => TransientVerdict(s, r, out);
    }
  }

  /** A recovery that gets credentials keeps the session's transport exactly when it was connected: the stage it goes on to
    * either keeps it in place, whatever comes back, or puts a new one there when it succeeds. */
  lemma ConnectedIsKept(s: Service, r: nat, connected: bool, t: nat)
    requires Inv(s) && !s.stopped && r in s.runs && s.runs[r].stage.Creds?
    ensures s.runs[r].obj in s.objs && s.runs[r].sid in s.bridge
    ensures var sid, u := s.runs[r].sid, Advance(s, r, CredsOk(connected));
            && r in u.runs && u.runs[r].obj in u.objs
            && (connected <==> Fits(u.runs[r].stage, SwapOk)) && (!connected <==> Fits(u.runs[r].stage, ReattachOk(t)))
            && (connected ==> SlotAfter(u, r, SwapOk, sid) == Some(s.bridge[sid]))
            && (!connected ==> SlotAfter(u, r, ReattachOk(t), sid) == Some(t))
  {
    hide Inv, Advance;
    Verdicts(s, r, CredsOk(connected));
    LiveParts(s, r);
    hide Live, Verdict, SlotAfter;
    CredsSetsStage(s, r, connected);
    StepKeepsInv(s, StageDone(r, CredsOk(connected)));
    var u := Advance(s, r, CredsOk(connected));
    SlotVerdict(u, r, if connected then SwapOk else ReattachOk(t));
  }

  lemma SlotVerdict(s: Service, r: nat, out: Outcome)
    requires Inv(s) && !s.stopped && r in s.runs && Fits(s.runs[r].stage, out) && !out.CredsGone?
    ensures s.runs[r].obj in s.objs && s.runs[r].sid in s.bridge
    ensures SlotAfter(s, r, out, s.runs[r].sid) == Some(if out.ReattachOk? then out.transport else s.bridge[s.runs[r].sid])
  {
    hide Inv, Advance;
    Verdicts(s, r, out);
    LiveParts(s, r);
  }

  function SlotAfter(s: Service, r: nat, out: Outcome, sid: string): Option<nat>
    requires r in s.runs && s.runs[r].obj in s.objs && Fits(s.runs[r].stage, out)
  {
    var u := Advance(s, r, out);
    if sid in u.bridge then Some(u.bridge[sid]) else None
  }

  lemma LiveParts(s: Service, r: nat)
    requires Live(s, r)
    ensures s.runs[r].obj in s.objs && Has(s, s.runs[r].sid) && s.runs[r].sid in s.bridge
    ensures s.bridge[s.runs[r].sid] == Of(s, s.runs[r].sid).transport
  {}

  lemma CredsSetsStage(s: Service, r: nat, connected: bool)
    requires r in s.runs && s.runs[r].obj in s.objs && s.runs[r].stage.Creds?
    ensures Advance(s, r, CredsOk(connected)) == SetStage(s, r, if connected then Swap else Reattach)
  {}

  // ---- attach and shutdown ----

  /** A finished attach has a full ladder, its own transport in the slot, and one armed timer. */
  lemma AttachedIsFresh(s: Service, sid: string, t: nat)
    ensures var u := AttachDone(s, sid, Some(t));
            && Has(u, sid) && sid in u.bridge && u.bridge[sid] == t == Of(u, sid).transport
            && Of(u, sid).attempt == 0 && Of(u, sid).inFlight.None? && Of(u, sid).backoff.None?
            && Of(u, sid).refresh.Some? && Of(u, sid).refresh.value in u.timers && u.timers[Of(u, sid).refresh.value] == sid
    ensures var u := AttachDone(s, sid, None);
            u.sessions == s.sessions && u.bridge == s.bridge && u.timers == s.timers && u.objs == s.objs && u.runs == s.runs
  {}

  /** After shutdown no timer is armed, no session is attached, and neither a close nor a call starts a recovery. */
  lemma StoppedIsSilent(s: Service, sid: string, firing: Option<nat>)
    requires Inv(s) && !s.stopped
    ensures var u := Take(s, Stop);
            && u.stopped && u.timers == map[] && u.sessions == map[]
            && Take(u, Call(sid)) == u && Take(u, Close(sid, false, firing)) == u
            && (sid !in u.attaching ==> Take(u, AttachStart(sid)) == u)
  {
    forall h | h in s.timers ensures Held(s, h) {
      assert Owned(s, h);
    }
  }

  /** Dropping a session clears the runtime's slot exactly when it holds this session's transport. */
  lemma ForgetClearsOwnSlotIff(s: Service, sid: string)
    requires Has(s, sid) && sid in s.bridge
    ensures sid in Forget(s, sid).bridge <==> s.bridge[sid] != Of(s, sid).transport
    ensures sid in Forget(s, sid).bridge ==> Forget(s, sid).bridge == s.bridge
  {}

  /** A recovery that ends frees the in-flight mark exactly when it is its own. */
  lemma FinishFreesOwnIff(s: Service, r: nat)
    requires r in s.runs && s.runs[r].obj in s.objs && s.objs[s.runs[r].obj].inFlight.Some?
    ensures Finish(s, r).objs[s.runs[r].obj].inFlight.None? <==> s.objs[s.runs[r].obj].inFlight == Some(r)
    ensures r !in Finish(s, r).runs
  {}
}
