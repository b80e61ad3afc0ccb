/** Whether the transport that a recovery leaves in the runtime's slot is open. */
module BridgeSlot {
  import opened Options
  import opened Bridge
  import opened BridgeProof

  /** While a session recovers, a stage comes back or some transport of the session closes. */
  datatype Happening = Back(out: Outcome) | Closed(transport: nat)

  /** The service, and the transports that have closed so far. */
  datatype World = World(s: Service, dead: set<nat>)

  /** A stage that asks whether the live transport is connected gets the truth. */
  predicate Possible(w: World, r: nat, h: Happening) {
    && r in w.s.runs && w.s.runs[r].obj in w.s.objs
    && match h
       case Closed(_) => true
       case Back(out) =>
         Fits(w.s.runs[r].stage, out) && (out.CredsOk? ==> (out.connected <==> w.s.objs[w.s.runs[r].obj].transport !in w.dead))
  }

  function Happen(w: World, r: nat, h: Happening): World
    requires Possible(w, r, h)
  {
    match h
    case Closed(t) => World(HandleClose(w.s, w.s.runs[r].sid, false, Some(t)), w.dead + {t})
    case Back(out) => w.(s := Advance(w.s, r, out))
  }

  ghost predicate Recovers(w: World, r: nat, hs: seq<Happening>, u: World)
    decreases |hs|
  {
    if hs == [] then w == u else Possible(w, r, hs[0]) && Recovers(Happen(w, r, hs[0]), r, hs[1..], u)
  }

  predicate Succeeds(h: Happening) {
    h.Back? && (h.out.SwapOk? || h.out.ReattachOk?)
  }

  /** A transport that a recovery attaches has not closed before. */
  ghost predicate NewTransports(hs: seq<Happening>, dead: set<nat>) {
    forall h :: h in hs && h.Back? && h.out.ReattachOk? ==> h.out.transport !in dead
  }

  /** A recovery that waits, and that found its transport connected if it is about to keep it. */
  ghost predicate Underway(w: World, r: nat, before: set<nat>) {
    && Inv(w.s) && !w.s.stopped && r in w.s.runs && before <= w.dead
    && (w.s.runs[r].stage.Swap? ==> w.s.runs[r].obj in w.s.objs && w.s.objs[w.s.runs[r].obj].transport !in before)
  }

  /** A close leaves no trace; a stage that goes on leaves its progress. */
  lemma StaysUnderway(w: World, r: nat, h: Happening, before: set<nat>)
    requires Underway(w, r, before) && Possible(w, r, h) && (h.Back? ==> h.out.AuthOk? || h.out.CredsOk?)
    ensures var u := Happen(w, r, h);
            Underway(u, r, before) && u.s.runs[r].sid == w.s.runs[r].sid && (h.Closed? ==> u.s == w.s)
  {
    assert Guarded(w.s, r);
    if h.Back? { StepKeepsInv(w.s, StageDone(r, h.out)); }
  }

  /** Any other outcome ends the recovery. */
  lemma EndsRun(s: Service, r: nat, out: Outcome)
    requires r in s.runs && s.runs[r].obj in s.objs && Fits(s.runs[r].stage, out) && !out.AuthOk? && !out.CredsOk?
    ensures r !in Advance(s, r, out).runs
  {}

  /** A session whose recovery has just succeeded waits for nothing but its refresh timer. */
  ghost predicate AtRest(s: Service, sid: string) {
    && Has(s, sid) && sid in s.bridge && s.bridge[sid] == Of(s, sid).transport
    && Of(s, sid).inFlight.None? && Of(s, sid).backoff.None?
    && Of(s, sid).refresh.Some? && Of(s, sid).refresh.value in s.timers
  }

  lemma SuccessAtRest(w: World, r: nat, h: Happening, before: set<nat>)
    requires Underway(w, r, before) && Possible(w, r, h) && Succeeds(h) && NewTransports([h], before)
    ensures var u, sid := Happen(w, r, h), w.s.runs[r].sid;
            AtRest(u.s, sid) && u.s.bridge[sid] !in before && u.dead == w.dead
  {
    GuardedIsLive(w.s, r);
    assert Guarded(w.s, r) && h in [h];
    var slot := if h.out.SwapOk? then None else Some(h.out.transport);
    assert Advance(w.s, r, h.out) == Succeeded(w.s, r, slot);
    SuccessEnds(w.s, r, slot);
    hide Succeeded, Advance;
  }

  lemma {:induction false} RecoveryEnds(w: World, r: nat, hs: seq<Happening>, u: World, before: set<nat>)
    requires Underway(w, r, before) && Recovers(w, r, hs, u) && NewTransports(hs, before)
    requires hs != [] && Succeeds(hs[|hs| - 1])
    ensures var sid := w.s.runs[r].sid;
            && AtRest(u.s, sid) && u.s.bridge[sid] !in before
            && (forall t :: t in u.dead <==> t in w.dead || Closed(t) in hs)
    decreases |hs|
  {
    hide Underway, Happen, AtRest, Fits;
    var h, rest := hs[0], hs[1..];
    assert hs == [h] + rest;
    if rest == [] {
      SuccessAtRest(w, r, h, before);
    } else {
      GoesOn(w, r, hs);
      StaysUnderway(w, r, h, before);
      RecoveryEnds(Happen(w, r, h), r, rest, u, before);
      Deaths(w, r, h);
    }
  }

  lemma Deaths(w: World, r: nat, h: Happening)
    requires Possible(w, r, h)
    ensures Happen(w, r, h).dead == w.dead + if h.Closed? then {h.transport} else {}
  {}

  lemma GoesOn(w: World, r: nat, hs: seq<Happening>)
    requires |hs| > 1 && Possible(w, r, hs[0]) && Possible(Happen(w, r, hs[0]), r, hs[1])
    ensures hs[0].Back? ==> hs[0].out.AuthOk? || hs[0].out.CredsOk?
  {
    if hs[0].Back? && !hs[0].out.AuthOk? && !hs[0].out.CredsOk? { EndsRun(w.s, r, hs[0].out); }
  }

  /**
   A recovery that succeeds leaves an open transport in the slot exactly when that transport did not close while the
   recovery ran. Such a close is absorbed: a dead transport stays in the slot with only the refresh timer armed.
   */
  lemma SlotOpenIff(w: World, r: nat, hs: seq<Happening>, u: World)
    requires Inv(w.s) && !w.s.stopped && r in w.s.runs && w.s.runs[r].stage.Auth?
    requires Recovers(w, r, hs, u) && NewTransports(hs, w.dead) && hs != [] && Succeeds(hs[|hs| - 1])
    ensures var sid := w.s.runs[r].sid;
            AtRest(u.s, sid) && (u.s.bridge[sid] !in u.dead <==> Closed(u.s.bridge[sid]) !in hs)
  {
    hide Inv, AtRest;
    RecoveryEnds(w, r, hs, u, w.dead);
  }
}
