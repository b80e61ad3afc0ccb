/** Why a session must not be detached while it recovers: the orphaned recovery still writes the runtime's slot. */
module BridgeOrphan {
  import opened Options
  import opened Bridge
  import opened BridgeProof

  lemma AfterMore(steps: seq<Step>, step: Step)
    ensures After(steps + [step]) == if Enabled(After(steps), step) then Take(After(steps), step) else After(steps)
  {
    assert (steps + [step])[..|steps|] == steps;
  }

  /** Attached to `a`, closed, and waiting for the re-attach. */
  function Recovering(sid: string, a: nat): seq<Step> {
    [AttachStart(sid)] + [AttachEnd(sid, Some(a))] + [Close(sid, false, Some(a))] + [StageDone(2, AuthOk)]
    + [StageDone(2, CredsOk(false))]
  }

  lemma AttachedFirst(sid: string, a: nat)
    ensures After([AttachStart(sid)] + [AttachEnd(sid, Some(a))]) ==
            Service(map[sid := 0], map[0 := Attached(sid, a, Some(1), None, 0, None)], map[1 := sid], map[], map[sid := a], {}, false, 2)
  {
    hide After, AttachDone;
    NothingYet();
    AfterMore([], AttachStart(sid));
    assert [] + [AttachStart(sid)] == [AttachStart(sid)];
    AfterMore([AttachStart(sid)], AttachEnd(sid, Some(a)));
    FirstAttach(sid, a);
  }

  lemma NothingYet()
    ensures After([]) == Fresh()
  {
  }

  lemma FirstAttach(sid: string, a: nat)
    ensures AttachDone(Fresh().(attaching := {} + {sid}), sid, Some(a)) ==
            Service(map[sid := 0], map[0 := Attached(sid, a, Some(1), None, 0, None)], map[1 := sid], map[], map[sid := a], {}, false, 2)
  {
    assert {} + {sid} - {sid} == {};
  }

  lemma RecoveringAt(sid: string, a: nat)
    ensures After(Recovering(sid, a)) ==
            Service(map[sid := 0], map[0 := Attached(sid, a, None, None, 0, Some(2))], map[], map[2 := Run(sid, 0, Reattach)],
                    map[sid := a], {}, false, 3)
  {
    hide After;
    AttachedFirst(sid, a);
    var two := [AttachStart(sid)] + [AttachEnd(sid, Some(a))];
    AfterMore(two, Close(sid, false, Some(a)));
    var s := After(two + [Close(sid, false, Some(a))]);
    assert s.timers == map[] && s.runs == map[2 := Run(sid, 0, Auth)];
    AfterMore(two + [Close(sid, false, Some(a))], StageDone(2, AuthOk));
    AfterMore(two + [Close(sid, false, Some(a))] + [StageDone(2, AuthOk)], StageDone(2, CredsOk(false)));
  }

  /** Detached, and attached again to `b`, with the first recovery still waiting. */
  function Reattached(sid: string, a: nat, b: nat): seq<Step> {
    Recovering(sid, a) + [Detach(sid)] + [AttachStart(sid)] + [AttachEnd(sid, Some(b))]
  }

  lemma ReattachedAt(sid: string, a: nat, b: nat)
    ensures var u := After(Reattached(sid, a, b));
            && u.sessions == map[sid := 3] && u.runs == map[2 := Run(sid, 0, Reattach)] && !u.stopped
            && 0 in u.objs && 3 in u.objs && u.objs[3].transport == b && u.objs[3].inFlight.None?
  {
    hide After, Recovering;
    var base := Recovering(sid, a) + [Detach(sid)];
    DetachedAt(sid, a);
    AfterMore(base, AttachStart(sid));
    AfterMore(base + [AttachStart(sid)], AttachEnd(sid, Some(b)));
  }

  lemma DetachedAt(sid: string, a: nat)
    ensures var u := After(Recovering(sid, a) + [Detach(sid)]);
            && u.sessions == map[] && u.runs == map[2 := Run(sid, 0, Reattach)] && !u.stopped && u.next == 3
            && 0 in u.objs && u.attaching == {}
  {
    hide After, Recovering;
    RecoveringAt(sid, a);
    AfterMore(Recovering(sid, a), Detach(sid));
  }

  /** Once the first recovery then re-attaches to `c`, the runtime forwards to a transport that no record knows, and
    * the closes of that transport are ignored. */
  lemma DetachMidRecoveryDiverts(sid: string, a: nat, b: nat, c: nat)
    requires b != c
    ensures var u := After(Reattached(sid, a, b) + [StageDone(2, ReattachOk(c))]);
            && Has(u, sid) && Of(u, sid).transport == b && sid in u.bridge && u.bridge[sid] == c
            && HandleClose(u, sid, false, Some(c)) == u
  {
    hide After, Reattached;
    ReattachedAt(sid, a, b);
    AfterMore(Reattached(sid, a, b), StageDone(2, ReattachOk(c)));
  }
}
