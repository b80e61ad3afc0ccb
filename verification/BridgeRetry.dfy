/** Coalesced closes, stale closes, and the bounded ladder of retries. */
module BridgeRetry {
  import opened Options
  import opened Bridge
  import opened BridgeProof

  // ---- Close notifications ----

  function Closes(s: Service, sid: string, firing: seq<Option<nat>>): Service
    decreases |firing|
  {
    if firing == [] then s else Closes(HandleClose(s, sid, false, firing[0]), sid, firing[1..])
  }

  /** While a session recovers, any number of further close notifications change nothing. */
  lemma {:induction false} ClosesCoalesce(s: Service, sid: string, firing: seq<Option<nat>>)
    requires Has(s, sid) && Of(s, sid).inFlight.Some?
    ensures Closes(s, sid, firing) == s
  {
    if firing != [] {
      ClosesCoalesce(s, sid, firing[1..]);
    }
  }

  /** The first close of a live transport starts exactly one recovery; the rest of a burst starts none. */
  lemma BurstStartsOne(s: Service, sid: string, firing: seq<Option<nat>>)
    requires Inv(s) && !s.stopped && Has(s, sid) && Of(s, sid).inFlight.None? && firing != []
    requires forall k :: 0 <= k < |firing| ==> firing[k] == Some(Of(s, sid).transport)
    ensures Closes(s, sid, firing) == Reconnect(s, sid)
    ensures Reconnect(s, sid).runs == s.runs[s.next := Run(sid, s.sessions[sid], Auth)] && s.next !in s.runs
  {
    ClosesCoalesce(Reconnect(s, sid), sid, firing[1..]);
  }

  /** Once a recovery has put a new transport in place, closes of the old one, clean or not, change nothing. */
  lemma ReplacedClosesIgnored(s: Service, r: nat, t: nat, former: nat, clean: bool)
    requires Inv(s) && !s.stopped && r in s.runs && Fits(s.runs[r].stage, ReattachOk(t)) && former != t
    ensures s.runs[r].obj in s.objs
    ensures var u, sid := Advance(s, r, ReattachOk(t)), s.runs[r].sid;
            && Has(u, sid) && Of(u, sid).transport == t && u.bridge == s.bridge[sid := t]
            && HandleClose(u, sid, clean, Some(former)) == u
  {
    GuardedIsLive(s, r);
    assert Guarded(s, r);
    SuccessEnds(s, r, Some(t));
  }

  // ---- The ladder ----

  predicate Armed(s: Service, sid: string)
    requires Has(s, sid)
  {
    var a := Of(s, sid);
    (a.refresh.Some? && a.refresh.value in s.timers) || (a.backoff.Some? && a.backoff.value in s.timers)
  }

  /** Timer-driven attempts still to come if everything keeps failing. */
  function Budget(s: Service, sid: string): nat {
    if !Has(s, sid) || Of(s, sid).attempt > |LADDER| then 0
    else
      var left := |LADDER| - Of(s, sid).attempt;
      if Armed(s, sid) then left + 1 else if Of(s, sid).inFlight.Some? then left else 0
  }

  function StagesLeft(s: Service, sid: string): nat {
    if !Has(s, sid) || Of(s, sid).inFlight.None? || Of(s, sid).inFlight.value !in s.runs then 0
    else match s.runs[Of(s, sid).inFlight.value].stage
      case Auth => 3
      case Creds => 2
      case _ => 1
  }

  /** Timer fires and stage outcomes still to come if everything keeps failing. */
  function Work(s: Service, sid: string): nat {
    4 * Budget(s, sid) + StagesLeft(s, sid)
  }

  /** A timer firing, or a stage that goes on or fails transiently: no success, no verdict, nothing from outside. */
  predicate Failing(step: Step) {
    || step.TimerFires?
    || (step.StageDone? && !step.out.SwapOk? && !step.out.ReattachOk? && !step.out.CredsGone?)
  }

  predicate Concerns(s: Service, step: Step, sid: string)
    requires Enabled(s, step) && Failing(step)
  {
    match step
    case TimerFires(h) => s.timers[h] == sid
    case StageDone(r, _) => s.runs[r].sid == sid
    case _ => false
  }

  /** Two states alike for one session. */
  predicate Alike(s: Service, u: Service, sid: string)
  {
    && Has(s, sid) && Has(u, sid) && Of(s, sid) == Of(u, sid) && (Armed(s, sid) <==> Armed(u, sid))
    && (Of(s, sid).inFlight.Some? ==>
          && Of(s, sid).inFlight.value in s.runs && Of(s, sid).inFlight.value in u.runs
          && s.runs[Of(s, sid).inFlight.value] == u.runs[Of(s, sid).inFlight.value])
  }

  lemma AlikeMeasures(s: Service, u: Service, sid: string)
    requires Alike(s, u, sid)
    ensures Budget(s, sid) == Budget(u, sid) && Work(s, sid) == Work(u, sid)
  {
  }

  /** What a fired timer does: its session starts to recover, with no timer armed. */
  lemma FireOwn(s: Service, h: nat, sid: string)
    requires Inv(s) && !s.stopped && h in s.timers && s.timers[h] == sid
    ensures Has(s, sid)
    ensures var u := Take(s, TimerFires(h));
            && !u.stopped && Armed(s, sid) && Has(u, sid) && Of(u, sid).attempt == Of(s, sid).attempt && !Armed(u, sid)
            && Of(u, sid).inFlight == Some(s.next) && u.runs == s.runs[s.next := Run(sid, s.sessions[sid], Auth)]
  {
    assert Owned(s, h) && Sound(s, sid);
  }

  /** A recovery of one session touches nothing of another but handles the first one holds. */
  lemma ReconnectOther(s: Service, x: string, sid: string)
    requires Has(s, x) && Has(s, sid) && s.sessions[x] != s.sessions[sid]
    ensures var u := Reconnect(s, x);
            && u.stopped == s.stopped && Has(u, sid) && Of(u, sid) == Of(s, sid)
            && (u.timers == s.timers || u.timers == s.timers - HandleSet(Of(s, x).refresh) - HandleSet(Of(s, x).backoff))
            && (forall q :: q in s.runs && q != s.next ==> q in u.runs && u.runs[q] == s.runs[q])
  {
  }

  lemma FireOther(s: Service, h: nat, sid: string)
    requires Inv(s) && !s.stopped && h in s.timers && Has(s, sid) && s.timers[h] != sid
    ensures Alike(s, Take(s, TimerFires(h)), sid) && !Take(s, TimerFires(h)).stopped
  {
    hide Reconnect, Owned, Guarded;
    var x, t := s.timers[h], s.(timers := s.timers - {h});
    assert Has(s, x) by { assert Owned(s, h); InvHas(s, h); }
    assert Sound(s, sid) && Sound(s, x);
    ReconnectOther(t, x, sid);
  }

  lemma InvHas(s: Service, h: nat)
    requires h in s.timers && Owned(s, h)
    ensures Has(s, s.timers[h])
  {
  }

  lemma StageEffect(s: Service, r: nat, stage: Stage, sid: string)
    requires Inv(s) && !s.stopped && r in s.runs && Has(s, sid)
    ensures var u := SetStage(s, r, stage);
            && !u.stopped
            && (s.runs[r].sid != sid ==> Alike(s, u, sid))
            && (s.runs[r].sid == sid ==> Has(u, sid) && Of(u, sid) == Of(s, sid) && Of(s, sid).inFlight == Some(r)
                                         && !Armed(s, sid) && !Armed(u, sid))
  {
    assert Guarded(s, r);
    assert Sound(s, sid);
  }

  /** What a failed recovery does: the next rung's timer is armed, or past the last one nothing is. */
  lemma RetryEffect(s: Service, r: nat, sid: string)
    requires Inv(s) && !s.stopped && r in s.runs && Has(s, sid)
    ensures s.runs[r].obj in s.objs
    ensures var u := Finish(ScheduleBackoff(s, s.runs[r].sid), r);
            && !u.stopped
            && (s.runs[r].sid != sid ==> Alike(s, u, sid))
            && (s.runs[r].sid == sid ==>
                  && Has(u, sid) && Of(s, sid).inFlight == Some(r) && !Armed(s, sid) && Of(s, sid).attempt <= |LADDER|
                  && Of(u, sid) == Retried(Of(s, sid), s.next) && (Armed(u, sid) <==> Of(s, sid).attempt < |LADDER|))
  {
    GuardedIsLive(s, r);
    assert Guarded(s, r);
    assert Sound(s, sid);
    RetryEnds(s, r);
    hide Finish, ScheduleBackoff;
    if Of(s, sid).inFlight.Some? { assert Guarded(s, Of(s, sid).inFlight.value); }
  }

  lemma OtherStep(s: Service, step: Step, sid: string)
    requires Inv(s) && !s.stopped && Has(s, sid) && Enabled(s, step) && Failing(step) && !Concerns(s, step, sid)
    ensures Alike(s, Take(s, step), sid) && !Take(s, step).stopped
  {
    hide Inv, Reconnect, Finish, ScheduleBackoff, SetStage, Alike, Fits;
    match step {
      case TimerFires(h) => FireOther(s, h, sid);
      case StageDone(r, out) =>
        if out.AuthOk? {
          StageEffect(s, r, Creds, sid);
        } else if out.CredsOk? {
          StageEffect(s, r, if out.connected then Swap else Reattach, sid);
        } else {
          RetryEffect(s, r, sid);
        }
    }
  }

  lemma OwnFire(s: Service, h: nat, sid: string)
    requires Inv(s) && !s.stopped && Has(s, sid) && h in s.timers && s.timers[h] == sid
    ensures var u := Take(s, TimerFires(h));
            !u.stopped && Has(u, sid) && Budget(u, sid) == Budget(s, sid) - 1 && Work(u, sid) < Work(s, sid)
  {
    FireOwn(s, h, sid);
    assert Sound(s, sid);
    hide Inv, Reconnect, Armed;
  }

  lemma OwnStage(s: Service, r: nat, out: Outcome, sid: string)
    requires Inv(s) && !s.stopped && Has(s, sid) && r in s.runs && s.runs[r].sid == sid && s.runs[r].obj in s.objs
    requires Fits(s.runs[r].stage, out) && Failing(StageDone(r, out))
    ensures var u := Advance(s, r, out);
            !u.stopped && Has(u, sid) && Budget(u, sid) == Budget(s, sid) && Work(u, sid) < Work(s, sid)
  {
    assert Sound(s, sid);
    if out.AuthOk? {
      StageEffect(s, r, Creds, sid);
      hide Inv, Armed;
    } else if out.CredsOk? {
      StageEffect(s, r, if out.connected then Swap else Reattach, sid);
      hide Inv, Armed;
    } else {
      RetryEffect(s, r, sid);
      hide Inv, Armed, Finish, ScheduleBackoff;
    }
  }

  /** One failing step: a timer of the session uses up one attempt, nothing else does, and each step of the session
    * is one fewer to come. */
  lemma FailingStep(s: Service, step: Step, sid: string)
    requires Inv(s) && !s.stopped && Has(s, sid) && Enabled(s, step) && Failing(step)
    ensures var u := Take(s, step);
            && Inv(u) && !u.stopped && Has(u, sid)
            && Budget(u, sid) == Budget(s, sid) - (if step.TimerFires? && Concerns(s, step, sid) then 1 else 0)
            && (if Concerns(s, step, sid) then Work(u, sid) < Work(s, sid) else Work(u, sid) == Work(s, sid))
  {
    hide Inv, Reconnect, Advance, Budget, Work;
    StepKeepsInv(s, step);
    if !Concerns(s, step, sid) {
      OtherStep(s, step, sid);
      AlikeMeasures(s, Take(s, step), sid);
    } else if step.TimerFires? {
      OwnFire(s, step.handle, sid);
    } else {
      OwnStage(s, step.run, step.out, sid);
    }
  }

  /** A run in which every event is a timer or a transient failure. */
  ghost predicate FailingRun(s: Service, steps: seq<Step>)
    decreases |steps|
  {
    steps == [] || (Enabled(s, steps[0]) && Failing(steps[0]) && FailingRun(Take(s, steps[0]), steps[1..]))
  }

  ghost function RunFrom(s: Service, steps: seq<Step>): Service
    requires FailingRun(s, steps)
    decreases |steps|
  {
    if steps == [] then s else RunFrom(Take(s, steps[0]), steps[1..])
  }

  /** How often a timer of `sid` fires in the run. */
  ghost function Fires(s: Service, steps: seq<Step>, sid: string): nat
    requires FailingRun(s, steps)
    decreases |steps|
  {
    if steps == [] then 0
    else (if steps[0].TimerFires? && s.timers[steps[0].handle] == sid then 1 else 0) + Fires(Take(s, steps[0]), steps[1..], sid)
  }

  /** How many events of the run concern `sid`. */
  ghost function Events(s: Service, steps: seq<Step>, sid: string): nat
    requires FailingRun(s, steps)
    decreases |steps|
  {
    if steps == [] then 0
    else (if Concerns(s, steps[0], sid) then 1 else 0) + Events(Take(s, steps[0]), steps[1..], sid)
  }

  /** Under lasting transient failure the attempts made are exactly the budget used, and everything that can still
    * happen to the session is bounded. */
  lemma {:induction false} FailingRunUsesBudget(s: Service, steps: seq<Step>, sid: string)
    requires Inv(s) && !s.stopped && Has(s, sid) && FailingRun(s, steps)
    ensures var u := RunFrom(s, steps);
            && Inv(u) && !u.stopped && Has(u, sid)
            && Fires(s, steps, sid) == Budget(s, sid) - Budget(u, sid)
            && Events(s, steps, sid) <= Work(s, sid) - Work(u, sid)
    decreases |steps|
  {
    hide Inv, Take, Enabled, Failing, Budget, Work;
    if steps != [] {
      FailingStep(s, steps[0], sid);
      FailingRunUsesBudget(Take(s, steps[0]), steps[1..], sid);
    }
  }

  /** A recovery that starts from a full ladder is followed by at most three timer-driven attempts; after the third
    * failure no timer is armed and nothing is in flight. */
  lemma AtMostThreeRetries(s: Service, steps: seq<Step>, sid: string)
    requires Inv(s) && !s.stopped && Has(s, sid) && FailingRun(s, steps)
    requires Of(s, sid).inFlight.Some? && Of(s, sid).attempt == 0
    ensures Fires(s, steps, sid) <= 3
    ensures var u := RunFrom(s, steps);
            && Has(u, sid)
            && (Fires(s, steps, sid) == 3 && Of(u, sid).inFlight.None? ==>
                  forall h :: h in u.timers ==> u.timers[h] != sid)
  {
    FailingRunUsesBudget(s, steps, sid);
    var u := RunFrom(s, steps);
    assert Sound(s, sid) && Sound(u, sid);
    forall h | h in u.timers && u.timers[h] == sid ensures Armed(u, sid) {
      assert Owned(u, h);
    }
    hide RunFrom, Fires, FailingRun;
    BudgetLeft(u, sid);
    BudgetLeft(s, sid);
  }

  lemma BudgetLeft(s: Service, sid: string)
    requires Inv(s) && Has(s, sid)
    ensures Budget(s, sid) <= 4
    ensures Of(s, sid).inFlight.Some? ==> Budget(s, sid) == 3 - Of(s, sid).attempt
    ensures Armed(s, sid) ==> Budget(s, sid) > 0
  {
    assert Sound(s, sid);
  }

  /** Any success restores the full ladder. */
  lemma SuccessRestoresLadder(s: Service, r: nat, out: Outcome)
    requires Inv(s) && !s.stopped && r in s.runs && Fits(s.runs[r].stage, out) && (out.SwapOk? || out.ReattachOk?)
    ensures s.runs[r].obj in s.objs
    ensures var u, sid := Advance(s, r, out), s.runs[r].sid;
            Has(u, sid) && Of(u, sid).attempt == 0 && Of(u, sid).inFlight.None? && Armed(u, sid) && Budget(u, sid) == 4
  {
    GuardedIsLive(s, r);
    assert Guarded(s, r);
    var slot := if out.SwapOk? then None else Some(out.transport);
    assert Advance(s, r, out) == Succeeded(s, r, slot);
    SuccessEnds(s, r, slot);
    hide Succeeded, Advance;
  }
}
