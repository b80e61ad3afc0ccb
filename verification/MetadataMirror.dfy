/** What the live runtime's mirror of the metadata holds, said over the steps since it was made. */
module MetadataMirror {
  import opened Options
  import opened Metadata

  /** The step that made the live runtime. */
  function MadeAt(steps: seq<Step>): (r: Option<nat>)
    ensures r.Some? ==> r.value < |steps| && steps[r.value].GetRuntime?
  {
    if steps == [] then None
    else
      var init := steps[..|steps| - 1];
      match steps[|steps| - 1]
      case GetRuntime(_) => if MadeAt(init).Some? then MadeAt(init) else Some(|init|)
      case DropRuntime => None
      case Restart => None
      case _ => MadeAt(init)
  }

  predicate Created(steps: seq<Step>) {
    steps != [] && (steps[|steps| - 1].Create? || Created(steps[..|steps| - 1]))
  }

  /** The last pick: the one the session was created with, or a later one. */
  function Pick(steps: seq<Step>): Option<string> {
    if steps == [] then None
    else
      var init := steps[..|steps| - 1];
      match steps[|steps| - 1]
      case Create(profile) => profile.model
      case SetModel(model) => if Created(init) then model else Pick(init)
      case _ => Pick(init)
  }

  /** The last activity call's clock value and state. */
  function LastActivity(steps: seq<Step>): Option<(int, bool)> {
    if steps == [] then None
    else match steps[|steps| - 1]
      case Activity(running, now) => Some((now, running))
      case _ => LastActivity(steps[..|steps| - 1])
  }

  predicate Repicked(steps: seq<Step>) {
    exists i :: 0 <= i < |steps| && steps[i].SetModel?
  }

  /** The stored activity time before step `g`, if the session existed by then. */
  function StoredTime(steps: seq<Step>, g: nat): Option<int>
    requires g <= |steps|
  {
    var profile := After(steps[..g]).1.profile;
    if profile.Some? then Some(profile.value.lastActivityAt) else None
  }

  ghost predicate MirrorIs(steps: seq<Step>, m: Mirror, g: nat)
    requires g < |steps| && steps[g].GetRuntime?
  {
    var before, since := steps[..g], steps[g..];
    && (Created(before) ==> m.currentModel == Pick(steps))
    && (!Created(before) && !Repicked(since) ==> m.currentModel.None?)
    && m.lastActivityAt == (if LastActivity(since).Some? then LastActivity(since).value.0
                            else if StoredTime(steps, g).Some? then StoredTime(steps, g).value else steps[g].now)
    && m.running == (LastActivity(since).Some? && LastActivity(since).value.1)
  }

  lemma {:induction false} RegisterIs(steps: seq<Step>)
    ensures var profile := After(steps).1.profile;
            (profile.Some? <==> Created(steps)) && (profile.Some? ==> profile.value.model == Pick(steps))
  {
    hide Take, OnBridge, Edge;
    if steps != [] { RegisterIs(steps[..|steps| - 1]); }
  }

  lemma ActivityOneMore(xs: seq<Step>, step: Step)
    ensures LastActivity(xs + [step]) == if step.Activity? then Some((step.now, step.running)) else LastActivity(xs)
    ensures Created(xs + [step]) == (step.Create? || Created(xs))
  {
    assert (xs + [step])[..|xs|] == xs;
  }

  lemma RepickedOneMore(xs: seq<Step>, step: Step)
    ensures Repicked(xs + [step]) <==> Repicked(xs) || step.SetModel?
  {
    var ys := xs + [step];
    if Repicked(xs) {
      var i :| 0 <= i < |xs| && xs[i].SetModel?;
      assert ys[i].SetModel?;
    }
    if step.SetModel? { assert ys[|xs|].SetModel?; }
  }

  lemma ScansOneMore(init: seq<Step>, step: Step, g: nat)
    requires g < |init| && init[g].GetRuntime?
    ensures var steps := init + [step];
            && steps[..g] == init[..g] && steps[g..] == init[g..] + [step]
            && LastActivity(steps[g..]) == (if step.Activity? then Some((step.now, step.running)) else LastActivity(init[g..]))
            && (Repicked(steps[g..]) <==> Repicked(init[g..]) || step.SetModel?)
            && Created(steps) == (step.Create? || Created(init))
            && StoredTime(steps, g) == StoredTime(init, g)
  {
    hide LastActivity, Repicked, Created, After;
    var steps := init + [step];
    assert steps[g..] == init[g..] + [step] && steps[..g] == init[..g];
    ActivityOneMore(init[g..], step);
    ActivityOneMore(init, step);
    RepickedOneMore(init[g..], step);
  }

  lemma {:induction false} StaysCreated(steps: seq<Step>, g: nat)
    requires g <= |steps| && Created(steps[..g])
    ensures Created(steps)
    decreases |steps|
  {
    if g < |steps| {
      assert steps[..|steps| - 1][..g] == steps[..g];
      StaysCreated(steps[..|steps| - 1], g);
    } else {
      assert steps[..g] == steps;
    }
  }

  /** A runtime that stays alive. */
  lemma MirrorKept(init: seq<Step>, step: Step, g: nat)
    requires CreatedOnce(init + [step]) && CreatedOnce(init) && MadeAt(init) == Some(g)
    requires After(init).0.runtime.Some? && MirrorIs(init, After(init).0.runtime.value, g)
    requires !step.DropRuntime? && !step.Restart?
    ensures var s := Take(After(init).0, step);
            s.runtime.Some? && MirrorIs(init + [step], s.runtime.value, g)
  {
    hide After, CreatedOnce, MadeAt, Repicked, LastActivity, Created, StoredTime;
    ScansOneMore(init, step, g);
    NoUpdateLost(init);
    RegisterIs(init);
    OneStepAfter(init, step);
    if Created(init[..g]) { StaysCreated(init, g); }
    PickOneMore(init, step);
    StoredTimeKnown(init, g);
  }

  lemma StoredTimeKnown(steps: seq<Step>, g: nat)
    requires g <= |steps|
    ensures StoredTime(steps, g).Some? <==> Created(steps[..g])
  {
    RegisterIs(steps[..g]);
  }

  lemma PickOneMore(init: seq<Step>, step: Step)
    ensures Pick(init + [step]) ==
            match step
            case Create(profile) => profile.model
            case SetModel(model) => if Created(init) then model else Pick(init)
            case _ => Pick(init)
  {
    assert (init + [step])[..|init|] == init;
  }

  lemma OneStepAfter(init: seq<Step>, step: Step)
    requires CreatedOnce(init + [step])
    ensures Once(After(init).1, step) && After(init + [step]).0 == Take(After(init).0, step)
  {
    assert (init + [step])[..|init|] == init;
  }

  /** A runtime that has just been made. */
  lemma MirrorMade(init: seq<Step>, now: int)
    requires CreatedOnce(init) && After(init).0.runtime.None?
    ensures var s := Take(After(init).0, GetRuntime(now));
            s.runtime.Some? && MirrorIs(init + [GetRuntime(now)], s.runtime.value, |init|)
  {
    hide After, CreatedOnce, MadeAt, Created;
    var steps := init + [GetRuntime(now)];
    assert steps[..|init|] == init && steps[|init|..] == [GetRuntime(now)];
    assert LastActivity([GetRuntime(now)]) == LastActivity([]) == None by { assert [GetRuntime(now)][..0] == []; }
    NoUpdateLost(init);
    RegisterIs(init);
    PickOneMore(init, GetRuntime(now));
  }

  /**
   In every run that creates the session at most once: there is a live runtime exactly when one was made and not dropped
   since; if the session existed by then it mirrors the last pick, and otherwise it has no model until one is picked; its
   activity is the last activity call's since it was made, and before any such call it has the stored time, or its own
   clock if nothing was stored.
   */
  lemma {:induction false} MirrorFollows(steps: seq<Step>)
    requires CreatedOnce(steps)
    ensures After(steps).0.runtime.Some? <==> MadeAt(steps).Some?
    ensures MadeAt(steps).Some? ==> MirrorIs(steps, After(steps).0.runtime.value, MadeAt(steps).value)
  {
    hide Take, MirrorIs, OnRegisters, Edge;
    if steps != [] {
      var init, step := steps[..|steps| - 1], steps[|steps| - 1];
      MirrorFollows(init);
      assert init + [step] == steps;
      if step.DropRuntime? || step.Restart? {
        Dropped(After(init).0, step);
      } else if MadeAt(init).Some? {
        MirrorKept(init, step, MadeAt(init).value);
      } else if step.GetRuntime? {
        MirrorMade(init, step.now);
      } else {
        StillNone(After(init).0, step);
      }
    }
  }

  lemma Dropped(s: Store, step: Step)
    requires step.DropRuntime? || step.Restart?
    ensures Take(s, step).runtime.None?
  {}

  lemma StillNone(s: Store, step: Step)
    requires s.runtime.None? && !step.GetRuntime?
    ensures Take(s, step).runtime.None?
  {}

  // ---- viewing is not activity ----

  /** The activity time a client is shown. */
  function PublishedTime(s: Store): Option<int> {
    if s.runtime.Some? then Some(s.runtime.value.lastActivityAt)
    else if s.cache.Some? then Some(s.cache.value.profile.lastActivityAt)
    else None
  }

  /** Making a runtime for a session that exists, as viewing it does, changes neither the time nor the model shown. */
  lemma ViewingChangesNothing(steps: seq<Step>, now: int)
    requires CreatedOnce(steps) && Created(steps)
    ensures var s, t := After(steps).0, After(steps + [GetRuntime(now)]).0;
            PublishedTime(t) == PublishedTime(s) && PublishedModel(t) == PublishedModel(s) && t.disk == s.disk && t.cache == s.cache
  {
    hide CreatedOnce;
    assert (steps + [GetRuntime(now)])[..|steps|] == steps;
    NoUpdateLost(steps);
    RegisterIs(steps);
  }
}
