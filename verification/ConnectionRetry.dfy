/** How a connect attempt ends, how retries count up, and what stops them. */
module ConnectionRetry {
  import opened Options
  import opened Connection
  import opened ConnectionProof

  /** A connect attempt of the current epoch that has just begun, and nothing else under way. */
  ghost predicate Trying(p: Provider, i: nat, n: nat) {
    && i in p.tries && p.tries[i] == Try(p.epoch, ToConnect(n), Loading)
    && p.should && p.timer.None? && p.pending == map[] && p.health == Connecting(n)
  }

  lemma CurrentConnect(p: Provider, i: nat)
    requires Inv(p) && i in p.tries && Current(p, i) && p.tries[i].purpose.ToConnect?
    ensures p.should && p.transport.None? && p.facade.None? && p.handlers == map[] && p.pending == map[] && p.timer.None?
    ensures forall j :: j in p.tries && Current(p, j) ==> j == i
    ensures p.tries[i].stage.Loading? || p.tries[i].stage.Dialing?
  {
    assert Behind(p, i);
  }

  /** How a current connect attempt ends: ready exactly when dialled, offline with a retry armed exactly when the dial failed,
    * unpaired without a record, in error when loading threw or the daemon is incompatible. */
  lemma ConnectEnds(p: Provider, i: nat, out: Outcome)
    requires Inv(p) && Enabled(p, GoesOn(i, out)) && Current(p, i) && p.tries[i].purpose.ToConnect? && out != Loaded(true)
    ensures var q, n := Take(p, GoesOn(i, out)), p.tries[i].purpose.attempt;
            && i !in q.tries
            && (q.health == Ready <==> out.Dialed?) && (out.Dialed? ==> q.transport == q.facade == Some(out.transport))
            && (q.health == Offline(n) <==> out.DialFailed?)
            && (q.health == Unpaired <==> out == Loaded(false))
            && (q.health == InError <==> out.LoadThrew? || out.Incompatible?)
            && (q.timer.Some? <==> out.DialFailed?)
            && (out.DialFailed? ==> q.pending == map[q.timer.value := Retry(p.epoch, n + 1)])
            && (out.Incompatible? <==> !q.should)
  {
    CurrentConnect(p, i);
    hide Inv;
  }

  /** An incompatible daemon ends the retries: whatever timer, close or attempt comes afterwards, nothing is connected, retried
    * or shown differently until the user acts. */
  lemma IncompatibleIsFinal(p: Provider, i: nat, steps: seq<Step>)
    requires Inv(p) && Enabled(p, GoesOn(i, Incompatible)) && Current(p, i) && p.tries[i].purpose.ToConnect?
    requires forall k :: 0 <= k < |steps| ==> Unprompted(steps[k])
    ensures var q := Take(p, GoesOn(i, Incompatible));
            && q.health == InError && !q.should
            && SameConnection(q, Run(q, steps)) && Disposed(Run(q, steps))
  {
    var q := Take(p, GoesOn(i, Incompatible));
    CurrentConnect(p, i);
    StepKeepsInv(p, GoesOn(i, Incompatible));
    hide Inv, Run;
    assert Disposed(q);
    DisposedRun(q, steps);
  }

  // ---- counting up ----

  /** An attempt that finds its record, fails to dial, and is retried when its timer fires. */
  function FailedRound(p: Provider, i: nat): Provider {
    var p1 := if Enabled(p, GoesOn(i, Loaded(true))) then Take(p, GoesOn(i, Loaded(true))) else p;
    var p2 := if Enabled(p1, GoesOn(i, DialFailed)) then Take(p1, GoesOn(i, DialFailed)) else p1;
    if p2.timer.Some? && Enabled(p2, Fires(p2.timer.value)) then Take(p2, Fires(p2.timer.value)) else p2
  }

  lemma DialFails(p: Provider, i: nat, n: nat)
    requires Inv(p) && Trying(p, i, n)
    ensures Enabled(p, GoesOn(i, Loaded(true)))
    ensures var p1 := Take(p, GoesOn(i, Loaded(true)));
            && Enabled(p1, GoesOn(i, DialFailed))
            && var p2 := Take(p1, GoesOn(i, DialFailed));
            && Inv(p2) && p2.timer.Some? && p2.pending == map[p2.timer.value := Retry(p.epoch, n + 1)]
            && p2.epoch == p.epoch && p2.should && p2.health == Offline(n)
  {
    CurrentConnect(p, i);
    var p1 := Take(p, GoesOn(i, Loaded(true)));
    StepKeepsInv(p, GoesOn(i, Loaded(true)));
    assert p1.tries[i] == Try(p.epoch, ToConnect(n), Dialing);
    StepKeepsInv(p1, GoesOn(i, DialFailed));
    CurrentConnect(p1, i);
    hide Inv;
  }

  lemma TimerTries(p: Provider, h: nat, n: nat)
    requires p.should && p.timer == Some(h) && p.pending == map[h := Retry(p.epoch, n)]
    ensures var q := Take(p, Fires(h)); q.next > 0 && Trying(q, q.next - 1, n) && q.epoch == p.epoch + 1
  {
    assert map[h := Retry(p.epoch, n)] - {h} == map[];
  }

  lemma RoundCounts(p: Provider, i: nat, n: nat)
    requires Inv(p) && Trying(p, i, n)
    ensures var q := FailedRound(p, i);
            Inv(q) && q.next > 0 && Trying(q, q.next - 1, n + 1) && q.epoch == p.epoch + 1
  {
    DialFails(p, i, n);
    hide Inv, Trying, Take;
    var p2 := Take(Take(p, GoesOn(i, Loaded(true))), GoesOn(i, DialFailed));
    TimerTries(p2, p2.timer.value, n + 1);
    StepKeepsInv(p2, Fires(p2.timer.value));
  }

  function FailedRounds(p: Provider, i: nat, k: nat): Provider
    decreases k
  {
    if k == 0 then p
    else
      var q := FailedRound(p, i);
      FailedRounds(q, if q.next > 0 then q.next - 1 else 0, k - 1)
  }

  /** After k failures in a row the attempt shown is k further on. */
  lemma {:induction false} RetriesCountUp(p: Provider, i: nat, n: nat, k: nat)
    requires Inv(p) && Trying(p, i, n)
    ensures FailedRounds(p, i, k).health == Connecting(n + k)
    decreases k
  {
    hide Inv, FailedRound;
    if k > 0 {
      RoundCounts(p, i, n);
      hide Trying;
      var q := FailedRound(p, i);
      RetriesCountUp(q, q.next - 1, n + 1, k - 1);
    }
  }

  /** A lost connection shows attempt 0 and is retried as attempt 1. */
  lemma LossRetriesFromOne(p: Provider, t: nat)
    requires Inv(p) && t in p.handlers && p.handlers[t] == p.epoch && p.should
    ensures var q := Take(p, Lost(t));
            && q.health == Offline(0) && q.timer.Some? && q.pending == map[q.timer.value := Retry(p.epoch, 1)]
            && var r := Take(q, Fires(q.timer.value));
               r.next > 0 && Trying(r, r.next - 1, 1)
  {
    assert p.timer.None? && p.pending == map[];
    hide Inv;
    var q := Take(p, Lost(t));
    TimerTries(q, q.timer.value, 1);
  }

  /** A reset tries from 0 whatever was under way. */
  lemma ResetTriesAgain(p: Provider)
    requires Inv(p) && p.mounted
    ensures var r := Take(p, Reset); r.next > 0 && Trying(r, r.next - 1, 0)
  {
    assert OneTimer(p);
    if p.timer.Some? { assert p.pending - {p.timer.value} == map[]; }
    hide Inv;
  }
}
