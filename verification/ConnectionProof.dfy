/** What every reachable state of the app's connection keeps, and when it keeps making progress. */
module ConnectionProof {
  import opened Options
  import opened Connection

  predicate Holds(p: Provider, i: nat, t: nat) {
    i in p.tries && p.tries[i].stage == Checking(t)
  }

  /** Transports held by pairing attempts that have dialled and are reading the record back. */
  ghost predicate HeldByPair(p: Provider, t: nat) {
    exists i :: Holds(p, i, t)
  }

  /** Facade and provider hold the same transport, and every other established one is closed, save those a pairing
    * attempt is about to attach or close; a close handler is only ever the attached transport's. */
  ghost predicate OneTransport(p: Provider) {
    && p.facade == p.transport
    && (forall t :: t in p.open ==> p.transport == Some(t) || HeldByPair(p, t))
    && (p.transport.Some? ==> p.transport.value in p.open)
    && (forall t :: t in p.handlers ==> p.transport == Some(t))
  }

  /** At most one timer is pending, the remembered one, and it is not superseded. */
  ghost predicate OneTimer(p: Provider) {
    && p.pending.Keys == (if p.timer.Some? then {p.timer.value} else {})
    && forall id :: id in p.pending ==> p.pending[id].epoch == p.epoch
  }

  predicate Behind(p: Provider, i: nat)
    requires i in p.tries
  {
    p.tries[i].epoch <= p.epoch && (p.tries[i].stage.Checking? ==> p.tries[i].purpose.ToPair?)
  }

  /** The current epoch has one driver at most: an attempt, or a timer, or a transport's handler. */
  ghost predicate OneDriver(p: Provider) {
    && (forall i :: i in p.tries ==> Behind(p, i) && i < p.next)
    && (forall i, j :: i in p.tries && j in p.tries && Current(p, i) && Current(p, j) ==> i == j)
    && (forall i :: i in p.tries && Current(p, i) ==> p.pending == map[] && forall t :: t in p.handlers ==> p.handlers[t] != p.epoch)
    && (forall i :: i in p.tries && Current(p, i) ==> p.should && (p.tries[i].purpose.ToConnect? ==> p.transport.None?))
    && (p.pending != map[] ==> forall t :: t in p.handlers ==> p.handlers[t] != p.epoch)
    && (forall t :: t in p.handlers ==> p.handlers[t] <= p.epoch)
  }

  /** No transport is held twice. */
  ghost predicate Distinct(p: Provider) {
    && (forall t :: t in p.open ==> t < p.next)
    && (forall i, t :: Holds(p, i, t) ==> t in p.open && p.transport != Some(t))
    && (forall i, j, t :: Holds(p, i, t) && Holds(p, j, t) ==> i == j)
  }

  ghost predicate Inv(p: Provider) {
    OneTransport(p) && OneTimer(p) && OneDriver(p) && Distinct(p)
  }

  /** A new epoch with its timer cleared: whatever was under way is superseded. */
  function Bumped(p: Provider, should: bool): Provider {
    ClearTimer(p.(epoch := p.epoch + 1)).(should := should)
  }

  lemma BumpIs(p: Provider, should: bool)
    requires OneTimer(p)
    ensures Bumped(p, should) == p.(epoch := p.epoch + 1, should := should, timer := None, pending := map[])
  {
  }

  lemma BumpKeepsInv(p: Provider, should: bool)
    requires Inv(p)
    ensures Inv(Bumped(p, should))
    ensures var q := Bumped(p, should);
            && q.pending == map[] && q.timer.None? && q.tries == p.tries && q.next == p.next && q.transport == p.transport
            && (forall i :: i in q.tries ==> !Current(q, i)) && (forall t :: t in q.handlers ==> q.handlers[t] != q.epoch)
  {
    hide Bumped;
    BumpIs(p, should);
    var q := Bumped(p, should);
    forall i | i in q.tries ensures Behind(q, i) && !Current(q, i) {
      assert Behind(p, i);
    }
    assert forall i, t :: Holds(q, i, t) <==> Holds(p, i, t);
    forall t | t in q.open ensures q.transport == Some(t) || HeldByPair(q, t) {
      if HeldByPair(p, t) {
        var i :| Holds(p, i, t);
        assert Holds(q, i, t);
      }
    }
  }

  lemma DropKeepsInv(p: Provider)
    requires Inv(p)
    ensures Inv(DropTransport(p)) && DropTransport(p).transport.None? && DropTransport(p).handlers == map[]
  {
    var q := DropTransport(p);
    if p.transport.Some? {
      forall t | t in q.open ensures HeldByPair(q, t) {
        var i :| Holds(p, i, t);
        assert Holds(q, i, t);
      }
      assert forall i, t :: Holds(q, i, t) ==> Holds(p, i, t);
    }
  }

  lemma LaunchKeepsInv(p: Provider, purpose: Purpose)
    requires Inv(p) && p.pending == map[] && forall i :: i in p.tries ==> !Current(p, i)
    requires forall t :: t in p.handlers ==> p.handlers[t] != p.epoch
    requires p.should && (purpose.ToConnect? ==> p.transport.None?)
    ensures Inv(Launch(p, purpose))
  {
    var q := Launch(p, purpose);
    forall t | t in q.open ensures q.transport == Some(t) || HeldByPair(q, t) {
      if HeldByPair(p, t) {
        var i :| Holds(p, i, t);
        assert Holds(q, i, t);
      }
    }
    assert forall i, t :: Holds(q, i, t) ==> Holds(p, i, t);
  }

  lemma HealthKeepsInv(p: Provider, health: Health, should: bool, mounted: bool)
    requires Inv(p) && (p.should ==> should || forall i :: i in p.tries ==> !Current(p, i))
    ensures Inv(p.(health := health, should := should, mounted := mounted))
  {
    var q := p.(health := health, should := should, mounted := mounted);
    assert forall i, t :: Holds(q, i, t) <==> Holds(p, i, t);
    forall t | t in q.open ensures q.transport == Some(t) || HeldByPair(q, t) {
      if HeldByPair(p, t) {
        var i :| Holds(p, i, t);
        assert Holds(q, i, t);
      }
    }
  }

  lemma ConnectKeepsInv(p: Provider, attempt: nat)
    requires Inv(p)
    ensures Inv(Connect(p, attempt))
  {
    hide Inv, ClearTimer, Launch;
    var a := Bumped(p, p.should);
    BumpKeepsInv(p, p.should);
    var b := DropTransport(a);
    DropKeepsInv(a);
    var c := b.(should := true, health := Connecting(attempt), mounted := b.mounted);
    HealthKeepsInv(b, Connecting(attempt), true, b.mounted);
    LaunchKeepsInv(c, ToConnect(attempt));
    ClearKeepsShould(p.(epoch := p.epoch + 1));
  }

  lemma ClearKeepsShould(p: Provider)
    ensures ClearTimer(p).(should := p.should) == ClearTimer(p)
  {
  }

  lemma PairKeepsInv(p: Provider)
    requires Inv(p)
    ensures Inv(Pair(p))
  {
    hide Inv, ClearTimer, Launch;
    BumpKeepsInv(p, true);
    LaunchKeepsInv(Bumped(p, true), ToPair);
  }

  lemma TeardownKeepsInv(p: Provider)
    requires Inv(p)
    ensures Inv(Unpair(p)) && Inv(Unmount(p))
  {
    hide Inv, DropTransport, ClearTimer, Bumped;
    BumpKeepsInv(p, false);
    var a := Bumped(p, false);
    ClearOnce(p);
    DropKeepsInv(a);
    var b := DropTransport(a);
    HealthKeepsInv(b, Unpaired, b.should, b.mounted);
    HealthKeepsInv(b, b.health, b.should, false);
  }

  lemma ClearOnce(p: Provider)
    ensures ClearTimer(p.(epoch := p.epoch + 1, should := false)) == Bumped(p, false)
  {
  }

  lemma TimerKeepsInv(p: Provider, id: nat)
    requires Inv(p) && id in p.pending
    ensures Inv(TimerFires(p, id))
  {
    var q := p.(pending := p.pending - {id}, timer := None);
    assert q.pending == map[];
    assert forall i, t :: Holds(q, i, t) <==> Holds(p, i, t);
    forall t | t in q.open ensures q.transport == Some(t) || HeldByPair(q, t) {
      if HeldByPair(p, t) {
        var i :| Holds(p, i, t);
        assert Holds(q, i, t);
      }
    }
    assert Inv(q);
    hide Inv;
    ConnectKeepsInv(q, p.pending[id].attempt);
  }

  /** Ending an attempt that holds no transport. */
  lemma DoneKeepsInv(p: Provider, i: nat)
    requires Inv(p) && i in p.tries && !p.tries[i].stage.Checking?
    ensures Inv(Done(p, i))
  {
    var q := Done(p, i);
    assert forall j, t :: Holds(q, j, t) <==> Holds(p, j, t);
    forall t | t in q.open ensures q.transport == Some(t) || HeldByPair(q, t) {
      if HeldByPair(p, t) {
        var j :| Holds(p, j, t);
        assert Holds(q, j, t);
      }
    }
  }

  /** Ending a pairing attempt and closing the transport it holds. */
  lemma CloseHeldKeepsInv(p: Provider, i: nat, t: nat)
    requires Inv(p) && Holds(p, i, t)
    ensures Inv(CloseUnused(Done(p, i), t)) && CloseUnused(Done(p, i), t).transport == p.transport
  {
    var q := CloseUnused(Done(p, i), t);
    assert forall j, x :: Holds(q, j, x) ==> Holds(p, j, x) && j != i;
    assert p.handlers - {t} == p.handlers;
    forall x | x in q.open ensures q.transport == Some(x) || HeldByPair(q, x) {
      if HeldByPair(p, x) {
        var j :| Holds(p, j, x);
        assert Holds(q, j, x);
      }
    }
  }

  lemma DialStageKeepsInv(p: Provider, i: nat)
    requires Inv(p) && i in p.tries && p.tries[i].stage.Loading?
    ensures Inv(ToStage(p, i, Dialing))
  {
    var q := ToStage(p, i, Dialing);
    assert forall j, t :: Holds(q, j, t) <==> Holds(p, j, t);
    forall t | t in q.open ensures q.transport == Some(t) || HeldByPair(q, t) {
      if HeldByPair(p, t) {
        var j :| Holds(p, j, t);
        assert Holds(q, j, t);
      }
    }
  }

  /** A pairing attempt has dialled a new transport and holds it while it reads the record back. */
  function Holding(p: Provider, i: nat, t: nat): Provider
    requires i in p.tries
  {
    ToStage(p.(open := p.open + {t}), i, Checking(t)).(next := t + 1)
  }

  predicate Dialled(p: Provider, i: nat, t: nat) {
    i in p.tries && p.tries[i].stage.Dialing? && p.tries[i].purpose.ToPair? && t >= p.next
  }

  lemma HoldingTransports(p: Provider, i: nat, t: nat)
    requires OneTransport(p) && Dialled(p, i, t)
    ensures OneTransport(Holding(p, i, t))
  {
    var q := Holding(p, i, t);
    assert Holds(q, i, t);
    forall x | x in q.open ensures q.transport == Some(x) || HeldByPair(q, x) {
      if HeldByPair(p, x) {
        var j :| Holds(p, j, x);
        assert Holds(q, j, x);
      }
    }
  }

  lemma HoldingDrivers(p: Provider, i: nat, t: nat)
    requires OneTimer(p) && OneDriver(p) && Dialled(p, i, t)
    ensures OneTimer(Holding(p, i, t)) && OneDriver(Holding(p, i, t))
  {
    var q := Holding(p, i, t);
    forall j | j in q.tries ensures Behind(q, j) && j < q.next && (Current(q, j) <==> Current(p, j)) {
      assert Behind(p, j);
    }
  }

  lemma HoldingDistinct(p: Provider, i: nat, t: nat)
    requires OneTransport(p) && Distinct(p) && Dialled(p, i, t)
    ensures Distinct(Holding(p, i, t))
  {
    var q := Holding(p, i, t);
    assert forall j, x :: Holds(q, j, x) ==> (j == i && x == t) || (j != i && Holds(p, j, x));
  }

  lemma HoldKeepsInv(p: Provider, i: nat, t: nat)
    requires Inv(p) && i in p.tries && p.tries[i].stage.Dialing? && p.tries[i].purpose.ToPair? && t >= p.next
    ensures Inv(ToStage(p.(open := p.open + {t}), i, Checking(t)).(next := t + 1))
  {
    hide OneTransport, OneTimer, OneDriver, Distinct;
    HoldingTransports(p, i, t);
    HoldingDrivers(p, i, t);
    HoldingDistinct(p, i, t);
  }

  lemma NextKeepsInv(p: Provider, n: nat)
    requires Inv(p) && p.next <= n
    ensures Inv(p.(next := n))
  {
    var q := p.(next := n);
    assert forall j, t :: Holds(q, j, t) <==> Holds(p, j, t);
    forall t | t in q.open ensures q.transport == Some(t) || HeldByPair(q, t) {
      if HeldByPair(p, t) {
        var j :| Holds(p, j, t);
        assert Holds(q, j, t);
      }
    }
  }

  /** No attempt, timer or handler of the current epoch is left. */
  ghost predicate Undriven(p: Provider) {
    && p.pending == map[] && (forall j :: j in p.tries ==> !Current(p, j))
    && (forall t :: t in p.handlers ==> p.handlers[t] != p.epoch)
  }

  lemma CurrentWasOnly(p: Provider, i: nat)
    requires Inv(p) && i in p.tries && Current(p, i)
    ensures Undriven(Done(p, i))
  {
  }

  /** Attaching a transport that is established and held by nobody else. */
  lemma AttachKeepsInv(p: Provider, t: nat, n: nat)
    requires Inv(p) && Undriven(p) && p.transport.None? && t !in p.open && p.next <= n && t < n
    ensures Inv(Attach(p.(open := p.open + {t}, next := n), t, p.epoch))
  {
    var q := Attach(p.(open := p.open + {t}, next := n), t, p.epoch);
    assert forall j, x :: Holds(q, j, x) <==> Holds(p, j, x);
    forall x | x in q.open ensures q.transport == Some(x) || HeldByPair(q, x) {
      if HeldByPair(p, x) {
        var j :| Holds(p, j, x);
        assert Holds(q, j, x);
      }
    }
  }

  lemma RetryKeepsInv(p: Provider, attempt: nat)
    requires Inv(p) && Undriven(p)
    ensures Inv(SetTimer(p, Retry(p.epoch, attempt)))
  {
    var q := SetTimer(p, Retry(p.epoch, attempt));
    assert p.timer.None?;
    assert forall j, t :: Holds(q, j, t) <==> Holds(p, j, t);
    forall t | t in q.open ensures q.transport == Some(t) || HeldByPair(q, t) {
      if HeldByPair(p, t) {
        var j :| Holds(p, j, t);
        assert Holds(q, j, t);
      }
    }
  }

  lemma SpentHandler(p: Provider, t: nat)
    requires Inv(p) && t in p.handlers
    ensures var q := p.(handlers := p.handlers - {t});
            Inv(q) && (p.handlers[t] == p.epoch ==> Undriven(q) && ClearTimer(q) == q)
  {
    var q := p.(handlers := p.handlers - {t});
    assert forall i, x :: Holds(q, i, x) <==> Holds(p, i, x);
    forall x | x in q.open ensures q.transport == Some(x) || HeldByPair(q, x) {
      if HeldByPair(p, x) {
        var i :| Holds(p, i, x);
        assert Holds(q, i, x);
      }
    }
  }

  lemma LostKeepsInv(p: Provider, t: nat)
    requires Inv(p) && t in p.handlers
    ensures Inv(Drops(p, t))
  {
    hide Inv, Undriven, SetTimer, ClearTimer;
    SpentHandler(p, t);
    var q := p.(handlers := p.handlers - {t});
    if p.handlers[t] == p.epoch && p.should {
      HealthKeepsInv(q, Offline(0), q.should, q.mounted);
      HealthUndriven(q, Offline(0));
      RetryKeepsInv(q.(health := Offline(0), should := q.should, mounted := q.mounted), 1);
    }
  }

  lemma HealthUndriven(p: Provider, health: Health)
    requires Undriven(p)
    ensures Undriven(p.(health := health, should := p.should, mounted := p.mounted))
  {
  }

  lemma OpenIsOld(p: Provider, t: nat)
    requires Inv(p) && t >= p.next
    ensures t !in p.open && t !in p.handlers && p.handlers - {t} == p.handlers && p.open + {t} - {t} == p.open
  {
  }

  /** A current connect attempt finds no transport attached. */
  lemma ConnectFindsNone(p: Provider, i: nat)
    requires Inv(p) && i in p.tries && Current(p, i) && p.tries[i].purpose.ToConnect?
    ensures p.transport.None? && Undriven(Done(p, i))
  {
    CurrentWasOnly(p, i);
  }

  lemma DialedKeepsInv(p: Provider, i: nat, t: nat)
    requires Inv(p) && Enabled(p, GoesOn(i, Dialed(t))) && p.tries[i].purpose.ToConnect?
    ensures Inv(GoOn(p, i, Dialed(t)))
  {
    hide Inv, Undriven, Attach;
    var q := Done(p, i);
    DoneKeepsInv(p, i);
    OpenIsOld(q, t);
    if Current(p, i) {
      ConnectFindsNone(p, i);
      AttachKeepsInv(q, t, t + 1);
      AttachNext(q, t);
    } else {
      NextKeepsInv(q, t + 1);
      assert CloseUnused(q.(open := q.open + {t}), t) == q;
    }
  }

  lemma AttachNext(q: Provider, t: nat)
    requires t >= q.next
    ensures Attach(q.(open := q.open + {t}), t, q.epoch).next == q.next
    ensures Attach(q.(open := q.open + {t}), t, q.epoch).(next := t + 1) ==
            Attach(q.(open := q.open + {t}, next := t + 1), t, q.epoch)
  {
  }

  lemma DialFailedKeepsInv(p: Provider, i: nat)
    requires Inv(p) && Enabled(p, GoesOn(i, DialFailed)) && p.tries[i].purpose.ToConnect?
    ensures Inv(GoOn(p, i, DialFailed))
  {
    hide Inv, Undriven, SetTimer;
    var q := Done(p, i);
    DoneKeepsInv(p, i);
    if Current(p, i) && p.should {
      var attempt := p.tries[i].purpose.attempt;
      ConnectFindsNone(p, i);
      HealthKeepsInv(q, Offline(attempt), q.should, q.mounted);
      HealthUndriven(q, Offline(attempt));
      RetryKeepsInv(q.(health := Offline(attempt), should := q.should, mounted := q.mounted), attempt + 1);
    }
  }

  lemma ConnectGoesOnKeepsInv(p: Provider, i: nat, out: Outcome)
    requires Inv(p) && Enabled(p, GoesOn(i, out)) && p.tries[i].purpose.ToConnect? && !p.tries[i].stage.Checking?
    ensures Inv(GoOn(p, i, out))
  {
    hide Inv, SetTimer, Attach;
    var q := Done(p, i);
    DoneKeepsInv(p, i);
    match out {
      case Loaded(paired) =>
        if paired { DialStageKeepsInv(p, i); }
        HealthKeepsInv(q, Unpaired, q.should, q.mounted);
      case LoadThrew => HealthKeepsInv(q, InError, q.should, q.mounted);
      case Dialed(t) => DialedKeepsInv(p, i, t);
      case DialFailed => DialFailedKeepsInv(p, i);
      case Incompatible =>
        if Current(p, i) {
          ConnectFindsNone(p, i);
          StillUndriven(q);
          HealthKeepsInv(q, InError, false, q.mounted);
        }
    }
  }

  lemma StillUndriven(p: Provider)
    requires Undriven(p)
    ensures forall i :: i in p.tries ==> !Current(p, i)
  {
  }

  /** A paired transport replaces the one attached before, which is closed. */
  lemma SwapKeepsInv(p: Provider, i: nat, t: nat)
    requires Inv(p) && Holds(p, i, t) && Current(p, i)
    ensures Inv(Attach(DropTransport(Done(p, i)), t, p.epoch))
  {
    hide Inv, Attach, DropTransport, Undriven, CloseUnused;
    var freed := CloseUnused(Done(p, i), t);
    CloseHeldKeepsInv(p, i, t);
    CurrentWasOnly(p, i);
    HeldFacts(p, i, t);
    DropKeepsInv(freed);
    SwapSteps(p, i, t);
    AttachKeepsInv(DropTransport(freed), t, DropTransport(freed).next);
  }

  lemma SwapSteps(p: Provider, i: nat, t: nat)
    requires i in p.tries && t in p.open && p.transport != Some(t) && t !in p.handlers && t < p.next && Undriven(Done(p, i))
    ensures var bare := DropTransport(CloseUnused(Done(p, i), t));
            && Undriven(bare) && t !in bare.open && t < bare.next && bare.epoch == p.epoch
            && Attach(bare.(open := bare.open + {t}, next := bare.next), t, bare.epoch) == Attach(DropTransport(Done(p, i)), t, p.epoch)
  {
  }

  lemma HeldFacts(p: Provider, i: nat, t: nat)
    requires Inv(p) && Holds(p, i, t)
    ensures t in p.open && p.transport != Some(t) && t < p.next && t !in p.handlers && p.handlers - {t} == p.handlers
  {
  }

  lemma PairGoesOnKeepsInv(p: Provider, i: nat, out: Outcome)
    requires Inv(p) && Enabled(p, GoesOn(i, out)) && p.tries[i].purpose.ToPair?
    ensures Inv(GoOn(p, i, out))
  {
    hide Inv, Attach, DropTransport;
    match out {
      case Loaded(_) => DialStageKeepsInv(p, i);
      case Dialed(t) =>
        if Current(p, i) {
          HoldKeepsInv(p, i, t);
        } else {
          var q := Done(p, i);
          DoneKeepsInv(p, i);
          OpenIsOld(q, t);
          NextKeepsInv(q, t + 1);
          assert CloseUnused(q.(open := q.open + {t}), t) == q;
        }
      case Recorded =>
        var t := p.tries[i].stage.transport;
        if Current(p, i) { SwapKeepsInv(p, i, t); } else { CloseHeldKeepsInv(p, i, t); }
      case RecordMissing => CloseHeldKeepsInv(p, i, p.tries[i].stage.transport);
      case _ => DoneKeepsInv(p, i);
    }
  }

  lemma CheckingIsPairing(p: Provider, i: nat)
    requires Inv(p) && i in p.tries && p.tries[i].stage.Checking?
    ensures p.tries[i].purpose.ToPair?
  {
    assert Behind(p, i);
  }

  lemma StepKeepsInv(p: Provider, step: Step)
    requires Inv(p) && Enabled(p, step)
    ensures Inv(Take(p, step))
  {
    hide Inv, Connect, Pair, Unpair, Unmount, GoOn, TimerFires, Drops;
    match step {
      case Reset => ConnectKeepsInv(p, 0);
      case BeginPair => PairKeepsInv(p);
      case Forget => TeardownKeepsInv(p);
      case Leave => TeardownKeepsInv(p);
      case GoesOn(i, out) =>
        if p.tries[i].stage.Checking? { CheckingIsPairing(p, i); }
        if p.tries[i].purpose.ToPair? { PairGoesOnKeepsInv(p, i, out); } else { ConnectGoesOnKeepsInv(p, i, out); }
      case Fires(id) => TimerKeepsInv(p, id);
      case Lost(t) => LostKeepsInv(p, t);
    }
  }

  /** The provider after mount and any sequence of events; events that cannot happen change nothing. */
  function After(steps: seq<Step>): Provider {
    if steps == [] then Connect(Start(), 0)
    else
      var before, step := After(steps[..|steps| - 1]), steps[|steps| - 1];
      if Enabled(before, step) then Take(before, step) else before
  }

  lemma {:induction false} ReachableInv(steps: seq<Step>)
    ensures Inv(After(steps))
  {
    hide Inv, Take, Enabled, Connect;
    if steps == [] {
      StartInv();
      ConnectKeepsInv(Start(), 0);
    } else {
      ReachableInv(steps[..|steps| - 1]);
      if Enabled(After(steps[..|steps| - 1]), steps[|steps| - 1]) {
        StepKeepsInv(After(steps[..|steps| - 1]), steps[|steps| - 1]);
      }
    }
  }

  lemma StartInv()
    ensures Inv(Start())
  {
  }

  /** In every reachable state facade and provider hold the same transport, every other established transport is
    * closed unless a pairing attempt is about to attach or close it, and at most one reconnect timer is pending. */
  lemma OneConnection(steps: seq<Step>, t: nat, a: nat, b: nat)
    ensures var p := After(steps);
            && p.facade == p.transport
            && (t in p.open ==> p.transport == Some(t) || HeldByPair(p, t))
            && (a in p.pending && b in p.pending ==> a == b && p.timer == Some(a) && p.pending[a].epoch == p.epoch)
  {
    hide After;
    ReachableInv(steps);
  }

  // ---- Progress ----

  /** An attempt of the current epoch is under way. */
  ghost predicate Trying(p: Provider) {
    exists i :: IsTrying(p, i)
  }

  predicate IsTrying(p: Provider, i: nat) {
    i in p.tries && Current(p, i)
  }

  /** Something will move the connection on: an attempt, a timer, or the attached transport's own handler. */
  ghost predicate Driven(p: Provider) {
    p.should && (Trying(p) || p.pending != map[] || (p.transport.Some? && p.transport.value in p.handlers
                                                     && p.handlers[p.transport.value] == p.epoch))
  }

  /** The user is shown a connection that is up, coming up, or about to be retried. */
  predicate Hopeful(p: Provider) {
    p.mounted && (p.health.Connecting? || p.health.Ready? || p.health.Offline?)
  }

  /** What is shown as up, coming up or retrying is being driven. */
  ghost predicate Honest(p: Provider) {
    Hopeful(p) ==> Driven(p)
  }

  /** A pairing attempt of the current epoch ends without a connection. */
  predicate PairingFails(p: Provider, step: Step)
    requires Enabled(p, step)
  {
    && step.GoesOn? && Current(p, step.attempt) && p.tries[step.attempt].purpose.ToPair?
    && (step.out.LoadThrew? || step.out.DialFailed? || step.out.Incompatible? || step.out.RecordMissing?)
  }

  lemma SettlesStaleSafely(p: Provider, q: Provider, i: nat)
    requires Honest(p) && i in p.tries && !Current(p, i) && SameConnection(p, q) && q.mounted == p.mounted
    requires q.handlers == p.handlers && forall j :: j in p.tries && j != i ==> j in q.tries && q.tries[j] == p.tries[j]
    ensures Honest(q)
  {
    if Trying(p) {
      var j :| IsTrying(p, j);
      assert IsTrying(q, j);
    }
  }

  lemma StaleKeepsRest(p: Provider, i: nat, out: Outcome)
    requires Inv(p) && Enabled(p, GoesOn(i, out)) && !Current(p, i)
    ensures var q := GoOn(p, i, out);
            && SameConnection(p, q) && q.mounted == p.mounted && q.handlers == p.handlers
            && forall j :: j in p.tries && j != i ==> j in q.tries && q.tries[j] == p.tries[j]
  {
    hide Inv, GoOn;
    StaleGoesOn(p, i, out);
    if out.Dialed? { OpenIsOld(p, out.transport); }
    if p.tries[i].stage.Checking? { HeldFacts(p, i, p.tries[i].stage.transport); CheckingIsPairing(p, i); }
  }

  /** An attempt of the current epoch that goes on leaves the shown state driven, unless it is a pairing that fails. */
  lemma CurrentStaysHonest(p: Provider, i: nat, out: Outcome)
    requires Inv(p) && Enabled(p, GoesOn(i, out)) && Current(p, i)
    ensures var q := GoOn(p, i, out);
            if PairingFails(p, GoesOn(i, out)) then !Driven(q) && (Hopeful(q) <==> Hopeful(p)) else Honest(q)
  {
    var q := GoOn(p, i, out);
    assert p.should;
    if p.tries[i].stage.Checking? { CheckingIsPairing(p, i); }
    CurrentWasOnly(p, i);
    if (out.Loaded? && out.paired) || (p.tries[i].purpose.ToPair? && (out.Loaded? || out.Dialed?)) {
      assert IsTrying(q, i);
    }
  }

  /** Every step keeps the shown state honest, except a failed pairing while a connection was up or being retried:
    * the pairing has stopped the timer and outdated the close handler, and nothing starts them again. */
  lemma StepStaysHonestIff(p: Provider, step: Step)
    requires Inv(p) && Enabled(p, step) && Honest(p)
    ensures Honest(Take(p, step)) <==> !(PairingFails(p, step) && Hopeful(p))
  {
    hide Inv, GoOn, Attach, DropTransport, SetTimer, ClearTimer;
    match step {
      case Reset => ConnectTries(p, 0);
      case BeginPair => PairTries(p);
      case Forget =>
      case Leave =>
      case GoesOn(i, out) =>
        if Current(p, i) {
          CurrentStaysHonest(p, i, out);
        } else {
          StaleKeepsRest(p, i, out);
          SettlesStaleSafely(p, GoOn(p, i, out), i);
        }
      case Fires(id) => FireStaysHonest(p, id);
      case Lost(t) => LostStaysHonest(p, t);
    }
  }

  lemma ConnectTries(p: Provider, attempt: nat)
    ensures Driven(Connect(p, attempt))
  {
    hide ClearTimer, DropTransport, Launch, Driven;
    LaunchDrives(DropTransport(ClearTimer(p.(epoch := p.epoch + 1))).(should := true, health := Connecting(attempt)), ToConnect(attempt));
  }

  lemma LaunchDrives(p: Provider, purpose: Purpose)
    requires p.should
    ensures Driven(Launch(p, purpose))
  {
    assert IsTrying(Launch(p, purpose), p.next);
  }

  lemma PairTries(p: Provider)
    ensures Driven(Pair(p))
  {
    hide ClearTimer, Launch, Driven;
    LaunchDrives(ClearTimer(p.(epoch := p.epoch + 1)).(should := true), ToPair);
  }

  lemma FireStaysHonest(p: Provider, id: nat)
    requires Inv(p) && Honest(p) && id in p.pending
    ensures Honest(TimerFires(p, id))
  {
    ConnectTries(p.(pending := p.pending - {id}, timer := None), p.pending[id].attempt);
    hide Connect;
  }

  lemma LostStaysHonest(p: Provider, t: nat)
    requires Inv(p) && Honest(p) && t in p.handlers
    ensures Honest(Drops(p, t))
  {
    var q := Drops(p, t);
    if p.handlers[t] == p.epoch && p.should {
      assert q.timer.Some? && q.timer.value in q.pending;
    } else if Trying(p) {
      var i :| IsTrying(p, i);
      assert IsTrying(q, i);
    }
  }

  /** No pairing fails while a connection is up, coming up or being retried. */
  predicate NoDeafPairing(steps: seq<Step>) {
    steps == []
    || (NoDeafPairing(steps[..|steps| - 1])
        && var p, step := After(steps[..|steps| - 1]), steps[|steps| - 1];
           Enabled(p, step) && PairingFails(p, step) ==> !Hopeful(p))
  }

  /** Without such a pairing, whatever is shown as up, coming up or retrying is being driven, in every reachable
    * state: the app never sits on a dead connection. */
  lemma {:induction false} ReachableHonest(steps: seq<Step>)
    requires NoDeafPairing(steps)
    ensures Honest(After(steps))
  {
    hide Take, Enabled, Connect, Honest, Hopeful, PairingFails;
    if steps == [] {
      ConnectTries(Start(), 0);
      DrivenIsHonest(Connect(Start(), 0));
    } else {
      var before, step := After(steps[..|steps| - 1]), steps[|steps| - 1];
      ReachableHonest(steps[..|steps| - 1]);
      ReachableInv(steps[..|steps| - 1]);
      if Enabled(before, step) { StepStaysHonestIff(before, step); }
    }
  }

  lemma DrivenIsHonest(p: Provider)
    requires Driven(p)
    ensures Honest(p)
  {
  }

  // ---- Unpairing is final ----

  /** What happens on its own, without the user: attempts going on, timers firing, transports dropping. */
  predicate Unprompted(step: Step) {
    step.GoesOn? || step.Fires? || step.Lost?
  }

  function Run(p: Provider, steps: seq<Step>): Provider
    decreases |steps|
  {
    if steps == [] then p else Run(if Enabled(p, steps[0]) then Take(p, steps[0]) else p, steps[1..])
  }

  /** Nothing drives the connection and nothing is connected. */
  ghost predicate Disposed(p: Provider) {
    p.transport.None? && p.facade.None? && p.pending == map[] && p.handlers == map[] && forall i :: i in p.tries ==> !Current(p, i)
  }

  lemma DisposedStays(p: Provider, step: Step)
    requires Inv(p) && Disposed(p) && Unprompted(step) && Enabled(p, step)
    ensures SameConnection(p, Take(p, step)) && Disposed(Take(p, step))
  {
    hide Inv, GoOn, Attach, DropTransport, SetTimer, ClearTimer, Connect;
    match step {
      case GoesOn(i, out) =>
        StaleGoesOn(p, i, out);
        StaleKeepsRest(p, i, out);
      case _ =>
    }
  }

  lemma {:induction false} DisposedRun(p: Provider, steps: seq<Step>)
    requires Inv(p) && Disposed(p) && forall k :: 0 <= k < |steps| ==> Unprompted(steps[k])
    ensures SameConnection(p, Run(p, steps)) && Disposed(Run(p, steps))
    decreases |steps|
  {
    hide Inv, Take, Enabled, Disposed, Unprompted;
    if steps != [] {
      assert Unprompted(steps[0]);
      var q := if Enabled(p, steps[0]) then Take(p, steps[0]) else p;
      if Enabled(p, steps[0]) {
        DisposedStays(p, steps[0]);
        StepKeepsInv(p, steps[0]);
      }
      assert forall k :: 0 <= k < |steps[1..]| ==> steps[1..][k] == steps[k + 1];
      DisposedRun(q, steps[1..]);
    }
  }

  /** After unpairing, or leaving, no late close, timer or attempt brings a connection back or changes what is shown. */
  lemma UnpairIsFinal(p: Provider, steps: seq<Step>)
    requires Inv(p) && forall k :: 0 <= k < |steps| ==> Unprompted(steps[k])
    ensures SameConnection(Unpair(p), Run(Unpair(p), steps)) && Disposed(Run(Unpair(p), steps)) && Unpair(p).health == Unpaired
    ensures SameConnection(Unmount(p), Run(Unmount(p), steps)) && Disposed(Run(Unmount(p), steps))
  {
    TeardownKeepsInv(p);
    TeardownDisposes(p);
    hide Inv, Run, Disposed, DropTransport, ClearTimer;
    DisposedRun(Unpair(p), steps);
    DisposedRun(Unmount(p), steps);
  }

  lemma TeardownDisposes(p: Provider)
    requires Inv(p)
    ensures Disposed(Unpair(p)) && Disposed(Unmount(p))
  {
    BumpKeepsInv(p, false);
    ClearOnce(p);
    DropKeepsInv(Bumped(p, false));
    hide Inv, ClearTimer, Bumped;
  }

  // ---- A run that ends deaf ----

  /** Connected at mount, then a pairing whose identity cannot be loaded. */
  function DeafRun(): seq<Step> {
    [] + [GoesOn(0, Loaded(true))] + [GoesOn(0, Dialed(5))] + [BeginPair] + [GoesOn(6, LoadThrew)]
  }

  lemma AfterMore(steps: seq<Step>, step: Step)
    ensures After(steps + [step]) == if Enabled(After(steps), step) then Take(After(steps), step) else After(steps)
  {
    assert (steps + [step])[..|steps|] == steps;
  }

  lemma ConnectedAtMount()
    ensures var p := After([] + [GoesOn(0, Loaded(true))] + [GoesOn(0, Dialed(5))]);
            && p.health == Ready && p.mounted && p.should && p.epoch == 1 && p.transport == Some(5) && p.facade == Some(5)
            && p.handlers == map[5 := 1] && p.pending == map[] && p.timer == None && p.tries == map[] && p.next == 6
  {
    AfterMore([], GoesOn(0, Loaded(true)));
    AfterMore([] + [GoesOn(0, Loaded(true))], GoesOn(0, Dialed(5)));
  }

  /**
   The app shows a connection as up, yet nothing drives it; when that transport then drops, its outdated handler
   changes nothing, and the app goes on showing it as up.
   */
  lemma FailedPairingDeafens()
    ensures var p := After(DeafRun());
            && Hopeful(p) && p.health == Ready && p.transport == Some(5) && !Honest(p)
            && var q := After(DeafRun() + [Lost(5)]);
            && q.health == Ready && q.transport == Some(5) && q.pending == map[] && q.handlers == map[] && !Honest(q)
  {
    hide After;
    var up := [] + [GoesOn(0, Loaded(true))] + [GoesOn(0, Dialed(5))];
    ConnectedAtMount();
    AfterMore(up, BeginPair);
    AfterMore(up + [BeginPair], GoesOn(6, LoadThrew));
    var p := After(DeafRun());
    assert p.tries == map[] && p.epoch == 2 && p.handlers == map[5 := 1];
    AfterMore(DeafRun(), Lost(5));
  }
}
