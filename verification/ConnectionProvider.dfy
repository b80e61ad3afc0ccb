/** The provider itself: methods over its refs, its attempts and its timer. */
module ConnectionProvider {
  import opened Options
  import C = Connection

  class ConnectionProvider {
    var epoch: nat
    var should: bool
    var mounted: bool
    var health: C.Health
    var transport: Option<nat>
    var facade: Option<nat>
    var timer: Option<nat>
    var pending: map<nat, C.Retry>
    var tries: map<nat, C.Try>
    var open: set<nat>
    var handlers: map<nat, nat>
    var next: nat

    ghost function State(): C.Provider
      reads this
    {
      C.Provider(epoch, should, mounted, health, transport, facade, timer, pending, tries, open, handlers, next)
    }

    constructor ()
      ensures State() == C.Start()
    {
      epoch, should, mounted, health, next := 0, true, true, C.Connecting(0), 0;
      transport, facade, timer := None, None, None;
      pending, tries, open, handlers := map[], map[], {}, map[];
    }

    method ClearReconnectTimer()
      modifies this
      ensures State() == C.ClearTimer(old(State()))
    {
      if timer.Some? {
        pending := pending - {timer.value};
        timer := None;
      }
    }

    method Schedule(retry: C.Retry)
      modifies this
      ensures State() == C.SetTimer(old(State()), retry)
    {
      pending := pending[next := retry];
      timer := Some(next);
      next := next + 1;
    }

    method DetachAndClose()
      modifies this
      ensures State() == C.DropTransport(old(State()))
    {
      var prev := transport;
      transport := None;
      if prev.Some? {
        facade := None;
        open := open - {prev.value};
        handlers := handlers - {prev.value};
      }
    }

    method Launch(purpose: C.Purpose)
      modifies this
      ensures State() == C.Launch(old(State()), purpose)
    {
      tries := tries[next := C.Try(epoch, purpose, C.Loading)];
      next := next + 1;
    }

    method Connect(attempt: nat)
      modifies this
      ensures State() == C.Connect(old(State()), attempt)
    {
      hide C.ClearTimer, C.DropTransport, C.Launch;
      epoch := epoch + 1;
      ClearReconnectTimer();
      DetachAndClose();
      should := true;
      health := C.Connecting(attempt);
      Launch(C.ToConnect(attempt));
    }

    method Pair()
      modifies this
      ensures State() == C.Pair(old(State()))
    {
      hide C.ClearTimer, C.DropTransport, C.Launch;
      epoch := epoch + 1;
      ClearReconnectTimer();
      should := true;
      Launch(C.ToPair);
    }

    method Unpair()
      modifies this
      ensures State() == C.Unpair(old(State()))
    {
      hide C.ClearTimer, C.DropTransport, C.Launch;
      epoch := epoch + 1;
      should := false;
      ClearReconnectTimer();
      DetachAndClose();
      health := C.Unpaired;
    }

    method OnTimer(id: nat)
      requires id in pending
      modifies this
      ensures State() == C.TimerFires(old(State()), id)
    {
      var retry := pending[id];
      pending := pending - {id};
      timer := None;
      if retry.epoch != epoch { return; }
      if !should { return; }
      Connect(retry.attempt);
    }

    method OnUnexpectedClose(t: nat)
      requires t in handlers
      modifies this
      ensures State() == C.Drops(old(State()), t)
    {
      var captured := handlers[t];
      handlers := handlers - {t};
      if captured != epoch { return; }
      if !should { return; }
      ClearReconnectTimer();
      health := C.Offline(0);
      Schedule(C.Retry(captured, 1));
    }

    method AttachTransport(t: nat, captured: nat)
      modifies this
      ensures State() == C.Attach(old(State()), t, captured)
    {
      handlers := handlers[t := captured];
      transport, facade := Some(t), Some(t);
      health := C.Ready;
    }

    /** A connect attempt's dial comes back. */
    method OnDialed(i: nat, out: C.Outcome)
      requires i in tries && tries[i].purpose.ToConnect? && tries[i].stage.Dialing? && C.Fits(tries[i], out)
      modifies this
      ensures State() == C.ConnectGoesOn(old(State()), i, out)
    {
      var captured, attempt := tries[i].epoch, tries[i].purpose.attempt;
      tries := tries - {i};
      match out {
        case Dialed(t) =>
          open := open + {t};
          if captured != epoch {
            open, handlers := open - {t}, handlers - {t};
            return;
          }
          AttachTransport(t, captured);
        case DialFailed =>
          if captured != epoch { return; }
          if !should { return; }
          health := C.Offline(attempt);
          Schedule(C.Retry(captured, attempt + 1));
        case Incompatible =>
          if captured != epoch { return; }
          if !should { return; }
          should := false;
          health := C.InError;
      }
    }

    /** A pairing attempt has read its record back. */
    method OnRecord(i: nat, found: bool)
      requires i in tries && tries[i].purpose.ToPair? && tries[i].stage.Checking?
      modifies this
      ensures State() == C.PairGoesOn(old(State()), i, if found then C.Recorded else C.RecordMissing)
    {
      var captured, t := tries[i].epoch, tries[i].stage.transport;
      tries := tries - {i};
      if !found || captured != epoch {
        open, handlers := open - {t}, handlers - {t};
        return;
      }
      DetachAndClose();
      AttachTransport(t, captured);
    }
  }
}
