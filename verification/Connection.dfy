/** The app's single live connection: connect, pair and unpair attempts fenced by an epoch, one reconnect timer. */
module Connection {
  import opened Options

  datatype Health = Connecting(attempt: nat) | Ready | Offline(attempt: nat) | Unpaired | InError

  datatype Purpose = ToConnect(attempt: nat) | ToPair

  datatype Stage = Loading | Dialing | Checking(transport: nat)

  /** Asynchronous work under way, with the epoch it captured when it started. */
  datatype Try = Try(epoch: nat, purpose: Purpose, stage: Stage)

  /** A pending reconnect: the epoch it captured and the attempt it would start. */
  datatype Retry = Retry(epoch: nat, attempt: nat)

  /** `open` are the established transports not closed by us; `handlers` the epochs their close handlers captured;
    * `pending` the timers that will fire, `timer` the one the provider remembers. */
  datatype Provider = Provider(
    epoch: nat,
    should: bool,
    mounted: bool,
    health: Health,
    transport: Option<nat>,
    facade: Option<nat>,
    timer: Option<nat>,
    pending: map<nat, Retry>,
    tries: map<nat, Try>,
    open: set<nat>,
    handlers: map<nat, nat>,
    next: nat)

  function Start(): Provider {
    Provider(0, true, true, Connecting(0), None, None, None, map[], map[], {}, map[], 0)
  }

  function ClearTimer(p: Provider): Provider {
    if p.timer.Some? then p.(pending := p.pending - {p.timer.value}, timer := None) else p
  }

  function SetTimer(p: Provider, retry: Retry): Provider {
    p.(pending := p.pending[p.next := retry], timer := Some(p.next), next := p.next + 1)
  }

  /** Detach from the facade, then close. */
  function DropTransport(p: Provider): Provider {
    if p.transport.Some? then
      p.(transport := None, facade := None, open := p.open - {p.transport.value}, handlers := p.handlers - {p.transport.value})
    else p
  }

  function CloseUnused(p: Provider, t: nat): Provider {
    p.(open := p.open - {t}, handlers := p.handlers - {t})
  }

  function Attach(p: Provider, t: nat, epoch: nat): Provider {
    p.(handlers := p.handlers[t := epoch], transport := Some(t), facade := Some(t), health := Ready)
  }

  function Launch(p: Provider, purpose: Purpose): Provider {
    p.(tries := p.tries[p.next := Try(p.epoch, purpose, Loading)], next := p.next + 1)
  }

  function Connect(p: Provider, attempt: nat): Provider {
    Launch(DropTransport(ClearTimer(p.(epoch := p.epoch + 1))).(should := true, health := Connecting(attempt)), ToConnect(attempt))
  }

  function Pair(p: Provider): Provider {
    Launch(ClearTimer(p.(epoch := p.epoch + 1)).(should := true), ToPair)
  }

  function Unpair(p: Provider): Provider {
    DropTransport(ClearTimer(p.(epoch := p.epoch + 1, should := false))).(health := Unpaired)
  }

  function Unmount(p: Provider): Provider {
    DropTransport(ClearTimer(p.(epoch := p.epoch + 1, should := false))).(mounted := false)
  }

  function Done(p: Provider, i: nat): Provider {
    p.(tries := p.tries - {i})
  }

  function ToStage(p: Provider, i: nat, stage: Stage): Provider
    requires i in p.tries
  {
    p.(tries := p.tries[i := p.tries[i].(stage := stage)])
  }

  predicate Current(p: Provider, i: nat)
    requires i in p.tries
  {
    p.tries[i].epoch == p.epoch
  }

  /** What a stage's call came back with. */
  datatype Outcome = Loaded(paired: bool) | LoadThrew | Dialed(transport: nat) | DialFailed | Incompatible | Recorded | RecordMissing

  predicate Fits(t: Try, out: Outcome) {
    match t.stage
    case Loading => out.Loaded? || out.LoadThrew?
    case Dialing => out.Dialed? || out.DialFailed? || out.Incompatible?
    case Checking(_) => out.Recorded? || out.RecordMissing?
  }

  /** A connect attempt goes on. */
  function ConnectGoesOn(p: Provider, i: nat, out: Outcome): Provider
    requires i in p.tries && p.tries[i].purpose.ToConnect? && Fits(p.tries[i], out)
  {
    var attempt, q := p.tries[i].purpose.attempt, Done(p, i);
    match out
    case Loaded(paired) =>
      if paired then ToStage(p, i, Dialing) else if Current(p, i) then q.(health := Unpaired) else q
    case LoadThrew => if Current(p, i) then q.(health := InError) else q
    case Dialed(t) =>
      if Current(p, i) then Attach(q.(open := q.open + {t}), t, p.epoch) else CloseUnused(q.(open := q.open + {t}), t)
    case DialFailed =>
      if Current(p, i) && p.should then SetTimer(q.(health := Offline(attempt)), Retry(p.epoch, attempt + 1)) else q
    case Incompatible => if Current(p, i) && p.should then q.(should := false, health := InError) else q
    case _ => q
  }

  /** A pairing attempt goes on. */
  function PairGoesOn(p: Provider, i: nat, out: Outcome): Provider
    requires i in p.tries && p.tries[i].purpose.ToPair? && Fits(p.tries[i], out)
  {
    var q := Done(p, i);
    match out
    case Loaded(_) => ToStage(p, i, Dialing)
    case Dialed(t) =>
      if Current(p, i) then ToStage(p.(open := p.open + {t}), i, Checking(t)) else CloseUnused(q.(open := q.open + {t}), t)
    case Recorded =>
      var t := p.tries[i].stage.transport;
      if Current(p, i) then Attach(DropTransport(q), t, p.epoch) else CloseUnused(q, t)
    case RecordMissing => CloseUnused(q, p.tries[i].stage.transport)
    case _ => q
  }

  function TimerFires(p: Provider, id: nat): Provider
    requires id in p.pending
  {
    var r, q := p.pending[id], p.(pending := p.pending - {id}, timer := None);
    if r.epoch != p.epoch || !p.should then q else Connect(q, r.attempt)
  }

  /** A transport drops on its own; its handler fires once. */
  function Drops(p: Provider, t: nat): Provider
    requires t in p.handlers
  {
    var e, q := p.handlers[t], p.(handlers := p.handlers - {t});
    if e != p.epoch || !p.should then q
    else SetTimer(ClearTimer(q).(health := Offline(0)), Retry(e, 1))
  }

  datatype Step =
    | Reset
    | BeginPair
    | Forget
    | Leave
    | GoesOn(attempt: nat, out: Outcome)
    | Fires(id: nat)
    | Lost(transport: nat)

  /** What can happen next; a freshly dialled transport is a new one. */
  predicate Enabled(p: Provider, step: Step) {
    match step
    case GoesOn(i, out) => i in p.tries && Fits(p.tries[i], out) && (out.Dialed? ==> out.transport >= p.next)
    case Fires(id) => id in p.pending
    case Lost(t) => t in p.handlers
    case Leave => p.mounted
    case _ => p.mounted
  }

  function GoOn(p: Provider, i: nat, out: Outcome): Provider
    requires i in p.tries && Fits(p.tries[i], out)
  {
    var q := if p.tries[i].purpose.ToPair? then PairGoesOn(p, i, out) else ConnectGoesOn(p, i, out);
    if out.Dialed? && out.transport >= q.next then q.(next := out.transport + 1) else q
  }

  function Take(p: Provider, step: Step): Provider
    requires Enabled(p, step)
  {
    match step
    case Reset => Connect(p, 0)
    case BeginPair => Pair(p)
    case Forget => Unpair(p)
    case Leave => Unmount(p)
    case GoesOn(i, out) => GoOn(p, i, out)
    case Fires(id) => TimerFires(p, id)
    case Lost(t) => Drops(p, t)
  }

  // ---- Fencing ----

  /** What the user and the rest of the app can see or depend on. */
  predicate SameConnection(p: Provider, q: Provider) {
    && p.health == q.health && p.transport == q.transport && p.facade == q.facade && p.epoch == q.epoch
    && p.should == q.should && p.timer == q.timer && p.pending == q.pending
  }

  /** A superseded attempt changes nothing, whatever it comes back with; a transport it brings is closed. */
  lemma SupersededTryIsInert(p: Provider, i: nat, out: Outcome)
    requires Enabled(p, GoesOn(i, out)) && !Current(p, i)
    ensures SameConnection(p, Take(p, GoesOn(i, out)))
    ensures Take(p, GoesOn(i, out)).open <= p.open
  {
    hide PairGoesOn, ConnectGoesOn, Inert;
    if p.tries[i].purpose.ToPair? { StalePair(p, i, out); } else { StaleConnect(p, i, out); }
    InertIs(p, i, if p.tries[i].purpose.ToPair? then PairGoesOn(p, i, out) else ConnectGoesOn(p, i, out));
  }

  /** Only the attempt itself, and a transport it brought or held, can differ. */
  predicate Inert(p: Provider, i: nat, q: Provider) {
    && SameConnection(p, q) && q.open <= p.open && q.mounted == p.mounted
    && (forall j :: j in p.tries && j != i ==> j in q.tries && q.tries[j] == p.tries[j])
    && (forall j :: j in q.tries ==> j in p.tries && q.tries[j].epoch == p.tries[j].epoch)
  }

  lemma InertIs(p: Provider, i: nat, q: Provider)
    requires Inert(p, i, q)
    ensures SameConnection(p, q) && q.open <= p.open
  {
  }

  lemma StaleConnect(p: Provider, i: nat, out: Outcome)
    requires i in p.tries && p.tries[i].purpose.ToConnect? && Fits(p.tries[i], out) && !Current(p, i)
    ensures Inert(p, i, ConnectGoesOn(p, i, out))
    ensures ConnectGoesOn(p, i, out).handlers == if out.Dialed? then p.handlers - {out.transport} else p.handlers
  {
    hide Attach, DropTransport, SetTimer, ClearTimer;
  }

  lemma StalePair(p: Provider, i: nat, out: Outcome)
    requires i in p.tries && p.tries[i].purpose.ToPair? && Fits(p.tries[i], out) && !Current(p, i)
    ensures Inert(p, i, PairGoesOn(p, i, out))
    ensures PairGoesOn(p, i, out).handlers ==
            if out.Dialed? then p.handlers - {out.transport}
            else if p.tries[i].stage.Checking? then p.handlers - {p.tries[i].stage.transport} else p.handlers
  {
    hide Attach, DropTransport, SetTimer, ClearTimer;
  }

  /** A superseded attempt is inert, and no close handler is lost but that of a transport it closes. */
  lemma StaleGoesOn(p: Provider, i: nat, out: Outcome)
    requires Enabled(p, GoesOn(i, out)) && !Current(p, i)
    ensures Inert(p, i, GoOn(p, i, out))
    ensures GoOn(p, i, out).handlers ==
            if out.Dialed? then p.handlers - {out.transport}
            else if p.tries[i].stage.Checking? && p.tries[i].purpose.ToPair? then p.handlers - {p.tries[i].stage.transport} else p.handlers
  {
    hide PairGoesOn, ConnectGoesOn;
    if p.tries[i].purpose.ToPair? { StalePair(p, i, out); } else { StaleConnect(p, i, out); }
  }

  /** The close handler of a transport from an earlier epoch changes nothing. */
  lemma SupersededCloseIsInert(p: Provider, t: nat)
    requires t in p.handlers && p.handlers[t] != p.epoch
    ensures SameConnection(p, Take(p, Lost(t))) && Take(p, Lost(t)).open == p.open
  {
  }
}
