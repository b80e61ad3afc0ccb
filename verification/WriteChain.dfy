/** The sending side of a peer: overlapping sends chained so that one frame is written after another. */
module WriteChain {
  import opened Octets
  import opened WireFrame
  import Utf8

  /** Frames still to be written, oldest first; `written` bytes of the first are on the wire. */
  datatype Writer = Writer(pending: seq<seq<Octet>>, written: nat, wire: seq<Octet>, broken: bool)

  datatype Step =
    | Send(payload: seq<Octet>)
    | Put(count: nat)
    | Settle
    | Fail

  function Idle(): Writer { Writer([], 0, [], false) }

  predicate Enabled(w: Writer, s: Step) {
    match s
    case Send(payload) => payload != []
    case Put(count) => !w.broken && w.pending != [] && w.written + count <= |w.pending[0]|
    case Settle => !w.broken && w.pending != [] && w.written == |w.pending[0]|
    case Fail => w.pending != []
  }

  function Take(w: Writer, s: Step): Writer
    requires Enabled(w, s)
  {
    match s
    case Send(payload) => if EncodeFrame(payload).Ok? then w.(pending := w.pending + [EncodeFrame(payload).value]) else w
    case Put(count) =>
      w.(wire := w.wire + w.pending[0][w.written..w.written + count], written := w.written + count)
    case Settle => w.(pending := w.pending[1..], written := 0)
    case Fail => w.(broken := true)
  }

  class FrameWriter {
    var pending: seq<seq<Octet>>
    var written: nat
    var wire: seq<Octet>
    var broken: bool

    ghost function State(): Writer
      reads this
    {
      Writer(pending, written, wire, broken)
    }

    constructor ()
      ensures State() == Idle()
    {
      pending, written, wire, broken := [], 0, [], false;
    }

    /** Encode, and chain the write behind those not yet done; a payload over the cap is dropped. */
    method SendFrame(payload: seq<Octet>) returns (accepted: bool)
      requires payload != []
      modifies this
      ensures State() == Take(old(State()), Send(payload)) && accepted == (|payload| <= CAP)
    {
      var frame := EncodeFrame(payload);
      accepted := frame.Ok?;
      if accepted { pending := pending + [frame.value]; }
    }

    /** The stream takes some bytes of the write in flight. */
    method PutBytes(count: nat)
      requires Enabled(State(), Put(count))
      modifies this
      ensures State() == Take(old(State()), Put(count))
    {
      wire := wire + pending[0][written..written + count];
      written := written + count;
    }

    /** The write in flight is done; the next one in the chain starts. */
    method WriteDone()
      requires Enabled(State(), Settle)
      modifies this
      ensures State() == Take(old(State()), Settle)
    {
      pending, written := pending[1..], 0;
    }

    /** The write failed: the stream is broken mid-frame and takes nothing more. */
    method WriteFailed()
      requires Enabled(State(), Fail)
      modifies this
      ensures State() == Take(old(State()), Fail)
    {
      broken := true;
    }
  }

  /** The writer after any interleaving of sends and stream events; events that cannot happen change nothing. */
  function After(steps: seq<Step>): Writer {
    if steps == [] then Idle()
    else
      var before, s := After(steps[..|steps| - 1]), steps[|steps| - 1];
      if Enabled(before, s) then Take(before, s) else before
  }

  /** The payloads handed to `send` and accepted, in call order. */
  function Sent(steps: seq<Step>): (ps: seq<seq<Octet>>)
    ensures AllSendable(ps)
  {
    if steps == [] then []
    else
      var s := steps[|steps| - 1];
      Sent(steps[..|steps| - 1]) + (if s.Send? && Sendable(s.payload) then [s.payload] else [])
  }

  function Joined(parts: seq<seq<Octet>>): seq<Octet> {
    if parts == [] then [] else parts[0] + Joined(parts[1..])
  }

  /** What is still to go out. */
  function Rest(w: Writer): seq<Octet>
    requires w.pending != [] ==> w.written <= |w.pending[0]|
  {
    if w.pending == [] then [] else w.pending[0][w.written..] + Joined(w.pending[1..])
  }

  /** Bytes out and bytes to come are together the frames of everything sent, whole and in order. */
  ghost predicate Ordered(w: Writer, sent: seq<seq<Octet>>)
    requires AllSendable(sent)
  {
    && (w.pending != [] ==> w.written <= |w.pending[0]|) && (w.pending == [] ==> w.written == 0)
    && w.wire + Rest(w) == Frames(sent)
  }

  lemma {:induction false} JoinedSnoc(parts: seq<seq<Octet>>, last: seq<Octet>)
    ensures Joined(parts + [last]) == Joined(parts) + last
  {
    if parts == [] {
      assert ([] + [last])[1..] == [] && Joined([last][1..]) == [];
    } else {
      JoinedSnoc(parts[1..], last);
      assert (parts + [last])[1..] == parts[1..] + [last];
    }
  }

  lemma {:induction false} FramesSnoc(ps: seq<seq<Octet>>, last: seq<Octet>)
    requires AllSendable(ps) && Sendable(last)
    ensures Frames(ps + [last]) == Frames(ps) + Frame(last)
    decreases |ps|
  {
    hide Frame;
    if ps == [] {
      assert ([] + [last])[1..] == [] && Frames([last][1..]) == [];
    } else {
      FramesSnoc(ps[1..], last);
      assert (ps + [last])[1..] == ps[1..] + [last];
    }
  }

  lemma RestSnoc(w: Writer, frame: seq<Octet>)
    requires (w.pending != [] ==> w.written <= |w.pending[0]|) && (w.pending == [] ==> w.written == 0)
    ensures Rest(w.(pending := w.pending + [frame])) == Rest(w) + frame
  {
    if w.pending == [] {
      assert (w.pending + [frame])[1..] == [];
    } else {
      assert (w.pending + [frame])[1..] == w.pending[1..] + [frame];
      JoinedSnoc(w.pending[1..], frame);
    }
  }

  lemma SendKeepsOrder(w: Writer, sent: seq<seq<Octet>>, payload: seq<Octet>)
    requires AllSendable(sent) && Ordered(w, sent) && Sendable(payload)
    ensures Ordered(Take(w, Send(payload)), sent + [payload])
  {
    hide Joined, Header, Rest;
    RestSnoc(w, Frame(payload));
    FramesSnoc(sent, payload);
  }

  lemma SettleKeepsOrder(w: Writer, sent: seq<seq<Octet>>)
    requires AllSendable(sent) && Ordered(w, sent) && Enabled(w, Settle)
    ensures Ordered(Take(w, Settle), sent)
  {
    assert w.pending[0][w.written..] == [];
    var next := Take(w, Settle);
    if next.pending == [] {
      assert Joined(w.pending[1..]) == [];
    } else {
      assert next.pending[0][0..] == next.pending[0];
      assert Rest(next) == Joined(w.pending[1..]);
    }
  }

  lemma PutKeepsOrder(w: Writer, sent: seq<seq<Octet>>, count: nat)
    requires AllSendable(sent) && Ordered(w, sent) && Enabled(w, Put(count))
    ensures Ordered(Take(w, Put(count)), sent)
  {
    hide Joined, Frames;
    var head, next, tail := w.pending[0], Take(w, Put(count)), Joined(w.pending[1..]);
    var out, left := head[w.written..w.written + count], head[w.written + count..];
    assert head[w.written..] == out + left;
    assert Rest(w) == (out + left) + tail && Rest(next) == left + tail;
    Regroup(w.wire, out, left, tail);
  }

  lemma Regroup<T>(a: seq<T>, b: seq<T>, c: seq<T>, d: seq<T>)
    ensures a + ((b + c) + d) == (a + b) + (c + d)
  {
  }

  lemma {:induction false} RunKeepsOrder(steps: seq<Step>)
    ensures Ordered(After(steps), Sent(steps))
  {
    hide Ordered, Rest, Joined, Frame;
    if steps == [] {
      StartsOrdered();
    } else {
      RunKeepsOrder(steps[..|steps| - 1]);
      var before, sent, s := After(steps[..|steps| - 1]), Sent(steps[..|steps| - 1]), steps[|steps| - 1];
      assert sent + [] == sent;
      match s {
        case Send(payload) => if Sendable(payload) { SendKeepsOrder(before, sent, payload); }
        case Put(count) => if Enabled(before, s) { PutKeepsOrder(before, sent, count); }
        case Settle => if Enabled(before, s) { SettleKeepsOrder(before, sent); }
        case Fail => if Enabled(before, s) { FailKeepsOrder(before, sent); }
      }
    }
  }

  lemma StartsOrdered()
    ensures Ordered(Idle(), [])
  {
  }

  lemma FailKeepsOrder(w: Writer, sent: seq<seq<Octet>>)
    requires AllSendable(sent) && Ordered(w, sent) && Enabled(w, Fail)
    ensures Ordered(Take(w, Fail), sent)
  {
  }

  /** However sends overlap and writes are cut up, a reader of the first `n` bytes has exactly the payloads whose
    * frames have arrived whole, in the order they were sent, and refuses nothing. */
  lemma ReaderSeesWholeFrames(steps: seq<Step>, n: nat)
    requires n <= |After(steps).wire|
    ensures Whole(Sent(steps), n) <= |Sent(steps)|
    ensures Parse(After(steps).wire[..n]) == Read(Sent(steps)[..Whole(Sent(steps), n)], Waiting)
  {
    hide Parse, Rest, Frames, Whole, After;
    RunKeepsOrder(steps);
    var w, all := After(steps), Frames(Sent(steps));
    assert w.wire[..n] == all[..n];
    CutStream(Sent(steps), n);
  }

  /** Once the chain has drained, everything sent has been received. */
  lemma DrainedReaderSeesAll(steps: seq<Step>)
    requires After(steps).pending == []
    ensures Parse(After(steps).wire) == Read(Sent(steps), Waiting)
  {
    hide Parse;
    RunKeepsOrder(steps);
    var w := After(steps);
    assert w.wire + [] == w.wire && Rest(w) == [];
    assert Frames(Sent(steps)) + [] == Frames(Sent(steps));
    ParseFrames(Sent(steps), []);
    EmptyParse([]);
    assert Sent(steps) + [] == Sent(steps);
  }

  // ---- Text ----

  /** A text as the payload of one frame. */
  function Payload(text: seq<Utf8.Unit>): seq<Octet> {
    OctetsOf(Utf8.Encode(text, 0))
  }

  function TextOf(payload: seq<Octet>): seq<Utf8.Unit> {
    Utf8.Decode(BytesOf(payload), 0)
  }

  lemma TextSurvives(text: seq<Utf8.Unit>)
    ensures TextOf(Payload(text)) == text
  {
    SameBytes(Utf8.Encode(text, 0));
    Utf8.RoundTrip(text);
  }

  /** The k-th text received is the k-th text sent. */
  lemma TextsArriveInOrder(steps: seq<Step>, texts: seq<seq<Utf8.Unit>>, n: nat, k: nat)
    requires |texts| == |Sent(steps)| && forall i :: 0 <= i < |texts| ==> Sent(steps)[i] == Payload(texts[i])
    requires n <= |After(steps).wire| && k < Whole(Sent(steps), n)
    ensures |Parse(After(steps).wire[..n]).payloads| == Whole(Sent(steps), n)
    ensures TextOf(Parse(After(steps).wire[..n]).payloads[k]) == texts[k]
  {
    hide Parse, After, Payload, TextOf, Whole;
    ReaderSeesWholeFrames(steps, n);
    TextSurvives(texts[k]);
  }
}
