/** Length-prefixed frames on an ordered byte stream: a big-endian 32-bit length, then the payload. */
module WireFrame {
  import opened Octets

  const HEADER := 4
  const CAP := 64 * 1024 * 1024

  datatype Result<+T> = Ok(value: T) | Err(error: Error)
  datatype Error = TooLong | HeaderTruncated | ZeroLength

  // ---- The 32-bit length ----

  /** The most significant byte first. */
  function Header(n: nat): (h: seq<Octet>)
    requires n <= CAP
    ensures |h| == HEADER
  {
    [n / 0x1000000, n / 0x10000 % 0x100, n / 0x100 % 0x100, n % 0x100]
  }

  function HeaderValue(h: seq<Octet>): nat
    requires |h| >= HEADER
  {
    ((0x100 * h[0] as nat + h[1]) * 0x100 + h[2]) * 0x100 + h[3]
  }

  lemma Digits(n: nat)
    requires n <= CAP
    ensures n / 0x1000000 < 256
    ensures ((n / 0x1000000 * 0x100 + n / 0x10000 % 0x100) * 0x100 + n / 0x100 % 0x100) * 0x100 + n % 0x100 == n
  {
  }

  lemma HeaderRoundTrip(n: nat)
    requires n <= CAP
    ensures HeaderValue(Header(n)) == n
  {
    Digits(n);
  }

  /** The number that four octets spell, the most significant first. */
  function BigEndian(a: nat, b: nat, c: nat, d: nat): nat {
    a * 16777216 + b * 65536 + c * 256 + d
  }

  /** The header of a length spells it in four octets, and any four octets are read as what they spell. */
  lemma HeaderIsBigEndian(n: nat, h: seq<Octet>)
    requires n <= CAP && |h| >= 4
    ensures |Header(n)| == 4 && BigEndian(Header(n)[0], Header(n)[1], Header(n)[2], Header(n)[3]) == n
    ensures HeaderValue(h) == BigEndian(h[0], h[1], h[2], h[3])
  {
    Digits(n);
  }

  function EncodeFrame(payload: seq<Octet>): Result<seq<Octet>> {
    if |payload| > CAP then Err(TooLong) else Ok(Header(|payload|) + payload)
  }

  function DecodeLength(header: seq<Octet>): Result<nat> {
    if |header| < HEADER then Err(HeaderTruncated)
    else if HeaderValue(header) == 0 then Err(ZeroLength)
    else if HeaderValue(header) > CAP then Err(TooLong)
    else Ok(HeaderValue(header))
  }

  /** A frame the encoder writes is one the decoder takes, except that the empty payload's is refused. */
  lemma FrameAcceptedIff(payload: seq<Octet>)
    ensures EncodeFrame(payload).Ok? <==> |payload| <= 67_108_864
    ensures EncodeFrame(payload).Ok? ==> |EncodeFrame(payload).value| == 4 + |payload| && EncodeFrame(payload).value[4..] == payload
    ensures EncodeFrame(payload).Ok? ==>
              DecodeLength(EncodeFrame(payload).value[..HEADER]) == if payload == [] then Err(ZeroLength) else Ok(|payload|)
  {
    hide HeaderValue, Header;
    if |payload| <= CAP {
      HeaderRoundTrip(|payload|);
      assert (Header(|payload|) + payload)[..HEADER] == Header(|payload|);
    }
  }

  // ---- The stream ----

  /** Payloads the encoder takes and the decoder gives back. */
  predicate Sendable(payload: seq<Octet>) {
    0 < |payload| <= CAP
  }

  predicate AllSendable(ps: seq<seq<Octet>>) {
    forall k :: 0 <= k < |ps| ==> Sendable(ps[k])
  }

  function Frame(payload: seq<Octet>): (f: seq<Octet>)
    requires |payload| <= CAP
    ensures |f| == HEADER + |payload|
  {
    Header(|payload|) + payload
  }

  /** How a read loop over what has arrived so far ends: waiting for more, or refusing a length. */
  datatype End = Waiting | Refused(error: Error)

  datatype Read = Read(payloads: seq<seq<Octet>>, end: End)

  function Parse(stream: seq<Octet>): Read
    decreases |stream|
  {
    if |stream| < HEADER then Read([], Waiting)
    else
      var length := DecodeLength(stream[..HEADER]);
      if length.Err? then Read([], Refused(length.error))
      else if |stream| - HEADER < length.value then Read([], Waiting)
      else
        var rest := Parse(stream[HEADER + length.value..]);
        Read([stream[HEADER..HEADER + length.value]] + rest.payloads, rest.end)
  }

  function Frames(ps: seq<seq<Octet>>): seq<Octet>
    requires AllSendable(ps)
  {
    if ps == [] then [] else Frame(ps[0]) + Frames(ps[1..])
  }

  /** One turn of the read loop at `pos`. */
  lemma ParseAt(stream: seq<Octet>, pos: nat)
    requires pos <= |stream|
    ensures var here := Parse(stream[pos..]);
            if |stream| - pos < HEADER then here == Read([], Waiting)
            else
              var length := DecodeLength(stream[pos..pos + HEADER]);
              if length.Err? then here == Read([], Refused(length.error))
              else if |stream| - pos - HEADER < length.value then here == Read([], Waiting)
              else
                var next := pos + HEADER + length.value;
                here == Read([stream[pos + HEADER..next]] + Parse(stream[next..]).payloads, Parse(stream[next..]).end)
  {
    hide DecodeLength;
    var here := stream[pos..];
    if |here| >= HEADER {
      assert here[..HEADER] == stream[pos..pos + HEADER];
      var length := DecodeLength(here[..HEADER]);
      if length.Ok? && |here| - HEADER >= length.value {
        assert here[HEADER..HEADER + length.value] == stream[pos + HEADER..pos + HEADER + length.value];
        assert here[HEADER + length.value..] == stream[pos + HEADER + length.value..];
      }
    }
  }

  /** The loop that reads header, length and body until the stream runs out or a length is refused. */
  method ReadLoop(stream: seq<Octet>) returns (payloads: seq<seq<Octet>>, end: End)
    ensures Read(payloads, end) == Parse(stream)
  {
    hide DecodeLength, Parse;
    payloads, end := [], Waiting;
    assert stream[0..] == stream;
    var pos := 0;
    while true
      invariant pos <= |stream|
      invariant payloads + Parse(stream[pos..]).payloads == Parse(stream).payloads
      invariant Parse(stream[pos..]).end == Parse(stream).end
      decreases |stream| - pos
    {
      ParseAt(stream, pos);
      if |stream| - pos < HEADER { return; }
      var header := stream[pos..pos + HEADER];
      var length := DecodeLength(header);
      if length.Err? {
        end := Refused(length.error);
        return;
      }
      if |stream| - pos - HEADER < length.value { return; }
      LengthPositive(header);
      var next := pos + HEADER + length.value;
      payloads := payloads + [stream[pos + HEADER..next]];
      pos := next;
    }
  }

  lemma LengthPositive(header: seq<Octet>)
    requires DecodeLength(header).Ok?
    ensures 0 < DecodeLength(header).value <= CAP
  {
  }

  lemma ParseFrame(payload: seq<Octet>, rest: seq<Octet>)
    requires Sendable(payload)
    ensures Parse(Frame(payload) + rest) == Read([payload] + Parse(rest).payloads, Parse(rest).end)
  {
    hide Header, HeaderValue;
    FrameAcceptedIff(payload);
    var s := Frame(payload) + rest;
    assert s[..HEADER] == Frame(payload)[..HEADER] == EncodeFrame(payload).value[..HEADER];
    assert s[HEADER..HEADER + |payload|] == payload && s[HEADER + |payload|..] == rest;
  }

  lemma {:induction false} ParseFrames(ps: seq<seq<Octet>>, rest: seq<Octet>)
    requires AllSendable(ps)
    ensures Parse(Frames(ps) + rest) == Read(ps + Parse(rest).payloads, Parse(rest).end)
    decreases |ps|
  {
    hide Frame, Parse;
    if ps == [] {
      assert Frames(ps) + rest == rest && ps + Parse(rest).payloads == Parse(rest).payloads;
    } else {
      ParseFrames(ps[1..], rest);
      ParseFrame(ps[0], Frames(ps[1..]) + rest);
      FramesCons(ps, rest);
      ListCons(ps, Parse(rest).payloads);
    }
  }

  lemma FramesCons(ps: seq<seq<Octet>>, rest: seq<Octet>)
    requires AllSendable(ps) && ps != []
    ensures Frames(ps) + rest == Frame(ps[0]) + (Frames(ps[1..]) + rest)
  {
    hide Frame;
  }

  lemma ListCons<T>(xs: seq<T>, ys: seq<T>)
    requires xs != []
    ensures xs + ys == [xs[0]] + (xs[1..] + ys)
  {
  }

  /** Of any stream, more bytes only ever add payloads, and a refusal is final. */
  lemma {:induction false} ParseMonotone(s: seq<Octet>, more: seq<Octet>)
    ensures Parse(s).payloads <= Parse(s + more).payloads
    ensures Parse(s).end.Refused? ==> Parse(s + more) == Parse(s)
    decreases |s|
  {
    hide DecodeLength;
    if |s| >= HEADER {
      assert (s + more)[..HEADER] == s[..HEADER];
      var length := DecodeLength(s[..HEADER]);
      if length.Ok? && |s| - HEADER >= length.value {
        var n := HEADER + length.value;
        assert (s + more)[n..] == s[n..] + more && (s + more)[HEADER..n] == s[HEADER..n];
        ParseMonotone(s[n..], more);
      }
    }
  }

  /** How many whole frames of `ps` lie in the first `n` bytes of their stream. */
  function Whole(ps: seq<seq<Octet>>, n: nat): (k: nat)
    requires AllSendable(ps)
    ensures k <= |ps|
  {
    if ps == [] || n < HEADER + |ps[0]| then 0 else 1 + Whole(ps[1..], n - HEADER - |ps[0]|)
  }

  /** A stream cut anywhere gives exactly the payloads whose frames arrived whole, and no refusal. */
  lemma {:induction false} CutStream(ps: seq<seq<Octet>>, n: nat)
    requires AllSendable(ps) && n <= |Frames(ps)|
    ensures Parse(Frames(ps)[..n]) == Read(ps[..Whole(ps, n)], Waiting)
    decreases |ps|
  {
    hide Parse, Frame;
    if ps == [] {
      EmptyParse(Frames(ps)[..n]);
    } else {
      var f, m := Frame(ps[0]), HEADER + |ps[0]|;
      if n < m {
        assert Frames(ps)[..n] == f[..n];
        CutFrame(ps[0], n);
      } else {
        CutStream(ps[1..], n - m);
        var cut := Frames(ps[1..])[..n - m];
        assert Frames(ps)[..n] == f + cut;
        ParseFrame(ps[0], cut);
        assert ps[..Whole(ps, n)] == [ps[0]] + ps[1..][..Whole(ps[1..], n - m)];
      }
    }
  }

  lemma EmptyParse(s: seq<Octet>)
    requires |s| < HEADER
    ensures Parse(s) == Read([], Waiting)
  {
  }

  lemma CutFrame(payload: seq<Octet>, n: nat)
    requires Sendable(payload) && n < HEADER + |payload|
    ensures Parse(Frame(payload)[..n]) == Read([], Waiting)
  {
    hide Header, HeaderValue;
    FrameAcceptedIff(payload);
    if n >= HEADER {
      assert Frame(payload)[..n][..HEADER] == EncodeFrame(payload).value[..HEADER];
    }
  }

  /** An empty payload's frame stops the reader: everything before it is kept, everything after it is lost. */
  lemma EmptyPayloadStops(ps: seq<seq<Octet>>, rest: seq<Octet>)
    requires AllSendable(ps)
    ensures Parse(Frames(ps) + (Frame([]) + rest)) == Read(ps, Refused(ZeroLength))
  {
    hide Header, HeaderValue;
    ParseFrames(ps, Frame([]) + rest);
    FrameAcceptedIff([]);
    assert (Frame([]) + rest)[..HEADER] == EncodeFrame([]).value[..HEADER];
  }
}
