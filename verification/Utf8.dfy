/** The hand-written UTF-8 codec: 16-bit code units to bytes and back. */
module Utf8 {

  type Unit = bv16
  type Byte = bv8
  type Code = bv32

  // ---- Bit arithmetic of one code point ----

  predicate IsHigh(u: Unit) { 0xD800 <= u <= 0xDBFF }

  predicate IsLow(u: Unit) { 0xDC00 <= u <= 0xDFFF }

  /** Ten high and ten low bits, above the basic plane. */
  function Placed(high: Code, low: Code): Code {
    0x10000 + (high << 10) + low
  }

  /** The code point of a surrogate pair. */
  function Joined(hi: Unit, lo: Unit): (cp: Code)
    requires IsHigh(hi) && IsLow(lo)
    ensures 0x10000 <= cp <= 0x10FFFF
  {
    Placed(hi as Code - 0xD800, lo as Code - 0xDC00)
  }

  function HighOf(cp: Code): Unit
    requires 0x10000 <= cp < 0x200000
  {
    (0xD800 + ((cp - 0x10000) >> 10)) as Unit
  }

  function LowOf(cp: Code): Unit
    requires 0x10000 <= cp < 0x200000
  {
    (0xDC00 + ((cp - 0x10000) & 0x3FF)) as Unit
  }

  function Lead2(cp: Code): Byte
    requires cp < 0x800
  {
    (0xC0 | (cp >> 6)) as Byte
  }

  function Lead3(cp: Code): Byte
    requires cp < 0x10000
  {
    (0xE0 | (cp >> 12)) as Byte
  }

  function Lead4(cp: Code): Byte
    requires cp < 0x200000
  {
    (0xF0 | (cp >> 18)) as Byte
  }

  function Tail0(cp: Code): Byte { (0x80 | (cp & 0x3F)) as Byte }

  function Tail6(cp: Code): Byte { (0x80 | ((cp >> 6) & 0x3F)) as Byte }

  function Tail12(cp: Code): Byte { (0x80 | ((cp >> 12) & 0x3F)) as Byte }

  function Two(b0: Code, b1: Code): (cp: Code)
    ensures cp <= 0xFFFF
  {
    ((b0 & 0x1F) << 6) | (b1 & 0x3F)
  }

  function Three(b0: Code, b1: Code, b2: Code): (cp: Code)
    ensures cp <= 0xFFFF
  {
    ((b0 & 0x0F) << 12) | ((b1 & 0x3F) << 6) | (b2 & 0x3F)
  }

  function Four(b0: Code, b1: Code, b2: Code, b3: Code): (cp: Code)
    ensures cp < 0x200000
  {
    ((b0 & 0x07) << 18) | ((b1 & 0x3F) << 12) | ((b2 & 0x3F) << 6) | (b3 & 0x3F)
  }

  lemma SplitJoined(hi: Unit, lo: Unit)
    requires IsHigh(hi) && IsLow(lo)
    ensures HighOf(Joined(hi, lo)) == hi && LowOf(Joined(hi, lo)) == lo
  {
  }

  lemma JoinedSplit(cp: Code)
    requires 0x10000 <= cp <= 0x10FFFF
    ensures IsHigh(HighOf(cp)) && IsLow(LowOf(cp)) && Joined(HighOf(cp), LowOf(cp)) == cp
  {
    hide Placed;
    HighBits(cp);
    LowBits(cp);
    PlacedParts(cp);
  }

  lemma PlacedParts(cp: Code)
    requires 0x10000 <= cp <= 0x10FFFF
    ensures Placed((cp - 0x10000) >> 10, (cp - 0x10000) & 0x3FF) == cp
  {
  }

  lemma HighBits(cp: Code)
    requires 0x10000 <= cp <= 0x10FFFF
    ensures IsHigh(HighOf(cp)) && HighOf(cp) as Code - 0xD800 == (cp - 0x10000) >> 10
  {
  }

  lemma LowBits(cp: Code)
    requires 0x10000 <= cp <= 0x10FFFF
    ensures IsLow(LowOf(cp)) && LowOf(cp) as Code - 0xDC00 == (cp - 0x10000) & 0x3FF
  {
  }

  lemma OneByte(cp: Code)
    requires cp < 0x80
    ensures cp as Byte < 0x80 && (cp as Byte) as Code == cp
  {
  }

  lemma TwoBytes(cp: Code)
    requires 0x80 <= cp < 0x800
    ensures 0x80 <= Lead2(cp) < 0xE0 && Two(Lead2(cp) as Code, Tail0(cp) as Code) == cp
  {
  }

  lemma ThreeBytes(cp: Code)
    requires 0x800 <= cp < 0x10000
    ensures 0xE0 <= Lead3(cp) < 0xF0 && Three(Lead3(cp) as Code, Tail6(cp) as Code, Tail0(cp) as Code) == cp
  {
  }

  lemma FourBytes(cp: Code)
    requires 0x10000 <= cp <= 0x10FFFF
    ensures 0xF0 <= Lead4(cp)
    ensures Four(Lead4(cp) as Code, Tail12(cp) as Code, Tail6(cp) as Code, Tail0(cp) as Code) == cp
  {
  }

  // ---- One code point of a string ----

  predicate PairAt(s: seq<Unit>, i: nat)
    requires i < |s|
  {
    IsHigh(s[i]) && i + 1 < |s| && IsLow(s[i + 1])
  }

  /** The code point at `i`: a surrogate pair is one, anything else stands alone. */
  function CodeAt(s: seq<Unit>, i: nat): (cp: Code)
    requires i < |s|
    ensures cp <= 0x10FFFF
  {
    if PairAt(s, i) then Joined(s[i], s[i + 1]) else s[i] as Code
  }

  function NextUnit(s: seq<Unit>, i: nat): (next: nat)
    requires i < |s|
    ensures i < next <= |s|
  {
    if PairAt(s, i) then i + 2 else i + 1
  }

  function EncodeCode(cp: Code): (r: seq<Byte>)
    requires cp <= 0x10FFFF
    ensures 1 <= |r| <= 4
  {
    if cp < 0x80 then [cp as Byte]
    else if cp < 0x800 then [Lead2(cp), Tail0(cp)]
    else if cp < 0x10000 then [Lead3(cp), Tail6(cp), Tail0(cp)]
    else [Lead4(cp), Tail12(cp), Tail6(cp), Tail0(cp)]
  }

  /** Bytes past the end count as zero. */
  function ByteAt(bytes: seq<Byte>, i: nat): Code {
    if i < |bytes| then bytes[i] as Code else 0
  }

  function NextByte(bytes: seq<Byte>, i: nat): (next: nat)
    requires i < |bytes|
    ensures i < next
  {
    if bytes[i] < 0x80 then i + 1 else if bytes[i] < 0xE0 then i + 2 else if bytes[i] < 0xF0 then i + 3 else i + 4
  }

  function DecodeAt(bytes: seq<Byte>, i: nat): (cp: Code)
    requires i < |bytes|
    ensures cp < 0x200000
  {
    var b0 := bytes[i] as Code;
    if bytes[i] < 0x80 then b0
    else if bytes[i] < 0xE0 then Two(b0, ByteAt(bytes, i + 1))
    else if bytes[i] < 0xF0 then Three(b0, ByteAt(bytes, i + 1), ByteAt(bytes, i + 2))
    else Four(b0, ByteAt(bytes, i + 1), ByteAt(bytes, i + 2), ByteAt(bytes, i + 3))
  }

  function UnitsOf(cp: Code): (r: seq<Unit>)
    requires cp < 0x200000
    ensures 1 <= |r| <= 2
  {
    if cp > 0xFFFF then [HighOf(cp), LowOf(cp)] else [cp as Unit]
  }

  // ---- Whole strings ----

  function Encode(s: seq<Unit>, i: nat): seq<Byte>
    requires i <= |s|
    decreases |s| - i
  {
    if i == |s| then [] else EncodeCode(CodeAt(s, i)) + Encode(s, NextUnit(s, i))
  }

  function Decode(bytes: seq<Byte>, i: nat): seq<Unit>
    decreases |bytes| - i
  {
    if i >= |bytes| then [] else UnitsOf(DecodeAt(bytes, i)) + Decode(bytes, NextByte(bytes, i))
  }

  method EncodeUtf8(s: seq<Unit>) returns (out: seq<Byte>)
    ensures out == Encode(s, 0)
  {
    hide Joined, EncodeCode;
    out := [];
    var i := 0;
    while i < |s|
      invariant i <= |s| && out + Encode(s, i) == Encode(s, 0)
    {
      ghost var start := i;
      var cp := s[i] as Code;
      if IsHigh(s[i]) && i + 1 < |s| {
        var lo := s[i + 1];
        if IsLow(lo) {
          cp := Joined(s[i], lo);
          i := i + 1;
        }
      }
      assert cp == CodeAt(s, start) && i + 1 == NextUnit(s, start);
      out := out + EncodeCode(cp);
      i := i + 1;
    }
    assert out + [] == out;
  }

  lemma DecodeEnd(bytes: seq<Byte>, i: nat)
    requires i >= |bytes|
    ensures Decode(bytes, i) == []
  {
  }

  lemma DecodeStep(bytes: seq<Byte>, i: nat, out: seq<Unit>, chunk: seq<Unit>)
    requires i < |bytes|
    ensures out + chunk + Decode(bytes, i) == out + (chunk + UnitsOf(DecodeAt(bytes, i))) + Decode(bytes, NextByte(bytes, i))
    ensures out + chunk + Decode(bytes, i) == (out + (chunk + UnitsOf(DecodeAt(bytes, i)))) + [] + Decode(bytes, NextByte(bytes, i))
  {
    hide UnitsOf, DecodeAt, NextByte;
  }

  const FLUSH := 4096

  method DecodeUtf8(bytes: seq<Byte>) returns (out: seq<Unit>)
    ensures out == Decode(bytes, 0)
  {
    hide UnitsOf, Two, Three, Four, ByteAt, Decode;
    out := [];
    var chunk: seq<Unit> := [];
    var i := 0;
    while i < |bytes|
      invariant out + chunk + Decode(bytes, i) == Decode(bytes, 0)
      decreases |bytes| - i
    {
      ghost var start := i;
      var b0 := bytes[i];
      var cp;
      if b0 < 0x80 {
        cp := b0 as Code;
        i := i + 1;
      } else if b0 < 0xE0 {
        cp := Two(b0 as Code, ByteAt(bytes, i + 1));
        i := i + 2;
      } else if b0 < 0xF0 {
        cp := Three(b0 as Code, ByteAt(bytes, i + 1), ByteAt(bytes, i + 2));
        i := i + 3;
      } else {
        cp := Four(b0 as Code, ByteAt(bytes, i + 1), ByteAt(bytes, i + 2), ByteAt(bytes, i + 3));
        i := i + 4;
      }
      assert cp == DecodeAt(bytes, start) && i == NextByte(bytes, start);
      DecodeStep(bytes, start, out, chunk);
      chunk := chunk + UnitsOf(cp);
      if |chunk| >= FLUSH {
        out := out + chunk;
        chunk := [];
      }
    }
    DecodeEnd(bytes, i);
    if |chunk| > 0 {
      out := out + chunk;
    }
  }

  // ---- Round trip ----

  lemma UnitsOfCodeAt(s: seq<Unit>, i: nat)
    requires i < |s|
    ensures UnitsOf(CodeAt(s, i)) == s[i..NextUnit(s, i)]
  {
    hide Joined, HighOf, LowOf;
    if PairAt(s, i) {
      SplitJoined(s[i], s[i + 1]);
    }
  }

  /** A byte group that lies in the input is decoded as it stands. */
  predicate Holds(bytes: seq<Byte>, i: nat, e: seq<Byte>) {
    i + |e| <= |bytes| && bytes[i..i + |e|] == e
  }

  lemma HoldsAt(bytes: seq<Byte>, i: nat, e: seq<Byte>, k: nat)
    requires Holds(bytes, i, e) && k < |e|
    ensures i + k < |bytes| && bytes[i + k] == e[k] && ByteAt(bytes, i + k) == e[k] as Code
  {
    assert bytes[i..i + |e|][k] == e[k];
  }

  lemma DecodeOne(cp: Code, bytes: seq<Byte>, i: nat)
    requires cp < 0x80 && Holds(bytes, i, EncodeCode(cp))
    ensures DecodeAt(bytes, i) == cp && NextByte(bytes, i) == i + 1
  {
    hide ByteAt, Holds;
    OneByte(cp);
    HoldsAt(bytes, i, EncodeCode(cp), 0);
  }

  lemma DecodeTwo(cp: Code, bytes: seq<Byte>, i: nat)
    requires 0x80 <= cp < 0x800 && Holds(bytes, i, EncodeCode(cp))
    ensures DecodeAt(bytes, i) == cp && NextByte(bytes, i) == i + 2
  {
    hide Lead2, Tail0, Two, ByteAt, Holds;
    TwoBytes(cp);
    HoldsAt(bytes, i, EncodeCode(cp), 0);
    HoldsAt(bytes, i, EncodeCode(cp), 1);
  }

  lemma DecodeThree(cp: Code, bytes: seq<Byte>, i: nat)
    requires 0x800 <= cp < 0x10000 && Holds(bytes, i, EncodeCode(cp))
    ensures DecodeAt(bytes, i) == cp && NextByte(bytes, i) == i + 3
  {
    hide Lead3, Tail6, Tail0, Three, ByteAt, Holds;
    ThreeBytes(cp);
    HoldsAt(bytes, i, EncodeCode(cp), 0);
    HoldsAt(bytes, i, EncodeCode(cp), 1);
    HoldsAt(bytes, i, EncodeCode(cp), 2);
  }

  lemma DecodeFour(cp: Code, bytes: seq<Byte>, i: nat)
    requires 0x10000 <= cp <= 0x10FFFF && Holds(bytes, i, EncodeCode(cp))
    ensures DecodeAt(bytes, i) == cp && NextByte(bytes, i) == i + 4
  {
    hide Lead4, Tail12, Tail6, Tail0, Four, ByteAt, Holds;
    FourBytes(cp);
    HoldsAt(bytes, i, EncodeCode(cp), 0);
    HoldsAt(bytes, i, EncodeCode(cp), 1);
    HoldsAt(bytes, i, EncodeCode(cp), 2);
    HoldsAt(bytes, i, EncodeCode(cp), 3);
  }

  lemma DecodeEncoded(cp: Code, bytes: seq<Byte>, i: nat)
    requires cp <= 0x10FFFF && Holds(bytes, i, EncodeCode(cp))
    ensures i < |bytes| && DecodeAt(bytes, i) == cp && NextByte(bytes, i) == i + |EncodeCode(cp)|
  {
    hide Lead2, Lead3, Lead4, Tail0, Tail6, Tail12, DecodeAt, NextByte;
    if cp < 0x80 {
      DecodeOne(cp, bytes, i);
    } else if cp < 0x800 {
      DecodeTwo(cp, bytes, i);
    } else if cp < 0x10000 {
      DecodeThree(cp, bytes, i);
    } else {
      DecodeFour(cp, bytes, i);
    }
  }

  lemma {:induction false} DecodeSuffix(s: seq<Unit>, i: nat, bytes: seq<Byte>, j: nat)
    requires i <= |s| && j <= |bytes| && bytes[j..] == Encode(s, i)
    ensures Decode(bytes, j) == s[i..]
    decreases |s| - i
  {
    hide EncodeCode, DecodeAt, NextByte, UnitsOf, CodeAt;
    if i < |s| {
      var e, next := EncodeCode(CodeAt(s, i)), NextUnit(s, i);
      assert bytes[j..][..|e|] == e && bytes[j..][|e|..] == Encode(s, next);
      assert bytes[j..j + |e|] == e && bytes[j + |e|..] == Encode(s, next);
      DecodeEncoded(CodeAt(s, i), bytes, j);
      UnitsOfCodeAt(s, i);
      DecodeSuffix(s, next, bytes, j + |e|);
      assert s[i..] == s[i..next] + s[next..];
    }
  }

  /** Decoding inverts encoding on every sequence of code units, lone surrogates included. */
  lemma RoundTrip(s: seq<Unit>)
    ensures Decode(Encode(s, 0), 0) == s
  {
    DecodeSuffix(s, 0, Encode(s, 0), 0);
    assert Encode(s, 0)[0..] == Encode(s, 0);
  }
}
