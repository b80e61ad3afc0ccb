/** The codec against its standards: UTF-8 of RFC 3629 section 3 and UTF-16 of RFC 2781 section 2. */
module Utf8Standard {
  import opened Utf8

  predicate Scalar(cp: Code) {
    cp <= 0x10FFFF && !(0xD800 <= cp <= 0xDFFF)
  }

  // ---- UTF-16, RFC 2781 sections 2.1 and 2.2 ----

  /** Two units name the scalar value whose twenty bits they carry. */
  predicate PairOf(cp: Code, w1: Unit, w2: Unit) {
    && w1 & 0xFC00 == 0xD800 && w2 & 0xFC00 == 0xDC00
    && cp == 0x10000 + (((w1 & 0x3FF) as Code << 10) | (w2 & 0x3FF) as Code)
  }

  /** `s` from `i` on is the UTF-16 form of `cps`. */
  predicate IsUtf16(cps: seq<Code>, s: seq<Unit>, i: nat)
    requires i <= |s|
    decreases |cps|
  {
    if cps == [] then i == |s|
    else if cps[0] < 0x10000 then i + 1 <= |s| && s[i] as Code == cps[0] && IsUtf16(cps[1..], s, i + 1)
    else i + 2 <= |s| && PairOf(cps[0], s[i], s[i + 1]) && IsUtf16(cps[1..], s, i + 2)
  }

  predicate Scalars(cps: seq<Code>) {
    forall k :: 0 <= k < |cps| ==> Scalar(cps[k])
  }

  // ---- UTF-8, RFC 3629 section 3 ----

  function FormLength(cp: Code): nat {
    if cp <= 0x7F then 1 else if cp <= 0x7FF then 2 else if cp <= 0xFFFF then 3 else 4
  }

  predicate Continuation(b: Byte) { b & 0xC0 == 0x80 }

  function Payload(b: Byte): Code { (b & 0x3F) as Code }

  predicate Form2(cp: Code, b0: Byte, b1: Byte) {
    b0 & 0xE0 == 0xC0 && Continuation(b1) && cp == ((b0 & 0x1F) as Code << 6) | Payload(b1)
  }

  predicate Form3(cp: Code, b0: Byte, b1: Byte, b2: Byte) {
    b0 & 0xF0 == 0xE0 && Continuation(b1) && Continuation(b2)
    && cp == ((b0 & 0x0F) as Code << 12) | (Payload(b1) << 6) | Payload(b2)
  }

  predicate Form4(cp: Code, b0: Byte, b1: Byte, b2: Byte, b3: Byte) {
    b0 & 0xF8 == 0xF0 && Continuation(b1) && Continuation(b2) && Continuation(b3)
    && cp == ((b0 & 0x07) as Code << 18) | (Payload(b1) << 12) | (Payload(b2) << 6) | Payload(b3)
  }

  /** `bs` is the octet row of the table that holds `cp`, with `cp`'s bits in its free places. */
  predicate ShortestForm(cp: Code, bs: seq<Byte>) {
    && |bs| == FormLength(cp)
    && (|bs| == 1 ==> bs[0] & 0x80 == 0 && bs[0] as Code == cp)
    && (|bs| == 2 ==> Form2(cp, bs[0], bs[1]))
    && (|bs| == 3 ==> Form3(cp, bs[0], bs[1], bs[2]))
    && (|bs| == 4 ==> Form4(cp, bs[0], bs[1], bs[2], bs[3]))
  }

  predicate IsUtf8(cps: seq<Code>, bs: seq<Byte>)
    decreases |cps|
  {
    if cps == [] then bs == []
    else
      var n := FormLength(cps[0]);
      n <= |bs| && ShortestForm(cps[0], bs[..n]) && IsUtf8(cps[1..], bs[n..])
  }

  // ---- One code point ----

  lemma Unique2(cp: Code, a0: Byte, a1: Byte)
    requires Form2(cp, a0, a1) && cp < 0x800
    ensures a0 == Lead2(cp) && a1 == Tail0(cp)
  {
  }

  lemma Unique3(cp: Code, a0: Byte, a1: Byte, a2: Byte)
    requires Form3(cp, a0, a1, a2) && cp < 0x10000
    ensures a0 == Lead3(cp) && a1 == Tail6(cp) && a2 == Tail0(cp)
  {
  }

  lemma Unique4(cp: Code, a0: Byte, a1: Byte, a2: Byte, a3: Byte)
    requires Form4(cp, a0, a1, a2, a3) && cp <= 0x10FFFF
    ensures a0 == Lead4(cp) && a1 == Tail12(cp) && a2 == Tail6(cp) && a3 == Tail0(cp)
  {
  }

  lemma EncodesForm2(cp: Code)
    requires 0x80 <= cp < 0x800
    ensures Form2(cp, Lead2(cp), Tail0(cp))
  {
  }

  lemma EncodesForm3(cp: Code)
    requires 0x800 <= cp < 0x10000
    ensures Form3(cp, Lead3(cp), Tail6(cp), Tail0(cp))
  {
  }

  lemma EncodesForm4(cp: Code)
    requires 0x10000 <= cp <= 0x10FFFF
    ensures Form4(cp, Lead4(cp), Tail12(cp), Tail6(cp), Tail0(cp))
  {
  }

  lemma OneByteForm(cp: Code, b: Byte)
    requires cp < 0x80
    ensures b & 0x80 == 0 && b as Code == cp <==> b == cp as Byte
  {
  }

  /** The encoder's bytes for a code point are its shortest form, and nothing else is. */
  lemma EncodeCodeIffShortest(cp: Code, bs: seq<Byte>)
    requires cp <= 0x10FFFF
    ensures ShortestForm(cp, bs) <==> bs == EncodeCode(cp)
  {
    hide Form2, Form3, Form4, Lead2, Lead3, Lead4, Tail0, Tail6, Tail12;
    if 0x80 <= cp < 0x800 { EncodesForm2(cp); }
    if 0x800 <= cp < 0x10000 { EncodesForm3(cp); }
    if 0x10000 <= cp { EncodesForm4(cp); }
    if |bs| == 1 && FormLength(cp) == 1 { OneByteForm(cp, bs[0]); }
    if cp < 0x80 { OneByteForm(cp, cp as Byte); }
    if |bs| == 2 && FormLength(cp) == 2 && Form2(cp, bs[0], bs[1]) { Unique2(cp, bs[0], bs[1]); }
    if |bs| == 3 && FormLength(cp) == 3 && Form3(cp, bs[0], bs[1], bs[2]) { Unique3(cp, bs[0], bs[1], bs[2]); }
    if |bs| == 4 && FormLength(cp) == 4 && Form4(cp, bs[0], bs[1], bs[2], bs[3]) { Unique4(cp, bs[0], bs[1], bs[2], bs[3]); }
  }

  lemma PairIff(cp: Code, w1: Unit, w2: Unit)
    ensures PairOf(cp, w1, w2) <==> IsHigh(w1) && IsLow(w2) && cp == Joined(w1, w2)
  {
    HighMask(w1);
    LowMask(w2);
    if IsHigh(w1) && IsLow(w2) {
      JoinedBits(w1, w2);
    }
  }

  lemma HighMask(w: Unit)
    ensures w & 0xFC00 == 0xD800 <==> IsHigh(w)
  {
  }

  lemma LowMask(w: Unit)
    ensures w & 0xFC00 == 0xDC00 <==> IsLow(w)
  {
  }

  lemma JoinedBits(hi: Unit, lo: Unit)
    requires IsHigh(hi) && IsLow(lo)
    ensures Joined(hi, lo) == 0x10000 + (((hi & 0x3FF) as Code << 10) | (lo & 0x3FF) as Code)
  {
  }

  // ---- Whole strings ----

  lemma {:induction false} EncodeUtf16(cps: seq<Code>, s: seq<Unit>, i: nat)
    requires Scalars(cps) && i <= |s| && IsUtf16(cps, s, i)
    ensures IsUtf8(cps, Encode(s, i))
    decreases |cps|
  {
    hide EncodeCode, Joined, ShortestForm, PairOf, FormLength;
    if cps != [] {
      var cp := cps[0];
      HeadCode(cps, s, i);
      EncodeUtf16(cps[1..], s, NextUnit(s, i));
      EncodeCodeIffShortest(cp, EncodeCode(cp));
      ShortestLength(cp, EncodeCode(cp));
      var bs := Encode(s, i);
      assert bs[..|EncodeCode(cp)|] == EncodeCode(cp) && bs[|EncodeCode(cp)|..] == Encode(s, NextUnit(s, i));
    }
  }

  lemma ShortestLength(cp: Code, bs: seq<Byte>)
    requires ShortestForm(cp, bs)
    ensures |bs| == FormLength(cp)
  {
  }

  /** Reading UTF-16 unit by unit finds its first scalar value. */
  lemma HeadCode(cps: seq<Code>, s: seq<Unit>, i: nat)
    requires cps != [] && Scalar(cps[0]) && i <= |s| && IsUtf16(cps, s, i)
    ensures i < |s| && CodeAt(s, i) == cps[0] && IsUtf16(cps[1..], s, NextUnit(s, i))
  {
    hide Joined, PairOf;
    if cps[0] >= 0x10000 {
      PairIff(cps[0], s[i], s[i + 1]);
    } else {
      NotHigh(cps[0], s[i]);
    }
  }

  lemma NotHigh(cp: Code, u: Unit)
    requires Scalar(cp) && u as Code == cp
    ensures !IsHigh(u)
  {
  }

  lemma {:induction false} Utf8Unique(cps: seq<Code>, a: seq<Byte>, z: seq<Byte>)
    requires Scalars(cps) && IsUtf8(cps, a) && IsUtf8(cps, z)
    ensures a == z
    decreases |cps|
  {
    hide ShortestForm, EncodeCode;
    if cps != [] {
      var n := FormLength(cps[0]);
      EncodeCodeIffShortest(cps[0], a[..n]);
      EncodeCodeIffShortest(cps[0], z[..n]);
      Utf8Unique(cps[1..], a[n..], z[n..]);
      assert a == a[..n] + a[n..] && z == z[..n] + z[n..];
    }
  }

  /** Every unit is a pair's half or no surrogate at all. */
  predicate WellFormed16(s: seq<Unit>, i: nat)
    requires i <= |s|
    decreases |s| - i
  {
    i == |s| || ((PairAt(s, i) || !(IsHigh(s[i]) || IsLow(s[i]))) && WellFormed16(s, NextUnit(s, i)))
  }

  /** The scalar values of well-formed UTF-16. */
  function ScalarsOf(s: seq<Unit>, i: nat): seq<Code>
    requires i <= |s|
    decreases |s| - i
  {
    if i == |s| then [] else [CodeAt(s, i)] + ScalarsOf(s, NextUnit(s, i))
  }

  lemma UnitScalar(u: Unit)
    requires !IsHigh(u) && !IsLow(u)
    ensures Scalar(u as Code) && u as Code < 0x10000
  {
  }

  lemma {:induction false} WellFormedHasScalars(s: seq<Unit>, i: nat)
    requires i <= |s| && WellFormed16(s, i)
    ensures Scalars(ScalarsOf(s, i)) && IsUtf16(ScalarsOf(s, i), s, i)
    decreases |s| - i
  {
    hide Joined, PairOf;
    if i < |s| {
      WellFormedHasScalars(s, NextUnit(s, i));
      var cps := ScalarsOf(s, i);
      assert cps[1..] == ScalarsOf(s, NextUnit(s, i));
      if PairAt(s, i) {
        PairIff(cps[0], s[i], s[i + 1]);
      } else {
        UnitScalar(s[i]);
      }
    }
  }

  lemma {:induction false} Utf16IsWellFormed(cps: seq<Code>, s: seq<Unit>, i: nat)
    requires Scalars(cps) && i <= |s| && IsUtf16(cps, s, i)
    ensures WellFormed16(s, i)
    decreases |cps|
  {
    hide Joined, PairOf;
    if cps != [] {
      HeadCode(cps, s, i);
      Utf16IsWellFormed(cps[1..], s, NextUnit(s, i));
      if cps[0] < 0x10000 { NotSurrogate(cps[0], s[i]); } else { PairIff(cps[0], s[i], s[i + 1]); }
    }
  }

  lemma NotSurrogate(cp: Code, u: Unit)
    requires Scalar(cp) && u as Code == cp
    ensures !IsHigh(u) && !IsLow(u)
  {
  }

  /** The UTF-16 form of scalar values, written out. */
  function Utf16(cps: seq<Code>): seq<Unit>
    requires Scalars(cps)
  {
    if cps == [] then [] else UnitsOf(cps[0]) + Utf16(cps[1..])
  }

  lemma {:induction false} Utf16IsUtf16(cps: seq<Code>, s: seq<Unit>, i: nat)
    requires Scalars(cps) && i <= |s| && s[i..] == Utf16(cps)
    ensures IsUtf16(cps, s, i)
    decreases |cps|
  {
    hide Joined, PairOf, HighOf, LowOf;
    if cps != [] {
      var cp := cps[0];
      var u := UnitsOf(cp);
      assert s[i..][..|u|] == u && s[i..][|u|..] == Utf16(cps[1..]);
      assert s[i] == u[0] && s[i + |u|..] == Utf16(cps[1..]);
      Utf16IsUtf16(cps[1..], s, i + |u|);
      if cp >= 0x10000 {
        assert s[i + 1] == u[1];
        JoinedSplit(cp);
        PairIff(cp, s[i], s[i + 1]);
      } else {
        UnitKeeps(cp);
      }
    }
  }

  lemma UnitKeeps(cp: Code)
    requires cp < 0x10000
    ensures (cp as Unit) as Code == cp
  {
  }

  /** Decoding the UTF-8 of any scalar values gives their UTF-16. */
  lemma DecodeStandard(cps: seq<Code>, bs: seq<Byte>)
    requires Scalars(cps) && IsUtf8(cps, bs)
    ensures IsUtf16(cps, Decode(bs, 0), 0)
  {
    var s := Utf16(cps);
    assert s[0..] == s;
    Utf16IsUtf16(cps, s, 0);
    EncodeUtf16(cps, s, 0);
    Utf8Unique(cps, bs, Encode(s, 0));
    RoundTrip(s);
  }

  ghost predicate IsStandardUtf8(bs: seq<Byte>) {
    exists cps :: Scalars(cps) && IsUtf8(cps, bs)
  }

  /** What the encoder writes is standard UTF-8 exactly when its input was well-formed UTF-16; then it is that
    * input's scalar values, each in its shortest form. */
  lemma EncodeStandardIff(s: seq<Unit>)
    ensures IsStandardUtf8(Encode(s, 0)) <==> WellFormed16(s, 0)
    ensures WellFormed16(s, 0) ==> IsUtf16(ScalarsOf(s, 0), s, 0) && IsUtf8(ScalarsOf(s, 0), Encode(s, 0))
  {
    if WellFormed16(s, 0) {
      WellFormedHasScalars(s, 0);
      EncodeUtf16(ScalarsOf(s, 0), s, 0);
    }
    if IsStandardUtf8(Encode(s, 0)) {
      var cps :| Scalars(cps) && IsUtf8(cps, Encode(s, 0));
      DecodeStandard(cps, Encode(s, 0));
      RoundTrip(s);
      Utf16IsWellFormed(cps, s, 0);
    }
  }
}
