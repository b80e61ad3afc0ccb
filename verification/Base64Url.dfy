/** Unpadded base64url over bytes, and the pair offer's wire form: RFC 4648 sections 3.2, 4 and 5. */
module Base64Url {
  import opened Octets
  import opened Options
  import Utf8
  import Utf8Standard

  type Sextet = n: nat | n < 64

  // ---- The alphabets, RFC 4648 tables 1 and 2 ----

  function Letter(n: Sextet): char {
    if n < 26 then ('A' as int + n) as char
    else if n < 52 then ('a' as int + n - 26) as char
    else if n < 62 then ('0' as int + n - 52) as char
    else if n == 62 then '+' else '/'
  }

  function Value(c: char): Option<Sextet> {
    if 'A' <= c <= 'Z' then Some(c as int - 'A' as int)
    else if 'a' <= c <= 'z' then Some(c as int - 'a' as int + 26)
    else if '0' <= c <= '9' then Some(c as int - '0' as int + 52)
    else if c == '+' then Some(62) else if c == '/' then Some(63) else None
  }

  function ToUrl(c: char): char { if c == '+' then '-' else if c == '/' then '_' else c }

  function FromUrl(c: char): char { if c == '-' then '+' else if c == '_' then '/' else c }

  function Each(f: char -> char, s: string): (r: string)
    ensures |r| == |s| && forall i :: 0 <= i < |s| ==> r[i] == f(s[i])
  {
    if s == "" then "" else [f(s[0])] + Each(f, s[1..])
  }

  // ---- btoa and atob ----

  /** Groups of three octets become four letters; one or two left over are padded with equals signs. */
  function Btoa(b: seq<Octet>): string {
    if b == [] then ""
    else if |b| == 1 then [Letter(b[0] / 4), Letter(b[0] % 4 * 16), '=', '=']
    else if |b| == 2 then [Letter(b[0] / 4), Letter(b[0] % 4 * 16 + b[1] / 16), Letter(b[1] % 16 * 4), '=']
    else FourLetters(b[0], b[1], b[2]) + Btoa(b[3..])
  }

  function FourLetters(a: Octet, b: Octet, c: Octet): string {
    [Letter(a / 4), Letter(a % 4 * 16 + b / 16), Letter(b % 16 * 4 + c / 64), Letter(c % 64)]
  }

  predicate Space(c: char) { c == ' ' || c == '\t' || c == '\n' || c == '\r' || c == '\U{c}' }

  function StripSpaces(s: string): string {
    if s == "" then "" else (if Space(s[0]) then "" else [s[0]]) + StripSpaces(s[1..])
  }

  /** Of a whole number of groups, at most two final equals signs are dropped. */
  function Unpad(s: string): string {
    if |s| % 4 != 0 || s == "" || s[|s| - 1] != '=' then s
    else if s[|s| - 2] == '=' then s[..|s| - 2] else s[..|s| - 1]
  }

  function Values(s: string): Option<seq<Sextet>> {
    if s == "" then Some([])
    else if Value(s[0]).None? || Values(s[1..]).None? then None
    else Some([Value(s[0]).value] + Values(s[1..]).value)
  }

  /** High bits and low bits of one octet. */
  function Joined(high: nat, scale: nat, low: nat): Octet
    requires high * scale + low < 256
  {
    high * scale + low
  }

  /** Groups of four sextets become three octets; two or three left over give one or two, spare bits dropped. */
  function Regroup(v: seq<Sextet>): seq<Octet> {
    if |v| < 2 then []
    else if |v| == 2 then [Joined(v[0], 4, v[1] / 16)]
    else if |v| == 3 then [Joined(v[0], 4, v[1] / 16), Joined(v[1] % 16, 16, v[2] / 4)]
    else [Joined(v[0], 4, v[1] / 16), Joined(v[1] % 16, 16, v[2] / 4), Joined(v[2] % 4, 64, v[3])] + Regroup(v[4..])
  }

  function Atob(s: string): Option<seq<Octet>> {
    var t := Unpad(StripSpaces(s));
    if |t| % 4 == 1 || Values(t).None? then None else Some(Regroup(Values(t).value))
  }

  // ---- The two conversions ----

  function StripPad(s: string): string {
    if s != "" && s[|s| - 1] == '=' then StripPad(s[..|s| - 1]) else s
  }

  function Encode(bytes: seq<Octet>): string {
    StripPad(Each(ToUrl, Btoa(bytes)))
  }

  function Padded(s: string): string {
    s + "==="[..(4 - |s| % 4) % 4]
  }

  function Decode(s: string): Option<seq<Octet>> {
    Atob(Each(FromUrl, Padded(s)))
  }

  method BytesToBase64Url(bytes: seq<Octet>) returns (s: string)
    ensures s == Encode(bytes)
  {
    var bin: seq<Octet> := [];
    for i := 0 to |bytes|
      invariant bin == bytes[..i]
    {
      bin := bin + [bytes[i]];
    }
    assert bin == bytes;
    s := StripPad(Each(ToUrl, Btoa(bin)));
  }

  method Base64UrlToBytes(s: string) returns (bytes: Option<seq<Octet>>)
    ensures bytes == Decode(s)
  {
    var bin := Atob(Each(FromUrl, Padded(s)));
    if bin.None? { return None; }
    var out: seq<Octet> := [];
    for i := 0 to |bin.value|
      invariant out == bin.value[..i]
    {
      out := out + [bin.value[i]];
    }
    assert out == bin.value;
    return Some(out);
  }

  /** The re-added padding always completes the last group. */
  lemma PaddedLength(s: string)
    ensures |Padded(s)| % 4 == 0 && |Padded(s)| - |s| < 4
  {
  }

  // ---- Round trip ----

  function Group(a: Octet, b: Octet, c: Octet): (v: seq<Sextet>)
    ensures |v| == 4
  {
    [a / 4, a % 4 * 16 + b / 16, b % 16 * 4 + c / 64, c % 64]
  }

  function Sextets(b: seq<Octet>): seq<Sextet> {
    if b == [] then []
    else if |b| == 1 then [b[0] / 4, b[0] % 4 * 16]
    else if |b| == 2 then [b[0] / 4, b[0] % 4 * 16 + b[1] / 16, b[1] % 16 * 4]
    else Group(b[0], b[1], b[2]) + Sextets(b[3..])
  }

  function Letters(v: seq<Sextet>): (r: string)
    ensures |r| == |v| && forall i :: 0 <= i < |v| ==> r[i] == Letter(v[i])
  {
    if v == [] then "" else [Letter(v[0])] + Letters(v[1..])
  }

  function PadOf(b: seq<Octet>): string {
    if |b| % 3 == 0 then "" else if |b| % 3 == 1 then "==" else "="
  }

  lemma GroupLetters(a: Octet, b: Octet, c: Octet)
    ensures Letters(Group(a, b, c)) == FourLetters(a, b, c)
  {
    hide Letter;
  }

  lemma SamePad(b: seq<Octet>)
    requires |b| >= 3
    ensures PadOf(b) == PadOf(b[3..])
  {
    assert |b[3..]| % 3 == |b| % 3;
  }

  lemma BtoaGroup(b: seq<Octet>)
    requires |b| >= 3
    ensures Btoa(b) == FourLetters(b[0], b[1], b[2]) + Btoa(b[3..])
  {
    hide FourLetters;
  }

  lemma SextetsGroup(b: seq<Octet>)
    requires |b| >= 3
    ensures Sextets(b) == Group(b[0], b[1], b[2]) + Sextets(b[3..])
  {
    hide Group;
  }

  lemma ThreeOctets(b: seq<Octet>)
    requires |b| >= 3
    ensures Sextets(b) == Group(b[0], b[1], b[2]) + Sextets(b[3..]) && PadOf(b) == PadOf(b[3..])
    ensures Btoa(b) == Letters(Group(b[0], b[1], b[2])) + Btoa(b[3..])
  {
    hide Letter, Letters, FourLetters, Group, Btoa, PadOf, Sextets;
    SamePad(b);
    SextetsGroup(b);
    BtoaGroup(b);
    GroupLetters(b[0], b[1], b[2]);
  }

  lemma FewOctets(b: seq<Octet>)
    requires |b| < 3
    ensures Btoa(b) == Letters(Sextets(b)) + PadOf(b) && (|Sextets(b)| + |PadOf(b)|) % 4 == 0
  {
    hide Letter;
    var v := Sextets(b);
    if |b| == 2 {
      assert Letters(v) == [Letter(v[0]), Letter(v[1]), Letter(v[2])];
    } else if |b| == 1 {
      assert Letters(v) == [Letter(v[0]), Letter(v[1])];
    }
  }

  lemma {:induction false} LettersConcat(v: seq<Sextet>, w: seq<Sextet>)
    ensures Letters(v + w) == Letters(v) + Letters(w)
  {
    hide Letter;
    assert forall i :: 0 <= i < |v + w| ==> Letters(v + w)[i] == (Letters(v) + Letters(w))[i];
  }

  lemma {:induction false} BtoaIs(b: seq<Octet>)
    ensures Btoa(b) == Letters(Sextets(b)) + PadOf(b)
    ensures (|Sextets(b)| + |PadOf(b)|) % 4 == 0
  {
    hide Letter, Letters, Sextets, Btoa, PadOf, Group;
    if |b| < 3 {
      FewOctets(b);
    } else {
      BtoaIs(b[3..]);
      ThreeOctets(b);
      LettersConcat(Group(b[0], b[1], b[2]), Sextets(b[3..]));
    }
  }

  lemma LetterFacts(n: Sextet)
    ensures Value(Letter(n)) == Some(n) && !Space(Letter(n)) && Letter(n) != '='
    ensures FromUrl(ToUrl(Letter(n))) == Letter(n) && ToUrl(Letter(n)) != '='
  {
  }

  lemma {:induction false} ValuesOfLetters(v: seq<Sextet>)
    ensures Values(Letters(v)) == Some(v)
  {
    hide Letter, Value;
    if v != [] {
      LetterFacts(v[0]);
      ValuesOfLetters(v[1..]);
      assert Letters(v)[1..] == Letters(v[1..]) && Letters(v)[0] == Letter(v[0]);
      assert v == [v[0]] + v[1..];
    }
  }

  lemma ThreeBack(a: Octet, b: Octet, c: Octet)
    ensures var v0, v1, v2, v3 := a / 4, a % 4 * 16 + b / 16, b % 16 * 4 + c / 64, c % 64;
            v0 * 4 + v1 / 16 == a && v1 % 16 * 16 + v2 / 4 == b && v2 % 4 * 64 + v3 == c
            && v0 < 64 && v1 < 64 && v2 < 64
  {
  }

  lemma RegroupStep(v: seq<Sextet>, a: Octet, b: Octet, c: Octet, rest: seq<Sextet>)
    requires |v| == 4 && Joined(v[0], 4, v[1] / 16) == a && Joined(v[1] % 16, 16, v[2] / 4) == b && Joined(v[2] % 4, 64, v[3]) == c
    ensures Regroup(v + rest) == [a, b, c] + Regroup(rest)
  {
    var w := v + rest;
    assert w[4..] == rest && w[0] == v[0] && w[1] == v[1] && w[2] == v[2] && w[3] == v[3];
  }

  lemma RegroupGroup(a: Octet, b: Octet, c: Octet, rest: seq<Sextet>)
    ensures Regroup(Group(a, b, c) + rest) == [a, b, c] + Regroup(rest)
  {
    hide Regroup;
    ThreeBack(a, b, c);
    RegroupStep(Group(a, b, c), a, b, c, rest);
  }

  lemma RegroupTwo(a: Octet, b: Octet)
    ensures Regroup([a / 4, a % 4 * 16 + b / 16, b % 16 * 4]) == [a, b]
  {
    ThreeBack(a, b, 0);
  }

  lemma RegroupOne(a: Octet)
    ensures Regroup([a / 4, a % 4 * 16]) == [a]
  {
    ThreeBack(a, 0, 0);
  }

  lemma {:induction false} RegroupSextets(b: seq<Octet>)
    ensures Regroup(Sextets(b)) == b && |Sextets(b)| % 4 != 1
  {
    hide Regroup, Group;
    if |b| >= 3 {
      RegroupSextets(b[3..]);
      RegroupGroup(b[0], b[1], b[2], Sextets(b[3..]));
      assert b == [b[0], b[1], b[2]] + b[3..];
    } else if |b| == 2 {
      RegroupTwo(b[0], b[1]);
      assert b == [b[0], b[1]];
    } else if |b| == 1 {
      RegroupOne(b[0]);
      assert b == [b[0]];
    } else {
      RegroupNone();
    }
  }

  lemma RegroupNone()
    ensures Regroup([]) == []
  {}

  lemma {:induction false} NoSpaces(s: string)
    requires forall i :: 0 <= i < |s| ==> !Space(s[i])
    ensures StripSpaces(s) == s
  {
    if s != "" { NoSpaces(s[1..]); }
  }

  /** Stripping the padding leaves exactly the letters. */
  lemma EncodeIs(b: seq<Octet>)
    ensures Encode(b) == Each(ToUrl, Letters(Sextets(b)))
  {
    hide Letter, Btoa, Sextets, StripPad;
    BtoaIs(b);
    var body := Each(ToUrl, Letters(Sextets(b)));
    var all := Each(ToUrl, Btoa(b));
    assert all == body + PadOf(b);
    forall i | 0 <= i < |body| ensures body[i] != '=' { LetterFacts(Sextets(b)[i]); }
    StripsPad(body, PadOf(b));
  }

  /** RFC 4648 table 2: upper case, lower case, digits, minus, underscore. */
  function UrlLetter(n: Sextet): char {
    if n <= 25 then 'A' + n as char
    else if n <= 51 then 'a' + (n - 26) as char
    else if n <= 61 then '0' + (n - 52) as char
    else if n == 62 then '-'
    else '_'
  }

  /** Digits, the most significant one first. */
  function Big(digits: seq<nat>, radix: nat): nat {
    if digits == [] then 0 else Big(digits[..|digits| - 1], radix) * radix + digits[|digits| - 1]
  }

  lemma BigOf(a: nat, b: nat, c: nat, d: nat, radix: nat)
    ensures Big([a, b], radix) == a * radix + b
    ensures Big([a, b, c], radix) == (a * radix + b) * radix + c
    ensures Big([a, b, c, d], radix) == ((a * radix + b) * radix + c) * radix + d
  {
    assert Big([a], radix) == a by { assert [a][..0] == []; }
    assert [a, b][..1] == [a] && [a, b, c][..2] == [a, b] && [a, b, c, d][..3] == [a, b, c];
  }

  lemma BigOne(a: nat, radix: nat)
    ensures Big([a], radix) == a
  {
    assert [a][..0] == [];
  }

  /** The k-th group of three octets and its four sextets are the same number; one or two octets left over are followed
    * by four or two zero bits. */
  predicate GroupMatches(b: seq<nat>, v: seq<nat>, k: nat)
    requires 3 * k < |b| && |v| == (4 * |b| + 2) / 3
  {
    if 3 * k + 3 <= |b| then Big(b[3 * k..3 * k + 3], 256) == Big(v[4 * k..4 * k + 4], 64)
    else if 3 * k + 2 == |b| then Big(b[3 * k..], 256) * 4 == Big(v[4 * k..], 64)
    else Big(b[3 * k..], 256) * 16 == Big(v[4 * k..], 64)
  }

  lemma GroupShifts(b: seq<nat>, v: seq<nat>, k: nat)
    requires k >= 1 && 3 * k < |b| && |v| == (4 * |b| + 2) / 3 && GroupMatches(b[3..], v[4..], k - 1)
    ensures GroupMatches(b, v, k)
  {
    hide Big;
    if 3 * k + 3 <= |b| {
      assert b[3..][3 * (k - 1)..3 * (k - 1) + 3] == b[3 * k..3 * k + 3];
      assert v[4..][4 * (k - 1)..4 * (k - 1) + 4] == v[4 * k..4 * k + 4];
    } else {
      assert b[3..][3 * (k - 1)..] == b[3 * k..] && v[4..][4 * (k - 1)..] == v[4 * k..];
    }
  }

  lemma SextetCount(b: seq<Octet>)
    ensures |Sextets(b)| == (4 * |b| + 2) / 3
  {}

  /** The sextets of an octet string are its bits, six at a time. */
  lemma {:induction false} SextetsAre(b: seq<Octet>, k: nat)
    requires 3 * k < |b|
    ensures |Sextets(b)| == (4 * |b| + 2) / 3 && GroupMatches(b, Sextets(b), k)
    decreases |b|
  {
    hide GroupMatches, Group;
    SextetCount(b);
    if k == 0 {
      hide Sextets;
      FirstGroup(b);
    } else {
      assert Sextets(b)[4..] == Sextets(b[3..]);
      hide Sextets;
      SextetsAre(b[3..], k - 1);
      GroupShifts(b, Sextets(b), k);
    }
  }

  lemma FirstGroup(b: seq<Octet>)
    requires b != [] && |Sextets(b)| == (4 * |b| + 2) / 3
    ensures GroupMatches(b, Sextets(b), 0)
  {
    hide Sextets, Big, Group;
    if |b| >= 3 { FirstOfThree(b); } else if |b| == 2 { FirstOfTwo(b); } else { FirstOfOne(b); }
  }

  lemma FirstOfThree(b: seq<Octet>)
    requires |b| >= 3 && |Sextets(b)| == (4 * |b| + 2) / 3
    ensures GroupMatches(b, Sextets(b), 0)
  {
    var g := Group(b[0], b[1], b[2]);
    assert Sextets(b)[0..4] == g && b[0..3] == [b[0], b[1], b[2]];
    hide Sextets, Big, Group;
    WholeGroup(b[0], b[1], b[2]);
  }

  lemma FirstOfTwo(b: seq<Octet>)
    requires |b| == 2 && |Sextets(b)| == 3
    ensures GroupMatches(b, Sextets(b), 0)
  {
    var v := Sextets(b);
    assert b[0..] == [b[0], b[1]] && v[0..] == [b[0] / 4, b[0] % 4 * 16 + b[1] / 16, b[1] % 16 * 4];
    hide Sextets, Big;
    TwoOctets(b[0], b[1]);
  }

  lemma FirstOfOne(b: seq<Octet>)
    requires |b| == 1 && |Sextets(b)| == 2
    ensures GroupMatches(b, Sextets(b), 0)
  {
    var v := Sextets(b);
    assert b[0..] == [b[0]] && v[0..] == [b[0] / 4, b[0] % 4 * 16];
    hide Sextets, Big;
    OneOctet(b[0]);
  }

  lemma WholeGroup(a: Octet, b: Octet, c: Octet)
    ensures Big([a, b, c], 256) == Big(Group(a, b, c), 64)
  {
    hide Big;
    var v := Group(a, b, c);
    BigOf(a, b, c, 0, 256);
    BigOf(v[0], v[1], v[2], v[3], 64);
    assert v == [v[0], v[1], v[2], v[3]];
  }

  lemma TwoOctets(a: Octet, b: Octet)
    ensures Big([a, b], 256) * 4 == Big([a / 4, a % 4 * 16 + b / 16, b % 16 * 4], 64)
  {
    hide Big;
    BigOf(a, b, 0, 0, 256);
    BigOf(a / 4, a % 4 * 16 + b / 16, b % 16 * 4, 0, 64);
  }

  lemma OneOctet(a: Octet)
    ensures Big([a], 256) * 16 == Big([a / 4, a % 4 * 16], 64)
  {
    hide Big;
    BigOne(a, 256);
    BigOf(a / 4, a % 4 * 16, 0, 0, 64);
  }

  /** The encoded text has one letter for each sextet, the one of the URL-safe alphabet, and no padding. */
  lemma EncodeAlphabet(b: seq<Octet>)
    ensures |Encode(b)| == |Sextets(b)|
    ensures forall i :: 0 <= i < |Encode(b)| ==> Encode(b)[i] == UrlLetter(Sextets(b)[i])
  {
    hide Encode, Sextets, Letter, UrlLetter;
    EncodeIs(b);
    forall i | 0 <= i < |Encode(b)| ensures Encode(b)[i] == UrlLetter(Sextets(b)[i]) {
      UrlLetterIs(Sextets(b)[i]);
    }
  }

  lemma UrlLetterIs(n: Sextet)
    ensures ToUrl(Letter(n)) == UrlLetter(n)
  {}

  lemma {:induction false} StripsPad(body: string, pad: string)
    requires forall i :: 0 <= i < |body| ==> body[i] != '='
    requires forall i :: 0 <= i < |pad| ==> pad[i] == '='
    ensures StripPad(body + pad) == body
    decreases |pad|
  {
    if pad == "" {
      assert body + pad == body;
    } else {
      StripsPad(body, pad[..|pad| - 1]);
      assert (body + pad)[..|body + pad| - 1] == body + pad[..|pad| - 1];
    }
  }

  lemma PaddedBack(b: seq<Octet>)
    ensures Each(FromUrl, Padded(Encode(b))) == Letters(Sextets(b)) + PadOf(b)
  {
    hide Letter, Btoa, Sextets, Encode, FromUrl, ToUrl, Padded, PadOf;
    BtoaIs(b);
    EncodeIs(b);
    var v := Sextets(b);
    PadsBack(Encode(b), b);
    EqualsStays();
    PadIsEquals(b);
    forall i | 0 <= i < |v| ensures FromUrl(Encode(b)[i]) == Letter(v[i]) { LetterFacts(v[i]); }
    assert forall i :: 0 <= i < |v| + |PadOf(b)| ==>
      Each(FromUrl, Encode(b) + PadOf(b))[i] == (Letters(v) + PadOf(b))[i];
  }

  lemma PadIsEquals(b: seq<Octet>)
    ensures forall i :: 0 <= i < |PadOf(b)| ==> PadOf(b)[i] == '='
  {
  }

  /** The re-added padding is the one that was stripped. */
  lemma PadsBack(s: string, b: seq<Octet>)
    requires (|s| + |PadOf(b)|) % 4 == 0
    ensures Padded(s) == s + PadOf(b)
  {
  }

  lemma EqualsStays()
    ensures FromUrl('=') == '=' && !Space('=')
  {
  }

  lemma UnpadsTo(body: string, b: seq<Octet>)
    requires forall i :: 0 <= i < |body| ==> body[i] != '='
    requires (|body| + |PadOf(b)|) % 4 == 0
    ensures Unpad(body + PadOf(b)) == body
  {
    var s := body + PadOf(b);
    if |PadOf(b)| == 2 {
      assert s[..|s| - 2] == body;
    } else if |PadOf(b)| == 1 {
      assert s[..|s| - 1] == body;
    } else {
      assert s == body;
    }
  }

  /** Decoding inverts unpadded encoding on every byte array. */
  lemma RoundTrip(b: seq<Octet>)
    ensures Decode(Encode(b)) == Some(b)
  {
    hide Letter, Btoa, Sextets, Encode, Padded, StripSpaces, Unpad, Values, Regroup, Space;
    BtoaIs(b);
    PaddedBack(b);
    var v := Sextets(b);
    var s := Letters(v) + PadOf(b);
    EqualsStays();
    forall i | 0 <= i < |v| ensures Letters(v)[i] != '=' && !Space(Letters(v)[i]) { LetterFacts(v[i]); }
    NoSpaces(s);
    UnpadsTo(Letters(v), b);
    ValuesOfLetters(v);
    RegroupSextets(b);
  }

  // ---- What the decoder takes ----

  /** The characters of either alphabet. */
  predicate Digit64(c: char) {
    'A' <= c <= 'Z' || 'a' <= c <= 'z' || '0' <= c <= '9' || c == '-' || c == '_' || c == '+' || c == '/'
  }

  lemma {:induction false} ValuesKnown(s: string)
    ensures Values(s).Some? <==> forall i :: 0 <= i < |s| ==> Value(s[i]).Some?
  {
    if s != "" {
      ValuesKnown(s[1..]);
      assert forall i :: 0 < i < |s| ==> s[i] == s[1..][i - 1];
    }
  }

  lemma DigitKnown(c: char)
    ensures Value(FromUrl(c)).Some? <==> Digit64(c)
    ensures c != '=' && !Space(c) ==> FromUrl(c) != '=' && !Space(FromUrl(c))
  {}

  lemma UnpadsThree(body: string)
    requires |body| % 4 == 1
    ensures Unpad(body + "===") == body + "="
  {
    var s := body + "===";
    assert s[..|s| - 2] == body + "=";
  }

  function PadFor(s: string): string {
    "==="[..(4 - |s| % 4) % 4]
  }

  lemma PadForIs(s: string)
    ensures (|s| + |PadFor(s)|) % 4 == 0 && forall i :: 0 <= i < |PadFor(s)| ==> PadFor(s)[i] == '='
    ensures if |s| % 4 == 1 then PadFor(s) == "===" else |PadFor(s)| <= 2
    ensures Padded(s) == s + PadFor(s)
  {}

  lemma EachConcat(a: string, b: string)
    ensures Each(FromUrl, a + b) == Each(FromUrl, a) + Each(FromUrl, b)
  {
    hide FromUrl;
    assert forall i :: 0 <= i < |a| + |b| ==> Each(FromUrl, a + b)[i] == (Each(FromUrl, a) + Each(FromUrl, b))[i];
  }

  lemma EachPadded(s: string)
    ensures Each(FromUrl, Padded(s)) == Each(FromUrl, s) + PadFor(s)
  {
    hide FromUrl, PadFor, Padded;
    PadForIs(s);
    EachConcat(s, PadFor(s));
    EqualsStays();
    assert Each(FromUrl, PadFor(s)) == PadFor(s);
  }

  /** The characters of `body` and its padding, once the padding is taken off again. */
  lemma PaddingOff(s: string, body: string)
    requires |body| == |s| && forall i :: 0 <= i < |body| ==> body[i] != '='
    ensures Unpad(body + PadFor(s)) == body + if |s| % 4 == 1 then "=" else ""
  {
    hide Unpad, PadFor;
    PadForIs(s);
    if |s| % 4 == 1 {
      UnpadsThree(body);
    } else {
      PaddingGoes(body, PadFor(s));
      assert body + "" == body;
    }
  }

  lemma SpacesStay(s: string, body: string)
    requires forall i :: 0 <= i < |body| ==> !Space(body[i])
    ensures StripSpaces(body + PadFor(s)) == body + PadFor(s)
  {
    hide Space, StripSpaces, PadFor;
    PadForIs(s);
    EqualsStays();
    NoSpaces(body + PadFor(s));
  }

  /** What is decoded of a text without spaces and padding: its own characters, and one equals sign too many if its length
    * cannot be that of any group. */
  lemma Stripped(s: string)
    requires forall i :: 0 <= i < |s| ==> s[i] != '=' && !Space(s[i])
    ensures Unpad(StripSpaces(Each(FromUrl, Padded(s)))) == Each(FromUrl, s) + if |s| % 4 == 1 then "=" else ""
  {
    hide FromUrl, Space, Unpad, StripSpaces, Padded, PadFor;
    var body := Each(FromUrl, s);
    EachPadded(s);
    forall i | 0 <= i < |s| ensures body[i] != '=' && !Space(body[i]) { DigitKnown(s[i]); }
    SpacesStay(s, body);
    PaddingOff(s, body);
  }

  lemma PaddingGoes(body: string, pad: string)
    requires |pad| <= 2 && (|body| + |pad|) % 4 == 0
    requires (forall i :: 0 <= i < |pad| ==> pad[i] == '=') && (forall i :: 0 <= i < |body| ==> body[i] != '=')
    ensures Unpad(body + pad) == body
  {
    var s := body + pad;
    if |pad| == 2 { assert s[..|s| - 2] == body; }
    else if |pad| == 1 { assert s[..|s| - 1] == body; }
    else { assert s == body; }
  }

  /** A text without spaces and padding is decoded exactly when its length is that of whole octets and every character is in
    * one of the two alphabets; anything else is refused. */
  lemma DecodeAcceptsIff(s: string)
    requires forall i :: 0 <= i < |s| ==> s[i] != '=' && !Space(s[i])
    ensures Decode(s).Some? <==> |s| % 4 != 1 && forall i :: 0 <= i < |s| ==> Digit64(s[i])
  {
    hide FromUrl, Space, Unpad, StripSpaces, Padded, Regroup, Value, Digit64;
    Stripped(s);
    var body := Each(FromUrl, s);
    forall i | 0 <= i < |s| ensures Value(body[i]).Some? <==> Digit64(s[i]) { DigitKnown(s[i]); }
    if |s| % 4 == 1 {
      ValuesKnown(body + "=");
      EqualsIsNoDigit();
      assert (body + "=")[|s|] == '=';
    } else {
      assert body + "" == body;
      ValuesKnown(body);
    }
  }

  lemma EqualsIsNoDigit()
    ensures Value('=').None?
  {}

  // ---- The pair offer ----

  datatype Offer = Offer(version: int, daemonIdentityPublicKey: string, serviceName: string)

  /** The offer under one-letter keys. */
  datatype Wire = Wire(v: int, k: string, s: string)

  /** JSON text of a wire offer, as code units. */
  datatype Json = Json(stringify: Wire -> seq<Utf8.Unit>, parse: seq<Utf8.Unit> -> Option<Wire>)

  const BOM: Utf8.Unit := 0xFEFF

  /** What JSON promises for one value: it reads back, its text is well-formed UTF-16 and starts with no byte order mark. */
  predicate Faithful(j: Json, w: Wire) {
    var text := j.stringify(w);
    j.parse(text) == Some(w) && Utf8Standard.WellFormed16(text, 0) && (text != [] ==> text[0] != BOM)
  }

  function ToWire(o: Offer): Wire { Wire(o.version, o.daemonIdentityPublicKey, o.serviceName) }

  function FromWire(w: Wire): Offer { Offer(w.v, w.k, w.s) }

  /** The text decoder drops a leading byte order mark. */
  function DecodeText(bytes: seq<Octet>): seq<Utf8.Unit> {
    var text := Utf8.Decode(BytesOf(bytes), 0);
    if text != [] && text[0] == BOM then text[1..] else text
  }

  function EncodePairOffer(j: Json, o: Offer): string {
    Encode(OctetsOf(Utf8.Encode(j.stringify(ToWire(o)), 0)))
  }

  function DecodePairOffer(j: Json, payload: string): Option<Offer> {
    var bytes := Decode(payload);
    if bytes.None? then None
    else
      var w := j.parse(DecodeText(bytes.value));
      if w.None? then None else Some(FromWire(w.value))
  }

  /** Every pair offer survives its wire form. */
  lemma PairOfferSurvives(j: Json, o: Offer)
    requires Faithful(j, ToWire(o))
    ensures DecodePairOffer(j, EncodePairOffer(j, o)) == Some(o)
  {
    hide Encode, Decode, Utf8Standard.WellFormed16;
    var text := j.stringify(ToWire(o));
    RoundTrip(OctetsOf(Utf8.Encode(text, 0)));
    SameBytes(Utf8.Encode(text, 0));
    Utf8.RoundTrip(text);
  }
}
