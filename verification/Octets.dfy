/** Bytes as numbers, and as the bit vectors the UTF-8 codec works on. */
module Octets {
  import Utf8

  type Octet = n: nat | n < 256

  function OctetOf(b: Utf8.Byte): Octet {
    OctetRange(b);
    b as int
  }

  lemma OctetRange(b: Utf8.Byte)
    ensures 0 <= b as int < 256
  {
  }

  function ByteOf(n: Octet): Utf8.Byte { n as Utf8.Byte }

  lemma SameByte(b: Utf8.Byte)
    ensures ByteOf(OctetOf(b)) == b
  {
  }

  function OctetsOf(bytes: seq<Utf8.Byte>): seq<Octet> {
    if bytes == [] then [] else [OctetOf(bytes[0])] + OctetsOf(bytes[1..])
  }

  function BytesOf(octets: seq<Octet>): seq<Utf8.Byte> {
    if octets == [] then [] else [ByteOf(octets[0])] + BytesOf(octets[1..])
  }

  lemma {:induction false} SameBytes(bytes: seq<Utf8.Byte>)
    ensures BytesOf(OctetsOf(bytes)) == bytes
  {
    hide OctetOf, ByteOf;
    if bytes != [] {
      SameByte(bytes[0]);
      SameBytes(bytes[1..]);
    }
  }
}
