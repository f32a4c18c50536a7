/**
 * `createUUID`: the name-based, SHA-1 identifier of an alias (version 5 of
 * section 4.3 of RFC 4122, in the URL name space) and its URN text form.
 * The SHA-1 digest itself is a parameter: the model treats it as an
 * arbitrary deterministic function onto 20-byte strings.
 */
module Identifier {

  type Byte = x: int | 0 <= x < 256

  /** A 20-byte SHA-1 digest. */
  type Digest = d: seq<Byte> | |d| == 20 witness seq(20, _ => 0)

  /** A Python 2 `str`: every character is one byte. */
  type ByteString = s: string | forall i :: 0 <= i < |s| ==> s[i] as int < 256

  /** `uuid.NAMESPACE_URL`, 6ba7b811-9dad-11d1-80b4-00c04fd430c8. */
  const NamespaceUrl: seq<Byte> :=
    [0x6b, 0xa7, 0xb8, 0x11, 0x9d, 0xad, 0x11, 0xd1,
     0x80, 0xb4, 0x00, 0xc0, 0x4f, 0xd4, 0x30, 0xc8]

  function Bytes(s: ByteString): (b: seq<Byte>)
    ensures |b| == |s|
  {
    seq(|s|, i requires 0 <= i < |s| => s[i] as int)
  }

  /**
   * `uuid.uuid5(NAMESPACE_URL, alias)`: the first 16 bytes of the digest of
   * the name space followed by the name, with the version (5) and the
   * variant (binary 10) written into their fields: the high four bits of
   * byte 6 and the high two bits of byte 8. Python clears and sets these
   * bits with masks; the model writes the same bits with arithmetic.
   */
  function CreateUuid(alias: ByteString, sha1: seq<Byte> -> Digest): (u: seq<Byte>)
    ensures |u| == 16
    ensures u[6] / 16 == 5 && u[8] / 64 == 2
    ensures var h := sha1(NamespaceUrl + Bytes(alias));
      (forall i :: 0 <= i < 16 && i != 6 && i != 8 ==> u[i] == h[i])
      && u[6] % 16 == h[6] % 16 && u[8] % 64 == h[8] % 64
  {
    var h := sha1(NamespaceUrl + Bytes(alias));
    h[..6] + [h[6] % 16 + 0x50] + h[7..8] + [h[8] % 64 + 0x80] + h[9..16]
  }

  /** The lower-case hexadecimal digit of a nibble. */
  function HexDigit(v: int): (c: char)
    requires 0 <= v < 16
  {
    if v < 10 then ('0' as int + v) as char else ('a' as int + v - 10) as char
  }

  function HexValue(c: char): (v: int)
    ensures 0 <= v < 16
  {
    if '0' <= c <= '9' then c as int - '0' as int
    else if 'a' <= c <= 'f' then c as int - 'a' as int + 10
    else 0
  }

  /** Lower-case hexadecimal text, two digits per byte, high nibble first. */
  function Hex(bs: seq<Byte>): (r: string)
    ensures |r| == 2 * |bs|
  {
    if bs == [] then [] else [HexDigit(bs[0] / 16), HexDigit(bs[0] % 16)] + Hex(bs[1..])
  }

  /** The bytes written by a string of hexadecimal digit pairs. */
  function Unhex(s: string): (bs: seq<Byte>)
    requires |s| % 2 == 0
    ensures |bs| == |s| / 2
  {
    if s == [] then [] else [HexValue(s[0]) * 16 + HexValue(s[1])] + Unhex(s[2..])
  }

  /** A byte is its two hexadecimal digits read back. */
  lemma ByteOfHexDigits(b: Byte)
    ensures HexValue(HexDigit(b / 16)) * 16 + HexValue(HexDigit(b % 16)) == b
  {
  }

  /** Hex text reads back as the bytes it was written from. */
  lemma {:induction false} UnhexHex(bs: seq<Byte>)
    ensures Unhex(Hex(bs)) == bs
  {
    if bs != [] {
      var b := bs[0];
      var h := Hex(bs);
      assert h[0] == HexDigit(b / 16) && h[1] == HexDigit(b % 16);
      assert h[2..] == Hex(bs[1..]);
      ByteOfHexDigits(b);
      UnhexHex(bs[1..]);
      assert Unhex(h) == [b] + Unhex(Hex(bs[1..]));
    }
  }

  /** `UUID.get_urn()`: "urn:uuid:" and the 8-4-4-4-12 hex groups. */
  function Urn(u: seq<Byte>): (r: string)
    requires |u| == 16
    ensures |r| == 45 && r[..9] == "urn:uuid:"
    ensures r[17] == '-' && r[22] == '-' && r[27] == '-' && r[32] == '-'
  {
    var h := Hex(u);
    "urn:uuid:" + h[..8] + "-" + h[8..12] + "-" + h[12..16] + "-" + h[16..20] + "-" + h[20..]
  }

  /** The bytes of the UUID whose URN is `r`. */
  function UuidOfUrn(r: string): (u: seq<Byte>)
    requires |r| == 45
    ensures |u| == 16
  {
    Unhex(r[9..17] + r[18..22] + r[23..27] + r[28..32] + r[33..])
  }

  /** The URN text determines the UUID it was rendered from. */
  lemma UrnRoundTrip(u: seq<Byte>)
    requires |u| == 16
    ensures UuidOfUrn(Urn(u)) == u
  {
    var h := Hex(u);
    var r := Urn(u);
    assert r[9..17] == h[..8] && r[18..22] == h[8..12] && r[23..27] == h[12..16];
    assert r[28..32] == h[16..20] && r[33..] == h[20..];
    assert h[..8] + h[8..12] + h[12..16] + h[16..20] + h[20..] == h;
    UnhexHex(u);
  }

  lemma {:induction false} HexAt(bs: seq<Byte>, i: nat)
    requires i < |bs|
    ensures Hex(bs)[2 * i] == HexDigit(bs[i] / 16)
    ensures Hex(bs)[2 * i + 1] == HexDigit(bs[i] % 16)
  {
    if i > 0 {
      HexAt(bs[1..], i - 1);
    }
  }

  /**
   * The URN of an alias's identifier names version 5 in the first digit of
   * its third group and the RFC 4122 variant (8, 9, a or b) in the first
   * digit of its fourth group.
   */
  lemma CreateUuidUrnFields(alias: ByteString, sha1: seq<Byte> -> Digest)
    ensures var r := Urn(CreateUuid(alias, sha1));
      r[23] == '5' && r[28] in {'8', '9', 'a', 'b'}
  {
    var u := CreateUuid(alias, sha1);
    HexAt(u, 6);
    HexAt(u, 8);
    assert 8 <= u[8] / 16 < 12;
  }
}
