/** Hexadecimal digits and the lowercase hex encoding of byte strings (CryptoJS `enc.Hex`). */
module Hex {

  type Byte = x: int | 0 <= x < 256

  /** A SHA-256 digest (section 6.2 of FIPS 180-4): exactly 32 bytes. */
  type Digest = d: seq<Byte> | |d| == 32 witness seq(32, i => 0)

  predicate IsHexDigit(c: char) {
    '0' <= c <= '9' || 'a' <= c <= 'f' || 'A' <= c <= 'F'
  }

  predicate IsLowerHexDigit(c: char) {
    '0' <= c <= '9' || 'a' <= c <= 'f'
  }

  /** The lowercase digit for `d`. */
  function HexDigit(d: nat): (c: char)
    requires d < 16
    ensures IsLowerHexDigit(c)
  {
    if d < 10 then (d + '0' as int) as char else (d - 10 + 'a' as int) as char
  }

  /** The value of a digit, in either case. */
  function HexDigitValue(c: char): (d: nat)
    requires IsHexDigit(c)
    ensures d < 16
  {
    if '0' <= c <= '9' then c as int - '0' as int
    else if 'a' <= c <= 'f' then c as int - 'a' as int + 10
    else c as int - 'A' as int + 10
  }

  lemma HexDigitRoundTrip(d: nat)
    requires d < 16
    ensures HexDigitValue(HexDigit(d)) == d
  {
  }

  /** Two lowercase hex digits for a value below 256. */
  function Hex2(n: nat): (r: string)
    requires n < 0x100
    ensures |r| == 2 && IsLowerHexDigit(r[0]) && IsLowerHexDigit(r[1])
  {
    [HexDigit(n / 16), HexDigit(n % 16)]
  }

  function Hex2Value(s: string): (n: nat)
    requires |s| == 2 && IsHexDigit(s[0]) && IsHexDigit(s[1])
    ensures n < 0x100
  {
    HexDigitValue(s[0]) * 16 + HexDigitValue(s[1])
  }

  lemma Hex2RoundTrip(n: nat)
    requires n < 0x100
    ensures Hex2Value(Hex2(n)) == n
  {
    HexDigitRoundTrip(n / 16);
    HexDigitRoundTrip(n % 16);
  }

  /** Four lowercase hex digits for a 16-bit code unit (`\uXXXX`). */
  function Hex4(n: nat): (r: string)
    requires n < 0x10000
    ensures |r| == 4
    ensures forall i | 0 <= i < 4 :: IsLowerHexDigit(r[i])
  {
    Hex2(n / 0x100) + Hex2(n % 0x100)
  }

  /** The value of four hex digits. */
  function Hex4Value(s: string): (n: nat)
    requires |s| == 4 && forall i | 0 <= i < 4 :: IsHexDigit(s[i])
    ensures n < 0x10000
  {
    Hex2Value(s[..2]) * 0x100 + Hex2Value(s[2..])
  }

  lemma Hex4RoundTrip(n: nat)
    requires n < 0x10000
    ensures Hex4Value(Hex4(n)) == n
  {
    var s := Hex4(n);
    assert s[..2] == Hex2(n / 0x100) && s[2..] == Hex2(n % 0x100);
    Hex2RoundTrip(n / 0x100);
    Hex2RoundTrip(n % 0x100);
  }

  /** Two lowercase hex digits per byte, most significant nibble first. */
  function ToHex(bytes: seq<Byte>): (r: string)
    ensures |r| == 2 * |bytes|
    ensures forall i | 0 <= i < |r| :: IsLowerHexDigit(r[i])
  {
    if bytes == [] then []
    else Hex2(bytes[0]) + ToHex(bytes[1..])
  }

  /** Decoding pairs of hex digits back into bytes. */
  function FromHex(s: string): seq<Byte>
    requires |s| % 2 == 0 && forall i | 0 <= i < |s| :: IsHexDigit(s[i])
  {
    if s == [] then [] else [Hex2Value(s[..2])] + FromHex(s[2..])
  }

  lemma {:induction false} HexRoundTrip(bytes: seq<Byte>)
    ensures FromHex(ToHex(bytes)) == bytes
  {
    if bytes != [] {
      var s := ToHex(bytes);
      assert s[..2] == Hex2(bytes[0]) && s[2..] == ToHex(bytes[1..]);
      Hex2RoundTrip(bytes[0]);
      HexRoundTrip(bytes[1..]);
    }
  }

  /** Distinct digests have distinct hex strings. */
  lemma ToHexInjective(a: seq<Byte>, b: seq<Byte>)
    requires ToHex(a) == ToHex(b)
    ensures a == b
  {
    HexRoundTrip(a);
    HexRoundTrip(b);
  }

  /** A hex-encoded digest is 64 lowercase hex characters. */
  lemma DigestHexShape(d: Digest)
    ensures |ToHex(d)| == 64
    ensures forall i | 0 <= i < 64 :: IsLowerHexDigit(ToHex(d)[i])
  {
  }
}
