/** Lowercase hexadecimal text of a byte string, as Go's `%x` prints a byte array. */
module Hex {

  newtype byte = b: int | 0 <= b < 256

  /** The 32 bytes of a SHA-256 digest (FIPS 180-4). */
  type Digest = d: seq<byte> | |d| == 32 witness seq(32, _ => 0 as byte)

  predicate IsLowerHex(c: char) {
    ('0' <= c <= '9') || ('a' <= c <= 'f')
  }

  function HexChar(d: nat): (c: char)
    requires d < 16
    ensures IsLowerHex(c)
  {
    if d < 10 then ('0' as int + d) as char else ('a' as int + d - 10) as char
  }

  lemma HexValueOfChar(d: nat)
    requires d < 16
    ensures HexValue(HexChar(d)) == d
  {
  }

  function HexValue(c: char): (d: nat)
    requires IsLowerHex(c)
    ensures d < 16
  {
    if c <= '9' then (c as int) - ('0' as int) else (c as int) - ('a' as int) + 10
  }

  /** Two lowercase hex characters per byte, high nibble first. */
  function ToHex(bs: seq<byte>): (s: string)
    ensures |s| == 2 * |bs|
    ensures forall i :: 0 <= i < |s| ==> IsLowerHex(s[i])
  {
    if bs == [] then []
    else [HexChar(bs[0] as int / 16), HexChar(bs[0] as int % 16)] + ToHex(bs[1..])
  }

  /** Reads lowercase hex text back into bytes. */
  function FromHex(s: string): seq<byte>
    requires |s| % 2 == 0
    requires forall i :: 0 <= i < |s| ==> IsLowerHex(s[i])
  {
    if s == [] then []
    else [(16 * HexValue(s[0]) + HexValue(s[1])) as byte] + FromHex(s[2..])
  }

  lemma {:induction false} FromHexToHex(bs: seq<byte>)
    ensures FromHex(ToHex(bs)) == bs
  {
    if bs != [] {
      var s := ToHex(bs);
      var hi, lo := bs[0] as int / 16, bs[0] as int % 16;
      assert s[2..] == ToHex(bs[1..]);
      HexValueOfChar(hi);
      HexValueOfChar(lo);
      assert 16 * hi + lo == bs[0] as int;
      FromHexToHex(bs[1..]);
    }
  }

  /** The printed digest is 64 lowercase hex characters, and different digests print differently. */
  lemma DigestText(a: Digest, b: Digest)
    ensures |ToHex(a)| == 64
    ensures ToHex(a) == ToHex(b) ==> a == b
  {
    FromHexToHex(a);
    FromHexToHex(b);
  }
}
