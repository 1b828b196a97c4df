/**
 * Fixed-width integers and the lower-case hexadecimal encoding that Go's
 * `fmt.Sprintf("%02x", b)` produces for a non-empty byte array or slice: two
 * digits per byte, most significant nibble first, digits `0-9a-f`. (For an
 * empty slice Go pads to "00"; every buffer the probe prints is non-empty.)
 */
module Bytes {
  import opened Wrappers

  type byte = b: int | 0 <= b < 0x100
  type uint8 = x: int | 0 <= x < 0x100
  type uint32 = x: int | 0 <= x < 0x1_0000_0000
  type int32 = x: int | -0x8000_0000 <= x < 0x8000_0000

  const TwoTo64: int := 0x1_0000_0000_0000_0000

  /** Go's `uint64(x)` conversion: two's-complement wrap-around. */
  function Uint64(x: int): (r: nat)
    ensures r < TwoTo64
    ensures 0 <= x < TwoTo64 ==> r == x
    ensures x < 0 && -TwoTo64 <= x ==> r == x + TwoTo64
  {
    x % TwoTo64
  }

  /** A lower-case hexadecimal digit, as `%x` prints it. */
  predicate IsHexDigit(c: char) {
    '0' <= c <= '9' || 'a' <= c <= 'f'
  }

  function HexDigit(d: nat): (c: char)
    requires d < 16
    ensures IsHexDigit(c)
  {
    if d < 10 then ('0' as int + d) as char else ('a' as int + d - 10) as char
  }

  function DigitValue(c: char): (r: Option<nat>)
    ensures r.Some? <==> IsHexDigit(c)
    ensures r.Some? ==> r.value < 16 && HexDigit(r.value) == c
  {
    if '0' <= c <= '9' then Some(c as int - '0' as int)
    else if 'a' <= c <= 'f' then Some(c as int - 'a' as int + 10)
    else None
  }

  /** The two characters `%02x` writes for one byte. */
  function HexByte(b: byte): (r: string)
    ensures |r| == 2 && IsHexDigit(r[0]) && IsHexDigit(r[1])
    ensures DigitValue(r[0]) == Some(b / 16) && DigitValue(r[1]) == Some(b % 16)
  {
    [HexDigit(b / 16), HexDigit(b % 16)]
  }

  /** `%02x` applied to a non-empty byte array: the concatenation of each byte's two digits. */
  function Hex(s: seq<byte>): (r: string)
    ensures |r| == 2 * |s|
  {
    if s == [] then "" else HexByte(s[0]) + Hex(s[1..])
  }

  /** The encoding uses lower-case hexadecimal digits only. */
  lemma {:induction false} HexDigitsOnly(s: seq<byte>)
    ensures forall i :: 0 <= i < |Hex(s)| ==> IsHexDigit(Hex(s)[i])
  {
    if s != [] {
      HexDigitsOnly(s[1..]);
      var h := Hex(s);
      assert h == HexByte(s[0]) + Hex(s[1..]);
      forall i | 0 <= i < |h| ensures IsHexDigit(h[i]) {
        if i >= 2 {
          assert h[i] == Hex(s[1..])[i - 2];
        }
      }
    }
  }

  /** Decodes lower-case hexadecimal text; fails on odd length or a non-digit. */
  function Unhex(t: string): (r: Option<seq<byte>>)
    decreases |t|
  {
    if t == [] then Some([])
    else if |t| == 1 then None
    else match (DigitValue(t[0]), DigitValue(t[1]), Unhex(t[2..]))
      case (Some(hi), Some(lo), Some(rest)) => Some([hi * 16 + lo] + rest)
      case _ => None
  }

  /** Every encoding decodes back to the bytes it came from. */
  lemma {:induction false} UnhexHex(s: seq<byte>)
    ensures Unhex(Hex(s)) == Some(s)
  {
    if s != [] {
      var t := Hex(s);
      assert t == HexByte(s[0]) + Hex(s[1..]);
      assert t[2..] == Hex(s[1..]);
      UnhexHex(s[1..]);
      assert (s[0] / 16) * 16 + s[0] % 16 == s[0];
      assert [s[0]] + s[1..] == s;
    }
  }

  /** Hence distinct byte strings have distinct encodings. */
  lemma HexInjective(a: seq<byte>, b: seq<byte>)
    ensures Hex(a) == Hex(b) <==> a == b
  {
    UnhexHex(a);
    UnhexHex(b);
  }

  /** The first `n` bytes of `s` are all zero (vacuously so when `n == 0`). */
  predicate ZeroPrefix(s: seq<byte>, n: nat)
    requires n <= |s|
  {
    forall i :: 0 <= i < n ==> s[i] == 0
  }
}
