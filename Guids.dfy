/** `System.Guid` as a 128-bit value, and its canonical text form (the "D"
    format `xxxxxxxx-xxxx-xxxx-xxxx-xxxxxxxxxxxx`, lower-case hex digits)
    that string interpolation of a Guid produces. */
module Guids {

  newtype byte = b: int | 0 <= b < 256

  /** The sixteen bytes of a Guid, in the order in which their hex digits
      appear in the canonical text form. */
  type Guid = s: seq<byte> | |s| == 16 witness [0, 0, 0, 0, 0, 0, 0, 0, 0, 0, 0, 0, 0, 0, 0, 0]

  /** `Guid.Empty`, which is also `default(Guid)`. */
  const Empty: Guid := [0, 0, 0, 0, 0, 0, 0, 0, 0, 0, 0, 0, 0, 0, 0, 0]

  const HexDigits: string := "0123456789abcdef"

  function HexDigit(n: int): char
    requires 0 <= n < 16
  {
    HexDigits[n]
  }

  lemma HexDigitInjective(m: int, n: int)
    requires 0 <= m < 16 && 0 <= n < 16
    requires HexDigit(m) == HexDigit(n)
    ensures m == n
  {
  }

  /** The two lower-case hex digits of one byte, high nibble first. */
  function HexOfByte(b: byte): (s: string)
    ensures |s| == 2
  {
    [HexDigit(b as int / 16), HexDigit(b as int % 16)]
  }

  lemma HexOfByteInjective(a: byte, b: byte)
    requires HexOfByte(a) == HexOfByte(b)
    ensures a == b
  {
    HexDigitInjective(a as int / 16, b as int / 16);
    HexDigitInjective(a as int % 16, b as int % 16);
  }

  function HexOfBytes(s: seq<byte>): (r: string)
    ensures |r| == 2 * |s|
  {
    if s == [] then "" else HexOfByte(s[0]) + HexOfBytes(s[1..])
  }

  /** Two byte strings of the same length with the same hex text are equal. */
  lemma {:induction false} HexOfBytesInjective(a: seq<byte>, b: seq<byte>)
    requires |a| == |b|
    requires HexOfBytes(a) == HexOfBytes(b)
    ensures a == b
  {
    if a != [] {
      var ha, hb := HexOfBytes(a), HexOfBytes(b);
      assert ha[..2] == HexOfByte(a[0]) && hb[..2] == HexOfByte(b[0]);
      HexOfByteInjective(a[0], b[0]);
      assert ha[2..] == HexOfBytes(a[1..]) && hb[2..] == HexOfBytes(b[1..]);
      HexOfBytesInjective(a[1..], b[1..]);
      assert a == [a[0]] + a[1..] && b == [b[0]] + b[1..];
    }
  }

  /** `Guid.ToString()`: groups of 4, 2, 2, 2 and 6 bytes joined by dashes. */
  function Format(g: Guid): (r: string)
    ensures |r| == 36
    ensures r[8] == '-' && r[13] == '-' && r[18] == '-' && r[23] == '-'
  {
    HexOfBytes(g[..4]) + "-" + HexOfBytes(g[4..6]) + "-" + HexOfBytes(g[6..8]) + "-"
      + HexOfBytes(g[8..10]) + "-" + HexOfBytes(g[10..])
  }

  /** Distinct Guids have distinct text forms. */
  lemma FormatInjective(g: Guid, h: Guid)
    requires Format(g) == Format(h)
    ensures g == h
  {
    var fg, fh := Format(g), Format(h);
    assert fg[..8] == HexOfBytes(g[..4]) && fh[..8] == HexOfBytes(h[..4]);
    assert fg[9..13] == HexOfBytes(g[4..6]) && fh[9..13] == HexOfBytes(h[4..6]);
    assert fg[14..18] == HexOfBytes(g[6..8]) && fh[14..18] == HexOfBytes(h[6..8]);
    assert fg[19..23] == HexOfBytes(g[8..10]) && fh[19..23] == HexOfBytes(h[8..10]);
    assert fg[24..] == HexOfBytes(g[10..]) && fh[24..] == HexOfBytes(h[10..]);
    HexOfBytesInjective(g[..4], h[..4]);
    HexOfBytesInjective(g[4..6], h[4..6]);
    HexOfBytesInjective(g[6..8], h[6..8]);
    HexOfBytesInjective(g[8..10], h[8..10]);
    HexOfBytesInjective(g[10..], h[10..]);
    assert g == g[..4] + g[4..6] + g[6..8] + g[8..10] + g[10..];
    assert h == h[..4] + h[4..6] + h[6..8] + h[8..10] + h[10..];
  }
}
