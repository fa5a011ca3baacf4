/**
 * Guava's `Ints.toByteArray` / `Ints.fromByteArray`: a Java `int` as four
 * big-endian two's-complement bytes.
 */
module Ints {
  import opened Wrappers
  import opened Primitives

  /** The int as an unsigned 32-bit value. */
  function Unsigned(x: i32): (u: int)
    ensures 0 <= u < TWO_32
    ensures (u - x as int) % TWO_32 == 0
  {
    if x < 0 then x as int + TWO_32 else x as int
  }

  /** `Ints.toByteArray`: most significant byte first. */
  function ToByteArray(x: i32): (b: seq<byte>)
    ensures |b| == 4
    ensures ((b[0] as int * 256 + b[1] as int) * 256 + b[2] as int) * 256 + b[3] as int == Unsigned(x)
  {
    var u := Unsigned(x);
    var b3 := u % 256;
    var u1 := u / 256;
    var b2 := u1 % 256;
    var u2 := u1 / 256;
    var b1 := u2 % 256;
    var b0 := u2 / 256;
    [b0 as byte, b1 as byte, b2 as byte, b3 as byte]
  }

  /**
   * `Ints.fromByteArray`: reads the first four bytes; an array shorter than
   * four bytes is rejected (Guava throws IllegalArgumentException).
   */
  function FromByteArray(b: seq<byte>): (r: Option<i32>)
    ensures r.Some? <==> |b| >= 4
  {
    if |b| < 4 then None
    else
      var u := ((b[0] as int * 256 + b[1] as int) * 256 + b[2] as int) * 256 + b[3] as int;
      Some((if u >= TWO_31 then u - TWO_32 else u) as i32)
  }

  /** Decoding the encoding of any int gives that int back. */
  lemma FromToByteArray(x: i32)
    ensures FromByteArray(ToByteArray(x)) == Some(x)
  {
    var b := ToByteArray(x);
    var u := ((b[0] as int * 256 + b[1] as int) * 256 + b[2] as int) * 256 + b[3] as int;
    assert u == Unsigned(x);
  }

  /** Only the first four bytes matter. */
  lemma FromByteArrayIgnoresTail(b: seq<byte>, tail: seq<byte>)
    requires |b| >= 4
    ensures FromByteArray(b + tail) == FromByteArray(b[..4])
  {
  }
}
