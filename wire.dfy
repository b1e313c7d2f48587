/** Values that cross the relay's sockets: bytes, Java `long` timestamps, the two
    control strings of the protocol and the size of the receive buffer. */
module Wire {

  /** One octet of a datagram (Java's `byte`, taken unsigned). */
  newtype byte = x: int | 0 <= x < 256

  const MinI64: int := -0x8000_0000_0000_0000
  const MaxI64: int := 0x7FFF_FFFF_FFFF_FFFF
  const TwoTo64: int := 0x1_0000_0000_0000_0000

  /** Java's `long`, the type of `System.nanoTime()` and of every measurement. */
  newtype i64 = x: int | -0x8000_0000_0000_0000 <= x < 0x8000_0000_0000_0000

  /** `a - b` on Java `long`s: two's-complement subtraction that wraps modulo 2^64.
      The result is the one `long` congruent to the exact difference. */
  function Sub64(a: i64, b: i64): (r: i64)
    ensures (a as int - b as int - r as int) % TwoTo64 == 0
    ensures MinI64 <= a as int - b as int <= MaxI64 ==> r as int == a as int - b as int
  {
    var d := a as int - b as int;
    if d > MaxI64 then (d - TwoTo64) as i64
    else if d < MinI64 then (d + TwoTo64) as i64
    else d as i64
  }

  /** Subtracting a start time of 0 never wraps: the elapsed time is the clock value itself. */
  lemma SubZero(now: i64)
    ensures Sub64(now, 0) == now
  {
  }

  /** With both timestamps non-negative (as `System.nanoTime()` values usually are) and the clock
      not gone backwards, the elapsed time is the plain, non-negative difference. */
  lemma SubOrdered(start: i64, now: i64)
    requires 0 <= start <= now
    ensures Sub64(now, start) as int == now as int - start as int >= 0
  {
  }

  predicate IsAscii(s: string) {
    forall i :: 0 <= i < |s| ==> s[i] as int < 128
  }

  /** `String.getBytes()` for a string of ASCII characters, under any ASCII-compatible charset. */
  function Ascii(s: string): (b: seq<byte>)
    requires IsAscii(s)
    ensures |b| == |s|
    ensures forall i :: 0 <= i < |s| ==> b[i] as int == s[i] as int
  {
    seq(|s|, i requires 0 <= i < |s| => s[i] as int as byte)
  }

  /** Size of the `byte[]` every receive allocates. */
  const BufferSize: nat := 1010

  /** The pull sentinel: a datagram carrying exactly these bytes asks for the box content. */
  const PullRequest: seq<byte> := Ascii("Please send me data thx")

  /** The reply to every push. */
  const Acknowledgement: seq<byte> := Ascii("Request acknowledged")

  /** The two control strings differ, and both fit in a receive buffer. */
  lemma ControlStrings()
    ensures |PullRequest| == 23 && |Acknowledgement| == 20
    ensures PullRequest != Acknowledgement
    ensures |PullRequest| < BufferSize
  {
  }
}
