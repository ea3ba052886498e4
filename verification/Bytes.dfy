/** Bytes, big-endian 32-bit words and the Go integer conversions the step log uses. */
module Bytes {

  type byte = x: int | 0 <= x < 256

  const TWO_32 := 0x1_0000_0000
  const MAX_INT64 := 0x7FFF_FFFF_FFFF_FFFF

  datatype Option<+T> = None | Some(value: T)

  function Min(a: int, b: int): int {
    if a <= b then a else b
  }

  /** Go's `uint32(x)` for any int: two's complement truncation. */
  function ToUint32(x: int): (u: int)
    ensures 0 <= u < TWO_32
  {
    x % TWO_32
  }

  /** Go's `int32(u)` for a uint32. */
  function ToInt32(u: int): int {
    if u < 0x8000_0000 then u else u - TWO_32
  }

  predicate IsInt32(x: int) {
    -0x8000_0000 <= x < 0x8000_0000
  }

  /** Reading an int through uint32 and back loses nothing exactly for the int32 values. */
  lemma Int32RoundTrip(x: int)
    ensures ToInt32(ToUint32(x)) == x <==> IsInt32(x)
  {
    if 0 <= x < TWO_32 {
      assert ToUint32(x) == x;
    } else if -TWO_32 <= x < 0 {
      assert ToUint32(x) == x + TWO_32;
    }
  }

  /** binary.BigEndian.PutUint32 */
  function PutUint32(n: int): (b: seq<byte>)
    requires 0 <= n < TWO_32
    ensures |b| == 4
  {
    [n / 0x100_0000, n / 0x1_0000 % 256, n / 256 % 256, n % 256]
  }

  /** binary.BigEndian.Uint32 */
  function Uint32(b: seq<byte>): (n: int)
    requires |b| == 4
    ensures 0 <= n < TWO_32
  {
    (b[0] as int) * 0x100_0000 + (b[1] as int) * 0x1_0000 + (b[2] as int) * 256 + b[3] as int
  }

  /** The most significant byte comes first. */
  lemma BigEndian(b: seq<byte>)
    requires |b| == 4
    ensures Uint32(b) == ((b[0] as int * 256 + b[1] as int) * 256 + b[2] as int) * 256 + b[3] as int
    ensures PutUint32(Uint32(b)) == b
  {
    var n := Uint32(b);
    var a := n / 256;
    var c := a / 256;
    assert a == (b[0] as int * 256 + b[1] as int) * 256 + b[2] as int && n % 256 == b[3] as int;
    assert c == b[0] as int * 256 + b[1] as int && a % 256 == b[2] as int;
    assert n / 0x1_0000 == c && n / 0x100_0000 == c / 256;
  }

  lemma Uint32RoundTrip(n: int)
    requires 0 <= n < TWO_32
    ensures Uint32(PutUint32(n)) == n
  {
    var a := n / 256;
    var c := a / 256;
    assert n / 0x1_0000 == c;
    assert n / 0x100_0000 == c / 256;
  }

  lemma Associates<T>(a: seq<T>, b: seq<T>, c: seq<T>)
    ensures (a + b) + c == a + (b + c)
  {
  }
}
