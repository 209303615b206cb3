/** Small shared vocabulary: optional values, outcomes that may end in
    undefined behaviour, bytes, and C integer arithmetic. */
module Common {

  /** A possibly NULL C reference, or a field whose presence flag may be unset. */
  datatype Option<+T> = None | Some(value: T) {
    function GetOr(default: T): T {
      match this
      case Some(v) => v
      case None => default
    }
  }

  /** The result of a step of the C code that may read outside an array,
      index the string table out of range, or dereference NULL. `Crash`
      stands for that undefined behaviour: nothing after it is observable. */
  datatype Outcome<+T> = Ok(value: T) | Crash

  /** An `unsigned char`. */
  newtype Byte = x: int | 0 <= x < 256

  const TwoTo32: int := 0x1_0000_0000

  /** Conversion of a signed 32-bit protobuf field to `uint32_t`
      (two's-complement wrap-around). */
  function ToU32(x: int): (r: nat)
    ensures r < TwoTo32
    ensures 0 <= x < TwoTo32 ==> r == x
    ensures -TwoTo32 <= x < 0 ==> r == x + TwoTo32
  {
    x % TwoTo32
  }

  /** C's `/` by a positive divisor: the quotient truncated toward zero
      (Dafny's own `/` is Euclidean and rounds negative dividends down). */
  function CDiv(a: int, b: int): (q: int)
    requires b > 0
    ensures a >= 0 ==> 0 <= a - b * q < b
    ensures a < 0 ==> -b < a - b * q <= 0
  {
    if a >= 0 then
      var q := a / b;
      assert a == b * q + a % b;
      q
    else
      var q := (-a) / b;
      assert -a == b * q + (-a) % b;
      -q
  }
}
