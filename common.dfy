/** Small vocabulary shared by the decoder, the mixer and the two effect adapters. */
module Common {

  /** A value or its absence: C#'s `null` results and nullable references. */
  datatype Option<+T> = None | Some(value: T)

  /** One byte of a file, as the unsigned value a BinaryReader sees. */
  type Byte = b: int | 0 <= b < 256

  const INT_MAX: int := 0x7FFF_FFFF

  /** C#'s `(int)` cast of a floating-point value: truncation toward zero. */
  function Trunc(x: real): (n: int)
    ensures x >= 0.0 ==> n as real <= x < n as real + 1.0
    ensures x < 0.0 ==> n as real - 1.0 < x <= n as real
  {
    if x >= 0.0 then x.Floor else -((-x).Floor)
  }

  function MaxReal(a: real, b: real): real { if a >= b then a else b }

  function MinReal(a: real, b: real): real { if a <= b then a else b }

  /** `Math.Max(lo, Math.Min(hi, x))`. */
  function Clamp(x: real, lo: real, hi: real): (r: real)
    requires lo <= hi
    ensures lo <= r <= hi
    ensures lo <= x <= hi ==> r == x
  {
    MaxReal(lo, MinReal(hi, x))
  }
}
