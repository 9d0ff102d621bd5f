/** Standard_Integer: a 32-bit two's complement integer. C++ leaves a signed
    overflow undefined; this module models the wrap-around reading of it
    (the result is the value congruent modulo 2^32). */
module Int32 {

  const Min: int := -0x8000_0000
  const Max: int := 0x7fff_ffff
  const Modulus: int := 0x1_0000_0000

  newtype int32 = x: int | -0x8000_0000 <= x < 0x8000_0000

  /** The 32-bit value congruent to x modulo 2^32 (two's complement wrap-around). */
  function Wrap(x: int): (r: int32)
    ensures (r as int - x) % Modulus == 0
    ensures Min <= x <= Max ==> r as int == x
  {
    ((x - Min) % Modulus + Min) as int32
  }

  /** Standard_Integer subtraction, wrapping on overflow. */
  function Sub(a: int32, b: int32): (r: int32)
    ensures Min <= a as int - b as int <= Max ==> r as int == a as int - b as int
  {
    Wrap(a as int - b as int)
  }

  /** Abs of a Standard_Integer: `x >= 0 ? x : -x`, where negating the
      smallest value wraps back to itself. */
  function Abs(x: int32): (r: int32)
    ensures x as int != Min ==> r as int >= 0 && (r == x || r as int == -(x as int))
    ensures x as int == Min ==> r == x
  {
    if x >= 0 then x else Wrap(-(x as int))
  }
}
