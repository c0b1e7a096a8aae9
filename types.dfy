/** Machine integer types used by the firmware and the C arithmetic on them. */
module Types {

  const U32_MODULUS: int := 0x1_0000_0000

  /** uint8_t */
  newtype u8 = x: int | 0 <= x < 0x100

  /** uint32_t */
  newtype u32 = x: int | 0 <= x < 0x1_0000_0000

  /** Unsigned 32-bit addition `a + b` in C: the sum wraps modulo 2^32. */
  function Add32(a: u32, b: u32): (r: u32)
    ensures a as int + b as int < U32_MODULUS ==> r as int == a as int + b as int
    ensures a as int + b as int >= U32_MODULUS ==> r as int == a as int + b as int - U32_MODULUS
  {
    ((a as int + b as int) % U32_MODULUS) as u32
  }

  /** Unsigned 32-bit subtraction `a - b` in C: the difference wraps modulo 2^32. */
  function Sub32(a: u32, b: u32): (r: u32)
    ensures b <= a ==> r as int == a as int - b as int
    ensures a < b ==> r as int == a as int - b as int + U32_MODULUS
  {
    ((a as int - b as int) % U32_MODULUS) as u32
  }
}
