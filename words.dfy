/** Fixed-width machine words of the interpreter and the byte operations its
    handlers use. Integers are unbounded in Dafny, so every width is a subset
    type and every truncation is written out. */
module Words {

  /** An unsigned 8-bit value (registers, memory cells, timers). */
  type u8 = x: int | 0 <= x < 0x100

  /** An unsigned 16-bit value (program counter, index register, stack slots). */
  type u16 = x: int | 0 <= x < 0x1_0000

  /** One display cell: the interpreter only ever stores 0 and toggles with `^ 1`. */
  type bit = x: int | 0 <= x < 2

  /** `x as u8` for a wider signed or unsigned integer: keeps the low 8 bits,
      which for negative `x` is the two's complement wrap (Dafny's `%` is
      Euclidean, so the result is never negative). */
  function Wrap8(x: int): (r: u8)
    ensures (r - x) % 0x100 == 0
  {
    x % 0x100
  }

  /** `a | b` on bytes. */
  function Or(a: u8, b: u8): u8
  {
    ((a as bv8) | (b as bv8)) as int
  }

  /** `a & b` on bytes. */
  function And(a: u8, b: u8): u8
  {
    ((a as bv8) & (b as bv8)) as int
  }

  /** `a ^ b` on bytes. */
  function Xor(a: u8, b: u8): u8
  {
    ((a as bv8) ^ (b as bv8)) as int
  }
}
