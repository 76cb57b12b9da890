/** The C type size_t of an LP64 target: 64-bit unsigned, with arithmetic
    that reduces every result modulo 2^64. */
module SizeT {

  /** sizeof(size_t) in bytes. */
  const SIZE_BYTES: nat := 8

  const SIZE_MODULUS: nat := 0x1_0000_0000_0000_0000

  /** SIZE_MAX, the largest value a size_t holds. */
  const SIZE_MAX: nat := SIZE_MODULUS - 1

  type size = x: int | 0 <= x < 0x1_0000_0000_0000_0000

  /** The size_t value that C's unsigned arithmetic yields for the
      mathematical result x. */
  function Wrap(x: int): (r: size)
    ensures 0 <= x < SIZE_MODULUS ==> r == x
    ensures (x - r) % SIZE_MODULUS == 0
  {
    x % SIZE_MODULUS
  }

}
