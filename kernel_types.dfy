/**
 * Vocabulary both modelled parts of the kernel share: the fixed-width
 * unsigned integers of C and an optional value (a pointer that may be NULL).
 */
module KernelTypes {

  const U32_LIMIT: nat := 0x1_0000_0000

  /** An `unsigned int` (`u32`) of the kernel. */
  type U32 = n: nat | n < U32_LIMIT

  /** A `u8`, the width of a pointer tag. */
  type U8 = n: nat | n < 0x100

  /** Unsigned 32-bit addition, wrapping as C does. */
  function AddU32(a: U32, b: U32): (r: U32)
    ensures a + b < U32_LIMIT ==> r == a + b
    ensures a + b >= U32_LIMIT ==> r == a + b - U32_LIMIT
  {
    (a + b) % U32_LIMIT
  }

  datatype Option<T> = None | Some(value: T)
}
