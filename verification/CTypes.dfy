/** Sizes of the C types the program computes with. */
module CTypes {
  type Byte = b: int | 0 <= b < 256

  const MIB: nat := 1048576
  const ULONG_MAX: int := 0xFFFF_FFFF_FFFF_FFFF  // unsigned long is 64 bits wide
  const LONG_MAX: int := 0x7FFF_FFFF_FFFF_FFFF
  const INT_MAX: int := 0x7FFF_FFFF

  predicate IsInt32(n: int) {
    -INT_MAX - 1 <= n <= INT_MAX
  }
}
