/// The bounds of the source's unsigned integers.
module Limits {
  const U64_LIMIT: nat := 0x1_0000_0000_0000_0000
  const U64_MAX: nat := 0xffff_ffff_ffff_ffff
  const U128_LIMIT: nat := 0x1_0000_0000_0000_0000_0000_0000_0000_0000
}
