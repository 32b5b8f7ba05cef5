/**
 * The fixed-width unsigned integer types of the C++ source, as ranges of `int`.
 * `std::uintptr_t` is taken to be 64 bits wide (an LP64 Linux target).
 */
module Ints {
  newtype u16 = x: int | 0 <= x < 0x1_0000
  newtype u32 = x: int | 0 <= x < 0x1_0000_0000
  newtype u64 = x: int | 0 <= x < 0x1_0000_0000_0000_0000
}
