/**
 * Machine dimensions and the fixed-width unsigned integers of the interpreter.
 * The Rust `arch` module that defines the dimensions is not part of this
 * model; the values below are the conventional CHIP-8 ones.
 */
module Arch {
  /** `u8`, `u16`, `u32`: arithmetic that leaves the range is a proof obligation, as it is a panic in the source. */
  newtype uint8 = x: int | 0 <= x < 0x100
  newtype uint16 = x: int | 0 <= x < 0x1_0000
  newtype uint32 = x: int | 0 <= x < 0x1_0000_0000

  const RamSize: int := 4096
  const DisplayWidth: int := 64
  const DisplayHeight: int := 32
  const StackSize: int := 16
  const NSprites: int := 16
  const NVRegs: int := 16
  /** Number of keys on the hexadecimal keypad. */
  const NKeys: int := 16

  /** Bitwise operators on bytes, computed on the 8-bit vector of each operand. */
  function BitOr(a: uint8, b: uint8): uint8 { ((a as bv8) | (b as bv8)) as uint8 }
  function BitAnd(a: uint8, b: uint8): uint8 { ((a as bv8) & (b as bv8)) as uint8 }
  function BitXor(a: uint8, b: uint8): uint8 { ((a as bv8) ^ (b as bv8)) as uint8 }
}
