/** The fixed-width unsigned integers of the program's records and arguments. */
module Numbers {

  /** An unsigned 8-bit value: derivation bumps and trade types. */
  type u8 = x: int | 0 <= x < 0x100

  /** An unsigned 64-bit value: instruction amounts and prices. */
  type u64 = x: int | 0 <= x < 0x1_0000_0000_0000_0000
}
