/** The machine's integer limits, where the program's arithmetic can meet them. */
module Machine {
  const TWO_64: nat := 0x1_0000_0000_0000_0000
  const MAX_INT: nat := 0x7FFF_FFFF_FFFF_FFFF
}
