/** The sizes of machine integers. */
module MachineIntegers {
  const WORD: int := 0x1_0000_0000
  const LONG: int := 0x1_0000_0000_0000_0000
}
