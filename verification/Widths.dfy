/** The widths of the machine integers the models below wrap around at. */
module Widths {
  const TWO_TO_THE_32 := 0x1_0000_0000

  const TWO_TO_THE_64 := 0x1_0000_0000_0000_0000
}
