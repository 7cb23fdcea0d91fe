/** Types and constants shared by every variant of the UBMP4 polling loop:
    the digital levels of pushbuttons and LEDs, the 8-bit `unsigned char`
    of the XC8 compiler, and the program's constants. */
module Board {

  /** A digital level: a pushbutton input (SW1..SW5) or an LED output (LED3..LED6). */
  newtype Bit = b: int | 0 <= b <= 1

  /** An `unsigned char` variable: eight bits, 0 to 255. */
  newtype Byte = b: int | 0 <= b < 256

  /** The pushbuttons are active-low: a pressed button reads 0. */
  const Pressed: Bit := 0
  const NotPressed: Bit := 1

  /** The count at which the threshold (winner) LED lights. */
  const MaxCount: Byte := 100

  /** `b++` on an `unsigned char`: the result is truncated to eight bits,
      so 255 wraps around to 0. */
  function Inc8(b: Byte): (r: Byte)
    ensures b < 255 ==> r as int == b as int + 1
    ensures b == 255 ==> r == 0
  {
    ((b as int + 1) % 256) as Byte
  }

  /** The LED level that shows a boolean state (1 lights the LED). */
  function LedOf(on: bool): Bit
  {
    if on then 1 else 0
  }
}
