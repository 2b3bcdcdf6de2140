/**
 * The state shared by the interrupt service routines of the two-switch
 * debounce program: the port-1 registers it touches, the interrupt flags and
 * enables it reads and writes, an abstraction of the watchdog control
 * register, and the program's global variables.
 */
module Registers {

  /** A bit position in an 8-bit register or `unsigned char`. */
  newtype Bit = b: int | 0 <= b < 8

  /**
   * An 8-bit value, given by the positions of its 1 bits: `x | m` is `x + m`,
   * `x & ~m` is `x - m`, `x & m` is `x * m` and `x ^ m` is `Xor(x, m)`.
   */
  type Byte = set<Bit>

  /** `x & m` is not zero: `x` and `m` share a bit. */
  predicate Has(x: Byte, m: Byte)
  {
    !(x !! m)
  }

  /** Bitwise exclusive or. */
  function Xor(x: Byte, m: Byte): (r: Byte)
    ensures forall b: Bit :: b in r <==> (b in x <==> b !in m)
  {
    (x - m) + (m - x)
  }

  /** An `unsigned char` global used as a number. */
  newtype uint8 = x: int | 0 <= x < 256

  /** The C pre-increment of an `unsigned char`: one more, wrapping 255 to 0. */
  function Inc(c: uint8): uint8
  {
    if c == 255 then 0 else c + 1
  }

  const BIT0: Byte := {0}
  const BIT1: Byte := {1}
  const BIT2: Byte := {2}
  const BIT3: Byte := {3}
  const BIT4: Byte := {4}
  const BIT5: Byte := {5}
  const BIT6: Byte := {6}
  const BIT7: Byte := {7}

  /** Bits of `Pressed` and `PressRelease`. */
  const S1: Byte := {0}
  const S2: Byte := {1}

  /** Number of watchdog ticks that makes a press a long press. */
  const TIMEHOLD: uint8 := 47

  /** The four outputs driven in turn by the mode cycler. */
  const CycleLeds: Byte := BIT5 + BIT4 + BIT2 + BIT1

  /** The two press LEDs, which are also the long-press LEDs. */
  const PressLeds: Byte := BIT0 + BIT6

  /**
   * One snapshot of everything the handlers read or write.
   *  - p1out, p1ie, p1ies, p1ifg: the port-1 output, interrupt-enable,
   *    edge-select and interrupt-flag registers (only bit 3 of the last three
   *    is used by the program);
   *  - nmiIE, nmiIFG: the NMIIE bit of IE1 and the NMIIFG bit of IFG1;
   *  - wdtArmed: the watchdog runs in interval mode (not held);
   *  - nmiFalling: the WDTNMIES bit of WDTCTL, set when the NMI pin is
   *    expected to see a falling edge next;
   *  - the globals Pressed, PressRelease, PressCountS1, PressCountS2 and
   *    NormalMode.
   */
  datatype Regs = Regs(
    p1out: Byte,
    p1ie: Byte,
    p1ies: Byte,
    p1ifg: Byte,
    nmiIE: bool,
    nmiIFG: bool,
    wdtArmed: bool,
    nmiFalling: bool,
    pressed: Byte,
    pressRelease: Byte,
    pressCountS1: uint8,
    pressCountS2: uint8,
    normalMode: uint8)

  /** The output the cycler lights when it leaves the given phase. */
  function PhaseLed(phase: uint8): (led: Byte)
    requires phase < 4
    ensures led == BIT1 || led == BIT2 || led == BIT4 || led == BIT5
    ensures led <= CycleLeds
  {
    [BIT1, BIT2, BIT4, BIT5][phase as int]
  }

  /** Exactly one of the four cycler outputs is on. */
  predicate OneCycleLed(p: Byte)
  {
    var lit := p * CycleLeds;
    lit == BIT1 || lit == BIT2 || lit == BIT4 || lit == BIT5
  }
}
