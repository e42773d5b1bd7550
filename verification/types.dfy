/**
 * Machine types, observable events and radio register constants shared by the
 * OOK transmitter model.  The widths are those of the AVR Arduino targets the
 * library is written for: `byte` is 8 bits, `unsigned int` and `int` are 16 bits,
 * `unsigned long` is 32 bits.
 */
module OokTypes {

  type byte = x: int | 0 <= x < 0x100
  type uint16 = x: int | 0 <= x < 0x1_0000
  type int16 = x: int | -0x8000 <= x < 0x8000
  /** A `char`, which is signed on the AVR targets. */
  type int8 = x: int | -0x80 <= x < 0x80

  /** Processing-delay correction subtracted from every HIGH hold and added to every LOW hold. */
  const Correction: int := 150

  /** Register addresses and values of the RFM69 transceiver that the transmitter touches. */
  const RegOpMode: byte := 0x01
  const RegDataModul: byte := 0x02
  /** Operating mode "transmitter". */
  const OpModeTransmitter: byte := 0x0C
  /** Data mode "continuous without bit synchroniser" (0x60) combined with OOK modulation (0x08). */
  const DataModulOokContinuous: byte := 0x68

  /**
   * One effect on the outside world, in the order it happens:
   * pinMode(pin, OUTPUT), digitalWrite(pin, level), delayMicroseconds, delay,
   * and a write into a transceiver register.
   * A DelayUs carries the value delayMicroseconds receives in its 16-bit
   * `unsigned int` parameter, a DelayMs the value delay receives.
   */
  datatype Event =
    | PinOutput(pin: byte)
    | PinWrite(pin: byte, high: bool)
    | DelayUs(us: uint16)
    | DelayMs(ms: nat)
    | RegWrite(addr: byte, value: byte)

  /**
   * The conversion of a computed delay into delayMicroseconds' 16-bit unsigned
   * parameter: reduction modulo 2^16, so a negative request becomes a long one.
   */
  function UsArg(v: int): (us: uint16)
    ensures 0 <= v < 0x1_0000 ==> us == v
    ensures -0x1_0000 <= v < 0 ==> us == v + 0x1_0000
  {
    v % 0x1_0000
  }

  /**
   * The two durations (in microseconds) one pulse primitive call is asked for:
   * `first` is l1 / on, `second` is l2 / off.
   */
  datatype Pulse = Pulse(first: int, second: int)

  /** The transmitter's configuration fields, as one value. */
  datatype OokParams = OokParams(pin: byte, periodUs: uint16, repeats: byte, repDly: byte)
}
