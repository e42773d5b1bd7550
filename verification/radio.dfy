/**
 * The transceiver as the transmitter uses it: a register file that is read and
 * written one register at a time.  The SPI transfer behind each access is not
 * modelled.
 */
module RadioDriver {
  import opened OokTypes

  class RFM69 {
    /** The register file, by register address. */
    var regs: map<byte, byte>

    constructor (initial: map<byte, byte>)
      ensures regs == initial
    {
      regs := initial;
    }

    /** readReg: the current value of a register. */
    method ReadReg(addr: byte) returns (v: byte)
      requires addr in regs
      ensures v == regs[addr]
    {
      v := regs[addr];
    }

    /** writeReg: one register takes a new value, every other keeps its own. */
    method WriteReg(addr: byte, v: byte)
      modifies this
      ensures regs == old(regs)[addr := v]
    {
      regs := regs[addr := v];
    }
  }
}
