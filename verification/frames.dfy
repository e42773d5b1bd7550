/**
 * Frame construction for the three KAKU-style protocols: pure bit arithmetic on
 * fixed-width values, with the bit layout each frame carries.
 */
module KakuFrames {
  import opened OokTypes

  /**
   * Arduino's bitRead on a 32-bit `unsigned long`: `(x >> i) & 1`.  The shift
   * amount is taken as a 5-bit value, which is exact for every bit position.
   */
  predicate Bit32(x: bv32, i: nat)
    requires i < 32
  {
    (x >> (i as bv5)) & 1 == 1
  }

  /** Arduino's bitRead on a 16-bit `int`, with the shift amount as a 4-bit value. */
  predicate Bit16(x: bv16, i: nat)
    requires i < 16
  {
    (x >> (i as bv4)) & 1 == 1
  }

  /**
   * NEW protocol frame: the handset address shifted left by six, the logical unit
   * (one less than the unit number, unless that is 0) or 0x20 for a group command,
   * and bit 0x10 for ON.
   */
  function NewFrame(addr: bv32, unit: bv32, on: bool, group: bool): bv32
  {
    var logical := if unit != 0 then unit - 1 else unit;
    var u := if group then 0x20 else logical;
    var c := (addr << 6) | u;
    if on then c | 0x10 else c
  }

  /**
   * The ON bit is always set for ON; for an address of at most 26 bits and a unit
   * up to 16 the fields do not overlap, and address, level, group flag and logical
   * unit can be read back.
   */
  lemma NewFrameLayout(addr: bv32, unit: bv32, on: bool, group: bool)
    ensures on ==> NewFrame(addr, unit, on, group) & 0x10 == 0x10
    ensures addr < 0x400_0000 && unit <= 16 ==>
              var cmd := NewFrame(addr, unit, on, group);
              && cmd >> 6 == addr
              && (cmd & 0x10 == 0x10 <==> on)
              && (cmd & 0x20 == 0x20 <==> group)
              && cmd & 0xF == (if group || unit == 0 then 0 else unit - 1)
  {
  }

  /**
   * OLD protocol frame, in a 16-bit int: fixed bits 0x600, the unit number minus
   * one shifted into bits 4..7, the house letter minus 'A' in bits 0..3, and bit 11
   * for ON.  The house letter is a signed `char`; one below 'A' makes the
   * difference negative, which fills the upper bits with ones.  A unit of 0 would
   * shift a negative value left, which the language leaves undefined, so it is
   * excluded.
   */
  function OldFrame(addr: int8, unit: bv8, on: bv8): bv16
    requires unit != 0
  {
    var house := ((addr - 'A' as int) % 0x1_0000) as bv16;
    var c := 0x600 | (((unit as bv16) - 1) << 4) | house;
    if on != 0 then c | 0x800 else c
  }

  /**
   * The fixed bits are always set, and the ON bit for ON; for houses 'A'..'P' and
   * units 1..16 the fields do not overlap and house, unit and level can be read back.
   */
  lemma OldFrameLayout(addr: int8, unit: bv8, on: bv8)
    requires unit != 0
    ensures OldFrame(addr, unit, on) & 0x600 == 0x600
    ensures on != 0 ==> OldFrame(addr, unit, on) & 0x800 == 0x800
    ensures 'A' as int <= addr <= 'P' as int && unit <= 16 ==>
              var cmd := OldFrame(addr, unit, on);
              && cmd < 0x1000
              && cmd & 0xF == (addr - 'A' as int) as bv16
              && (cmd >> 4) & 0xF == (unit - 1) as bv16
              && cmd & 0x100 == 0
              && (cmd & 0x800 == 0x800 <==> on != 0)
  {
  }

  /**
   * COGEX protocol frame, in a 16-bit int: fixed bits 0x600, the unit shifted into
   * bits 5..8, the house code shifted into bits 1..4, and bits 0 and 11 together
   * for ON.  Every byte input fits in the 16-bit int without overflow.
   */
  function CogexFrame(addr: bv8, unit: bv8, on: bv8): bv16
  {
    var c := 0x600 | ((unit as bv16) << 5) | ((addr as bv16) << 1);
    if on != 0 then c | 0x801 else c
  }

  /**
   * The fixed bits are always set, and both ON bits for ON; for house codes and
   * units below 16 the fields do not overlap and house, unit and level can be read back.
   */
  lemma CogexFrameLayout(addr: bv8, unit: bv8, on: bv8)
    ensures CogexFrame(addr, unit, on) & 0x600 == 0x600
    ensures on != 0 ==> CogexFrame(addr, unit, on) & 0x801 == 0x801
    ensures addr < 16 && unit < 16 ==>
              var cmd := CogexFrame(addr, unit, on);
              && cmd < 0x1000
              && (cmd >> 1) & 0xF == addr as bv16
              && (cmd >> 5) & 0xF == unit as bv16
              && (cmd & 1 == 1 <==> on != 0)
              && (cmd & 0x800 == 0x800 <==> on != 0)
  {
  }

  /** With the group flag set the unit number does not reach the frame at all. */
  lemma GroupIgnoresUnit(addr: bv32, u1: bv32, u2: bv32, on: bool)
    ensures NewFrame(addr, u1, on, true) == NewFrame(addr, u2, on, true)
    ensures NewFrame(addr, u1, on, true) & 0x3F == (if on then 0x30 else 0x20)
  {
  }

  /** Handset 1332798, unit 1, ON, no group: logical unit 0, level bit set. */
  lemma NewFrameExample()
    ensures NewFrame(1332798, 1, true, false) == 1332798 * 64 + 0x10
    ensures NewFrame(1332798, 1, true, true) == NewFrame(1332798, 15, true, true)
  {
  }

  /** House 'D', unit 1, ON gives 0xE03. */
  lemma OldFrameExample()
    ensures OldFrame('D' as int, 1, 1) == 0xE03
  {
    assert (('D' as int - 'A' as int) % 0x1_0000) as bv16 == 3;
  }

  /** House code 12, unit 1, ON gives 0xE39. */
  lemma CogexFrameExample()
    ensures CogexFrame(12, 1, 1) == 0xE39
  {
  }
}
