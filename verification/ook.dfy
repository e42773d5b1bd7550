/**
 * The OOK transmitter object: its configuration fields, the pulse primitives that
 * drive the data pin, and the three send operations.  The pin, delay and register
 * effects are appended, in order, to a ghost trace, and each operation is proved
 * to produce exactly the trace its specification function describes.
 */
module OokTransmitter {
  import opened OokTypes
  import opened KakuFrames
  import opened KakuWaveforms
  import opened KakuProperties
  import opened RadioDriver

  /** The data pin used by the default constructor on an ATmega328 (and on unknown boards). */
  const DefaultPin: byte := 3

  /** The effects of pinMode(pin, OUTPUT) followed by digitalWrite(pin, LOW). */
  function PinInit(pin: byte): seq<Event>
  {
    [PinOutput(pin), PinWrite(pin, false)]
  }

  /** The frame of NewFrame, assembled from the logical unit the way sendKakuNew does. */
  lemma NewFrameFromUnit(addr: bv32, unit: bv32, on: bool, group: bool, u: bv32)
    requires u == (if group then 0x20 else if unit != 0 then unit - 1 else unit)
    ensures NewFrame(addr, unit, on, group) == (if on then ((addr << 6) | u) | 0x10 else (addr << 6) | u)
  {
    if group {
    } else if unit != 0 {
      assert u == unit - 1;
    } else {
      assert u == 0;
    }
  }

  /**
   * The command word of sendKakuNew: the unit made logical (one less unless 0)
   * or replaced by the group flag, the address shifted in above it, the level bit
   * for ON; an OFF command also clears the dim level.
   */
  method NewCommand(addr: bv32, unit: bv32, on: bool, group: bool, dimLevel: bv8) returns (cmd: bv32, dim: bv8)
    ensures cmd == NewFrame(addr, unit, on, group)
    ensures dim == EffectiveDim(on, dimLevel)
  {
    var u := unit;
    if u != 0 {
      u := u - 1;
    }
    if group {
      u := 0x20;
    }
    assert u == (if group then 0x20 else if unit != 0 then unit - 1 else unit);
    NewFrameFromUnit(addr, unit, on, group, u);
    cmd := (addr << 6) | u;
    dim := dimLevel;
    if on {
      cmd := cmd | 0x10;
    } else {
      dim := 0;
    }
  }

  /** The trace of a transmission, as a send operation builds it one call at a time. */
  lemma TransmissionSteps(t0: seq<Event>, mode: byte, modulation: byte, body: seq<Event>)
    ensures ((((t0 + [RegWrite(RegDataModul, DataModulOokContinuous)]) + [RegWrite(RegOpMode, OpModeTransmitter)])
              + body) + [RegWrite(RegOpMode, mode)]) + [RegWrite(RegDataModul, modulation)]
            == t0 + Transmission(mode, modulation, body)
  {
    var w1 := RegWrite(RegDataModul, DataModulOokContinuous);
    var w2 := RegWrite(RegOpMode, OpModeTransmitter);
    var w3 := RegWrite(RegOpMode, mode);
    var w4 := RegWrite(RegDataModul, modulation);
    assert (t0 + [w1]) + [w2] == t0 + [w1, w2];
    AppendAssoc(t0, [w1, w2], body);
    AppendAssoc(t0, [w1, w2] + body, [w3]);
    AppendAssoc(t0, [w1, w2] + body + [w3], [w4]);
  }

  /** Writing the two saved register values back restores the register file. */
  lemma RestoreRegisters(regs: map<byte, byte>)
    requires RegOpMode in regs && RegDataModul in regs
    ensures regs[RegDataModul := DataModulOokContinuous][RegOpMode := OpModeTransmitter]
                [RegOpMode := regs[RegOpMode]][RegDataModul := regs[RegDataModul]] == regs
  {
  }

  /**
   * The command word of sendKakuOld as its statements build it: the 16-bit int
   * assembled in one expression, then 0x800 OR-ed in for ON.  This is the
   * imperative counterpart of OldFrame, which the specification functions use;
   * the ensures ties the two together.
   */
  method OldCommand(addr: int8, unit: bv8, on: bv8) returns (cmd: bv16)
    requires unit != 0
    ensures cmd == OldFrame(addr, unit, on)
  {
    cmd := 0x600 | (((unit as bv16) - 1) << 4) | ((addr - 'A' as int) % 0x1_0000) as bv16;
    if on != 0 {
      cmd := cmd | 0x800;
    }
  }

  /**
   * The command word of sendKakuCogex as its statements build it: the 16-bit int
   * assembled in one expression, then 0x801 OR-ed in for ON.  This is the
   * imperative counterpart of CogexFrame, which the specification functions use;
   * the ensures ties the two together.
   */
  method CogexCommand(addr: bv8, unit: bv8, on: bv8) returns (cmd: bv16)
    ensures cmd == CogexFrame(addr, unit, on)
  {
    cmd := 0x600 | ((unit as bv16) << 5) | ((addr as bv16) << 1);
    if on != 0 {
      cmd := cmd | 0x801;
    }
  }

  class RFM69OOK {
    var ookDataPin: byte
    var periodUs: uint16
    var repeats: byte
    var repDly: byte
    /** Everything the object has done to the pin, the clock and the radio, in order. */
    ghost var trace: seq<Event>

    function Params(): OokParams
      reads this
    {
      OokParams(ookDataPin, periodUs, repeats, repDly)
    }

    /** Default configuration: pin 3, 300 µs period, 10 repetitions 20 ms apart; the pin is driven LOW. */
    constructor Default()
      ensures Params() == OokParams(DefaultPin, 300, 10, 20)
      ensures trace == PinInit(DefaultPin)
    {
      ookDataPin := DefaultPin;
      periodUs := 300;
      repeats := 10;
      repDly := 20;
      trace := [];
      new;
      PinMode(ookDataPin);
      DigitalWrite(ookDataPin, false);
    }

    /** Given configuration; the pin is driven LOW. */
    constructor (dataPin: byte, periodusec: uint16, reps: byte, dly: byte)
      ensures Params() == OokParams(dataPin, periodusec, reps, dly)
      ensures trace == PinInit(dataPin)
    {
      ookDataPin := dataPin;
      periodUs := periodusec;
      repeats := reps;
      repDly := dly;
      trace := [];
      new;
      PinMode(ookDataPin);
      DigitalWrite(ookDataPin, false);
    }

    /** Moves the transmitter to another pin and drives that pin LOW; the timing is kept. */
    method SetOokPin(newOokDataPin: byte)
      modifies this
      ensures Params() == old(Params()).(pin := newOokDataPin)
      ensures trace == old(trace) + PinInit(newOokDataPin)
    {
      ookDataPin := newOokDataPin;
      PinMode(ookDataPin);
      DigitalWrite(ookDataPin, false);
    }

    /** Replaces the timing; the pin and the trace are untouched. */
    method SetOokParams(periodusec: uint16, reps: byte, dly: byte)
      modifies this
      ensures Params() == OokParams(old(ookDataPin), periodusec, reps, dly)
      ensures trace == old(trace)
    {
      periodUs := periodusec;
      repeats := reps;
      repDly := dly;
    }

    // ------------------------------------------------------------------
    // Arduino and radio calls, recorded in the trace
    // ------------------------------------------------------------------

    method PinMode(pin: byte)
      modifies this`trace
      ensures trace == old(trace) + [PinOutput(pin)]
    {
      trace := trace + [PinOutput(pin)];
    }

    method DigitalWrite(pin: byte, high: bool)
      modifies this`trace
      ensures trace == old(trace) + [PinWrite(pin, high)]
    {
      trace := trace + [PinWrite(pin, high)];
    }

    /** delayMicroseconds: the computed value is converted to the 16-bit unsigned parameter. */
    method DelayMicroseconds(us: int)
      modifies this`trace
      ensures trace == old(trace) + [DelayUs(UsArg(us))]
    {
      trace := trace + [DelayUs(UsArg(us))];
    }

    method Delay(ms: nat)
      modifies this`trace
      ensures trace == old(trace) + [DelayMs(ms)]
    {
      trace := trace + [DelayMs(ms)];
    }

    method WriteRadio(radio: RFM69, addr: byte, v: byte)
      modifies radio, this`trace
      ensures radio.regs == old(radio.regs)[addr := v]
      ensures trace == old(trace) + [RegWrite(addr, v)]
    {
      radio.WriteReg(addr, v);
      trace := trace + [RegWrite(addr, v)];
    }

    // ------------------------------------------------------------------
    // Pulse primitives
    // ------------------------------------------------------------------

    /** One NEW pulse: the l1 half only when l1 is not 0, then the l2 half. */
    method OokNewKakuRfmPulse(l1: int16, l2: int16)
      requires l1 < 0x8000 - Correction && l2 < 0x8000 - Correction
      modifies this`trace
      ensures trace == old(trace) + NewPulseEvents(ookDataPin, periodUs, Pulse(l1, l2))
    {
      var corrFactor := Correction;
      if l1 != 0 {
        DigitalWrite(ookDataPin, true);
        DelayMicroseconds(periodUs - corrFactor);
        DigitalWrite(ookDataPin, false);
        DelayMicroseconds(l1 + corrFactor);
      }
      DigitalWrite(ookDataPin, true);
      DelayMicroseconds(periodUs - corrFactor);
      DigitalWrite(ookDataPin, false);
      DelayMicroseconds(l2 + corrFactor);
    }

    /** One OLD pulse: HIGH only for a non-zero `on`, then LOW for off, then the common tail. */
    method OokOldKakuRfmPulse(on: int16, off: int16)
      requires on >= -0x8000 + Correction && off < 0x8000 - Correction
      modifies this`trace
      ensures trace == old(trace) + OldPulseEvents(ookDataPin, periodUs, Pulse(on, off))
    {
      var corrFactor := Correction;
      if on != 0 {
        DigitalWrite(ookDataPin, true);
      }
      DelayMicroseconds(on - corrFactor);
      DigitalWrite(ookDataPin, false);
      DelayMicroseconds(off + corrFactor);
      DigitalWrite(ookDataPin, true);
      DelayMicroseconds(periodUs - corrFactor);
      DigitalWrite(ookDataPin, false);
      DelayMicroseconds(corrFactor + periodUs * 3);
    }

    /** One COGEX pulse: the same waveform as an OLD pulse. */
    method OokCogexRfmPulse(on: int16, off: int16)
      requires on >= -0x8000 + Correction && off < 0x8000 - Correction
      modifies this`trace
      ensures trace == old(trace) + OldPulseEvents(ookDataPin, periodUs, Pulse(on, off))
    {
      var corrFactor := Correction;
      if on != 0 {
        DigitalWrite(ookDataPin, true);
      }
      DelayMicroseconds(on - corrFactor);
      DigitalWrite(ookDataPin, false);
      DelayMicroseconds(off + corrFactor);
      DigitalWrite(ookDataPin, true);
      DelayMicroseconds(periodUs - corrFactor);
      DigitalWrite(ookDataPin, false);
      DelayMicroseconds(corrFactor + periodUs * 3);
    }

    // ------------------------------------------------------------------
    // Send operations
    // ------------------------------------------------------------------

    /**
     * sendKakuNew: saves the operating mode and modulation, switches the radio to
     * OOK transmit, sends the NEW datagram `repeats` times with repDly ms between
     * copies, and restores the two registers.
     */
    method SendKakuNew(radio: RFM69, addr: bv32, unit: bv32, on: bool, group: bool, dimLevel: bv8)
      requires RegOpMode in radio.regs && RegDataModul in radio.regs
      requires periodUs <= NewPeriodMax
      modifies radio, this`trace
      ensures radio.regs == old(radio.regs)
      ensures trace == old(trace) + NewSend(Params(), old(radio.regs[RegOpMode]), old(radio.regs[RegDataModul]),
                                            addr, unit, on, group, dimLevel)
    {
      var mode := radio.ReadReg(RegOpMode);
      var modulation := radio.ReadReg(RegDataModul);
      WriteRadio(radio, RegDataModul, DataModulOokContinuous);
      WriteRadio(radio, RegOpMode, OpModeTransmitter);
      var cmd, dim := NewCommand(addr, unit, on, group, dimLevel);
      RepeatNewDatagram(cmd, dim);
      ghost var body := Repeat(repeats, NewRepetition(Params(), cmd, dim));
      WriteRadio(radio, RegOpMode, mode);
      WriteRadio(radio, RegDataModul, modulation);
      TransmissionSteps(old(trace), mode, modulation, body);
      RestoreRegisters(old(radio.regs));
    }

    /** The repetition loop of sendKakuNew: `repeats` datagrams, each followed by a pause of repDly ms. */
    method RepeatNewDatagram(cmd: bv32, dim: bv8)
      requires periodUs <= NewPeriodMax
      modifies this`trace
      ensures trace == old(trace) + Repeat(repeats, NewRepetition(Params(), cmd, dim))
    {
      var p: int := periodUs;
      ghost var rep := NewRepetition(Params(), cmd, dim);
      var i := 0;
      while i < repeats as int
        invariant 0 <= i <= repeats as int
        invariant trace == old(trace) + Repeat(i, rep)
      {
        ghost var start := trace;
        SendNewDatagram(p, cmd, dim);
        Delay(repDly);
        AppendAssoc(start, NewEvents(ookDataPin, p, NewDatagram(p, cmd, dim)), [DelayMs(repDly)]);
        AppendAssoc(old(trace), Repeat(i, rep), rep);
        i := i + 1;
      }
    }

    /**
     * sendKakuOld: the same register bracket as sendKakuNew around `repeats` OLD
     * datagrams, each followed by a pause of repDly ms.
     */
    method SendKakuOld(radio: RFM69, addr: int8, unit: bv8, on: bv8)
      requires RegOpMode in radio.regs && RegDataModul in radio.regs
      requires periodUs <= OldPeriodMax && unit != 0
      modifies radio, this`trace
      ensures radio.regs == old(radio.regs)
      ensures trace == old(trace) + OldSend(Params(), old(radio.regs[RegOpMode]), old(radio.regs[RegDataModul]),
                                            addr, unit, on)
    {
      var mode := radio.ReadReg(RegOpMode);
      var modulation := radio.ReadReg(RegDataModul);
      WriteRadio(radio, RegDataModul, DataModulOokContinuous);
      WriteRadio(radio, RegOpMode, OpModeTransmitter);
      var cmd := OldCommand(addr, unit, on);
      RepeatOldDatagram(cmd, false);
      ghost var body := Repeat(repeats, OldRepetition(Params(), cmd));
      WriteRadio(radio, RegOpMode, mode);
      WriteRadio(radio, RegDataModul, modulation);
      TransmissionSteps(old(trace), mode, modulation, body);
      RestoreRegisters(old(radio.regs));
    }

    /**
     * sendKakuCogex: the same register bracket around `repeats` COGEX datagrams,
     * each followed by a pause of repDly ms.
     */
    method SendKakuCogex(radio: RFM69, addr: bv8, unit: bv8, on: bv8)
      requires RegOpMode in radio.regs && RegDataModul in radio.regs
      requires periodUs <= OldPeriodMax
      modifies radio, this`trace
      ensures radio.regs == old(radio.regs)
      ensures trace == old(trace) + CogexSend(Params(), old(radio.regs[RegOpMode]), old(radio.regs[RegDataModul]),
                                              addr, unit, on)
    {
      var mode := radio.ReadReg(RegOpMode);
      var modulation := radio.ReadReg(RegDataModul);
      WriteRadio(radio, RegDataModul, DataModulOokContinuous);
      WriteRadio(radio, RegOpMode, OpModeTransmitter);
      var cmd := CogexCommand(addr, unit, on);
      RepeatOldDatagram(cmd, true);
      ghost var body := Repeat(repeats, OldRepetition(Params(), cmd));
      WriteRadio(radio, RegOpMode, mode);
      WriteRadio(radio, RegDataModul, modulation);
      TransmissionSteps(old(trace), mode, modulation, body);
      RestoreRegisters(old(radio.regs));
    }

    /**
     * The repetition loop of sendKakuOld (cogex false) and of sendKakuCogex
     * (cogex true): `repeats` datagrams, each followed by a pause of repDly ms.
     */
    method RepeatOldDatagram(cmd: bv16, cogex: bool)
      requires periodUs <= OldPeriodMax
      modifies this`trace
      ensures trace == old(trace) + Repeat(repeats, OldRepetition(Params(), cmd))
    {
      var p: int := periodUs;
      ghost var rep := OldRepetition(Params(), cmd);
      var i := 0;
      while i < repeats as int
        invariant 0 <= i <= repeats as int
        invariant trace == old(trace) + Repeat(i, rep)
      {
        ghost var start := trace;
        SendOldDatagram(p, cmd, cogex);
        Delay(repDly);
        AppendAssoc(start, OldEvents(ookDataPin, p, OldDatagram(p, cmd)), [DelayMs(repDly)]);
        AppendAssoc(old(trace), Repeat(i, rep), rep);
        i := i + 1;
      }
    }

    /**
     * One OLD or COGEX datagram: the start marker, then bits 0..11 of the frame,
     * least significant first; a 1 is 3 periods then 1, a 0 is 1 period then 3.
     * sendKakuOld drives the OLD primitive, sendKakuCogex the COGEX one.
     */
    method SendOldDatagram(p: int, cmd: bv16, cogex: bool)
      requires p == periodUs as int && p <= OldPeriodMax
      modifies this`trace
      ensures trace == old(trace) + OldEvents(ookDataPin, p, OldDatagram(p, cmd))
    {
      if cogex {
        OokCogexRfmPulse(0, p * 3);
      } else {
        OokOldKakuRfmPulse(0, p * 3);
      }
      SingleEvents(ookDataPin, p, OldStart(p));
      var bit := 0;
      while bit < 12
        invariant 0 <= bit <= 12
        invariant trace == old(trace) + OldEvents(ookDataPin, p, [OldStart(p)] + LsbPulses(p, cmd, bit))
      {
        SendOldBit(p, cmd, bit, cogex, old(trace));
        bit := bit + 1;
      }
    }

    /**
     * The body of the bit loop of sendKakuOld and sendKakuCogex: bit `bit` of the
     * frame as one data pulse.  `sentFrom` is the trace before the start marker.
     */
    method SendOldBit(p: int, cmd: bv16, bit: nat, cogex: bool, ghost sentFrom: seq<Event>)
      requires p == periodUs as int && p <= OldPeriodMax && bit < 12
      requires trace == sentFrom + OldEvents(ookDataPin, p, [OldStart(p)] + LsbPulses(p, cmd, bit))
      modifies this`trace
      ensures trace == sentFrom + OldEvents(ookDataPin, p, [OldStart(p)] + LsbPulses(p, cmd, bit + 1))
    {
      SendOldDataPulse(p, Bit16(cmd, bit), cogex);
      LsbPulsesStep(ookDataPin, p, sentFrom, cmd, bit);
    }

    /**
     * One data pulse of sendKakuOld (cogex false) or sendKakuCogex (cogex true):
     * 3 periods then 1 for a 1, 1 period then 3 for a 0.
     */
    method SendOldDataPulse(p: int, b: bool, cogex: bool)
      requires p == periodUs as int && p <= OldPeriodMax
      modifies this`trace
      ensures trace == old(trace) + OldPulseEvents(ookDataPin, p, OldDataPulse(p, b))
    {
      var on := if b then p * 3 else p;
      if cogex {
        OokCogexRfmPulse(on, p * 4 - on);
      } else {
        OokOldKakuRfmPulse(on, p * 4 - on);
      }
    }

    /**
     * One NEW datagram, as the body of the repetition loop of sendKakuNew sends it:
     * start marker, frame bits 31..5, then the dimmer pulse, frame bits 3..0 and
     * dim bits 3..0, or frame bits 4..0, and the stop marker.
     */
    method SendNewDatagram(p: int, cmd: bv32, dim: bv8)
      requires p == periodUs as int && p <= NewPeriodMax
      modifies this`trace
      ensures trace == old(trace) + NewEvents(ookDataPin, p, NewDatagram(p, cmd, dim))
    {
      ghost var t0 := trace;
      ghost var pin := ookDataPin;
      OokNewKakuRfmPulse(0, p * 10);
      SingleEvents(pin, p, NewSync(p));
      assert trace == t0 + NewEvents(pin, p, [NewSync(p)]);
      ghost var sent := [NewSync(p)];
      SendNewBits(p, cmd, 31, 27);
      NewEventsExtend(pin, p, t0, sent, MsbPulses(p, cmd, 31, 27));
      sent := sent + MsbPulses(p, cmd, 31, 27);
      if dim != 0 {
        OokNewKakuRfmPulse(p, p);
        SingleEvents(pin, p, NewDimmerPulse(p));
        NewEventsExtend(pin, p, t0, sent, [NewDimmerPulse(p)]);
        sent := sent + [NewDimmerPulse(p)];
        SendNewBits(p, cmd, 3, 4);
        NewEventsExtend(pin, p, t0, sent, MsbPulses(p, cmd, 3, 4));
        sent := sent + MsbPulses(p, cmd, 3, 4);
        SendNewBits(p, dim as bv32, 3, 4);
        NewEventsExtend(pin, p, t0, sent, MsbPulses(p, dim as bv32, 3, 4));
        sent := sent + MsbPulses(p, dim as bv32, 3, 4);
      } else {
        SendNewBits(p, cmd, 4, 5);
        NewEventsExtend(pin, p, t0, sent, MsbPulses(p, cmd, 4, 5));
        sent := sent + MsbPulses(p, cmd, 4, 5);
      }
      OokNewKakuRfmPulse(0, p * 10);
      NewEventsExtend(pin, p, t0, sent, [NewSync(p)]);
      sent := sent + [NewSync(p)];
      assert sent == NewDatagram(p, cmd, dim);
    }

    /**
     * A bit loop of sendKakuNew: n data pulses for bits top, top-1, ..., most
     * significant first.
     */
    method SendNewBits(p: int, x: bv32, top: nat, n: nat)
      requires p == periodUs as int && p <= NewPeriodMax && n <= top + 1 <= 32
      modifies this`trace
      ensures trace == old(trace) + NewEvents(ookDataPin, p, MsbPulses(p, x, top, n))
    {
      var bit := 0;
      while bit < n
        invariant 0 <= bit <= n
        invariant trace == old(trace) + NewEvents(ookDataPin, p, MsbPulses(p, x, top, bit))
      {
        SendNewBit(p, x, top, bit, old(trace));
        bit := bit + 1;
      }
    }

    /**
     * The body of the bit loops of sendKakuNew: bit `top - bit` of x as one data
     * pulse.  `sentFrom` is the trace before the loop's first pulse.
     */
    method SendNewBit(p: int, x: bv32, top: nat, bit: nat, ghost sentFrom: seq<Event>)
      requires p == periodUs as int && p <= NewPeriodMax && bit < top + 1 <= 32
      requires trace == sentFrom + NewEvents(ookDataPin, p, MsbPulses(p, x, top, bit))
      modifies this`trace
      ensures trace == sentFrom + NewEvents(ookDataPin, p, MsbPulses(p, x, top, bit + 1))
    {
      SendNewDataPulse(p, Bit32(x, top - bit));
      MsbPulsesStep(ookDataPin, p, sentFrom, x, top, bit);
    }

    /** One data pulse of sendKakuNew: 5 periods then 1 for a 1, 1 period then 5 for a 0. */
    method SendNewDataPulse(p: int, b: bool)
      requires p == periodUs as int && p <= NewPeriodMax
      modifies this`trace
      ensures trace == old(trace) + NewPulseEvents(ookDataPin, p, NewDataPulse(p, b))
    {
      var level := if b then p * 5 else p;
      OokNewKakuRfmPulse(level, p * 6 - level);
    }
  }
}
