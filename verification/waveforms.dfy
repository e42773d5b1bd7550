/**
 * The waveform each protocol puts on the OOK data pin, as a specification: the
 * pulse pairs of one datagram, the pin/delay events each pulse primitive emits,
 * and the event trace of a whole send call including the register bracket.
 * The lemmas state bit order, pulse counts, timing and register restoration.
 */
module KakuWaveforms {
  import opened OokTypes
  import opened KakuFrames

  // ------------------------------------------------------------------
  // Measuring traces
  // ------------------------------------------------------------------

  lemma AppendAssoc<T>(a: seq<T>, b: seq<T>, c: seq<T>)
    ensures (a + b) + c == a + (b + c)
  {
  }

  /** Microseconds of delay an event asks for (0 for everything but DelayUs). */
  function EventUs(e: Event): int
  {
    if e.DelayUs? then e.us else 0
  }

  /** Sum of the microsecond delays of a trace, as requested (signed). */
  function TotalUs(s: seq<Event>): int
  {
    if s == [] then 0 else TotalUs(s[..|s| - 1]) + EventUs(s[|s| - 1])
  }

  /** Number of millisecond delays in a trace. */
  function CountMs(s: seq<Event>): nat
  {
    if s == [] then 0 else CountMs(s[..|s| - 1]) + (if s[|s| - 1].DelayMs? then 1 else 0)
  }

  predicate NoRegWrites(s: seq<Event>)
  {
    forall i :: 0 <= i < |s| ==> !s[i].RegWrite?
  }

  /** The register file after the register writes of a trace, in order. */
  function ApplyRegWrites(regs: map<byte, byte>, s: seq<Event>): map<byte, byte>
  {
    if s == [] then regs
    else
      var r := ApplyRegWrites(regs, s[..|s| - 1]);
      match s[|s| - 1]
      case RegWrite(a, v) => r[a := v]
      case _ => r
  }

  lemma {:induction false} TotalUsAppend(a: seq<Event>, b: seq<Event>)
    ensures TotalUs(a + b) == TotalUs(a) + TotalUs(b)
    decreases |b|
  {
    if b == [] {
      assert a + b == a;
    } else {
      var b' := b[..|b| - 1];
      assert (a + b)[..|a + b| - 1] == a + b';
      TotalUsAppend(a, b');
    }
  }

  lemma {:induction false} CountMsAppend(a: seq<Event>, b: seq<Event>)
    ensures CountMs(a + b) == CountMs(a) + CountMs(b)
    decreases |b|
  {
    if b == [] {
      assert a + b == a;
    } else {
      var b' := b[..|b| - 1];
      assert (a + b)[..|a + b| - 1] == a + b';
      CountMsAppend(a, b');
    }
  }

  lemma {:induction false} ApplyRegWritesAppend(regs: map<byte, byte>, a: seq<Event>, b: seq<Event>)
    ensures ApplyRegWrites(regs, a + b) == ApplyRegWrites(ApplyRegWrites(regs, a), b)
    decreases |b|
  {
    if b == [] {
      assert a + b == a;
    } else {
      var b' := b[..|b| - 1];
      assert (a + b)[..|a + b| - 1] == a + b';
      ApplyRegWritesAppend(regs, a, b');
    }
  }

  /** A trace without register writes leaves the register file as it is. */
  lemma {:induction false} ApplyNoRegWrites(regs: map<byte, byte>, s: seq<Event>)
    requires NoRegWrites(s)
    ensures ApplyRegWrites(regs, s) == regs
    decreases |s|
  {
    if s != [] {
      ApplyNoRegWrites(regs, s[..|s| - 1]);
    }
  }

  /**
   * The largest periods for which every duration a send computes fits the 16-bit
   * `int` parameters and sums of the primitives: 10 periods + 150 for NEW,
   * 3 periods + 150 for OLD and COGEX.
   */
  const NewPeriodMax: int := 3261
  const OldPeriodMax: int := 10872

  // ------------------------------------------------------------------
  // Pulse primitives
  // ------------------------------------------------------------------

  /**
   * NEW pulse primitive: a HIGH/LOW half for l1 only when l1 is not 0, then
   * always a HIGH/LOW half for l2.  Each HIGH is held period - 150 (computed in
   * `unsigned int`) and each LOW l + 150, so the correction cancels within a half.
   */
  function NewPulseEvents(pin: byte, p: int, q: Pulse): seq<Event>
  {
    var first := if q.first != 0
                 then [PinWrite(pin, true), DelayUs(UsArg(p - Correction)),
                       PinWrite(pin, false), DelayUs(UsArg(q.first + Correction))]
                 else [];
    first + [PinWrite(pin, true), DelayUs(UsArg(p - Correction)),
             PinWrite(pin, false), DelayUs(UsArg(q.second + Correction))]
  }

  /**
   * OLD (and COGEX) pulse primitive: HIGH only when `on` is not 0, a delay of
   * on - 150 in any case, LOW for off + 150, then the fixed tail HIGH for
   * period - 150 and LOW for 3 periods + 150.
   */
  function OldPulseEvents(pin: byte, p: int, q: Pulse): seq<Event>
  {
    var lead := if q.first != 0 then [PinWrite(pin, true)] else [];
    lead + [DelayUs(UsArg(q.first - Correction)), PinWrite(pin, false), DelayUs(UsArg(q.second + Correction)),
            PinWrite(pin, true), DelayUs(UsArg(p - Correction)), PinWrite(pin, false), DelayUs(UsArg(Correction + p * 3))]
  }

  /** The events of a sequence of NEW pulse primitive calls. */
  function NewEvents(pin: byte, p: int, ps: seq<Pulse>): (r: seq<Event>)
  {
    if ps == [] then [] else NewEvents(pin, p, ps[..|ps| - 1]) + NewPulseEvents(pin, p, ps[|ps| - 1])
  }

  /** The events of a sequence of OLD/COGEX pulse primitive calls. */
  function OldEvents(pin: byte, p: int, ps: seq<Pulse>): (r: seq<Event>)
  {
    if ps == [] then [] else OldEvents(pin, p, ps[..|ps| - 1]) + OldPulseEvents(pin, p, ps[|ps| - 1])
  }

  lemma NewEventsSnoc(pin: byte, p: int, ps: seq<Pulse>, q: Pulse)
    ensures NewEvents(pin, p, ps + [q]) == NewEvents(pin, p, ps) + NewPulseEvents(pin, p, q)
  {
    assert (ps + [q])[..|ps|] == ps;
  }

  lemma OldEventsSnoc(pin: byte, p: int, ps: seq<Pulse>, q: Pulse)
    ensures OldEvents(pin, p, ps + [q]) == OldEvents(pin, p, ps) + OldPulseEvents(pin, p, q)
  {
    assert (ps + [q])[..|ps|] == ps;
  }

  // ------------------------------------------------------------------
  // Datagrams as pulse pairs
  // ------------------------------------------------------------------

  /** NEW start and stop marker: no first half, then 10 periods. */
  function NewSync(p: int): Pulse
  {
    Pulse(0, 10 * p)
  }

  /** NEW dimmer indicator sent in place of the level bit. */
  function NewDimmerPulse(p: int): Pulse
  {
    Pulse(p, p)
  }

  /** NEW data pulse: 5 periods then 1 for a 1, 1 then 5 for a 0. */
  function NewDataPulse(p: int, b: bool): (q: Pulse)
  {
    var level := if b then 5 * p else p;
    Pulse(level, 6 * p - level)
  }

  /** NEW data pulses for n bits of x, most significant first, starting at bit `top`. */
  function MsbPulses(p: int, x: bv32, top: nat, n: nat): (ps: seq<Pulse>)
    requires n <= top + 1 <= 32
    ensures |ps| == n
  {
    if n == 0 then [] else MsbPulses(p, x, top, n - 1) + [NewDataPulse(p, Bit32(x, top - (n - 1)))]
  }

  /**
   * One NEW datagram: start marker, frame bits 31..5, then either the dimmer
   * pulse, frame bits 3..0 and dim bits 3..0, or frame bits 4..0; stop marker.
   */
  function NewDatagram(p: int, cmd: bv32, dim: bv8): seq<Pulse>
  {
    if dim != 0
    then [NewSync(p)] + MsbPulses(p, cmd, 31, 27) + [NewDimmerPulse(p)]
         + MsbPulses(p, cmd, 3, 4) + MsbPulses(p, dim as bv32, 3, 4) + [NewSync(p)]
    else [NewSync(p)] + MsbPulses(p, cmd, 31, 27) + MsbPulses(p, cmd, 4, 5) + [NewSync(p)]
  }

  /** OLD/COGEX start marker: on = 0, off = 3 periods. */
  function OldStart(p: int): Pulse
  {
    Pulse(0, 3 * p)
  }

  /** OLD/COGEX data pulse: 3 periods then 1 for a 1, 1 then 3 for a 0. */
  function OldDataPulse(p: int, b: bool): (q: Pulse)
  {
    var on := if b then 3 * p else p;
    Pulse(on, 4 * p - on)
  }

  /** OLD/COGEX data pulses for bits 0..n-1 of x, least significant first. */
  function LsbPulses(p: int, x: bv16, n: nat): (ps: seq<Pulse>)
    requires n <= 16
    ensures |ps| == n
  {
    if n == 0 then [] else LsbPulses(p, x, n - 1) + [OldDataPulse(p, Bit16(x, n - 1))]
  }

  /** One OLD/COGEX datagram: start marker and frame bits 0..11; no stop marker. */
  function OldDatagram(p: int, cmd: bv16): seq<Pulse>
  {
    [OldStart(p)] + LsbPulses(p, cmd, 12)
  }

  // ------------------------------------------------------------------
  // Reading pulse pairs back as bits (what a receiver does)
  // ------------------------------------------------------------------

  /** Reads NEW pulses as bits: a 1 is a pulse whose first half is five periods. */
  function NewBits(p: int, ps: seq<Pulse>): (bits: seq<bool>)
    ensures |bits| == |ps|
  {
    seq(|ps|, k requires 0 <= k < |ps| => ps[k].first == 5 * p)
  }

  /** Reads OLD/COGEX pulses as bits: a 1 is a pulse whose `on` is three periods. */
  function OldBits(p: int, ps: seq<Pulse>): (bits: seq<bool>)
    ensures |bits| == |ps|
  {
    seq(|ps|, k requires 0 <= k < |ps| => ps[k].first == 3 * p)
  }

  /** Bits top, top-1, ..., top-n+1 of x, in that order. */
  function MsbBits(x: bv32, top: nat, n: nat): (bits: seq<bool>)
    requires n <= top + 1 <= 32
    ensures |bits| == n
  {
    seq(n, k requires 0 <= k < n => Bit32(x, top - k))
  }

  /** Bits 0, 1, ..., n-1 of x, in that order. */
  function LsbBits(x: bv16, n: nat): (bits: seq<bool>)
    requires n <= 16
    ensures |bits| == n
  {
    seq(n, k requires 0 <= k < n => Bit16(x, k))
  }

  // ------------------------------------------------------------------
  // Whole send calls
  // ------------------------------------------------------------------

  /** `times` copies of `s`, back to back. */
  function Repeat(times: nat, s: seq<Event>): seq<Event>
  {
    if times == 0 then [] else Repeat(times - 1, s) + s
  }

  /**
   * The register bracket around a transmission: OOK continuous modulation, then
   * transmitter mode, the body, then the saved operating mode and modulation back.
   */
  function Transmission(mode: byte, modulation: byte, body: seq<Event>): seq<Event>
  {
    [RegWrite(RegDataModul, DataModulOokContinuous), RegWrite(RegOpMode, OpModeTransmitter)]
    + body
    + [RegWrite(RegOpMode, mode), RegWrite(RegDataModul, modulation)]
  }

  /** The dim level a NEW send uses: forced to 0 for an OFF command. */
  function EffectiveDim(on: bool, dimLevel: bv8): bv8
  {
    if on then dimLevel else 0
  }

  /** One NEW repetition: the datagram's events and the inter-datagram delay. */
  function NewRepetition(c: OokParams, cmd: bv32, dim: bv8): seq<Event>
  {
    NewEvents(c.pin, c.periodUs, NewDatagram(c.periodUs, cmd, dim)) + [DelayMs(c.repDly)]
  }

  /** One OLD/COGEX repetition: the datagram's events and the inter-datagram delay. */
  function OldRepetition(c: OokParams, cmd: bv16): seq<Event>
  {
    OldEvents(c.pin, c.periodUs, OldDatagram(c.periodUs, cmd)) + [DelayMs(c.repDly)]
  }

  /** Everything sendKakuNew does, given the register values it saves. */
  function NewSend(c: OokParams, mode: byte, modulation: byte,
                   addr: bv32, unit: bv32, on: bool, group: bool, dimLevel: bv8): seq<Event>
  {
    Transmission(mode, modulation,
      Repeat(c.repeats, NewRepetition(c, NewFrame(addr, unit, on, group), EffectiveDim(on, dimLevel))))
  }

  /** Everything sendKakuOld does, given the register values it saves. */
  function OldSend(c: OokParams, mode: byte, modulation: byte, addr: int8, unit: bv8, on: bv8): seq<Event>
    requires unit != 0
  {
    Transmission(mode, modulation, Repeat(c.repeats, OldRepetition(c, OldFrame(addr, unit, on))))
  }

  /** Everything sendKakuCogex does, given the register values it saves. */
  function CogexSend(c: OokParams, mode: byte, modulation: byte, addr: bv8, unit: bv8, on: bv8): seq<Event>
  {
    Transmission(mode, modulation, Repeat(c.repeats, OldRepetition(c, CogexFrame(addr, unit, on))))
  }
}
