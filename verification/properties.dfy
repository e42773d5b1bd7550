/**
 * Properties of the KAKU waveforms: bit order and pulse counts of each datagram,
 * reading a datagram back into the frame bits, the pulse-pair timing, the
 * duration of a datagram, and what a whole send call does to the radio registers
 * and to the inter-datagram delays.
 */
module KakuProperties {
  import opened OokTypes
  import opened KakuFrames
  import opened KakuWaveforms

  // ------------------------------------------------------------------
  // Building blocks
  // ------------------------------------------------------------------

  /** Measures of a trace of at most four events, spelled out element by element. */
  lemma ShortTrace(s: seq<Event>)
    requires |s| <= 4
    ensures TotalUs(s) == if |s| == 0 then 0 else if |s| == 1 then EventUs(s[0])
                          else if |s| == 2 then EventUs(s[0]) + EventUs(s[1])
                          else if |s| == 3 then EventUs(s[0]) + EventUs(s[1]) + EventUs(s[2])
                          else EventUs(s[0]) + EventUs(s[1]) + EventUs(s[2]) + EventUs(s[3])
    ensures CountMs(s) == 0 <== forall i :: 0 <= i < |s| ==> !s[i].DelayMs?
  {
    if |s| > 0 {
      var t := s[..|s| - 1];
      ShortTrace(t);
      if |s| == 1 { assert t == []; }
    }
  }

  /** A trace without a millisecond delay counts none. */
  lemma {:induction false} NoDelayMs(s: seq<Event>)
    requires forall i :: 0 <= i < |s| ==> !s[i].DelayMs?
    ensures CountMs(s) == 0
    decreases |s|
  {
    if s != [] {
      NoDelayMs(s[..|s| - 1]);
    }
  }

  lemma {:induction false} MsbPulsesAt(p: int, x: bv32, top: nat, n: nat, k: nat)
    requires n <= top + 1 <= 32 && k < n
    ensures MsbPulses(p, x, top, n)[k] == NewDataPulse(p, Bit32(x, top - k))
  {
    if k < n - 1 {
      MsbPulsesAt(p, x, top, n - 1, k);
    }
  }

  lemma {:induction false} LsbPulsesAt(p: int, x: bv16, n: nat, k: nat)
    requires n <= 16 && k < n
    ensures LsbPulses(p, x, n)[k] == OldDataPulse(p, Bit16(x, k))
  {
    if k < n - 1 {
      LsbPulsesAt(p, x, n - 1, k);
    }
  }

  /** Sending n bits and then the next m bits is sending n + m bits. */
  lemma {:induction false} MsbPulsesSplit(p: int, x: bv32, top: nat, n: nat, m: nat)
    requires n <= top && n + m <= top + 1 <= 32
    ensures MsbPulses(p, x, top, n) + MsbPulses(p, x, top - n, m) == MsbPulses(p, x, top, n + m)
  {
    if m > 0 {
      var q := NewDataPulse(p, Bit32(x, top - (n + m - 1)));
      MsbPulsesSplit(p, x, top, n, m - 1);
      assert MsbPulses(p, x, top - n, m) == MsbPulses(p, x, top - n, m - 1) + [q];
      AppendAssoc(MsbPulses(p, x, top, n), MsbPulses(p, x, top - n, m - 1), [q]);
    }
  }

  lemma {:induction false} NewEventsAppend(pin: byte, p: int, a: seq<Pulse>, b: seq<Pulse>)
    ensures NewEvents(pin, p, a + b) == NewEvents(pin, p, a) + NewEvents(pin, p, b)
    decreases |b|
  {
    if b == [] {
      assert a + b == a;
    } else {
      var b' := b[..|b| - 1];
      var last := b[|b| - 1];
      assert b == b' + [last];
      assert a + b == (a + b') + [last];
      NewEventsAppend(pin, p, a, b');
      NewEventsSnoc(pin, p, a + b', last);
      NewEventsSnoc(pin, p, b', last);
      AppendAssoc(NewEvents(pin, p, a), NewEvents(pin, p, b'), NewPulseEvents(pin, p, last));
    }
  }

  lemma {:induction false} OldEventsAppend(pin: byte, p: int, a: seq<Pulse>, b: seq<Pulse>)
    ensures OldEvents(pin, p, a + b) == OldEvents(pin, p, a) + OldEvents(pin, p, b)
    decreases |b|
  {
    if b == [] {
      assert a + b == a;
    } else {
      var b' := b[..|b| - 1];
      var last := b[|b| - 1];
      assert b == b' + [last];
      assert a + b == (a + b') + [last];
      OldEventsAppend(pin, p, a, b');
      OldEventsSnoc(pin, p, a + b', last);
      OldEventsSnoc(pin, p, b', last);
      AppendAssoc(OldEvents(pin, p, a), OldEvents(pin, p, b'), OldPulseEvents(pin, p, last));
    }
  }

  // ------------------------------------------------------------------
  // Pulse primitives: what one call asks of the pin and the clock
  // ------------------------------------------------------------------

  /** No pulse primitive touches a register or calls delay(). */
  lemma PulseEventsQuiet(pin: byte, p: int, q: Pulse)
    ensures NoRegWrites(NewPulseEvents(pin, p, q)) && CountMs(NewPulseEvents(pin, p, q)) == 0
    ensures NoRegWrites(OldPulseEvents(pin, p, q)) && CountMs(OldPulseEvents(pin, p, q)) == 0
  {
    NoDelayMs(NewPulseEvents(pin, p, q));
    NoDelayMs(OldPulseEvents(pin, p, q));
  }

  /**
   * The delays one NEW primitive call requests sum to 2 periods + l1 + l2 when
   * l1 is not 0 and 1 period + l2 otherwise: the 150 µs correction cancels in every half.
   */
  lemma NewPulseDuration(pin: byte, p: int, q: Pulse)
    requires Correction <= p < 0x1_0000
    requires 0 <= q.first < 0x1_0000 - Correction && 0 <= q.second < 0x1_0000 - Correction
    ensures TotalUs(NewPulseEvents(pin, p, q)) == if q.first != 0 then 2 * p + q.first + q.second else p + q.second
  {
    var n := NewPulseEvents(pin, p, q);
    ShortTrace(n[..|n| - 4]);
    ShortTrace(n[|n| - 4..]);
    assert n == n[..|n| - 4] + n[|n| - 4..];
    TotalUsAppend(n[..|n| - 4], n[|n| - 4..]);
  }

  /**
   * The delays one OLD/COGEX primitive call requests sum to on + off + 4 periods, except that an `on`
   * of 0 asks delayMicroseconds for 0 - 150, which wraps to 65386 µs: the call
   * then requests off + 4 periods + 65536 in all.
   */
  lemma OldPulseDuration(pin: byte, p: int, q: Pulse)
    requires Correction <= p && Correction + 3 * p < 0x1_0000
    requires q.first == 0 || Correction <= q.first < 0x1_0000
    requires 0 <= q.second < 0x1_0000 - Correction
    ensures TotalUs(OldPulseEvents(pin, p, q)) ==
              q.first + q.second + 4 * p + (if q.first == 0 then 0x1_0000 else 0)
  {
    var lead := if q.first != 0 then [PinWrite(pin, true)] else [];
    var mid := [DelayUs(UsArg(q.first - Correction)), PinWrite(pin, false), DelayUs(UsArg(q.second + Correction))];
    var tail := [PinWrite(pin, true), DelayUs(UsArg(p - Correction)), PinWrite(pin, false), DelayUs(UsArg(Correction + p * 3))];
    assert OldPulseEvents(pin, p, q) == (lead + mid) + tail;
    ShortTrace(lead);
    ShortTrace(mid);
    ShortTrace(tail);
    assert TotalUs(mid) == q.second + (if q.first == 0 then 0x1_0000 else q.first);
    assert TotalUs(tail) == 4 * p;
    TotalUsAppend(lead, mid);
    TotalUsAppend(lead + mid, tail);
  }

  /**
   * The OLD/COGEX start marker (on = 0) leaves the pin LOW and begins with a
   * delayMicroseconds of 65386 µs: the signed 0 - 150 converted to the unsigned
   * parameter.
   */
  lemma OldStartWraps(pin: byte, p: int)
    ensures OldPulseEvents(pin, p, OldStart(p))[0] == DelayUs(0x1_0000 - Correction)
    ensures PinWrite(pin, true) !in OldPulseEvents(pin, p, OldStart(p))[..3]
  {
  }

  /**
   * With a period below the 150 µs correction, period - 150 wraps in
   * `unsigned int`: every HIGH of a NEW pulse is held about 65 ms.
   */
  lemma ShortPeriodWraps(pin: byte, p: int, q: Pulse)
    requires 0 <= p < Correction
    ensures var r := NewPulseEvents(pin, p, q);
            r[|r| - 3] == DelayUs(p + 0x1_0000 - Correction) && r[|r| - 4] == PinWrite(pin, true)
  {
  }

  /** A run of primitive calls never touches a register nor calls delay(). */
  lemma {:induction false} EventsQuiet(pin: byte, p: int, ps: seq<Pulse>)
    ensures NoRegWrites(NewEvents(pin, p, ps)) && CountMs(NewEvents(pin, p, ps)) == 0
    ensures NoRegWrites(OldEvents(pin, p, ps)) && CountMs(OldEvents(pin, p, ps)) == 0
    decreases |ps|
  {
    if ps != [] {
      var init := ps[..|ps| - 1];
      EventsQuiet(pin, p, init);
      PulseEventsQuiet(pin, p, ps[|ps| - 1]);
      CountMsAppend(NewEvents(pin, p, init), NewPulseEvents(pin, p, ps[|ps| - 1]));
      CountMsAppend(OldEvents(pin, p, init), OldPulseEvents(pin, p, ps[|ps| - 1]));
    }
  }

  // ------------------------------------------------------------------
  // Reading a datagram back
  // ------------------------------------------------------------------

  /** With a non-zero period the receiver reads exactly the bits the NEW sender walked over. */
  lemma MsbRoundTrip(p: int, x: bv32, top: nat, n: nat)
    requires p != 0 && n <= top + 1 <= 32
    ensures NewBits(p, MsbPulses(p, x, top, n)) == MsbBits(x, top, n)
  {
    forall k | 0 <= k < n
      ensures NewBits(p, MsbPulses(p, x, top, n))[k] == MsbBits(x, top, n)[k]
    {
      MsbPulsesAt(p, x, top, n, k);
    }
  }

  /** With a non-zero period the receiver reads exactly the bits the OLD/COGEX sender walked over. */
  lemma LsbRoundTrip(p: int, x: bv16, n: nat)
    requires p != 0 && n <= 16
    ensures OldBits(p, LsbPulses(p, x, n)) == LsbBits(x, n)
  {
    forall k | 0 <= k < n
      ensures OldBits(p, LsbPulses(p, x, n))[k] == LsbBits(x, n)[k]
    {
      LsbPulsesAt(p, x, n, k);
    }
  }

  /** Every NEW data pulse has a first half, and its two halves sum to six periods. */
  lemma MsbPulsesTiming(p: int, x: bv32, top: nat, n: nat)
    requires p != 0 && n <= top + 1 <= 32
    ensures forall k :: 0 <= k < n ==>
              MsbPulses(p, x, top, n)[k].first != 0 && MsbPulses(p, x, top, n)[k].first + MsbPulses(p, x, top, n)[k].second == 6 * p
  {
    forall k | 0 <= k < n
      ensures MsbPulses(p, x, top, n)[k].first != 0 && MsbPulses(p, x, top, n)[k].first + MsbPulses(p, x, top, n)[k].second == 6 * p
    {
      MsbPulsesAt(p, x, top, n, k);
    }
  }

  /**
   * Layout of one NEW datagram without a dim level: 34 pulses, a start and a stop
   * marker that are the only pulses without a first half, and between them the
   * 32 frame bits, most significant first, each pulse lasting six periods.
   */
  lemma NewDatagramPlain(p: int, cmd: bv32)
    requires p != 0
    ensures var dg := NewDatagram(p, cmd, 0);
            && |dg| == 34
            && dg[0] == NewSync(p) && dg[33] == NewSync(p)
            && (forall k :: 0 < k < 33 ==> dg[k].first != 0 && dg[k].first + dg[k].second == 6 * p)
            && NewBits(p, dg[1..33]) == MsbBits(cmd, 31, 32)
  {
    var dg := NewDatagram(p, cmd, 0);
    var data := MsbPulses(p, cmd, 31, 32);
    MsbPulsesSplit(p, cmd, 31, 27, 5);
    assert dg == [NewSync(p)] + data + [NewSync(p)];
    assert dg[1..33] == data;
    MsbPulsesTiming(p, cmd, 31, 32);
    MsbRoundTrip(p, cmd, 31, 32);
  }

  /**
   * Layout of one NEW datagram with a dim level: 38 pulses; the level bit (bit 4)
   * is replaced by the dimmer pulse, and the low four bits of the dim level follow
   * the unit.  Only the markers lack a first half; every other pulse but the
   * dimmer has halves summing to six periods.
   */
  lemma NewDatagramDimmed(p: int, cmd: bv32, dim: bv8)
    requires p != 0 && dim != 0
    ensures var dg := NewDatagram(p, cmd, dim);
            && |dg| == 38
            && dg[0] == NewSync(p) && dg[37] == NewSync(p)
            && dg[28] == NewDimmerPulse(p)
            && (forall k :: 0 < k < 37 ==> dg[k].first != 0)
            && (forall k :: 0 < k < 37 && k != 28 ==> dg[k].first + dg[k].second == 6 * p)
            && NewBits(p, dg[1..28]) == MsbBits(cmd, 31, 27)
            && NewBits(p, dg[29..33]) == MsbBits(cmd, 3, 4)
            && NewBits(p, dg[33..37]) == MsbBits(dim as bv32, 3, 4)
  {
    var dg := NewDatagram(p, cmd, dim);
    var high := MsbPulses(p, cmd, 31, 27);
    var unit := MsbPulses(p, cmd, 3, 4);
    var level := MsbPulses(p, dim as bv32, 3, 4);
    assert dg == [NewSync(p)] + high + [NewDimmerPulse(p)] + unit + level + [NewSync(p)];
    assert dg[1..28] == high;
    assert dg[29..33] == unit;
    assert dg[33..37] == level;
    MsbPulsesTiming(p, cmd, 31, 27);
    MsbPulsesTiming(p, cmd, 3, 4);
    MsbPulsesTiming(p, dim as bv32, 3, 4);
    MsbRoundTrip(p, cmd, 31, 27);
    MsbRoundTrip(p, cmd, 3, 4);
    MsbRoundTrip(p, dim as bv32, 3, 4);
  }

  /**
   * Layout of one OLD/COGEX datagram: 13 pulses, the start marker with no `on`
   * part, then the 12 frame bits least significant first, each lasting four
   * periods before the common tail.
   */
  lemma OldDatagramShape(p: int, cmd: bv16)
    requires p != 0
    ensures var dg := OldDatagram(p, cmd);
            && |dg| == 13
            && dg[0] == OldStart(p) && dg[0].first == 0
            && (forall k :: 0 < k < 13 ==> dg[k].first != 0 && dg[k].first + dg[k].second == 4 * p)
            && OldBits(p, dg[1..]) == LsbBits(cmd, 12)
  {
    var dg := OldDatagram(p, cmd);
    var data := LsbPulses(p, cmd, 12);
    forall k | 0 <= k < 12 ensures data[k].first != 0 && data[k].first + data[k].second == 4 * p {
      LsbPulsesAt(p, cmd, 12, k);
    }
    assert dg[1..] == data;
    LsbRoundTrip(p, cmd, 12);
  }

  /**
   * A dim level whose low four bits are 0 but which is not 0 itself (16, 32, ...)
   * still selects the dimmer format, yet the receiver reads dim level 0: the
   * branch tests the whole byte while only its low nibble is sent.
   */
  lemma DimNibbleQuirk(p: int, cmd: bv32)
    requires p != 0
    ensures var dg := NewDatagram(p, cmd, 16);
            && |dg| == 38 && dg[28] == NewDimmerPulse(p)
            && dg[33..37] == [NewDataPulse(p, false), NewDataPulse(p, false), NewDataPulse(p, false), NewDataPulse(p, false)]
  {
    var level := MsbPulses(p, 16, 3, 4);
    MsbPulsesAt(p, 16, 3, 4, 0);
    MsbPulsesAt(p, 16, 3, 4, 1);
    MsbPulsesAt(p, 16, 3, 4, 2);
    MsbPulsesAt(p, 16, 3, 4, 3);
    var dg := NewDatagram(p, cmd, 16);
    NewDatagramDimmed(p, cmd, 16);
    assert dg[33..37] == level;
  }

  /**
   * On the air the level bit of a plain NEW datagram (pulse 28) reads 1 exactly
   * for an ON command, whenever address and unit fit their fields.
   */
  lemma NewLevelOnAir(p: int, addr: bv32, unit: bv32, on: bool, group: bool)
    requires p != 0 && addr < 0x400_0000 && unit <= 16
    ensures NewDatagram(p, NewFrame(addr, unit, on, group), 0)[28].first == 5 * p <==> on
  {
    var cmd := NewFrame(addr, unit, on, group);
    NewDatagramPlain(p, cmd);
    var dg := NewDatagram(p, cmd, 0);
    assert NewBits(p, dg[1..33])[27] == (dg[28].first == 5 * p);
    assert MsbBits(cmd, 31, 32)[27] == Bit32(cmd, 4);
    assert Bit32(cmd, 4) <==> cmd & 0x10 == 0x10;
  }

  // ------------------------------------------------------------------
  // Durations
  // ------------------------------------------------------------------

  lemma NewEventsUsAppend(pin: byte, p: int, a: seq<Pulse>, b: seq<Pulse>)
    ensures TotalUs(NewEvents(pin, p, a + b)) == TotalUs(NewEvents(pin, p, a)) + TotalUs(NewEvents(pin, p, b))
  {
    NewEventsAppend(pin, p, a, b);
    TotalUsAppend(NewEvents(pin, p, a), NewEvents(pin, p, b));
  }

  lemma OldEventsUsAppend(pin: byte, p: int, a: seq<Pulse>, b: seq<Pulse>)
    ensures TotalUs(OldEvents(pin, p, a + b)) == TotalUs(OldEvents(pin, p, a)) + TotalUs(OldEvents(pin, p, b))
  {
    OldEventsAppend(pin, p, a, b);
    TotalUsAppend(OldEvents(pin, p, a), OldEvents(pin, p, b));
  }

  lemma OldEventsUsSnoc(pin: byte, p: int, ps: seq<Pulse>, q: Pulse)
    ensures TotalUs(OldEvents(pin, p, ps + [q])) == TotalUs(OldEvents(pin, p, ps)) + TotalUs(OldPulseEvents(pin, p, q))
  {
    OldEventsSnoc(pin, p, ps, q);
    TotalUsAppend(OldEvents(pin, p, ps), OldPulseEvents(pin, p, q));
  }

  lemma SingleEvents(pin: byte, p: int, q: Pulse)
    ensures NewEvents(pin, p, [q]) == NewPulseEvents(pin, p, q)
    ensures OldEvents(pin, p, [q]) == OldPulseEvents(pin, p, q)
  {
    NewEventsSnoc(pin, p, [], q);
    OldEventsSnoc(pin, p, [], q);
  }

  lemma OldDataPulseDuration(pin: byte, p: int, b: bool)
    requires Correction <= p <= OldPeriodMax
    ensures TotalUs(OldPulseEvents(pin, p, OldDataPulse(p, b))) == 8 * p
  {
    OldPulseDuration(pin, p, OldDataPulse(p, b));
  }

  lemma NewEventsUsLast(pin: byte, p: int, ps: seq<Pulse>)
    requires ps != []
    ensures TotalUs(NewEvents(pin, p, ps))
         == TotalUs(NewEvents(pin, p, ps[..|ps| - 1])) + TotalUs(NewPulseEvents(pin, p, ps[|ps| - 1]))
  {
    TotalUsAppend(NewEvents(pin, p, ps[..|ps| - 1]), NewPulseEvents(pin, p, ps[|ps| - 1]));
  }

  lemma NewDataPulseDuration(pin: byte, p: int, q: Pulse)
    requires Correction <= p <= NewPeriodMax && q == NewDataPulse(p, q.first == 5 * p)
    ensures TotalUs(NewPulseEvents(pin, p, q)) == 8 * p
  {
    NewPulseDuration(pin, p, q);
  }

  /** Pulses that are all NEW data pulses, whichever bits they carry. */
  predicate NewDataRun(p: int, ps: seq<Pulse>)
  {
    forall k :: 0 <= k < |ps| ==> ps[k] == NewDataPulse(p, ps[k].first == 5 * p)
  }

  /** A run of NEW data pulses requests 8 periods of delay per pulse: 2 HIGH periods and 6 of data. */
  lemma {:induction false} NewDataRunDuration(pin: byte, p: int, ps: seq<Pulse>)
    requires Correction <= p <= NewPeriodMax && NewDataRun(p, ps)
    ensures TotalUs(NewEvents(pin, p, ps)) == 8 * p * |ps|
    decreases |ps|
  {
    if ps != [] {
      var n := |ps|;
      var init := ps[..n - 1];
      var last := ps[n - 1];
      assert NewDataRun(p, init) by {
        forall k | 0 <= k < |init| ensures init[k] == NewDataPulse(p, init[k].first == 5 * p) {
          assert init[k] == ps[k];
        }
      }
      NewDataRunDuration(pin, p, init);
      var before := TotalUs(NewEvents(pin, p, init));
      assert before == 8 * p * (n - 1);
      NewEventsUsLast(pin, p, ps);
      assert last == NewDataPulse(p, last.first == 5 * p);
      NewDataPulseDuration(pin, p, last);
      assert 8 * p * n == 8 * p * (n - 1) + 8 * p;
    }
  }

  /** Appending the events of more pulses to a trace that ends with the events of `sent`. */
  lemma NewEventsExtend(pin: byte, p: int, t0: seq<Event>, sent: seq<Pulse>, more: seq<Pulse>)
    ensures (t0 + NewEvents(pin, p, sent)) + NewEvents(pin, p, more) == t0 + NewEvents(pin, p, sent + more)
  {
    NewEventsAppend(pin, p, sent, more);
    AppendAssoc(t0, NewEvents(pin, p, sent), NewEvents(pin, p, more));
  }

  /** One more NEW data pulse extends a trace of MsbPulses by one bit. */
  lemma MsbPulsesStep(pin: byte, p: int, t0: seq<Event>, x: bv32, top: nat, bit: nat)
    requires bit < top + 1 <= 32
    ensures (t0 + NewEvents(pin, p, MsbPulses(p, x, top, bit))) + NewPulseEvents(pin, p, NewDataPulse(p, Bit32(x, top - bit)))
            == t0 + NewEvents(pin, p, MsbPulses(p, x, top, bit + 1))
  {
    var q := NewDataPulse(p, Bit32(x, top - bit));
    NewEventsSnoc(pin, p, MsbPulses(p, x, top, bit), q);
    AppendAssoc(t0, NewEvents(pin, p, MsbPulses(p, x, top, bit)), NewPulseEvents(pin, p, q));
  }

  /** One more OLD/COGEX data pulse extends a trace of a start marker and LsbPulses by one bit. */
  lemma LsbPulsesStep(pin: byte, p: int, t0: seq<Event>, x: bv16, bit: nat)
    requires bit < 16
    ensures (t0 + OldEvents(pin, p, [OldStart(p)] + LsbPulses(p, x, bit))) + OldPulseEvents(pin, p, OldDataPulse(p, Bit16(x, bit)))
            == t0 + OldEvents(pin, p, [OldStart(p)] + LsbPulses(p, x, bit + 1))
  {
    var q := OldDataPulse(p, Bit16(x, bit));
    var sent := [OldStart(p)] + LsbPulses(p, x, bit);
    OldEventsSnoc(pin, p, sent, q);
    AppendAssoc([OldStart(p)], LsbPulses(p, x, bit), [q]);
    AppendAssoc(t0, OldEvents(pin, p, sent), OldPulseEvents(pin, p, q));
  }

  /** n NEW data pulses request 8 periods of delay each. */
  lemma MsbPulsesDuration(pin: byte, p: int, x: bv32, top: nat, n: nat)
    requires Correction <= p <= NewPeriodMax && n <= top + 1 <= 32
    ensures TotalUs(NewEvents(pin, p, MsbPulses(p, x, top, n))) == 8 * p * n
  {
    var ps := MsbPulses(p, x, top, n);
    forall k | 0 <= k < n ensures ps[k] == NewDataPulse(p, ps[k].first == 5 * p) {
      MsbPulsesAt(p, x, top, n, k);
    }
    NewDataRunDuration(pin, p, ps);
  }

  /** n OLD/COGEX data pulses request 8 periods of delay each: 4 periods of data and the 4-period tail. */
  lemma {:induction false} LsbPulsesDuration(pin: byte, p: int, x: bv16, n: nat)
    requires Correction <= p <= OldPeriodMax && n <= 16
    ensures TotalUs(OldEvents(pin, p, LsbPulses(p, x, n))) == 8 * p * n
  {
    if n > 0 {
      var init := LsbPulses(p, x, n - 1);
      var b := Bit16(x, n - 1);
      var q := OldDataPulse(p, b);
      assert LsbPulses(p, x, n) == init + [q];
      LsbPulsesDuration(pin, p, x, n - 1);
      OldEventsUsSnoc(pin, p, init, q);
      OldDataPulseDuration(pin, p, b);
      assert 8 * p * n == 8 * p * (n - 1) + 8 * p;
    }
  }

  /** The start and stop marker of a NEW datagram request 11 periods of delay each. */
  lemma NewSyncDuration(pin: byte, p: int)
    requires Correction <= p <= NewPeriodMax
    ensures TotalUs(NewEvents(pin, p, [NewSync(p)])) == 11 * p
  {
    SingleEvents(pin, p, NewSync(p));
    NewPulseDuration(pin, p, NewSync(p));
  }

  /**
   * A NEW datagram asks for 278 periods of microsecond delays, 306 with a dim
   * level: two markers of 11 periods, 32 (or 35) data pulses of 8 and the
   * 4-period dimmer pulse.
   */
  lemma NewDatagramDuration(pin: byte, p: int, cmd: bv32, dim: bv8)
    requires Correction <= p <= NewPeriodMax
    ensures TotalUs(NewEvents(pin, p, NewDatagram(p, cmd, dim))) == if dim != 0 then 306 * p else 278 * p
  {
    if dim != 0 {
      DimmedDatagramDuration(pin, p, cmd, dim);
    } else {
      PlainDatagramDuration(pin, p, cmd);
    }
  }

  lemma PlainDatagramDuration(pin: byte, p: int, cmd: bv32)
    requires Correction <= p <= NewPeriodMax
    ensures TotalUs(NewEvents(pin, p, NewDatagram(p, cmd, 0))) == 278 * p
  {
    var sync := [NewSync(p)];
    var data := MsbPulses(p, cmd, 31, 32);
    MsbPulsesSplit(p, cmd, 31, 27, 5);
    assert NewDatagram(p, cmd, 0) == sync + data + sync;
    NewSyncDuration(pin, p);
    MsbPulsesDuration(pin, p, cmd, 31, 32);
    NewEventsUsAppend(pin, p, sync, data);
    NewEventsUsAppend(pin, p, sync + data, sync);
  }

  /** The part of a dimmed NEW datagram before the unit bits: start marker, 27 data pulses, dimmer pulse. */
  lemma DimmedHeadDuration(pin: byte, p: int, cmd: bv32)
    requires Correction <= p <= NewPeriodMax
    ensures TotalUs(NewEvents(pin, p, [NewSync(p)] + MsbPulses(p, cmd, 31, 27) + [NewDimmerPulse(p)])) == 231 * p
  {
    var a := [NewSync(p)] + MsbPulses(p, cmd, 31, 27);
    NewSyncDuration(pin, p);
    SingleEvents(pin, p, NewDimmerPulse(p));
    NewPulseDuration(pin, p, NewDimmerPulse(p));
    MsbPulsesDuration(pin, p, cmd, 31, 27);
    NewEventsUsAppend(pin, p, [NewSync(p)], MsbPulses(p, cmd, 31, 27));
    NewEventsUsAppend(pin, p, a, [NewDimmerPulse(p)]);
  }

  lemma DimmedDatagramDuration(pin: byte, p: int, cmd: bv32, dim: bv8)
    requires Correction <= p <= NewPeriodMax && dim != 0
    ensures TotalUs(NewEvents(pin, p, NewDatagram(p, cmd, dim))) == 306 * p
  {
    var sync := [NewSync(p)];
    var b := sync + MsbPulses(p, cmd, 31, 27) + [NewDimmerPulse(p)];
    var unit := MsbPulses(p, cmd, 3, 4);
    var level := MsbPulses(p, dim as bv32, 3, 4);
    var c := b + unit;
    var d := c + level;
    assert NewDatagram(p, cmd, dim) == d + sync;
    DimmedHeadDuration(pin, p, cmd);
    NewSyncDuration(pin, p);
    MsbPulsesDuration(pin, p, cmd, 3, 4);
    MsbPulsesDuration(pin, p, dim as bv32, 3, 4);
    NewEventsUsAppend(pin, p, b, unit);
    NewEventsUsAppend(pin, p, c, level);
    NewEventsUsAppend(pin, p, d, sync);
  }

  /**
   * An OLD/COGEX datagram asks for 103 periods of microsecond delays plus the
   * 65536 µs the start marker's wrapped delay adds: a 7-period start and 12 data
   * pulses of 8.
   */
  lemma OldDatagramDuration(pin: byte, p: int, cmd: bv16)
    requires Correction <= p <= OldPeriodMax
    ensures TotalUs(OldEvents(pin, p, OldDatagram(p, cmd))) == 103 * p + 0x1_0000
  {
    SingleEvents(pin, p, OldStart(p));
    OldPulseDuration(pin, p, OldStart(p));
    LsbPulsesDuration(pin, p, cmd, 12);
    OldEventsUsAppend(pin, p, [OldStart(p)], LsbPulses(p, cmd, 12));
  }

  // ------------------------------------------------------------------
  // Whole send calls
  // ------------------------------------------------------------------

  lemma NoRegWritesAppend(a: seq<Event>, b: seq<Event>)
    requires NoRegWrites(a) && NoRegWrites(b)
    ensures NoRegWrites(a + b)
  {
    forall i | 0 <= i < |a + b| ensures !(a + b)[i].RegWrite? {
      if i >= |a| {
        assert (a + b)[i] == b[i - |a|];
      }
    }
  }

  /** Repeating a trace n times repeats its delays and keeps it free of register writes. */
  lemma {:induction false} RepeatMeasures(n: nat, s: seq<Event>)
    ensures TotalUs(Repeat(n, s)) == n * TotalUs(s)
    ensures CountMs(Repeat(n, s)) == n * CountMs(s)
    ensures NoRegWrites(s) ==> NoRegWrites(Repeat(n, s))
  {
    if n > 0 {
      RepeatMeasures(n - 1, s);
      TotalUsAppend(Repeat(n - 1, s), s);
      CountMsAppend(Repeat(n - 1, s), s);
      if NoRegWrites(s) {
        NoRegWritesAppend(Repeat(n - 1, s), s);
      }
      assert n * TotalUs(s) == (n - 1) * TotalUs(s) + TotalUs(s);
      assert n * CountMs(s) == (n - 1) * CountMs(s) + CountMs(s);
    }
  }

  /** The register bracket adds no delay: all the time of a transmission is its body's. */
  lemma TransmissionMeasures(mode: byte, modulation: byte, body: seq<Event>)
    ensures TotalUs(Transmission(mode, modulation, body)) == TotalUs(body)
    ensures CountMs(Transmission(mode, modulation, body)) == CountMs(body)
  {
    var pre := [RegWrite(RegDataModul, DataModulOokContinuous), RegWrite(RegOpMode, OpModeTransmitter)];
    var post := [RegWrite(RegOpMode, mode), RegWrite(RegDataModul, modulation)];
    ShortTrace(pre);
    ShortTrace(post);
    TotalUsAppend(pre, body);
    TotalUsAppend(pre + body, post);
    CountMsAppend(pre, body);
    CountMsAppend(pre + body, post);
  }

  lemma ApplyWrite(regs: map<byte, byte>, s: seq<Event>, a: byte, v: byte)
    ensures ApplyRegWrites(regs, s + [RegWrite(a, v)]) == ApplyRegWrites(regs, s)[a := v]
  {
    assert (s + [RegWrite(a, v)])[..|s|] == s;
  }

  /**
   * A transmission whose body writes no register, bracketed with the operating
   * mode and modulation read beforehand, leaves the register file as it found it.
   */
  lemma TransmissionRestores(regs: map<byte, byte>, body: seq<Event>)
    requires RegOpMode in regs && RegDataModul in regs
    requires NoRegWrites(body)
    ensures ApplyRegWrites(regs, Transmission(regs[RegOpMode], regs[RegDataModul], body)) == regs
  {
    var pre := [RegWrite(RegDataModul, DataModulOokContinuous), RegWrite(RegOpMode, OpModeTransmitter)];
    var w3 := RegWrite(RegOpMode, regs[RegOpMode]);
    var w4 := RegWrite(RegDataModul, regs[RegDataModul]);
    assert Transmission(regs[RegOpMode], regs[RegDataModul], body) == (pre + body + [w3]) + [w4];
    ApplyPre(regs);
    ApplyRegWritesAppend(regs, pre, body);
    ApplyNoRegWrites(TransmittingRegs(regs), body);
    ApplyWrite(regs, pre + body, RegOpMode, regs[RegOpMode]);
    ApplyWrite(regs, pre + body + [w3], RegDataModul, regs[RegDataModul]);
    var restored: map<byte, byte> := TransmittingRegs(regs)[RegOpMode := regs[RegOpMode]][RegDataModul := regs[RegDataModul]];
    assert restored == regs;
  }

  /** The register file while a transmission's body runs. */
  function TransmittingRegs(regs: map<byte, byte>): map<byte, byte>
  {
    regs[RegDataModul := DataModulOokContinuous][RegOpMode := OpModeTransmitter]
  }

  lemma ApplyPre(regs: map<byte, byte>)
    ensures ApplyRegWrites(regs, [RegWrite(RegDataModul, DataModulOokContinuous), RegWrite(RegOpMode, OpModeTransmitter)])
            == TransmittingRegs(regs)
  {
    var w1 := RegWrite(RegDataModul, DataModulOokContinuous);
    var w2 := RegWrite(RegOpMode, OpModeTransmitter);
    assert [w1] == [] + [w1];
    assert [w1, w2] == [w1] + [w2];
    ApplyWrite(regs, [], RegDataModul, DataModulOokContinuous);
    ApplyWrite(regs, [w1], RegOpMode, OpModeTransmitter);
  }

  /**
   * From the two opening writes until the body ends, the radio is in transmitter
   * mode with OOK continuous modulation.
   */
  lemma TransmissionTransmits(regs: map<byte, byte>, mode: byte, modulation: byte, body: seq<Event>, k: nat)
    requires NoRegWrites(body) && k <= |body|
    ensures var r := ApplyRegWrites(regs, Transmission(mode, modulation, body)[..2 + k]);
            RegOpMode in r && RegDataModul in r &&
            r[RegOpMode] == OpModeTransmitter && r[RegDataModul] == DataModulOokContinuous
  {
    var pre := [RegWrite(RegDataModul, DataModulOokContinuous), RegWrite(RegOpMode, OpModeTransmitter)];
    assert Transmission(mode, modulation, body)[..2 + k] == pre + body[..k];
    ApplyPre(regs);
    ApplyRegWritesAppend(regs, pre, body[..k]);
    assert NoRegWrites(body[..k]) by {
      forall i | 0 <= i < k ensures !body[..k][i].RegWrite? {
        assert body[..k][i] == body[i];
      }
    }
    ApplyNoRegWrites(TransmittingRegs(regs), body[..k]);
  }

  lemma NewBodyQuiet(c: OokParams, cmd: bv32, dim: bv8)
    ensures NoRegWrites(Repeat(c.repeats, NewRepetition(c, cmd, dim)))
  {
    EventsQuiet(c.pin, c.periodUs, NewDatagram(c.periodUs, cmd, dim));
    NoRegWritesAppend(NewEvents(c.pin, c.periodUs, NewDatagram(c.periodUs, cmd, dim)), [DelayMs(c.repDly)]);
    RepeatMeasures(c.repeats, NewRepetition(c, cmd, dim));
  }

  lemma OldBodyQuiet(c: OokParams, cmd: bv16)
    ensures NoRegWrites(Repeat(c.repeats, OldRepetition(c, cmd)))
  {
    EventsQuiet(c.pin, c.periodUs, OldDatagram(c.periodUs, cmd));
    NoRegWritesAppend(OldEvents(c.pin, c.periodUs, OldDatagram(c.periodUs, cmd)), [DelayMs(c.repDly)]);
    RepeatMeasures(c.repeats, OldRepetition(c, cmd));
  }

  /** sendKakuNew leaves the radio's operating mode and modulation as it found them. */
  lemma NewSendRestoresRegisters(regs: map<byte, byte>, c: OokParams,
                                 addr: bv32, unit: bv32, on: bool, group: bool, dimLevel: bv8)
    requires RegOpMode in regs && RegDataModul in regs
    ensures ApplyRegWrites(regs, NewSend(c, regs[RegOpMode], regs[RegDataModul], addr, unit, on, group, dimLevel)) == regs
  {
    NewBodyQuiet(c, NewFrame(addr, unit, on, group), EffectiveDim(on, dimLevel));
    TransmissionRestores(regs, Repeat(c.repeats, NewRepetition(c, NewFrame(addr, unit, on, group), EffectiveDim(on, dimLevel))));
  }

  /** sendKakuOld leaves the radio's operating mode and modulation as it found them. */
  lemma OldSendRestoresRegisters(regs: map<byte, byte>, c: OokParams, addr: int8, unit: bv8, on: bv8)
    requires RegOpMode in regs && RegDataModul in regs
    requires unit != 0
    ensures ApplyRegWrites(regs, OldSend(c, regs[RegOpMode], regs[RegDataModul], addr, unit, on)) == regs
  {
    OldBodyQuiet(c, OldFrame(addr, unit, on));
    TransmissionRestores(regs, Repeat(c.repeats, OldRepetition(c, OldFrame(addr, unit, on))));
  }

  /** sendKakuCogex leaves the radio's operating mode and modulation as it found them. */
  lemma CogexSendRestoresRegisters(regs: map<byte, byte>, c: OokParams, addr: bv8, unit: bv8, on: bv8)
    requires RegOpMode in regs && RegDataModul in regs
    ensures ApplyRegWrites(regs, CogexSend(c, regs[RegOpMode], regs[RegDataModul], addr, unit, on)) == regs
  {
    OldBodyQuiet(c, CogexFrame(addr, unit, on));
    TransmissionRestores(regs, Repeat(c.repeats, OldRepetition(c, CogexFrame(addr, unit, on))));
  }

  /**
   * A datagram's events followed by the pause between repetitions, repeated n
   * times: n times the datagram's delays, and one millisecond pause per copy.
   */
  lemma RepeatedDatagramMeasures(n: nat, events: seq<Event>, ms: nat, per: int)
    requires TotalUs(events) == per && CountMs(events) == 0
    ensures TotalUs(Repeat(n, events + [DelayMs(ms)])) == n * per
    ensures CountMs(Repeat(n, events + [DelayMs(ms)])) == n
  {
    TotalUsAppend(events, [DelayMs(ms)]);
    CountMsAppend(events, [DelayMs(ms)]);
    ShortTrace([DelayMs(ms)]);
    RepeatMeasures(n, events + [DelayMs(ms)]);
  }

  lemma NewRepetitionTiming(c: OokParams, cmd: bv32, dim: bv8)
    requires Correction <= c.periodUs <= NewPeriodMax
    ensures TotalUs(Repeat(c.repeats, NewRepetition(c, cmd, dim))) == c.repeats * ((if dim != 0 then 306 else 278) * c.periodUs)
    ensures CountMs(Repeat(c.repeats, NewRepetition(c, cmd, dim))) == c.repeats
  {
    var events := NewEvents(c.pin, c.periodUs, NewDatagram(c.periodUs, cmd, dim));
    NewDatagramDuration(c.pin, c.periodUs, cmd, dim);
    EventsQuiet(c.pin, c.periodUs, NewDatagram(c.periodUs, cmd, dim));
    RepeatedDatagramMeasures(c.repeats, events, c.repDly, (if dim != 0 then 306 else 278) * c.periodUs);
  }

  /**
   * sendKakuNew waits repDly milliseconds once per repetition and asks for
   * 278 periods of microsecond delays per repetition, 306 when dimming.
   */
  lemma NewSendTiming(c: OokParams, mode: byte, modulation: byte,
                      addr: bv32, unit: bv32, on: bool, group: bool, dimLevel: bv8)
    requires Correction <= c.periodUs <= NewPeriodMax
    ensures var s := NewSend(c, mode, modulation, addr, unit, on, group, dimLevel);
            && CountMs(s) == c.repeats
            && TotalUs(s) == c.repeats * ((if on && dimLevel != 0 then 306 else 278) * c.periodUs)
  {
    var cmd := NewFrame(addr, unit, on, group);
    var dim := EffectiveDim(on, dimLevel);
    NewRepetitionTiming(c, cmd, dim);
    TransmissionMeasures(mode, modulation, Repeat(c.repeats, NewRepetition(c, cmd, dim)));
  }

  lemma OldRepetitionTiming(c: OokParams, cmd: bv16)
    requires Correction <= c.periodUs <= OldPeriodMax
    ensures TotalUs(Repeat(c.repeats, OldRepetition(c, cmd))) == c.repeats * (103 * c.periodUs + 0x1_0000)
    ensures CountMs(Repeat(c.repeats, OldRepetition(c, cmd))) == c.repeats
  {
    var events := OldEvents(c.pin, c.periodUs, OldDatagram(c.periodUs, cmd));
    OldDatagramDuration(c.pin, c.periodUs, cmd);
    EventsQuiet(c.pin, c.periodUs, OldDatagram(c.periodUs, cmd));
    RepeatedDatagramMeasures(c.repeats, events, c.repDly, 103 * c.periodUs + 0x1_0000);
  }

  /**
   * sendKakuOld waits repDly milliseconds once per repetition and asks for
   * 103 periods plus the 65536 µs of the wrapped start delay per repetition.
   */
  lemma OldSendTiming(c: OokParams, mode: byte, modulation: byte, addr: int8, unit: bv8, on: bv8)
    requires Correction <= c.periodUs <= OldPeriodMax
    requires unit != 0
    ensures var s := OldSend(c, mode, modulation, addr, unit, on);
            CountMs(s) == c.repeats && TotalUs(s) == c.repeats * (103 * c.periodUs + 0x1_0000)
  {
    OldRepetitionTiming(c, OldFrame(addr, unit, on));
    TransmissionMeasures(mode, modulation, Repeat(c.repeats, OldRepetition(c, OldFrame(addr, unit, on))));
  }

  /** sendKakuCogex has the timing of sendKakuOld. */
  lemma CogexSendTiming(c: OokParams, mode: byte, modulation: byte, addr: bv8, unit: bv8, on: bv8)
    requires Correction <= c.periodUs <= OldPeriodMax
    ensures var s := CogexSend(c, mode, modulation, addr, unit, on);
            CountMs(s) == c.repeats && TotalUs(s) == c.repeats * (103 * c.periodUs + 0x1_0000)
  {
    OldRepetitionTiming(c, CogexFrame(addr, unit, on));
    TransmissionMeasures(mode, modulation, Repeat(c.repeats, OldRepetition(c, CogexFrame(addr, unit, on))));
  }

  /**
   * An OFF command never dims: whatever dim level is passed, sendKakuNew emits
   * the same trace, made of plain 34-pulse datagrams.
   */
  lemma OffSuppressesDim(c: OokParams, mode: byte, modulation: byte,
                         addr: bv32, unit: bv32, group: bool, d1: bv8, d2: bv8)
    ensures NewSend(c, mode, modulation, addr, unit, false, group, d1)
         == NewSend(c, mode, modulation, addr, unit, false, group, d2)
    ensures |NewDatagram(c.periodUs, NewFrame(addr, unit, false, group), EffectiveDim(false, d1))| == 34
  {
  }
}
