# RFM69OOK — a verified model of the KAKU OOK transmitter

The RFM69OOK Arduino library uses an RFM69 transceiver in continuous OOK mode
to drive 433 MHz remote-control sockets. The library does not let the radio
build packets. Instead it bit-bangs the transceiver's DIO2 data pin. A switch
command (address, unit, on/off, and for the NEW protocol also group and dim
level) becomes a frame word. The frame word becomes a sequence of pulse pairs.
Each pulse pair becomes HIGH/LOW pin writes separated by `delayMicroseconds`
calls. The whole datagram is sent `repeats` times, with `delay(repDly)` after
each copy. During the send, the radio's operating mode and modulation
registers are switched to "OOK continuous, transmitter". Afterwards they are
restored.

The library speaks three KAKU-style protocols:

* **NEW**: a 32-bit frame, sent most significant bit first. Each data pulse is
  (5p, p) or (p, 5p), where p is the symbol period. The datagram has start and
  stop markers, and a dim branch.
* **OLD**: a 12-bit frame, sent least significant bit first. Each data pulse is
  (3p, p) or (p, 3p). There is a start marker and no stop marker.
* **COGEX**: OLD's waveform, but a different frame layout.

The model consists of these modules:

* `OokTypes` (types.dfy): the AVR widths. `byte` is 8 bits, `int` and
  `unsigned int` are 16 bits, `unsigned long` is 32 bits, and `char` is signed.
  The module also holds the observable `Event`s (pin mode, pin write,
  microsecond delay, millisecond delay, register write), the radio register
  constants, and `UsArg`. `UsArg` is the conversion of a computed delay into
  `delayMicroseconds`' 16-bit unsigned parameter.
* `KakuFrames` (frames.dfy): the three frame builders, as pure bit-vector
  functions over the C widths. Each has a lemma stating its bit layout.
* `KakuWaveforms` (waveforms.dfy): the specification functions, defined on
  values:
  * the events of one pulse-primitive call;
  * the datagrams as sequences of pulse pairs;
  * a receiver's reading of pulses back into bits;
  * a whole send call as an event trace: the register bracket around
    `repeats` repetitions.
* `KakuProperties` (properties.dfy): lemmas about those functions. They cover
  bit order and round trips, datagram shape, exact durations, register
  restoration, and the documented quirks.
* `RadioDriver` (radio.dfy): the transceiver as an object holding a register
  map.
* `OokTransmitter` (ook.dfy): the `RFM69OOK` class.
  * Its fields are the data pin, the period, the repeat count and the repeat
    delay. A ghost `trace` records every pin, delay and register effect in
    order.
  * The constructors, the setters, the pulse primitives and the three send
    methods are imperative methods.
  * Each send method's loops carry invariants tying the trace to the
    specification functions.
  * Each send method is proved to append exactly the specified trace and to
    leave the radio's registers as it found them.

Notes on the code that the model reproduces as written:

* The OLD and COGEX primitives hold HIGH for `on - 150`, then run a fixed
  tail of HIGH for `period - 150` and LOW for `3 * period + 150`.
* A send emits a delay after every datagram, including the last, so there are
  exactly `repeats` delays.
* The start marker's first delay is computed as `0 - 150`. In the unsigned
  parameter of `delayMicroseconds` it becomes a request for 65386 µs.

## Model

| member | source | states |
|---|---|---|
| OokTransmitter.RFM69OOK.Default | RFM69OOK.cpp:91-99 | The default configuration is pin 3, period 300 µs, 10 repeats and 20 ms between repeats. The only effects are the pin set to output and driven LOW. |
| OokTransmitter.RFM69OOK.constructor | RFM69OOK.cpp:108-116 | The configuration is exactly the four arguments. The only effects are the pin set to output and driven LOW. |
| OokTransmitter.RFM69OOK.SetOokPin | RFM69OOK.cpp:123-129 | Only the pin field changes; the timing is kept. The new pin is set to output and driven LOW, and nothing else is emitted. |
| OokTransmitter.RFM69OOK.SetOokParams | RFM69OOK.cpp:137-142 | Only the three timing fields change. The pin is kept and no effect is emitted. |
| OokTransmitter.RFM69OOK.OokNewKakuRfmPulse | RFM69OOK.cpp:227-241 | Appends the NEW pulse events. The (period − 150, l1 + 150) HIGH/LOW half is emitted only when l1 ≠ 0; the (period − 150, l2 + 150) half is always emitted. |
| OokTransmitter.RFM69OOK.OokOldKakuRfmPulse | RFM69OOK.cpp:294-305 | Appends the OLD pulse events. HIGH is written only when on ≠ 0. Then come delay on − 150, LOW, delay off + 150, and the fixed HIGH (period − 150) and LOW (3·period + 150) tail. |
| OokTransmitter.RFM69OOK.OokCogexRfmPulse | RFM69OOK.cpp:359-370 | Appends exactly the same events as the OLD primitive. |
| OokTransmitter.NewCommand | RFM69OOK.cpp:167-171 | The imperative unit and dim updates of sendKakuNew yield the NEW frame and the effective dim level, which is 0 for OFF. |
| KakuFrames.NewFrameLayout | RFM69OOK.cpp:167-170 | ON always sets bit 0x10. For addresses below 2^26 and units up to 16, the frame reads back as: address = cmd >> 6; bit 0x10 set iff ON; bit 0x20 set iff group; low nibble = unit − 1 (0 for unit 0 or group). |
| KakuFrames.GroupIgnoresUnit | RFM69OOK.cpp:168-170 | With group set, the frame does not depend on the unit. Its low six bits are 0x20, or 0x30 when ON. |
| KakuFrames.NewFrameExample | RFM69OOK.cpp:167-170 | Address 1332798, unit 1, ON gives 1332798·64 + 0x10. With group set, unit 1 and unit 15 give the same frame. |
| OokTransmitter.OldCommand | RFM69OOK.cpp:266-267 | sendKakuOld's command word equals the OLD frame. |
| KakuFrames.OldFrameLayout | RFM69OOK.cpp:266-267 | Bits 0x600 are always set, and 0x800 when ON. For houses 'A'..'P' and units 1..16 the frame is 12 bits wide: house − 'A' in bits 0..3, unit − 1 in bits 4..7, bit 8 clear, bit 11 set iff ON. |
| KakuFrames.OldFrameExample | RFM69OOK.cpp:266-267 | House 'D', unit 1, ON gives 0xE03. |
| OokTransmitter.CogexCommand | RFM69OOK.cpp:331-332 | sendKakuCogex's command word equals the COGEX frame. |
| KakuFrames.CogexFrameLayout | RFM69OOK.cpp:331-332 | Bits 0x600 are always set, and 0x801 when ON. For house and unit below 16 the frame is 12 bits wide: house in bits 1..4, unit in bits 5..8, bits 0 and 11 each set iff ON. |
| KakuFrames.CogexFrameExample | RFM69OOK.cpp:331-332 | House 12, unit 1, ON gives 0xE39. |
| OokTransmitter.RFM69OOK.SendKakuNew | RFM69OOK.cpp:154-221 | Appends exactly NewSend: the register bracket around `repeats` NEW repetitions of the frame, with the dim level forced to 0 when OFF. The radio's registers end equal to their values before the call. |
| OokTransmitter.RFM69OOK.RepeatNewDatagram | RFM69OOK.cpp:186-218 | Appends `repeats` copies of one NEW datagram, each followed by a delay of repDly ms. |
| OokTransmitter.RFM69OOK.SendNewDatagram | RFM69OOK.cpp:188-216 | Appends the events of NewDatagram. These are the start marker and bits 31..5. Then come either the dimmer pulse, bits 3..0 and dim bits 3..0, or bits 4..0. The stop marker ends the datagram. |
| OokTransmitter.RFM69OOK.SendNewBits | RFM69OOK.cpp:189-193 | A NEW bit loop appends the data pulses for n bits, from bit `top` downwards. |
| OokTransmitter.RFM69OOK.SendNewBit | RFM69OOK.cpp:191-192 | One loop step extends the trace from the pulses of the first `bit` bits to those of the first `bit + 1`. |
| OokTransmitter.RFM69OOK.SendNewDataPulse | RFM69OOK.cpp:191-192 | Sends a data pulse of (5p, p) for a 1 and (p, 5p) for a 0. |
| OokTransmitter.RFM69OOK.SendKakuOld | RFM69OOK.cpp:252-289 | Appends exactly OldSend: the register bracket around `repeats` OLD repetitions of the OLD frame. The registers are restored. |
| OokTransmitter.RFM69OOK.SendKakuCogex | RFM69OOK.cpp:316-354 | Appends exactly CogexSend: the same bracket and repetitions around the COGEX frame. The registers are restored. |
| OokTransmitter.RFM69OOK.RepeatOldDatagram | RFM69OOK.cpp:277-286 | Appends `repeats` copies of one OLD/COGEX datagram, each followed by a delay of repDly ms. |
| OokTransmitter.RFM69OOK.SendOldDatagram | RFM69OOK.cpp:279-284 | Appends the start marker (0, 3p), then the data pulses for frame bits 0..11, least significant first. There is no stop marker. |
| OokTransmitter.RFM69OOK.SendOldBit | RFM69OOK.cpp:282-283 | One loop step extends the trace by the pulse for frame bit `bit`. |
| OokTransmitter.RFM69OOK.SendOldDataPulse | RFM69OOK.cpp:282-283 | Sends a data pulse of (3p, p) for a 1 and (p, 3p) for a 0. |
| KakuFrames.NewFrame | RFM69OOK.cpp:167-170 | Specification function of the NEW frame: the logical unit (or 0x20 for group) OR the address shifted left by six, OR 0x10 for ON, in 32 bits. Its properties are the contracts of NewFrameLayout, GroupIgnoresUnit and NewFrameExample. |
| KakuFrames.OldFrame | RFM69OOK.cpp:266-267 | Specification function of the OLD frame in a 16-bit int, with the signed `addr - 65` reduced modulo 2^16. Its properties are the contracts of OldFrameLayout and OldFrameExample. |
| KakuFrames.CogexFrame | RFM69OOK.cpp:331-332 | Specification function of the COGEX frame in a 16-bit int. Its properties are the contracts of CogexFrameLayout and CogexFrameExample. |
| KakuWaveforms.NewPulseEvents | RFM69OOK.cpp:227-241 | Specification function of the events of one NEW primitive call. Its properties are the contracts of NewPulseDuration, ShortPeriodWraps and PulseEventsQuiet. |
| KakuWaveforms.OldPulseEvents | RFM69OOK.cpp:294-305 | Specification function of the events of one OLD or COGEX primitive call. Its properties are the contracts of OldPulseDuration, OldStartWraps and PulseEventsQuiet. |
| KakuWaveforms.NewDatagram | RFM69OOK.cpp:188-216 | Specification function of one NEW datagram as pulse pairs. Its properties are the contracts of NewDatagramPlain, NewDatagramDimmed, DimNibbleQuirk, NewLevelOnAir and NewDatagramDuration. |
| KakuWaveforms.OldDatagram | RFM69OOK.cpp:279-284 | Specification function of one OLD or COGEX datagram as pulse pairs. Its properties are the contracts of OldDatagramShape and OldDatagramDuration. |
| KakuWaveforms.Transmission | RFM69OOK.cpp:156-220 | Specification function of the register bracket around a send body. Its properties are the contracts of TransmissionRestores and TransmissionTransmits. |
| KakuWaveforms.EffectiveDim | RFM69OOK.cpp:171 | Specification function of the dim level a NEW send uses, 0 for OFF. Its property is the contract of OffSuppressesDim. |
| KakuWaveforms.NewSend | RFM69OOK.cpp:154-221 | Specification function of the whole trace of sendKakuNew. Its properties are the contracts of NewSendTiming, NewSendRestoresRegisters and OffSuppressesDim. |
| KakuWaveforms.OldSend | RFM69OOK.cpp:252-289 | Specification function of the whole trace of sendKakuOld. Its properties are the contracts of OldSendTiming and OldSendRestoresRegisters. |
| KakuWaveforms.CogexSend | RFM69OOK.cpp:316-354 | Specification function of the whole trace of sendKakuCogex. Its properties are the contracts of CogexSendTiming and CogexSendRestoresRegisters. |
| OokTypes.UsArg | RFM69OOK.cpp:298 | A delay request is reduced modulo 2^16. Values in range are unchanged, and a negative request v becomes v + 65536. |
| KakuProperties.NewPulseDuration | RFM69OOK.cpp:227-241 | For periods of at least 150 µs, the ±150 µs corrections cancel. The delays a NEW pulse requests sum to 2p + l1 + l2, or p + l2 when l1 = 0. |
| KakuProperties.OldPulseDuration | RFM69OOK.cpp:294-305 | The delays an OLD/COGEX pulse requests sum to on + off + 4p. With on = 0 the sum is 65536 µs more, because the −150 request wraps. |
| KakuProperties.OldStartWraps | RFM69OOK.cpp:296-298 | The start marker's first event is a request for a 65386 µs delay, and the marker writes no HIGH before its first LOW. |
| KakuProperties.ShortPeriodWraps | RFM69OOK.cpp:237-238 | For periods below 150 µs, the HIGH hold of a NEW pulse's closing half is requested as p − 150 and wraps to p + 65386 µs. |
| KakuProperties.PulseEventsQuiet | RFM69OOK.cpp:227-241 | A primitive call writes no radio register and contains no millisecond delay. |
| KakuProperties.MsbRoundTrip | RFM69OOK.cpp:189-193 | Reading the NEW data pulses back as bits gives bits top, top − 1, … of the word, MSB first. |
| KakuProperties.LsbRoundTrip | RFM69OOK.cpp:280-284 | Reading the OLD data pulses back as bits gives bits 0, 1, … of the frame, LSB first. |
| KakuProperties.MsbPulsesTiming | RFM69OOK.cpp:191-192 | Every NEW data pulse has a non-zero first half, and its two halves sum to 6p whatever the bit. |
| KakuProperties.NewDatagramPlain | RFM69OOK.cpp:208-216 | Without dim, a NEW datagram has 34 pulses: a sync at each end and 32 data pulses of width 6p that carry frame bits 31..0, MSB first. |
| KakuProperties.NewDatagramDimmed | RFM69OOK.cpp:194-207 | With dim, a NEW datagram has 38 pulses. Pulse 28 is the dimmer pulse (p, p). The data pulses carry bits 31..5, then bits 3..0, then dim bits 3..0. |
| KakuProperties.DimNibbleQuirk | RFM69OOK.cpp:202-206 | Dim level 16 takes the dim branch, yet its four sent dim bits are all 0, because only the low nibble is sent. |
| KakuProperties.NewLevelOnAir | RFM69OOK.cpp:209-214 | Without dim, pulse 28 has first half 5p exactly when the command is ON. |
| KakuProperties.OldDatagramShape | RFM69OOK.cpp:279-284 | An OLD/COGEX datagram has 13 pulses: the start marker, then 12 data pulses of width 4p carrying frame bits 0..11, LSB first. |
| KakuProperties.NewDatagramDuration | RFM69OOK.cpp:188-216 | The delays a NEW datagram requests sum to 278p µs, or 306p µs with dim. |
| KakuProperties.OldDatagramDuration | RFM69OOK.cpp:279-284 | The delays an OLD/COGEX datagram requests sum to 103p + 65536 µs. |
| KakuProperties.MsbPulsesDuration | RFM69OOK.cpp:189-193 | The delays n NEW data pulses request sum to 8p·n µs. |
| KakuProperties.LsbPulsesDuration | RFM69OOK.cpp:280-284 | The delays n OLD data pulses request sum to 8p·n µs. |
| KakuProperties.RepeatMeasures | RFM69OOK.cpp:186-218 | Repeating a trace n times multiplies its microseconds and its millisecond delays by n. It adds no register write. |
| KakuProperties.NewSendTiming | RFM69OOK.cpp:186-218 | A NEW send holds exactly `repeats` millisecond delays and microsecond delay requests summing to repeats·278p, or repeats·306p when ON with a non-zero dim level. |
| KakuProperties.OldSendTiming | RFM69OOK.cpp:277-286 | An OLD send holds exactly `repeats` millisecond delays and microsecond delay requests summing to repeats·(103p + 65536). |
| KakuProperties.CogexSendTiming | RFM69OOK.cpp:342-351 | The same counts as OldSendTiming hold for a COGEX send. |
| KakuProperties.TransmissionRestores | RFM69OOK.cpp:219-220 | When the saved values are written back after a body with no register writes, the register map ends where it started. |
| KakuProperties.TransmissionTransmits | RFM69OOK.cpp:156-161 | Throughout the body, the radio is in transmitter mode with OOK-continuous modulation. |
| KakuProperties.NewSendRestoresRegisters | RFM69OOK.cpp:156-220 | Replaying a NEW send's register writes over the registers it saved gives back those registers. |
| KakuProperties.OldSendRestoresRegisters | RFM69OOK.cpp:254-288 | The same holds for an OLD send. |
| KakuProperties.CogexSendRestoresRegisters | RFM69OOK.cpp:318-353 | The same holds for a COGEX send. |
| KakuProperties.OffSuppressesDim | RFM69OOK.cpp:171 | An OFF send is the same for every dim level. Its datagram never takes the dim branch: it has 34 pulses. |

## Left out

- Debug printing over `Serial` is pure I/O and is compiled out by `RFM69OOK_DEBUG 0`.
- The per-board choice of the default pin (RFM69OOK.h:31-45) is preprocessor configuration. The model uses pin 3, the ATmega328 value and the fallback.
- `pinMode`, `digitalWrite`, `delayMicroseconds` and `delay` are recorded as trace events. The model makes no claim about real-time accuracy, and the 150 µs correction is taken as a plain constant.
- The `volatile` qualifier on the saved register copies has no meaning in a sequential model.
- RFM69.cpp, RFM69.h and RFM69registers.h are not part of this model. The transceiver is a register map. The register addresses and values (0x01, 0x02, transmitter 0x0C, OOK continuous 0x68) are the RFM69 datasheet's.
- OokTransmitter.RFM69OOK.SendKakuNew: covers periods up to 3261 µs, where every computed argument fits a 16-bit `int`. From 3262 to 3276 µs, `l2 + 150` overflows the `int`, which the language leaves undefined. Above 3276 µs, the conversions of the unsigned products into the `int` parameters wrap, and further overflow bands follow. The model does not follow those conversions.
- OokTransmitter.RFM69OOK.SendKakuOld: covers periods up to 10872 µs, where every computed argument fits a 16-bit `int`. From 10873 to 10972 µs, `off + 150` or `on - 150` overflows the `int`, which is undefined. Above that, the unsigned-to-`int` conversions wrap, and the model does not follow them. It also requires a unit other than 0, because `(0 - 1) << 4` shifts a negative value, which is undefined.
- OokTransmitter.RFM69OOK.SendKakuCogex: covers periods up to 10872 µs, with the same overflow band and wrapped conversions above it as SendKakuOld.
- OokTransmitter.RFM69OOK.SendKakuNew, SendKakuOld and SendKakuCogex: require the radio's register map to hold the two saved registers. The real register file always has them.
- KakuProperties.NewSendTiming: the duration lemmas assume a period of at least 150 µs. For shorter periods, ShortPeriodWraps states the wrap instead.
- The frame is decoded as a sequence of bits, not back into address and unit numbers. The bit layout lemmas of the frame builders state the field positions instead.
- The bit loops and the repetition loops are separate methods in the model (a datagram, a bit loop, one loop step, one data pulse). Their contracts carry the loops' invariants.
