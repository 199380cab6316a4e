# CAN sniffer receiver and I2C target, modelled in Dafny

This project models two pieces of Glasgow gateware, one clock tick at a time.

The **CAN sniffer receiver** (`can_sniff/__init__.py`) has five parts:

- `CANTiming` recovers the bit timing: a sample strobe 70 % of the way into each bit and a boundary strobe at its end.
- `CANDeStuff` drops the stuff bit that follows five equal bits and raises a sticky error after seven.
- `CANLowLevel` shifts every accepted bit into the 32-bit register `rx_data` and pulses `rx_rdy`.
- `CANCRC` is the CRC-15 register of section 3.1.1 of the Bosch CAN 2.0 specification, Part A (polynomial 0x4599).
- The `CANSubtarget` state machine counts the identifier, control, data and CRC fields of a frame and writes one record per frame to the FIFO towards the host.

The receiver also includes the host's parse of that byte stream (`CANSniffApplet.interact`).

The **I2C target** (`i2c_compat.py`, class `I2CTarget`) is a second state machine. It matches a 7-bit address, shifts write bytes in and read bytes out, and reports transactions through one-cycle strobes.

Every clocked component is a class. Its `Step` method computes the combinational outputs from the registers before the clock and then commits the registers of the next clock. Each `Step` is proved against a pure function of the old registers (`Next`, `NextRegs`, `Update`), and the properties the source promises are proved as lemmas about those functions.

The I2C target class raises its strobes as the code does (`StrobesAsWritten`). The code leaves one repeated start without a `restart` strobe (see Findings), so `IntendedStrobes` gives the strobes as documented. The transaction-end property is proved for the intended strobes, and its as-written counterpart, with that one exception, is proved for the code's strobes.

Files:

- `bits.dfy`: bit sequences read as numbers.
- `can_timing.dfy`, `can_destuff.dfy`, `can_lowlevel.dfy`, `can_crc.dfy`: the four bit-level parts.
- `can_assembler.dfy`: the frame assembler, with the invariant that explains the FIFO.
- `can_record.dfy`: the record format and the host parse.
- `can_receiver.dfy`: all CAN parts clocked together.
- `i2c_target.dfy`: the I2C target.

Registers are modelled at their source widths:

- `rx_data`, the CRC register and the I2C shift registers are sequences of bits, most significant bit first.
- Both 32-bit `ctr` registers wrap: the timing counter on increment, the assembler's on decrement.
- `ctl_dlc` wraps at 4 bits.
- The I2C `bitno` wraps at 3 bits after 7.

At these points the model follows the code:

- The CRC register advances on `rx_rdy`, so it covers the destuffed bits, not the raw ones (lines 205-206). This agrees with section 3.1.1 of the Bosch CAN 2.0 specification, Part A.
- `stuff_err` is set by the seventh equal bit after a change of level (line 138). Section 6.1 of the Bosch CAN 2.0 specification, Part A, calls the sixth equal bit a stuff error; the code drops that bit silently instead.
- Consecutive bit boundaries are `bit_period_cyc + 1` clocks apart, because the counter runs 0 to `bit_period_cyc` inclusive (lines 90-97).
- The field counters run down to 0 inclusive: 11 (the start-of-frame bit, line 261) to 0 for the identifier, 6 to 0 for control, 7 to 0 per data byte and 14 to 0 for the CRC.

## Model

| member | source | states |
|---|---|---|
| CanTiming.SetupCycles | software/glasgow/applet/interface/can_sniff/__init__.py:73-74 | for every positive quantum, the sample point lies strictly inside the bit, at exactly 7/10 of the bit period |
| CanTiming.Outputs | software/glasgow/applet/interface/can_sniff/__init__.py:80-98 | `idle` is high exactly in IDLE; while idle the boundary strobe is exactly `rx_trigger` (a dominant level on the bus) and no sample is taken; the sample strobe never coincides with the boundary strobe |
| CanTiming.Next | software/glasgow/applet/interface/can_sniff/__init__.py:83-100 | the counter fits 32 bits; it is held at 0 in IDLE and never passes one period; a boundary clears it; the next state is IDLE exactly when IDLE sees no trigger, or RUN reaches a boundary with `run` low |
| CanTiming.CounterInBit | software/glasgow/applet/interface/can_sniff/__init__.py:89-97 | with `run` high, `k` clocks after a boundary (`k` at most one period) the FSM is in RUN with counter `k` |
| CanTiming.BitStrobes | software/glasgow/applet/interface/can_sniff/__init__.py:92-96 | within a bit, `sample_stb` fires exactly `bit_setup_cyc` clocks after the boundary and `boundary_stb` exactly `bit_period_cyc` clocks after it |
| CanTiming.BitPeriod | software/glasgow/applet/interface/can_sniff/__init__.py:90-97 | with `run` high, `bit_period_cyc + 1` clocks after a boundary the counter is back at 0 in RUN |
| CanTiming.Timing.constructor | software/glasgow/applet/interface/can_sniff/__init__.py:78-81 | reset state: IDLE with counter 0 |
| CanTiming.Timing.Step | software/glasgow/applet/interface/can_sniff/__init__.py:80-102 | the strobes are those of the registers before the clock; the new registers are their `Next`; the counter invariant is kept |
| CanDeStuff.Observe | software/glasgow/applet/interface/can_sniff/__init__.py:134-144 | after a sample, `last_bit` is the sampled level; `stable_ctr` stays within 0..5; it is 0 exactly when the level changed or the count had reached 5, and otherwise it grew by one |
| CanDeStuff.DestuffStuff | software/glasgow/applet/interface/can_sniff/__init__.py:114-144 | stuffing any payload (inserting the complement wherever the gate closes) and then destuffing it gives back exactly the payload, and no `stuff_err` is raised |
| CanDeStuff.RunFlagged | software/glasgow/applet/interface/can_sniff/__init__.py:136-144 | from a count `c` of at most 5, a run of `m` more equal bits sets `stuff_err` exactly when `m >= 6 - c` |
| CanDeStuff.SeventhEqualBitFlagged | software/glasgow/applet/interface/can_sniff/__init__.py:136-144 | after a change of level, `n` equal bits set `stuff_err` exactly when `n >= 7` |
| CanDeStuff.RunKept | software/glasgow/applet/interface/can_sniff/__init__.py:125-144 | a run of equal bits that brings the count to four is passed on, and the bit after it is dropped whatever its level |
| CanDeStuff.SixthEqualBitDropped | software/glasgow/applet/interface/can_sniff/__init__.py:114-126 | after a change of level, five equal bits are passed on and the next bit is dropped whatever its level |
| CanDeStuff.Destuffer.constructor | software/glasgow/applet/interface/can_sniff/__init__.py:110-123 | all registers start at 0: no strobe, no error |
| CanDeStuff.Destuffer.Step | software/glasgow/applet/interface/can_sniff/__init__.py:125-144 | `sample_stb` is the timing strobe, registered and gated by `stable_ctr < 4`; IDLE resets the tracker to (1, 0); a sample updates it as `Observe` does; otherwise it holds; `stuff_err` is never cleared and is set exactly by a violation at a sample |
| CanLowLevel.ShiftIn | software/glasgow/applet/interface/can_sniff/__init__.py:175 | the new bit becomes bit 0, the older bits move up by one and the top bit drops out |
| CanLowLevel.ClearedIsEmpty | software/glasgow/applet/interface/can_sniff/__init__.py:166-169 | the cleared register holds the empty history |
| CanLowLevel.ShiftHistory | software/glasgow/applet/interface/can_sniff/__init__.py:173-176 | shifting a bit in extends the history held in `rx_data` by that bit |
| CanLowLevel.LowIsRecent | software/glasgow/applet/interface/can_sniff/__init__.py:272-279 | `rx_data[:k]` holds the last `k` bits shifted in, oldest highest |
| CanLowLevel.LowLevel.constructor | software/glasgow/applet/interface/can_sniff/__init__.py:153-155 | reset state: IDLE, `rx_data` 0 |
| CanLowLevel.NextState | software/glasgow/applet/interface/can_sniff/__init__.py:165-188 | the FSM enters BIT_SAMPLE exactly from SETUP with a destuffed sample, and reaches IDLE only from IDLE or BIT_WAIT |
| CanLowLevel.LowLevel.Step | software/glasgow/applet/interface/can_sniff/__init__.py:165-188 | IDLE clears `rx_data` and leaves on a boundary; SETUP shifts the bus level in at a destuffed sample; BIT_SAMPLE moves to BIT_WAIT; BIT_WAIT leaves at a boundary for SETUP or, when `run` is low, IDLE; `rx_data` always holds the last 32 bits shifted in since IDLE; `rx_rdy` is high exactly after a SETUP clock with a sample, and never two clocks in a row; the new state is `NextState` |
| CanCrc.ShiftLeft | software/glasgow/applet/interface/can_sniff/__init__.py:207 | read as a number, the shifted register is `(out << 1) mod 2^15` |
| CanCrc.Advance | software/glasgow/applet/interface/can_sniff/__init__.py:205-211 | bit 0 of the new register is the incoming bit XOR the old MSB (the polynomial is odd) |
| CanCrc.Retreat | software/glasgow/applet/interface/can_sniff/__init__.py:205-211 | for a known incoming bit, one clock of the register can be undone: `Advance(Retreat(r, b), b) == r` for every register `r` |
| CanCrc.RetreatAdvance | software/glasgow/applet/interface/can_sniff/__init__.py:205-211 | the other direction: `Retreat(Advance(out, b), b) == out`, so one clock is a bijection |
| CanCrc.FeedConcat | software/glasgow/applet/interface/can_sniff/__init__.py:203-211 | feeding `a + b` equals feeding `a`, then `b` |
| CanCrc.UnfeedFeed | software/glasgow/applet/interface/can_sniff/__init__.py:203-211 | running the register back over the bits it was fed returns its start value |
| CanCrc.FeedUnfeed | software/glasgow/applet/interface/can_sniff/__init__.py:203-211 | running back and then forward over a sequence returns the start value |
| CanCrc.UnfeedAligned | software/glasgow/applet/interface/can_sniff/__init__.py:203-211 | running back over at most 15 bits from a value whose low bits are clear moves those bits in above the rest |
| CanCrc.ZeroAfterFieldIff | software/glasgow/applet/interface/can_sniff/__init__.py:203-211 | after a 15-bit field, the register is zero exactly when the field equals the register before it |
| CanCrc.CheckPassesIff | software/glasgow/applet/interface/can_sniff/__init__.py:346 | a frame ending in a 15-bit CRC field leaves the register at zero exactly when that field is the CRC-15 of the bits before it |
| CanCrc.SingleFlipChangesRegister | software/glasgow/applet/interface/can_sniff/__init__.py:203-211 | inverting any one input bit changes the final register |
| CanCrc.SingleFlipIsDetected | software/glasgow/applet/interface/can_sniff/__init__.py:346 | a frame that passes the check fails it once any single bit, of the data or of the CRC field, is inverted |
| CanCrc.ShiftLeftValue | software/glasgow/applet/interface/can_sniff/__init__.py:207 | dropping the MSB and appending a zero doubles the value modulo 2^15 |
| CanCrc.PolyValue | software/glasgow/applet/interface/can_sniff/__init__.py:209 | the polynomial constant is 0x4599 |
| CanCrc.Crc.constructor | software/glasgow/applet/interface/can_sniff/__init__.py:198 | the register starts at 0 |
| CanCrc.Crc.Step | software/glasgow/applet/interface/can_sniff/__init__.py:203-211 | `rst` forces 0; otherwise `run && rx_rdy` advances the register by the bus level; otherwise it is unchanged |
| CanRecord.Be16 | software/glasgow/applet/interface/can_sniff/__init__.py:433-434 | the value fits 16 bits, and its high and low bytes are the two bytes read |
| CanRecord.Dlc | software/glasgow/applet/interface/can_sniff/__init__.py:428 | the length the host reads is below 16 |
| CanRecord.ReadFrame | software/glasgow/applet/interface/can_sniff/__init__.py:427-434 | the host waits (None) exactly when fewer than 3 bytes, or fewer than 6 plus the length, are there; otherwise it consumes `6 + length` bytes: the identifier is bytes 0-1 big-endian, the length is the low nibble of byte 2, the data are the next `length` bytes, the CRC is the two bytes after them big-endian, and the CRC flag is bit 0 of the last byte |
| CanRecord.Encode | software/glasgow/applet/interface/can_sniff/__init__.py:427-441 | a frame in host format takes `6 + length` bytes |
| CanRecord.ReadEncoded | software/glasgow/applet/interface/can_sniff/__init__.py:427-441 | parsing an encoded frame gives it back and consumes exactly its bytes, whatever follows |
| CanRecord.ReadRecord | software/glasgow/applet/interface/can_sniff/__init__.py:427-434 | the parse that matches the gateware's framing waits exactly on a partial record, and otherwise consumes at least one byte |
| CanRecord.ReadRecordsStream | software/glasgow/applet/interface/can_sniff/__init__.py:426-434 | whole well-formed records followed by the start of the next one parse into exactly the whole records, each decoded |
| CanRecord.ReadFrames | software/glasgow/applet/interface/can_sniff/__init__.py:426-441 | the host loop as written: it reports nothing exactly when the first record is incomplete, its first frame is the first record's, and every frame consumed at least 6 bytes |
| CanRecord.LegalRecordRead | software/glasgow/applet/interface/can_sniff/__init__.py:426-434 | the host loop reads a record with a legal length code as its decoding and resumes right after its last byte |
| CanRecord.ReadFramesLegal | software/glasgow/applet/interface/can_sniff/__init__.py:426-434 | on a stream of records with legal length codes, the host loop as written reports one frame per record, each equal to the record decoded |
| CanRecord.IllegalLengthDesyncs | software/glasgow/applet/interface/can_sniff/__init__.py:427-429 | a record with length code 12, then a legal record: the host loop as written reports nothing, while the record parse reports both |
| CanAssembler.Dec32 | software/glasgow/applet/interface/can_sniff/__init__.py:267 | a 32-bit decrement stays within 32 bits and is one less whenever the register is positive |
| CanAssembler.Dec4 | software/glasgow/applet/interface/can_sniff/__init__.py:316 | a 4-bit decrement stays within 4 bits and is one less whenever the register is positive |
| CanAssembler.FieldWidth | software/glasgow/applet/interface/can_sniff/__init__.py:265-339 | no record byte carries more than 8 bits, nor more than the bits received so far, and none is pushed before the 4th bit of a frame |
| CanAssembler.ControlDlc | software/glasgow/applet/interface/can_sniff/__init__.py:292-299 | the low 4 bits of the control byte pushed are the length code the FSM branched on, so the host's `& 0x0f` (line 428) reads that code |
| CanAssembler.Emit | software/glasgow/applet/interface/can_sniff/__init__.py:265-348 | at most one byte is written per clock, and only at an accepted bit or in CRC-1 |
| CanAssembler.NextRegs | software/glasgow/applet/interface/can_sniff/__init__.py:258-360 | the next registers keep `ctr` within 32 bits and `ctl_dlc` within 4 bits |
| CanAssembler.IdleWaitCounts | software/glasgow/applet/interface/can_sniff/__init__.py:355-360 | in IDLE-WAIT each of `k <= ctr` accepted bits lowers `ctr` by one and changes nothing else |
| CanAssembler.IdleWaitNine | software/glasgow/applet/interface/can_sniff/__init__.py:351-360 | IDLE-WAIT-INIT moves to IDLE-WAIT with `ctr` 8; the FSM stays there for eight accepted bits and returns to IDLE at the ninth |
| CanAssembler.IdentifierCounts | software/glasgow/applet/interface/can_sniff/__init__.py:265-284 | in ARBITRATION-ID an accepted bit keeps the bit and byte counts in step; it pushes 3 bits at `ctr == 8` and 8 bits at `ctr == 0` |
| CanAssembler.ControlCounts | software/glasgow/applet/interface/can_sniff/__init__.py:286-304 | in ARBITRATION-CONTROL an accepted bit keeps the counts; the 7-bit control byte goes out at `ctr == 0`, and a legal length code is recorded |
| CanAssembler.DataCounts | software/glasgow/applet/interface/can_sniff/__init__.py:306-323 | in DATA an accepted bit keeps the counts, with one byte at the end of each 8 bits and exactly DLC bytes in all |
| CanAssembler.CrcCounts | software/glasgow/applet/interface/can_sniff/__init__.py:325-342 | in CRC an accepted bit keeps the counts; 7 bits go out at `ctr == 8` and 8 bits at `ctr == 0` |
| CanAssembler.GoodParses | software/glasgow/applet/interface/can_sniff/__init__.py:426-434 | under the assembler invariant, the host's record parse of the FIFO yields exactly the completed records, decoded |
| CanAssembler.IdentifierKeepsGood | software/glasgow/applet/interface/can_sniff/__init__.py:265-284 | an accepted identifier bit keeps the assembler invariant |
| CanAssembler.ControlKeepsGood | software/glasgow/applet/interface/can_sniff/__init__.py:286-304 | an accepted control bit keeps the invariant; at an illegal length code the 3-byte record is complete and well formed, and the FSM moves to IDLE-WAIT-INIT |
| CanAssembler.DataKeepsGood | software/glasgow/applet/interface/can_sniff/__init__.py:306-323 | an accepted data bit keeps the invariant |
| CanAssembler.CrcKeepsGood | software/glasgow/applet/interface/can_sniff/__init__.py:325-342 | an accepted CRC bit keeps the invariant |
| CanAssembler.FlagKeepsGood | software/glasgow/applet/interface/can_sniff/__init__.py:344-349 | CRC-1 completes a well-formed record of `DLC + 6` bytes, keeps the invariant and moves to IDLE-WAIT-INIT |
| CanAssembler.FrameBits | software/glasgow/applet/interface/can_sniff/__init__.py:259-342 | within a frame, a clock counts one more bit exactly when `crc.run` is set and a bit is accepted, and a frame starts with no bits |
| CanAssembler.StartKeepsGood | software/glasgow/applet/interface/can_sniff/__init__.py:259-263 | the start-of-frame trigger enters ARBITRATION-ID with `ctr` at 11 and `crc.run` set, with no bits and no bytes counted; without a trigger IDLE changes nothing |
| CanAssembler.WaitKeepsGood | software/glasgow/applet/interface/can_sniff/__init__.py:351-360 | the wait after a frame pushes nothing and keeps the invariant |
| CanAssembler.IdleTickKeepsGood | software/glasgow/applet/interface/can_sniff/__init__.py:265-342 | within a frame, a clock without an accepted bit changes neither the registers nor the FIFO |
| CanAssembler.StepKeepsGood | software/glasgow/applet/interface/can_sniff/__init__.py:249-360 | every clock keeps the invariant: the FIFO is the completed well-formed records (`DLC + 6` bytes, or 3 at an illegal code) followed by the bytes the current frame's fields call for |
| CanAssembler.Assembler.constructor | software/glasgow/applet/interface/can_sniff/__init__.py:245-249 | reset state: IDLE, counters 0, CRC not running, empty FIFO |
| CanAssembler.Assembler.Push | software/glasgow/applet/interface/can_sniff/__init__.py:271-274 | a FIFO write appends one byte and changes no register |
| CanAssembler.Assembler.Step | software/glasgow/applet/interface/can_sniff/__init__.py:249-362 | the new registers are `NextRegs` of the old; the FIFO grows by exactly what `Emit` writes; the invariant is kept |
| CanAssembler.Assembler.Clock | software/glasgow/applet/interface/can_sniff/__init__.py:249-362 | as Step: the new registers are `NextRegs` and the FIFO grows by `Emit`; in addition the CRC-1 clock writes the flag `crc.out == 0` after at least 34 counted bits, and the host's record parse of the FIFO is exactly the completed records |
| CanAssembler.Assembler.IdleStep | software/glasgow/applet/interface/can_sniff/__init__.py:259-263 | IDLE, as `NextRegs` and the bookkeeping say it |
| CanAssembler.Assembler.IdentifierStep | software/glasgow/applet/interface/can_sniff/__init__.py:265-284 | ARBITRATION-ID, as `NextRegs` and the bookkeeping say it |
| CanAssembler.Assembler.ControlStep | software/glasgow/applet/interface/can_sniff/__init__.py:286-304 | ARBITRATION-CONTROL, with its three-way branch on the length code |
| CanAssembler.Assembler.DataStep | software/glasgow/applet/interface/can_sniff/__init__.py:306-323 | DATA, with the 4-bit `ctl_dlc` countdown |
| CanAssembler.Assembler.CrcStep | software/glasgow/applet/interface/can_sniff/__init__.py:325-342 | CRC, stopping the CRC register at its end |
| CanAssembler.Assembler.AfterFrameStep | software/glasgow/applet/interface/can_sniff/__init__.py:344-360 | CRC-1, IDLE-WAIT-INIT and IDLE-WAIT |
| CanReceiver.FlagOutcome | software/glasgow/applet/interface/can_sniff/__init__.py:344-348 | once the CRC register has taken in a frame, it is zero exactly when the last 15 bits are the CRC-15 of the bits before them |
| CanReceiver.Receiver.constructor | software/glasgow/applet/interface/can_sniff/__init__.py:229-234 | all parts in their reset state, with an empty FIFO |
| CanReceiver.Receiver.Step | software/glasgow/applet/interface/can_sniff/__init__.py:229-362 | one clock of the whole receiver: the FIFO grows by what the assembler emits from the pre-clock outputs; the CRC-1 clock writes 1 exactly when the frame's bits check; the host's parse of the FIFO is the completed records; while the assembler is in a frame the running bit timing keeps running (`timing.run`, lines 53 and 250); a clock in IDLE leaves the CRC register at zero, so every frame's CRC starts from zero (`crc.rst`, line 251); the new registers of the timing are its `Next`, those of the assembler its `NextRegs`, the de-stuffer's strobe and run tracker follow `DestuffNext`, and the bit-level FSM's state and shifted bits follow `ShiftNext`, each fed the other parts' pre-clock outputs |
| CanReceiver.Receiver.BitLevelStep | software/glasgow/applet/interface/can_sniff/__init__.py:160-189 | timing, destuffer and shift register clocked together keep their invariants; `rx_rdy` follows a SETUP clock with a destuffed sample; with `run` high a running bit timing keeps running; the timing's new registers are its `Next`, the de-stuffer follows `DestuffNext` with a sticky `stuff_err`, and the bit-level FSM follows `ShiftNext`, all fed the timing's pre-clock strobes |
| CanReceiver.Receiver.CrcStep | software/glasgow/applet/interface/can_sniff/__init__.py:203-211 | the CRC register is the CRC-15 of the bits it took in since its last reset; a reset clears it to zero |
| I2cTarget.OctetOf | software/glasgow/gateware/i2c_compat.py:117 | loading a byte into a shift register keeps its value |
| I2cTarget.ShiftIn | software/glasgow/gateware/i2c_compat.py:89 | shifting left with `sda_i` in: the new bit enters at bit 0 and bits 6..0 move up |
| I2cTarget.Inc3 | software/glasgow/gateware/i2c_compat.py:63 | the 3-bit `bitno` counts up by one and wraps from 7 to 0 |
| I2cTarget.Update | software/glasgow/gateware/i2c_compat.py:67-214 | every state keeps `bitno` within its 3 bits |
| I2cTarget.Next | software/glasgow/gateware/i2c_compat.py:139 | the next registers, including the `write` flip-flop, keep `bitno` within 3 bits |
| I2cTarget.StrobesAsWritten | software/glasgow/gateware/i2c_compat.py:94-212 | the strobes as the code raises them: a `read` strobe comes with `data_o` latched into `shreg_o`; a `write` strobe is raised only in WRITE-ACK |
| I2cTarget.EnteringStretchLatches | software/glasgow/gateware/i2c_compat.py:115-118 | every way into READ-STRETCH latches `data_o` into `shreg_o` |
| I2cTarget.IntendedStrobes | software/glasgow/gateware/i2c_compat.py:16-31 | the strobes the class documentation calls for: they agree with the strobes as written except `restart`, which differs exactly on a start without a stop in READ-STRETCH |
| I2cTarget.StrobesFields | software/glasgow/gateware/i2c_compat.py:139-157 | `write` is the flip-flop set on entering WRITE-ACK, and `read` is high exactly in the clock that enters READ-STRETCH |
| I2cTarget.NextGood | software/glasgow/gateware/i2c_compat.py:139 | `write` is high only in WRITE-ACK, clock after clock |
| I2cTarget.TransactionStart | software/glasgow/gateware/i2c_compat.py:16-25 | `start` is raised exactly when a transaction addressing this target begins |
| I2cTarget.TransactionEnd | software/glasgow/gateware/i2c_compat.py:16-31 | with the intended strobes, `stop` or `restart`, never both, is raised exactly when an addressed transaction ends; a stop leads to IDLE and a restart to START |
| I2cTarget.DelimitersAsWritten | software/glasgow/gateware/i2c_compat.py:103-212 | as written, `stop` or `restart` (never both) marks only the end of an addressed transaction, leading to IDLE or START, and marks every such end except a start condition in READ-STRETCH |
| I2cTarget.StopBeforeStart | software/glasgow/gateware/i2c_compat.py:73-202 | outside IDLE a stop condition always leads to IDLE; from ADDR-SHIFT on, a start condition without a stop leads to START |
| I2cTarget.StretchStartUndelimited | software/glasgow/gateware/i2c_compat.py:158-166 | as written, a start condition in READ-STRETCH leaves the addressed transaction with neither `stop` nor `restart` |
| I2cTarget.SampleStep | software/glasgow/gateware/i2c_compat.py:88-89 | in the shifting states a sample shifts `sda_i` into `shreg_i` and changes nothing else |
| I2cTarget.ShiftPair | software/glasgow/gateware/i2c_compat.py:88-92 | one bit sent by the controller, not the last of its byte, is shifted in and counted |
| I2cTarget.LastBit | software/glasgow/gateware/i2c_compat.py:88-92 | the eighth bit is shifted in and its setup is handled with `bitno` at 7 |
| I2cTarget.ShiftBits | software/glasgow/gateware/i2c_compat.py:83-137 | while fewer than eight bits are counted, every bit the controller sends is shifted into `shreg_i` and counted, and nothing else changes |
| I2cTarget.SendingAppend | software/glasgow/gateware/i2c_compat.py:83-137 | sending two runs of bits in turn equals sending them together |
| I2cTarget.ByteBits | software/glasgow/gateware/i2c_compat.py:83-137 | after a whole byte, the setup after its eighth bit finds the byte in `shreg_i` and `bitno` at 7 |
| I2cTarget.AddressMatch | software/glasgow/gateware/i2c_compat.py:83-101 | after an address byte, the target raises `start`, drives SDA low and enters ADDR-ACK exactly when the top seven bits equal its address; otherwise it returns to IDLE |
| I2cTarget.WriteByte | software/glasgow/gateware/i2c_compat.py:122-139 | after a data byte the target is in WRITE-ACK with the byte in `data_i`, and `write` is high in the next clock |
| I2cTarget.ReadPair | software/glasgow/gateware/i2c_compat.py:179-195 | one setup and sample in READ-SHIFT drive the top bit of `shreg_o` on SDA, shift it out and count it, and move to READ-ACK after the eighth |
| I2cTarget.ReadBits | software/glasgow/gateware/i2c_compat.py:179-195 | after `k` of the bits the target sends (within a byte), `shreg_o` has shifted by `k`, SDA carries the `k`-th bit and `bitno` grew by `k` |
| I2cTarget.ReceivingLast | software/glasgow/gateware/i2c_compat.py:179-195 | one more bit after `k` is one more setup and sample |
| I2cTarget.ReadByte | software/glasgow/gateware/i2c_compat.py:186-194 | after eight bits sent, MSB first, the target waits in READ-ACK with `bitno` back at 0, `shreg_o` empty and the last bit on SDA |
| I2cTarget.ReadAcknowledge | software/glasgow/gateware/i2c_compat.py:196-212 | a setup releases SDA; an ACK raises `read`, latches `data_o` and returns to READ-STRETCH; a NACK raises `stop` and goes to IDLE |
| I2cTarget.StartEntry | software/glasgow/gateware/i2c_compat.py:68-82 | a start leads from IDLE to START; in START a stop returns to IDLE and the first setup clears `bitno` and enters ADDR-SHIFT; no strobe is raised |
| I2cTarget.AddressAckDecision | software/glasgow/gateware/i2c_compat.py:110-120 | in ADDR-ACK a write (R/W 0) releases SDA at the next setup and enters WRITE-SHIFT; a read (R/W 1) latches `data_o` at the next sample and enters READ-STRETCH with `read`; the other edge changes nothing |
| I2cTarget.WriteAcknowledge | software/glasgow/gateware/i2c_compat.py:147-154 | in WRITE-ACK, while SCL is low, `ack_o` pulls SDA low and SCL is held low exactly while `busy`; a setup releases SDA and returns to WRITE-SHIFT |
| I2cTarget.StretchRelease | software/glasgow/gateware/i2c_compat.py:159-177 | in READ-STRETCH, while `busy`, `shreg_o` reloads from `data_o` and SCL is held low once low; when not busy SCL is released, SDA takes the top bit if SCL is low, and the FSM enters READ-SHIFT |
| I2cTarget.Target.constructor | software/glasgow/gateware/i2c_compat.py:63-67 | reset state: IDLE, registers 0, both lines released |
| I2cTarget.Target.Step | software/glasgow/gateware/i2c_compat.py:67-214 | the strobes are those the code raises (`StrobesAsWritten`) from the registers before the clock; the new registers are their `Next`; `write` stays confined to WRITE-ACK |
| I2cTarget.Target.Dispatch | software/glasgow/gateware/i2c_compat.py:67-214 | the current state's action gives the registers of `Update` and the `start`, `stop` and `restart` strobes of `StrobesAsWritten` |
| I2cTarget.Target.IdleStep | software/glasgow/gateware/i2c_compat.py:68-72 | IDLE, as `Update` and `StrobesAsWritten` say it |
| I2cTarget.Target.StartStep | software/glasgow/gateware/i2c_compat.py:73-82 | START |
| I2cTarget.Target.AddressStep | software/glasgow/gateware/i2c_compat.py:83-102 | ADDR-SHIFT, including the address compare and `start` |
| I2cTarget.Target.AddressAckStep | software/glasgow/gateware/i2c_compat.py:103-121 | ADDR-ACK, with the R/W decision |
| I2cTarget.Target.WriteShiftStep | software/glasgow/gateware/i2c_compat.py:122-138 | WRITE-SHIFT |
| I2cTarget.Target.WriteAckStep | software/glasgow/gateware/i2c_compat.py:140-156 | WRITE-ACK, with the acknowledge driven while SCL is low |
| I2cTarget.Target.StretchStep | software/glasgow/gateware/i2c_compat.py:158-178 | READ-STRETCH; as written, a repeated start goes to START without `restart` |
| I2cTarget.Target.ReadShiftStep | software/glasgow/gateware/i2c_compat.py:179-195 | READ-SHIFT |
| I2cTarget.Target.ReadAckStep | software/glasgow/gateware/i2c_compat.py:196-214 | READ-ACK |

## Left out

- The per-state `Step` methods of both state machines are specified by the registers of `NextRegs` or `Update`; their rows give the state each one models. The properties themselves are stated by the lemmas listed above.
- CanAssembler.NextRegs: its own contract only bounds the register widths. What each state does is stated by lemmas: StartKeepsGood (IDLE: the trigger enters ARBITRATION-ID with `ctr` 11 and `crc.run` set). IdentifierCounts, ControlCounts, DataCounts and CrcCounts cover the counting states: `Counts` ties each state and its counter to the bit position, so these fix the next state. ControlKeepsGood covers an illegal length code, which leads to IDLE-WAIT-INIT. FlagKeepsGood covers CRC-1, which leads to IDLE-WAIT-INIT. IdleWaitNine and IdleWaitCounts cover IDLE-WAIT-INIT and IDLE-WAIT. IdleTickKeepsGood covers a clock within a frame without an accepted bit, and StepKeepsGood covers every clock.
- I2cTarget.Update: its own contract only bounds `bitno`. What each state does is stated by one-clock lemmas: StartEntry (IDLE, START), StopBeforeStart and DelimitersAsWritten (stop and start in every state), SampleStep, ShiftPair and AddressMatch (ADDR-SHIFT), AddressAckDecision (ADDR-ACK), ShiftPair and WriteByte (WRITE-SHIFT), WriteAcknowledge (WRITE-ACK), StretchRelease (READ-STRETCH), ReadPair (READ-SHIFT) and ReadAcknowledge (READ-ACK).
- CanReceiver.Receiver.Step: does not relate the bits the CRC register takes in to the bits shifted into `rx_data`. The CRC samples the bus one clock after the shift register does (BIT_SAMPLE against SETUP, lines 175 and 205-206), and the model does not assume the bus level holds for that clock.
- Bytes are `nat` values below 256 rather than `bv8`. Every byte written is produced by reading bits as a number, so no bit-vector operation is needed.
- `CANBus`, the `FFSynchronizer` and the pad and debug-pin wiring (lines 24-47, 236-252) are pin plumbing: `rx_i` is an input of every clock, already synchronised.
- The computation of `bit_cyc` from the clock frequency (line 62) uses floating point. The quantum is a parameter, restricted to values whose bit period fits the 32-bit counter.
- The `manual_cyc`, `bit_cyc` and `rx_errors` registers, `build`, `run` and `derive_clock` are device and USB set-up.
- The printing and the asyncio `spacer` of `interact` are I/O. Only the byte-record parse is kept.
- FIFO back-pressure (`w_rdy`) is left out: the gateware never looks at it, and the model's FIFO only grows.
- `rx_rdy_raw` (line 154) is declared but never driven, so it is not modelled.
- `stuff_err` is modelled but nothing in the receiver reads it, as in the source.
- I2CBus and the `i2c_nmigen` module are not part of this model. Its `start`, `stop`, `setup` and `sample` strobes and the `scl_i` and `sda_i` levels are unconstrained inputs of every clock, so no relation between them (a sample between two setups, say) is assumed.
- The reset values of `sda_o` and `scl_o` come from I2CBus, which is not part of this model. They are taken as released (high).
- The `busy` clock-stretching input is modelled as an unconstrained input of every clock.

## Findings

| source | as written | input that shows it | evidently intended | confidence | as-written member | corrected member |
|---|---|---|---|---|---|---|
| software/glasgow/gateware/i2c_compat.py:162-166 | a start condition in READ-STRETCH goes to START without raising `restart`, unlike every other state of an addressed transaction | in READ-STRETCH, `bus.start` high and `bus.stop` low, after a read address was acknowledged | the class documentation (lines 16-20) says a transaction always ends with a stop or a restart strobe, so this branch should raise `restart` as the other states do | high, not executed | I2cTarget.StretchStartUndelimited | I2cTarget.TransactionEnd |
| software/glasgow/applet/interface/can_sniff/__init__.py:427-431 | the host always reads `length & 0x0f` data bytes and three more, but for a length code above 8 the gateware ends the record after its 3 header bytes (line 300) | the bytes `01 23 0C` (a record with length code 12) followed by the legal record `00 55 00 12 34 01`: the host waits for 12 data bytes, swallows the next record and reports neither | a record with an illegal length code should be read as only its 3 header bytes, so that the next record is parsed from its own first byte | medium, not executed | CanRecord.IllegalLengthDesyncs | CanRecord.ReadRecordsStream |
