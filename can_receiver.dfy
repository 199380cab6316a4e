/**
 * The CAN receiver of the sniffer (elaborate of class CANSubtarget, lines
 * 229-254): the bit timing, the de-stuffer, the bit-level FSM, the CRC
 * register and the frame assembler, clocked together.
 *
 * In every clock all of them see the outputs the others had before the
 * clock, and then all take their next values.  The ghost field `crcBits`
 * holds the bits the CRC register has taken in since it was last reset.
 */
module CanReceiver {

  import opened Bits
  import opened CanRecord
  import T = CanTiming
  import D = CanDeStuff
  import Ll = CanLowLevel
  import C = CanCrc
  import A = CanAssembler

  class Receiver {
    const timing: T.Timing
    const destuff: D.Destuffer
    const ll: Ll.LowLevel
    const crc: C.Crc
    const assembler: A.Assembler
    ghost var crcBits: seq<bool>

    ghost predicate Valid()
      reads this, timing, destuff, ll, crc, assembler
    {
      timing.Valid() && destuff.Valid() && ll.Valid() && assembler.Valid()
      && crc.out == C.CrcOf(crcBits)
      && (A.Counting(assembler.phase) || assembler.phase == A.Crc1 ==> |crcBits| == |assembler.words|)
    }

    constructor (bitCyc: nat)
      requires T.ValidBitCyc(bitCyc)
      ensures Valid() && fresh(timing) && fresh(destuff) && fresh(ll) && fresh(crc) && fresh(assembler)
      ensures timing.bitCyc == bitCyc && assembler.fifo == [] && crcBits == []
    {
      timing := new T.Timing(bitCyc);
      destuff := new D.Destuffer();
      ll := new Ll.LowLevel();
      crc := new C.Crc();
      assembler := new A.Assembler();
      crcBits := [];
    }

    /**
     * One clock, given the synchronised bus level `rxI`.  A low level is the
     * start-of-frame trigger of the timing and of the assembler (line 49).
     * The CRC register takes in the bus level at the tick the shift register
     * reports a bit (`rx_rdy`), and the byte that ends a frame's record is 1
     * exactly when the last 15 bits it took in are the CRC-15 of those before
     * them.  The host, parsing the FIFO, sees every completed record.
     */
    method Step(rxI: bool)
      requires Valid()
      modifies this, timing, destuff, ll, crc, assembler
      ensures Valid()
      ensures assembler.fifo == old(assembler.fifo) + A.Emit(old(assembler.Registers()), old(ll.RxRdy()), old(ll.rxData), old(crc.out) == C.Zero)
      ensures old(assembler.phase) == A.Crc1 ==>
        assembler.fifo == old(assembler.fifo) + [if FrameChecks(old(crcBits)) then 1 else 0]
      ensures ReadRecords(assembler.fifo) == DecodeAll(assembler.records)
      ensures old(assembler.phase) != A.Idle && old(timing.phase) == T.Run ==> timing.phase == T.Run
      ensures old(assembler.phase) == A.Idle ==> crc.out == C.Zero && crcBits == []
      ensures assembler.Registers() == A.NextRegs(old(assembler.Registers()), !rxI, old(ll.RxRdy()), old(ll.rxData))
      ensures timing.State() == T.Next(timing.bitCyc, old(timing.State()), !rxI, old(assembler.TimingRun()))
      ensures var o := T.Outputs(timing.bitCyc, old(timing.State()), !rxI);
        DestuffNext(o, old(destuff.Run()), destuff.Run(), destuff.sampleStb, rxI)
        && ShiftNext(old(ll.state), ll.state, old(ll.shifted), ll.shifted, o.boundary, old(destuff.sampleStb), old(assembler.TimingRun()), rxI)
    {
      // The outputs of all components before the clock.
      var run := assembler.TimingRun();
      var rst := assembler.CrcRst();
      var crcRun := assembler.crcRun;
      var dsSample := destuff.sampleStb;
      var rxRdy := ll.RxRdy();
      var rxData := ll.rxData;
      var crcZero := crc.out == C.Zero;
      if assembler.phase == A.Crc1 {
        FlagOutcome(crcBits);
      }

      BitLevelStep(rxI, run, dsSample);
      CrcStep(rxI, rst, crcRun, rxRdy);
      assembler.Clock(!rxI, rxRdy, rxData, crcZero);
    }

    /** The bit timing, the de-stuffer and the bit-level FSM, clocked together. */
    method BitLevelStep(rxI: bool, run: bool, dsSample: bool)
      requires timing.Valid() && destuff.Valid() && ll.Valid()
      modifies timing, destuff, ll
      ensures timing.Valid() && destuff.Valid() && ll.Valid()
      ensures ll.RxRdy() <==> old(ll.state) == Ll.Setup && dsSample
      ensures run && old(timing.phase) == T.Run ==> timing.phase == T.Run
      ensures timing.State() == T.Next(timing.bitCyc, old(timing.State()), !rxI, run)
      ensures var o := T.Outputs(timing.bitCyc, old(timing.State()), !rxI);
        DestuffNext(o, old(destuff.Run()), destuff.Run(), destuff.sampleStb, rxI)
        && destuff.stuffErr == (old(destuff.stuffErr) || (!o.idle && o.sample && D.Violation(old(destuff.Run()), rxI)))
        && ShiftNext(old(ll.state), ll.state, old(ll.shifted), ll.shifted, o.boundary, dsSample, run, rxI)
    {
      var strobes := timing.Step(!rxI, run);
      destuff.Step(strobes.idle, strobes.sample, rxI);
      ll.Step(strobes.boundary, dsSample, run, rxI);
    }

    /** The CRC register, with the bits it has taken in since its reset. */
    method CrcStep(rxI: bool, rst: bool, crcRun: bool, rxRdy: bool)
      requires crc.out == C.CrcOf(crcBits)
      modifies this, crc
      ensures crc.out == C.CrcOf(crcBits)
      ensures crcBits == if rst then [] else if crcRun && rxRdy then old(crcBits) + [rxI] else old(crcBits)
      ensures rst ==> crc.out == C.Zero
    {
      if rst {
        crcBits := [];
      } else if crcRun && rxRdy {
        crcBits := crcBits + [rxI];
      }
      crc.Step(rst, crcRun, rxRdy, rxI);
    }
  }

  /**
   * The de-stuffer's clock (lines 125-144) given the timing's strobes `o`:
   * the registered strobe passes a sample through the gate, and the run
   * tracker restarts while the timing is idle and observes each sample.
   */
  predicate DestuffNext(o: T.Strobes, s: D.RunState, s': D.RunState, sampleStb': bool, rxI: bool) {
    sampleStb' == (o.sample && D.Gate(s))
    && s' == (if o.idle then D.Initial else if o.sample then D.Observe(s, rxI) else s)
  }

  /**
   * The bit-level FSM's clock (lines 165-188): its next state, and the bits
   * shifted in since IDLE, grown by the bus level exactly at a SETUP clock
   * with a de-stuffed sample.
   */
  predicate ShiftNext(l: Ll.State, l': Ll.State, shifted: seq<bool>, shifted': seq<bool>, boundary: bool, dsSample: bool, run: bool, rxI: bool) {
    l' == Ll.NextState(l, boundary, dsSample, run)
    && shifted' == (if l == Ll.Idle then [] else if l == Ll.Setup && dsSample then shifted + [rxI] else shifted)
  }

  /** Whether the last 15 bits of a frame are the CRC-15 of the bits before them. */
  predicate FrameChecks(bits: seq<bool>) {
    |bits| >= 15 && bits[|bits| - 15..] == C.CrcOf(bits[..|bits| - 15])
  }

  /**
   * Once the CRC register has taken in a whole frame, it is zero exactly
   * when the frame's last 15 bits are the CRC of the bits before them.
   */
  lemma FlagOutcome(bits: seq<bool>)
    requires |bits| >= 15
    ensures C.CrcOf(bits) == C.Zero <==> FrameChecks(bits)
  {
    var n := |bits| - 15;
    assert bits == bits[..n] + bits[n..];
    C.CheckPassesIff(bits[..n], bits[n..]);
  }
}
