/**
 * Bit timing of the CAN receiver (class CANTiming).
 *
 * A bit is ten time quanta of `bitCyc` clock cycles: one synchronisation
 * quantum, three of propagation and three of phase segment 1 before the
 * sample point, and three of phase segment 2 after it.  While idle the
 * timing waits for a dominant level on the bus (`rx_trigger`, the inverse
 * of `rx_i`), which marks a bit boundary; while running, a free counter
 * marks the sample point and the next boundary, and the timing falls back
 * to idle at a boundary when the frame assembler no longer asks it to run.
 */
module CanTiming {

  const Sync: nat := 1
  const Prop: nat := 3
  const Seg1: nat := 3
  const Seg2: nat := 3

  /** Registers of the source are 32 bits wide; a sum wraps modulo this. */
  const Wrap32: nat := 0x1_0000_0000

  /** Cycles from a bit boundary to the next bit boundary (line 74). */
  function PeriodCycles(bitCyc: nat): nat {
    (Sync + Prop + Seg1 + Seg2) * bitCyc
  }

  /**
   * Cycles from a bit boundary to the sample point (line 73): strictly
   * inside the bit, at 70 % of it.
   */
  function SetupCycles(bitCyc: nat): (r: nat)
    requires bitCyc > 0
    ensures 0 < r < PeriodCycles(bitCyc)
    ensures 10 * r == 7 * PeriodCycles(bitCyc)
  {
    (Sync + Prop + Seg1) * bitCyc
  }

  /** The bit times this model admits: a positive quantum, and counters that fit 32 bits. */
  predicate ValidBitCyc(bitCyc: nat) {
    bitCyc > 0 && PeriodCycles(bitCyc) < Wrap32
  }

  datatype Phase = Idle | Run

  /** The registers of the timing: the FSM state and the cycle counter `ctr`. */
  datatype Regs = Regs(phase: Phase, ctr: nat)

  /** The combinational outputs of one tick. */
  datatype Strobes = Strobes(idle: bool, boundary: bool, sample: bool)

  /** The registers keep the counter at zero while idle and never past one period. */
  predicate Inv(bitCyc: nat, s: Regs) {
    s.ctr <= PeriodCycles(bitCyc) && (s.phase == Idle ==> s.ctr == 0)
  }

  /** The strobes of a tick, computed from the registers before it (lines 83-98). */
  function Outputs(bitCyc: nat, s: Regs, rxTrigger: bool): (o: Strobes)
    requires ValidBitCyc(bitCyc)
    ensures o.idle <==> s.phase == Idle
    ensures s.phase == Idle ==> (o.boundary <==> rxTrigger) && !o.sample
    ensures o.sample ==> !o.idle && !o.boundary
  {
    match s.phase
    case Idle => Strobes(true, rxTrigger, false)
    case Run => Strobes(false, s.ctr >= PeriodCycles(bitCyc), s.ctr == SetupCycles(bitCyc))
  }

  /**
   * The registers after a tick (lines 83-100).  In RUN the later
   * assignment of 0 at the boundary overrides the increment.
   */
  function Next(bitCyc: nat, s: Regs, rxTrigger: bool, run: bool): (r: Regs)
    requires ValidBitCyc(bitCyc)
    ensures r.ctr < Wrap32
    ensures Inv(bitCyc, s) ==> Inv(bitCyc, r)
    ensures Outputs(bitCyc, s, rxTrigger).boundary ==> r.ctr == 0
    ensures r.phase == Idle <==> (s.phase == Idle && !rxTrigger) || (Outputs(bitCyc, s, rxTrigger).boundary && s.phase == Run && !run)
  {
    match s.phase
    case Idle => Regs(if rxTrigger then Run else Idle, 0)
    case Run =>
      if s.ctr >= PeriodCycles(bitCyc) then Regs(if run then Run else Idle, 0)
      else Regs(Run, (s.ctr + 1) % Wrap32)
  }

  /**
   * The registers after one tick per element of `triggers` while the
   * assembler keeps `run` high, whatever the bus does.
   */
  function RunTicks(bitCyc: nat, s: Regs, triggers: seq<bool>): Regs
    requires ValidBitCyc(bitCyc)
    decreases |triggers|
  {
    if triggers == [] then s
    else Next(bitCyc, RunTicks(bitCyc, s, triggers[..|triggers| - 1]), triggers[|triggers| - 1], true)
  }

  /**
   * Within a bit, the counter counts the ticks since the tick after the
   * boundary: it holds `k` after `k` ticks, so with `run` held high the
   * sample strobe fires exactly once, `SetupCycles` ticks in, and the
   * boundary strobe exactly once, `PeriodCycles` ticks in.
   */
  lemma {:induction false} CounterInBit(bitCyc: nat, triggers: seq<bool>)
    requires ValidBitCyc(bitCyc)
    requires |triggers| <= PeriodCycles(bitCyc)
    ensures RunTicks(bitCyc, Regs(Run, 0), triggers) == Regs(Run, |triggers|)
    decreases |triggers|
  {
    if triggers != [] {
      CounterInBit(bitCyc, triggers[..|triggers| - 1]);
    }
  }

  lemma BitStrobes(bitCyc: nat, triggers: seq<bool>, rxTrigger: bool)
    requires ValidBitCyc(bitCyc)
    requires |triggers| <= PeriodCycles(bitCyc)
    ensures Outputs(bitCyc, RunTicks(bitCyc, Regs(Run, 0), triggers), rxTrigger).sample <==> |triggers| == SetupCycles(bitCyc)
    ensures Outputs(bitCyc, RunTicks(bitCyc, Regs(Run, 0), triggers), rxTrigger).boundary <==> |triggers| == PeriodCycles(bitCyc)
  {
    CounterInBit(bitCyc, triggers);
  }

  /**
   * With `run` held high the timing is periodic: one tick after the
   * boundary the counter is back at zero, so boundaries are
   * `PeriodCycles + 1` ticks apart.
   */
  lemma BitPeriod(bitCyc: nat, triggers: seq<bool>)
    requires ValidBitCyc(bitCyc)
    requires |triggers| == PeriodCycles(bitCyc) + 1
    ensures RunTicks(bitCyc, Regs(Run, 0), triggers) == Regs(Run, 0)
  {
    CounterInBit(bitCyc, triggers[..|triggers| - 1]);
  }

  /** The timing FSM of class CANTiming. */
  class Timing {
    const bitCyc: nat
    var phase: Phase
    var ctr: nat

    ghost predicate Valid()
      reads this
    {
      ValidBitCyc(bitCyc) && Inv(bitCyc, Regs(phase, ctr))
    }

    function State(): Regs
      reads this
    {
      Regs(phase, ctr)
    }

    constructor (bitCyc: nat)
      requires ValidBitCyc(bitCyc)
      ensures Valid() && this.bitCyc == bitCyc && phase == Idle && ctr == 0
    {
      this.bitCyc := bitCyc;
      phase := Idle;
      ctr := 0;
    }

    /**
     * One clock tick.  The strobes are those of the registers before the
     * tick; the registers then take their next values.
     */
    method Step(rxTrigger: bool, run: bool) returns (out: Strobes)
      requires Valid()
      modifies this
      ensures Valid()
      ensures out == Outputs(bitCyc, old(State()), rxTrigger)
      ensures State() == Next(bitCyc, old(State()), rxTrigger, run)
    {
      var setup, period := SetupCycles(bitCyc), PeriodCycles(bitCyc);
      out := Strobes(phase == Idle, false, false);
      if phase == Idle {
        ctr := 0;
        if rxTrigger {
          out := out.(boundary := true);
          phase := Run;
        }
      } else {
        var was := ctr;
        ctr := (ctr + 1) % Wrap32;
        if was == setup {
          out := out.(sample := true);
        }
        if was >= period {
          out := out.(boundary := true);
          ctr := 0;
          if !run {
            phase := Idle;
          }
        }
      }
    }
  }
}
