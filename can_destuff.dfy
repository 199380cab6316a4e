/**
 * Bit de-stuffing of the CAN receiver (class CANDeStuff).
 *
 * A CAN transmitter inserts the complement of a bit after five equal bits
 * (section 5 of the Bosch CAN 2.0 specification, Part A).  The destuffer
 * counts, in `stable_ctr`, how many sampled bits have repeated the previous
 * one; it passes a sample on (one tick late, as the registered strobe
 * `sample_stb`) only while that count is below four, so the bit that
 * follows five equal bits is dropped.  A bit equal to the previous one while
 * the count is already five sets the sticky `stuff_err` flag.
 */
module CanDeStuff {

  /** `stable_ctr` is a 3-bit register: an increment wraps modulo 8. */
  const CounterWrap: nat := 8

  /** The run tracker: the last sampled bit and how often it has repeated. */
  datatype RunState = RunState(lastBit: bool, stableCtr: nat)

  /** The tracker while (and right after) the timing is idle: the idle bus is recessive. */
  const Initial := RunState(true, 0)

  /** The gate of lines 125-126: a sample passes while fewer than four repetitions were seen. */
  predicate Gate(s: RunState) {
    s.stableCtr < 4
  }

  /** The condition of line 138: one bit too many of the same level. */
  predicate Violation(s: RunState, bit: bool) {
    bit == s.lastBit && s.stableCtr >= 5
  }

  /**
   * The tracker after sampling `bit` (lines 135-144): a change of level
   * or a violation restarts the count, a repetition increments it.
   */
  function Observe(s: RunState, bit: bool): (r: RunState)
    ensures r.lastBit == bit
    ensures r.stableCtr <= 5
    ensures r.stableCtr == 0 <==> bit != s.lastBit || s.stableCtr >= 5
    ensures r.stableCtr != 0 ==> r.stableCtr == s.stableCtr + 1
  {
    if bit != s.lastBit then RunState(bit, 0)
    else if s.stableCtr >= 5 then RunState(bit, 0)
    else RunState(bit, (s.stableCtr + 1) % CounterWrap)
  }

  /** The bits passed on when the raw bits `bits` are sampled one after another. */
  function Destuff(s: RunState, bits: seq<bool>): seq<bool>
    decreases |bits|
  {
    if bits == [] then []
    else (if Gate(s) then [bits[0]] else []) + Destuff(Observe(s, bits[0]), bits[1..])
  }

  /** Whether sampling `bits` one after another sets `stuff_err`. */
  predicate Violates(s: RunState, bits: seq<bool>)
    decreases |bits|
  {
    bits != [] && (Violation(s, bits[0]) || Violates(Observe(s, bits[0]), bits[1..]))
  }

  /**
   * The transmitter's side: the raw bits for the payload `p`, with the
   * complement of a bit inserted wherever the destuffer's gate closes.
   */
  function Stuff(s: RunState, p: seq<bool>): seq<bool>
    requires Gate(s)
    decreases |p|
  {
    if p == [] then []
    else
      var b := p[0];
      var s1 := Observe(s, b);
      if Gate(s1) then [b] + Stuff(s1, p[1..])
      else [b, !b] + Stuff(Observe(s1, !b), p[1..])
  }

  /**
   * De-stuffing undoes stuffing: the destuffer passes on exactly the
   * payload, drops every inserted bit and never flags an error.
   */
  lemma {:induction false} DestuffStuff(s: RunState, p: seq<bool>)
    requires Gate(s)
    ensures Destuff(s, Stuff(s, p)) == p
    ensures !Violates(s, Stuff(s, p))
    decreases |p|
  {
    if p != [] {
      var b := p[0];
      var s1 := Observe(s, b);
      if Gate(s1) {
        var x := Stuff(s1, p[1..]);
        DestuffStuff(s1, p[1..]);
        assert ([b] + x)[0] == b && ([b] + x)[1..] == x;
        assert p == [b] + p[1..];
      } else {
        var s2 := Observe(s1, !b);
        var x := Stuff(s2, p[1..]);
        DestuffStuff(s2, p[1..]);
        assert ([b, !b] + x)[0] == b && ([b, !b] + x)[1..] == [!b] + x;
        assert ([!b] + x)[0] == !b && ([!b] + x)[1..] == x;
        assert p == [b] + p[1..];
      }
    }
  }

  function Repeat(b: bool, n: nat): (r: seq<bool>)
    ensures |r| == n && forall i :: 0 <= i < n ==> r[i] == b
  {
    seq(n, _ => b)
  }

  lemma {:induction false} RunFlagged(b: bool, c: nat, m: nat)
    requires c <= 5
    ensures Violates(RunState(b, c), Repeat(b, m)) <==> m >= 6 - c
    decreases m
  {
    if m > 0 {
      assert Repeat(b, m)[1..] == Repeat(b, m - 1);
      if c < 5 {
        RunFlagged(b, c + 1, m - 1);
      }
    }
  }

  /**
   * After a change of level, six equal bits pass without an error (the
   * sixth is silently dropped as if it were a stuff bit) and only a
   * seventh equal bit sets `stuff_err`.
   */
  lemma SeventhEqualBitFlagged(b: bool, k: nat, n: nat)
    requires k <= 5
    ensures Violates(RunState(!b, k), Repeat(b, n)) <==> n >= 7
  {
    if n > 0 {
      assert Repeat(b, n)[1..] == Repeat(b, n - 1);
      RunFlagged(b, 0, n - 1);
    }
  }

  /**
   * A run of equal bits that brings the count to four is passed on, and the
   * bit after it is dropped, whatever its level.
   */
  lemma {:induction false} RunKept(b: bool, c: nat, m: nat, x: bool)
    requires m >= 1 && c + m == 5
    ensures Destuff(RunState(b, c), Repeat(b, m - 1) + [x]) == Repeat(b, m - 1)
    decreases m
  {
    var bits := Repeat(b, m - 1) + [x];
    if m == 1 {
      assert bits == [x];
    } else {
      assert bits[0] == b && bits[1..] == Repeat(b, m - 2) + [x];
      RunKept(b, c + 1, m - 1, x);
      assert [b] + Repeat(b, m - 2) == Repeat(b, m - 1);
    }
  }

  /**
   * After a change of level, five equal bits are passed on and the bit that
   * follows them is dropped, whatever its level: a stuff bit of the opposite
   * level and a sixth equal bit alike.
   */
  lemma SixthEqualBitDropped(b: bool, k: nat, x: bool)
    requires k < 4
    ensures Destuff(RunState(!b, k), Repeat(b, 5) + [x]) == Repeat(b, 5)
  {
    var bits := Repeat(b, 5) + [x];
    assert bits[0] == b && bits[1..] == Repeat(b, 4) + [x];
    RunKept(b, 0, 5, x);
    assert [b] + Repeat(b, 4) == Repeat(b, 5);
  }

  /** The registers of class CANDeStuff. */
  class Destuffer {
    var lastBit: bool
    var stableCtr: nat
    /** The registered, gated sample strobe passed on to the shift register. */
    var sampleStb: bool
    var stuffErr: bool

    ghost predicate Valid()
      reads this
    {
      stableCtr <= 5
    }

    function Run(): RunState
      reads this
    {
      RunState(lastBit, stableCtr)
    }

    /** All registers start at their reset value 0. */
    constructor ()
      ensures Valid() && Run() == RunState(false, 0) && !sampleStb && !stuffErr
    {
      lastBit, stableCtr, sampleStb, stuffErr := false, 0, false, false;
    }

    /**
     * One clock tick (lines 126-144), given the timing's `idle` and
     * `sample_stb` of this tick and the bus level.
     */
    method Step(idle: bool, timingSample: bool, rxI: bool)
      requires Valid()
      modifies this
      ensures Valid()
      ensures sampleStb == (timingSample && Gate(old(Run())))
      ensures Run() == if idle then Initial else if timingSample then Observe(old(Run()), rxI) else old(Run())
      ensures stuffErr == (old(stuffErr) || (!idle && timingSample && Violation(old(Run()), rxI)))
    {
      sampleStb := timingSample && stableCtr < 4;
      if idle {
        lastBit, stableCtr := true, 0;
      } else if timingSample {
        var was := lastBit;
        lastBit := rxI;
        if was != rxI {
          stableCtr := 0;
        } else if stableCtr >= 5 {
          stableCtr := 0;
          stuffErr := true;
        } else {
          stableCtr := (stableCtr + 1) % CounterWrap;
        }
      }
    }
  }
}
