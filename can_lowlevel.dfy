/**
 * The bit-level receiver (class CANLowLevel): a four-state FSM that waits
 * for a bit boundary, shifts the destuffed sample into the 32-bit register
 * `rx_data` and raises `rx_rdy` for one tick per accepted bit.
 */
module CanLowLevel {

  /** The 32-bit shift register `rx_data`, most significant bit first: `w[31]` is bit 0. */
  type Window = w: seq<bool> | |w| == 32
    witness [false, false, false, false, false, false, false, false, false, false, false, false, false, false, false, false, false, false, false, false, false, false, false, false, false, false, false, false, false, false, false, false]

  const Cleared: Window := [false, false, false, false, false, false, false, false, false, false, false, false, false, false, false, false, false, false, false, false, false, false, false, false, false, false, false, false, false, false, false, false]

  /**
   * Shifting a bit in (line 175): the new bit becomes bit 0, the older bits
   * move up by one and the most significant bit drops out.
   */
  function ShiftIn(w: Window, bit: bool): (r: Window)
    ensures r[31] == bit
    ensures r[..31] == w[1..]
  {
    w[1..] + [bit]
  }

  function Zeros(k: nat): (r: seq<bool>)
    ensures |r| == k && forall i :: 0 <= i < k ==> !r[i]
  {
    seq(k, _ => false)
  }

  /** The register holding the last 32 bits of `bits`, zero-filled above a shorter history. */
  function WindowOf(bits: seq<bool>): Window {
    if |bits| >= 32 then bits[|bits| - 32..] else Zeros(32 - |bits|) + bits
  }

  /** The cleared register holds the empty history. */
  lemma ClearedIsEmpty()
    ensures WindowOf([]) == Cleared
  {
    assert Zeros(32) + [] == Cleared;
  }

  /** Shifting a bit in extends the history by that bit. */
  lemma ShiftHistory(bits: seq<bool>, bit: bool)
    ensures WindowOf(bits + [bit]) == ShiftIn(WindowOf(bits), bit)
  {
    var n := |bits|;
    if n >= 32 {
      assert (bits + [bit])[n + 1 - 32..] == bits[n - 32..][1..] + [bit];
    } else if n == 31 {
      assert (Zeros(1) + bits)[1..] == bits;
      assert (bits + [bit])[0..] == bits + [bit];
    } else {
      assert (Zeros(32 - n) + bits)[1..] == Zeros(31 - n) + bits;
      assert Zeros(31 - n) + (bits + [bit]) == (Zeros(31 - n) + bits) + [bit];
    }
  }

  /** The low `k` bits of the register, most significant first: `rx_data[:k]`. */
  function Low(w: Window, k: nat): (r: seq<bool>)
    requires k <= 32
    ensures |r| == k
  {
    w[32 - k..]
  }

  /** The low `k` bits of the register are the last `k` bits shifted in. */
  lemma LowIsRecent(bits: seq<bool>, k: nat)
    requires k <= 32 && k <= |bits|
    ensures Low(WindowOf(bits), k) == bits[|bits| - k..]
  {
    var n := |bits|;
    if n >= 32 {
      assert bits[n - 32..][32 - k..] == bits[n - k..];
    } else {
      assert (Zeros(32 - n) + bits)[32 - k..] == bits[n - k..];
    }
  }

  datatype State = Idle | Setup | BitSample | BitWait

  /** The FSM and shift register of class CANLowLevel. */
  /** The FSM state after a tick (lines 165-188). */
  function NextState(s: State, boundary: bool, dsSample: bool, run: bool): (s': State)
    ensures s' == BitSample <==> s == Setup && dsSample
    ensures s' == Idle ==> s == Idle || s == BitWait
  {
    match s
    case Idle => if boundary then Setup else Idle
    case Setup => if dsSample then BitSample else Setup
    case BitSample => BitWait
    case BitWait => if !boundary then BitWait else if run then Setup else Idle
  }

  class LowLevel {
    var state: State
    var rxData: Window
    /** The bits shifted in since the FSM last passed through IDLE. */
    ghost var shifted: seq<bool>

    ghost predicate Valid()
      reads this
    {
      rxData == WindowOf(shifted)
    }

    constructor ()
      ensures Valid() && state == Idle && shifted == []
    {
      state, rxData := Idle, Cleared;
      shifted := [];
      ClearedIsEmpty();
    }

    /** `rx_rdy` (line 179): high during the one tick spent in BIT_SAMPLE. */
    function RxRdy(): bool
      reads this
    {
      state == BitSample
    }

    /**
     * One clock tick (lines 165-188), given this tick's timing boundary
     * strobe, the destuffer's registered sample strobe, the assembler's
     * `run` and the bus level.
     */
    method Step(boundary: bool, dsSample: bool, run: bool, rxI: bool)
      requires Valid()
      modifies this
      ensures Valid()
      ensures old(state) == Idle ==> rxData == Cleared && shifted == [] && state == (if boundary then Setup else Idle)
      ensures old(state) == Setup && dsSample ==> rxData == ShiftIn(old(rxData), rxI) && shifted == old(shifted) + [rxI] && state == BitSample
      ensures old(state) == Setup && !dsSample ==> rxData == old(rxData) && shifted == old(shifted) && state == Setup
      ensures old(state) == BitSample ==> rxData == old(rxData) && shifted == old(shifted) && state == BitWait
      ensures old(state) == BitWait ==> rxData == old(rxData) && shifted == old(shifted) && state == (if !boundary then BitWait else if run then Setup else Idle)
      ensures RxRdy() <==> old(state) == Setup && dsSample
      ensures old(RxRdy()) ==> !RxRdy()
      ensures state == NextState(old(state), boundary, dsSample, run)
    {
      match state
      case Idle =>
        rxData := Cleared;
        shifted := [];
        ClearedIsEmpty();
        if boundary {
          state := Setup;
        }
      case Setup =>
        if dsSample {
          ShiftHistory(shifted, rxI);
          rxData := ShiftIn(rxData, rxI);
          shifted := shifted + [rxI];
          state := BitSample;
        }
      case BitSample =>
        state := BitWait;
      case BitWait =>
        if boundary {
          state := if run then Setup else Idle;
        }
    }
  }
}
