/**
 * Bit strings and the numbers they denote, shared by the CAN receiver
 * components and the host-side record parser.
 */
module Bits {

  /** An octet as it travels through the FIFO to the host. */
  type Byte = x: nat | x < 256

  function Pow2(n: nat): (p: nat)
    ensures p >= 1
  {
    if n == 0 then 1 else 2 * Pow2(n - 1)
  }

  /** The number a sequence of bits denotes, most significant bit first. */
  function Value(bits: seq<bool>): nat
    decreases |bits|
  {
    if bits == [] then 0 else 2 * Value(bits[..|bits| - 1]) + (if bits[|bits| - 1] then 1 else 0)
  }

  lemma {:induction false} ValueBound(bits: seq<bool>)
    ensures Value(bits) < Pow2(|bits|)
    decreases |bits|
  {
    if bits != [] {
      ValueBound(bits[..|bits| - 1]);
    }
  }

  /** Prefixing a bit adds its weight above all the others. */
  lemma {:induction false} ValueCons(b: bool, bits: seq<bool>)
    ensures Value([b] + bits) == (if b then Pow2(|bits|) else 0) + Value(bits)
    decreases |bits|
  {
    if bits != [] {
      var n := |bits|;
      assert ([b] + bits)[..n] == [b] + bits[..n - 1];
      ValueCons(b, bits[..n - 1]);
    }
  }

  /** A concatenation denotes its high part shifted above its low part. */
  lemma {:induction false} ValueConcat(hi: seq<bool>, lo: seq<bool>)
    ensures Value(hi + lo) == Value(hi) * Pow2(|lo|) + Value(lo)
    decreases |lo|
  {
    if lo == [] {
      assert hi + lo == hi;
    } else {
      var n := |lo|;
      var lo', b := lo[..n - 1], if lo[n - 1] then 1 else 0;
      assert (hi + lo)[..|hi + lo| - 1] == hi + lo';
      assert (hi + lo)[|hi + lo| - 1] == lo[n - 1];
      ValueConcat(hi, lo');
      Doubling(Value(hi), Pow2(n - 1), Value(lo'), b);
    }
  }

  lemma Doubling(v: nat, p: nat, x: nat, b: nat)
    ensures 2 * (v * p + x) + b == v * (2 * p) + (2 * x + b)
  {
  }

  lemma {:induction false} Pow2Mono(a: nat, b: nat)
    requires a <= b
    ensures Pow2(a) <= Pow2(b)
    decreases b
  {
    if a < b {
      Pow2Mono(a, b - 1);
    }
  }

  /** The number at most eight bits denote, as a byte. */
  function ByteOf(bits: seq<bool>): (b: Byte)
    requires |bits| <= 8
    ensures b < Pow2(|bits|)
  {
    ValueBound(bits);
    Pow2Mono(|bits|, 8);
    assert Pow2(8) == 256;
    Value(bits)
  }
}
