/**
 * The CRC-15 register of the CAN receiver (class CANCRC).
 *
 * The register is a 15-bit linear feedback shift register with the CAN
 * generator polynomial x^15 + x^14 + x^10 + x^8 + x^7 + x^4 + x^3 + 1
 * (0x4599 without its x^15 term), as in section 3.1.1 of the Bosch CAN 2.0
 * specification, Part A.  It is held at zero while the frame assembler is
 * idle and advances by one bit on every accepted (destuffed) bit while the
 * assembler keeps it running.
 *
 * A register value is written as its 15 bits, most significant bit first:
 * `r[0]` is `out[-1]` (bit 14) and `r[14]` is `out[0]`.
 */
module CanCrc {

  import opened Bits

  /** A 15-bit register value, most significant bit first. */
  type Register = r: seq<bool> | |r| == 15
    witness [false, false, false, false, false, false, false, false, false, false, false, false, false, false, false]

  const Zero: Register := [false, false, false, false, false, false, false, false, false, false, false, false, false, false, false]

  /** 0x4599, bit 14 first. */
  const Poly: Register := [true, false, false, false, true, false, true, true, false, false, true, true, false, false, true]

  function Xor(a: Register, b: Register): (r: Register)
    ensures forall i :: 0 <= i < 15 ==> r[i] == (a[i] != b[i])
  {
    seq(15, i requires 0 <= i < 15 => a[i] != b[i])
  }

  /** `(out << 1) mod 2^15`: the MSB drops out and a zero enters at bit 0. */
  function ShiftLeft(out: Register): (r: Register)
    ensures Value(r) == (2 * Value(out)) % 0x8000
  {
    var r := out[1..] + [false];
    ShiftLeftValue(out);
    r
  }

  /**
   * One clock of the register on an accepted bit (lines 205-211): shift left
   * and XOR with the polynomial exactly when the incoming bit differs from
   * the MSB shifted out.
   */
  function Advance(out: Register, bit: bool): (r: Register)
    ensures r[14] == (bit != out[0])
  {
    if bit != out[0] then Xor(ShiftLeft(out), Poly) else ShiftLeft(out)
  }

  /**
   * The inverse of Advance for a known incoming bit: bit 0 of the new
   * register tells whether the polynomial was applied (the polynomial is odd
   * and a shifted register is even), and that gives back the MSB shifted out.
   */
  function Retreat(r: Register, bit: bool): (out: Register)
    ensures Advance(out, bit) == r
  {
    var tapped := r[14];
    var unshifted := if tapped then Xor(r, Poly) else r;
    var out := [tapped != bit] + unshifted[..14];
    assert Advance(out, bit) == r by {
      assert ShiftLeft(out) == unshifted;
      if tapped {
        assert Xor(unshifted, Poly) == r;
      }
    }
    out
  }

  lemma RetreatAdvance(out: Register, bit: bool)
    ensures Retreat(Advance(out, bit), bit) == out
  {
    var r := Advance(out, bit);
    if bit != out[0] {
      assert Xor(r, Poly) == ShiftLeft(out);
    }
  }

  /** The register after the bits `bits` are fed, oldest first, starting from `reg`. */
  function Feed(reg: Register, bits: seq<bool>): Register
    decreases |bits|
  {
    if bits == [] then reg else Advance(Feed(reg, bits[..|bits| - 1]), bits[|bits| - 1])
  }

  /** Runs the register backwards over `bits`, newest first. */
  function Unfeed(reg: Register, bits: seq<bool>): Register
    decreases |bits|
  {
    if bits == [] then reg else Unfeed(Retreat(reg, bits[|bits| - 1]), bits[..|bits| - 1])
  }

  /** The CRC-15 of a bit sequence: the register fed from its reset value 0. */
  function CrcOf(bits: seq<bool>): Register {
    Feed(Zero, bits)
  }

  lemma {:induction false} FeedConcat(reg: Register, a: seq<bool>, b: seq<bool>)
    ensures Feed(reg, a + b) == Feed(Feed(reg, a), b)
    decreases |b|
  {
    if b == [] {
      assert a + b == a;
    } else {
      var b' := b[..|b| - 1];
      assert (a + b)[..|a + b| - 1] == a + b';
      assert (a + b)[|a + b| - 1] == b[|b| - 1];
      FeedConcat(reg, a, b');
    }
  }

  /** Feeding a sequence and running the register back over it returns the start value. */
  lemma {:induction false} UnfeedFeed(reg: Register, bits: seq<bool>)
    ensures Unfeed(Feed(reg, bits), bits) == reg
    decreases |bits|
  {
    if bits != [] {
      RetreatAdvance(Feed(reg, bits[..|bits| - 1]), bits[|bits| - 1]);
      UnfeedFeed(reg, bits[..|bits| - 1]);
    }
  }

  /** Running the register back and then forward over a sequence returns the start value. */
  lemma {:induction false} FeedUnfeed(reg: Register, bits: seq<bool>)
    ensures Feed(Unfeed(reg, bits), bits) == reg
    decreases |bits|
  {
    if bits != [] {
      FeedUnfeed(Retreat(reg, bits[|bits| - 1]), bits[..|bits| - 1]);
    }
  }

  /**
   * Running the register back over at most 15 bits from a value whose low
   * bits are clear moves those bits, first bit highest, in above the rest.
   */
  lemma {:induction false} UnfeedAligned(v: Register, bits: seq<bool>)
    requires |bits| <= 15
    requires forall i :: 15 - |bits| <= i < 15 ==> !v[i]
    ensures Unfeed(v, bits) == bits + v[..15 - |bits|]
    decreases |bits|
  {
    var k := |bits|;
    if k == 0 {
      assert bits + v[..15] == v;
    } else {
      var last := bits[k - 1];
      var w := [last] + v[..14];
      assert Advance(w, last) == v by {
        assert ShiftLeft(w) == v;
      }
      RetreatAdvance(w, last);
      UnfeedAligned(w, bits[..k - 1]);
      assert bits[..k - 1] + w[..15 - (k - 1)] == bits + v[..15 - k];
    }
  }

  /**
   * The register reaches zero after a 15-bit field exactly when the field,
   * read most significant bit first, equals the register before the field.
   */
  lemma ZeroAfterFieldIff(reg: Register, field: seq<bool>)
    requires |field| == 15
    ensures Feed(reg, field) == Zero <==> reg == field
  {
    UnfeedAligned(Zero, field);
    assert field + Zero[..0] == field;
    if Feed(reg, field) == Zero {
      UnfeedFeed(reg, field);
    }
    if reg == field {
      FeedUnfeed(Zero, field);
    }
  }

  /**
   * A frame whose last 15 bits are its CRC field passes the receiver's check
   * (the register ends at zero) exactly when that field carries the CRC-15
   * of all the bits before it.
   */
  lemma CheckPassesIff(prefix: seq<bool>, field: seq<bool>)
    requires |field| == 15
    ensures CrcOf(prefix + field) == Zero <==> field == CrcOf(prefix)
  {
    FeedConcat(Zero, prefix, field);
    ZeroAfterFieldIff(CrcOf(prefix), field);
  }

  /** Changing one bit of the input always changes the register. */
  lemma {:induction false} SingleFlipChangesRegister(reg: Register, bits: seq<bool>, j: nat)
    requires j < |bits|
    ensures Feed(reg, bits) != Feed(reg, bits[j := !bits[j]])
    decreases |bits|
  {
    var flipped := bits[j := !bits[j]];
    var n := |bits|;
    var b := bits[n - 1];
    var x, y := Feed(reg, bits[..n - 1]), Feed(reg, flipped[..n - 1]);
    assert Feed(reg, bits) == Advance(x, b);
    if j < n - 1 {
      assert flipped[..n - 1] == bits[..n - 1][j := !bits[j]];
      assert Feed(reg, flipped) == Advance(y, b);
      SingleFlipChangesRegister(reg, bits[..n - 1], j);
      RetreatAdvance(x, b);
      RetreatAdvance(y, b);
    } else {
      assert flipped[..n - 1] == bits[..n - 1];
      assert Feed(reg, flipped) == Advance(x, !b);
    }
  }

  /**
   * A frame that passes the check fails it once any single one of its bits,
   * in the covered part or in the CRC field, is inverted.
   */
  lemma SingleFlipIsDetected(frame: seq<bool>, j: nat)
    requires j < |frame|
    requires CrcOf(frame) == Zero
    ensures CrcOf(frame[j := !frame[j]]) != Zero
  {
    SingleFlipChangesRegister(Zero, frame, j);
  }

  lemma ShiftLeftValue(out: Register)
    ensures Value(out[1..] + [false]) == (2 * Value(out)) % 0x8000
  {
    var rest := out[1..];
    assert out == [out[0]] + rest;
    ValueCons(out[0], rest);
    ValueBound(rest);
    assert Pow2(14) == 0x4000 by {
      assert Pow2(4) == 16;
      assert Pow2(8) == 256;
      assert Pow2(12) == 4096;
    }
    assert (rest + [false])[..14] == rest;
  }

  /** The polynomial constant is 0x4599. */
  lemma PolyValue()
    ensures Value(Poly) == 0x4599
  {
    assert Value(Poly[..1]) == 1;
    assert Value(Poly[..2]) == 2 by { assert Poly[..2][..1] == Poly[..1]; }
    assert Value(Poly[..3]) == 4 by { assert Poly[..3][..2] == Poly[..2]; }
    assert Value(Poly[..4]) == 8 by { assert Poly[..4][..3] == Poly[..3]; }
    assert Value(Poly[..5]) == 17 by { assert Poly[..5][..4] == Poly[..4]; }
    assert Value(Poly[..6]) == 34 by { assert Poly[..6][..5] == Poly[..5]; }
    assert Value(Poly[..7]) == 69 by { assert Poly[..7][..6] == Poly[..6]; }
    assert Value(Poly[..8]) == 139 by { assert Poly[..8][..7] == Poly[..7]; }
    assert Value(Poly[..9]) == 278 by { assert Poly[..9][..8] == Poly[..8]; }
    assert Value(Poly[..10]) == 556 by { assert Poly[..10][..9] == Poly[..9]; }
    assert Value(Poly[..11]) == 1113 by { assert Poly[..11][..10] == Poly[..10]; }
    assert Value(Poly[..12]) == 2227 by { assert Poly[..12][..11] == Poly[..11]; }
    assert Value(Poly[..13]) == 4454 by { assert Poly[..13][..12] == Poly[..12]; }
    assert Value(Poly[..14]) == 8908 by { assert Poly[..14][..13] == Poly[..13]; }
    assert Value(Poly[..15]) == 17817 by { assert Poly[..15][..14] == Poly[..14]; }
    assert Poly[..15] == Poly;
  }

  /** The register of class CANCRC. */
  class Crc {
    var out: Register

    constructor ()
      ensures out == Zero
    {
      out := Zero;
    }

    /**
     * One clock: `rst` (asserted while the assembler is idle) forces zero;
     * otherwise the register advances on an accepted bit while `run` is set
     * and is unchanged the rest of the time.
     */
    method Step(rst: bool, run: bool, rxRdy: bool, rxI: bool)
      modifies this
      ensures rst ==> out == Zero
      ensures !rst && run && rxRdy ==> out == Advance(old(out), rxI)
      ensures !rst && !(run && rxRdy) ==> out == old(out)
    {
      if rst {
        out := Zero;
      } else if run && rxRdy {
        out := Advance(out, rxI);
      }
    }
  }
}
