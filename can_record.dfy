/**
 * The records the CAN receiver sends to the host, and the host's parse of
 * them (`CANSniffApplet.interact`).
 *
 * For every frame the gateware pushes: the top 3 bits of the 11-bit
 * identifier, its low 8 bits, the 7 control bits (RTR, IDE, r0 and the
 * 4-bit data length code), then, when the length code is legal (at most
 * 8), that many data bytes, the top 7 and the low 8 bits of the CRC field
 * and a flag byte that is 1 exactly when the CRC check passed.  For an
 * illegal length code the record stops after the control byte.
 */
module CanRecord {

  import opened Bits

  datatype Option<T> = None | Some(value: T)

  /** A decoded frame as the host reports it. */
  datatype Frame = Frame(id: nat, length: nat, data: seq<Byte>, crc: nat, crcValid: bool)

  /** A record as the gateware sends it: a whole frame, or the header of one with an illegal length code. */
  datatype Record = Received(frame: Frame) | Aborted(id: nat, control: Byte)

  /** A big-endian 16-bit value (lines 433-434). */
  function Be16(hi: Byte, lo: Byte): (r: nat)
    ensures r < 0x1_0000
    ensures r / 256 == hi && r % 256 == lo
  {
    hi * 256 + lo
  }

  /** The data length code: the low 4 bits of the control byte (line 428). */
  function Dlc(control: Byte): (d: nat)
    ensures d < 16
  {
    control % 16
  }

  /**
   * The host's parse of one frame from the front of the byte stream, as
   * written (lines 427-434): two identifier bytes, a length byte, as many
   * data bytes as its low 4 bits say, two CRC bytes and a flag byte.  `None`
   * when the stream ends first: the host waits for more bytes.
   */
  function ReadFrame(b: seq<Byte>): (r: Option<(Frame, nat)>)
    ensures r.None? <==> |b| < 3 || |b| < 6 + Dlc(b[2])
    ensures r.Some? ==> var (f, n) := r.value;
      n == 6 + f.length <= |b| && f.length < 16 && |f.data| == f.length && f.data == b[3..3 + f.length]
      && f.id == Be16(b[0], b[1]) && f.length == Dlc(b[2])
      && f.crc == Be16(b[3 + f.length], b[4 + f.length]) && f.crcValid == (b[5 + f.length] % 2 == 1)
      && f.id < 0x1_0000 && f.crc < 0x1_0000
  {
    if |b| < 3 then None
    else
      var flen := Dlc(b[2]);
      if |b| < 6 + flen then None
      else Some((Frame(Be16(b[0], b[1]), flen, b[3..3 + flen], Be16(b[3 + flen], b[4 + flen]), b[5 + flen] % 2 == 1), 6 + flen))
  }

  /** The host loop as written: frames read one after another until the stream runs dry. */
  function ReadFrames(b: seq<Byte>): (r: seq<Frame>)
    ensures ReadFrame(b).None? <==> r == []
    ensures r != [] ==> r[0] == ReadFrame(b).value.0
    ensures 6 * |r| <= |b|
    decreases |b|
  {
    match ReadFrame(b)
    case None => []
    case Some((f, n)) => [f] + ReadFrames(b[n..])
  }

  /** A frame as a host-format record; the control byte carries only the length. */
  predicate Encodable(f: Frame) {
    f.id < 0x1_0000 && f.crc < 0x1_0000 && f.length < 16 && |f.data| == f.length
  }

  function Encode(f: Frame): (b: seq<Byte>)
    requires Encodable(f)
    ensures |b| == 6 + f.length
  {
    [f.id / 256, f.id % 256, f.length] + f.data + [f.crc / 256, f.crc % 256, if f.crcValid then 1 else 0]
  }

  /** Parsing an encoded frame gives it back and consumes exactly its bytes, whatever follows. */
  lemma ReadEncoded(f: Frame, rest: seq<Byte>)
    requires Encodable(f)
    ensures ReadFrame(Encode(f) + rest) == Some((f, 6 + f.length))
  {
    var b := Encode(f) + rest;
    assert b[3..3 + f.length] == f.data;
  }

  /** The concatenation of records, first record first. */
  function Flatten(rs: seq<seq<Byte>>): (b: seq<Byte>)
    decreases |rs|
  {
    if rs == [] then [] else rs[0] + Flatten(rs[1..])
  }

  lemma {:induction false} FlattenAppend(rs: seq<seq<Byte>>, r: seq<Byte>)
    ensures Flatten(rs + [r]) == Flatten(rs) + r
    decreases |rs|
  {
    if rs == [] {
      assert [] + [r] == [r];
      assert Flatten([r]) == r + Flatten([]);
    } else {
      assert (rs + [r])[1..] == rs[1..] + [r];
      FlattenAppend(rs[1..], r);
    }
  }

  /**
   * The shape of a record the gateware sends: a 3-bit identifier top, a
   * 7-bit control byte, and for a legal length code the full tail with a
   * 7-bit CRC top and a 0/1 flag; for an illegal one, nothing more.
   */
  predicate WellFormed(r: seq<Byte>) {
    |r| >= 3 && r[0] < 8 && r[2] < 128
    && if Dlc(r[2]) > 8 then |r| == 3
       else |r| == 6 + Dlc(r[2]) && r[3 + Dlc(r[2])] < 128 && r[5 + Dlc(r[2])] <= 1
  }

  /** A proper prefix of a record still being sent. */
  predicate Partial(r: seq<Byte>) {
    |r| < 3 || (Dlc(r[2]) <= 8 && |r| < 6 + Dlc(r[2]))
  }

  function Decode(r: seq<Byte>): Record
    requires WellFormed(r)
  {
    var d := Dlc(r[2]);
    if d > 8 then Aborted(Be16(r[0], r[1]), r[2])
    else Received(Frame(Be16(r[0], r[1]), d, r[3..3 + d], Be16(r[3 + d], r[4 + d]), r[5 + d] == 1))
  }

  /**
   * The parse the gateware's framing calls for: like ReadFrame, but a
   * record with an illegal length code ends after its control byte.
   */
  function ReadRecord(b: seq<Byte>): (r: Option<(Record, nat)>)
    ensures r.None? <==> |b| < 3 || (Dlc(b[2]) <= 8 && |b| < 6 + Dlc(b[2]))
    ensures r.Some? ==> 0 < r.value.1 <= |b|
  {
    if |b| < 3 then None
    else
      var d := Dlc(b[2]);
      if d > 8 then Some((Aborted(Be16(b[0], b[1]), b[2]), 3))
      else if |b| < 6 + d then None
      else Some((Received(Frame(Be16(b[0], b[1]), d, b[3..3 + d], Be16(b[3 + d], b[4 + d]), b[5 + d] % 2 == 1)), 6 + d))
  }

  function ReadRecords(b: seq<Byte>): seq<Record>
    decreases |b|
  {
    match ReadRecord(b)
    case None => []
    case Some((r, n)) => [r] + ReadRecords(b[n..])
  }

  predicate AllWellFormed(rs: seq<seq<Byte>>) {
    forall i :: 0 <= i < |rs| ==> WellFormed(rs[i])
  }

  function DecodeAll(rs: seq<seq<Byte>>): (d: seq<Record>)
    requires AllWellFormed(rs)
    ensures |d| == |rs|
    decreases |rs|
  {
    if rs == [] then [] else [Decode(rs[0])] + DecodeAll(rs[1..])
  }

  /**
   * A stream of whole records followed by the beginning of the next one
   * parses into exactly the whole records, each decoded.
   */
  lemma {:induction false} ReadRecordsStream(rs: seq<seq<Byte>>, tail: seq<Byte>)
    requires AllWellFormed(rs) && Partial(tail)
    ensures ReadRecords(Flatten(rs) + tail) == DecodeAll(rs)
    decreases |rs|
  {
    if rs == [] {
      assert Flatten(rs) + tail == tail;
    } else {
      var r := rs[0];
      var b := Flatten(rs) + tail;
      assert b == r + (Flatten(rs[1..]) + tail);
      var d := Dlc(r[2]);
      assert b[2] == r[2];
      if d <= 8 {
        assert b[3..3 + d] == r[3..3 + d];
      }
      assert ReadRecord(b) == Some((Decode(r), |r|));
      assert b[|r|..] == Flatten(rs[1..]) + tail;
      ReadRecordsStream(rs[1..], tail);
    }
  }

  /** The host loop as written agrees with the record parse on a stream of legal records. */
  lemma {:induction false} ReadFramesLegal(rs: seq<seq<Byte>>)
    requires AllWellFormed(rs)
    requires forall i :: 0 <= i < |rs| ==> Dlc(rs[i][2]) <= 8
    ensures |ReadFrames(Flatten(rs))| == |rs|
    ensures forall i :: 0 <= i < |rs| ==> DecodeAll(rs)[i] == Received(ReadFrames(Flatten(rs))[i])
    decreases |rs|
  {
    if rs != [] {
      var r, rest := rs[0], Flatten(rs[1..]);
      assert Flatten(rs) == r + rest;
      LegalRecordRead(r, rest);
      ReadFramesLegal(rs[1..]);
    }
  }

  /** The host loop reads a record with a legal length code as its decoding and goes on right after it. */
  lemma LegalRecordRead(r: seq<Byte>, rest: seq<Byte>)
    requires WellFormed(r) && Dlc(r[2]) <= 8
    ensures ReadFrame(r + rest).Some? && Received(ReadFrame(r + rest).value.0) == Decode(r)
    ensures ReadFrames(r + rest) == [ReadFrame(r + rest).value.0] + ReadFrames(rest)
  {
    var b, d := r + rest, Dlc(r[2]);
    assert b[3..3 + d] == r[3..3 + d];
    assert b[|r|..] == rest;
  }

  /**
   * The host loop as written loses its framing after a record with an
   * illegal length code: it waits for 12 data bytes that never come, so
   * neither that record nor the legal one after it is reported, while the
   * record parse reports both.
   */
  lemma IllegalLengthDesyncs()
    ensures var s: seq<Byte> := [0x01, 0x23, 0x0C, 0x00, 0x55, 0x00, 0x12, 0x34, 0x01];
      ReadFrames(s) == [] && ReadRecords(s) == [Aborted(0x123, 0x0C), Received(Frame(0x55, 0, [], 0x1234, true))]
  {
    var s: seq<Byte> := [0x01, 0x23, 0x0C, 0x00, 0x55, 0x00, 0x12, 0x34, 0x01];
    var t := s[3..];
    assert t == [0x00, 0x55, 0x00, 0x12, 0x34, 0x01];
    assert t[3..3] == [];
    assert ReadRecord(t) == Some((Received(Frame(0x55, 0, [], 0x1234, true)), 6));
    assert t[6..] == [];
  }
}
