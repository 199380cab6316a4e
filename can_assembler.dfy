/**
 * The frame assembler of the CAN receiver (the FSM of class CANSubtarget).
 *
 * After the start-of-frame edge it counts accepted bits through the
 * identifier, control, data and CRC fields and, at the end of each field,
 * pushes the field's low bits, read from the shift register `rx_data`, to
 * the FIFO towards the host; after the CRC field it pushes the outcome of
 * the CRC check and then waits nine more bits before looking for the next
 * frame.  The registers `ctr` (32 bits) and `ctl_dlc` (4 bits) wrap when
 * decremented from zero.
 */
module CanAssembler {

  import opened Bits
  import opened CanRecord
  import Ll = CanLowLevel

  /** A 32-bit decrement: 0 - 1 wraps to the largest value. */
  function Dec32(c: nat): (r: nat)
    ensures c < 0x1_0000_0000 ==> r < 0x1_0000_0000
    ensures c > 0 ==> r + 1 == c
  {
    if c == 0 then 0xFFFF_FFFF else c - 1
  }

  /** A 4-bit decrement. */
  function Dec4(c: nat): (r: nat)
    ensures c < 16 ==> r < 16
    ensures c > 0 ==> r + 1 == c
  {
    if c == 0 then 15 else c - 1
  }

  /**
   * The width of the record byte pushed when the `n`-th bit of a frame
   * (the start-of-frame bit is the first) arrives, for length code `d`; 0
   * when no byte is pushed.  Fields end after bit 4 (identifier bits 10-8),
   * 12 (identifier bits 7-0), 19 (control), every 8 bits of data, and after
   * the top 7 and the low 8 bits of the 15-bit CRC.
   */
  function FieldWidth(n: nat, d: nat): (k: nat)
    ensures k <= 8 && k <= n
    ensures k > 0 ==> n >= 4
  {
    if n == 4 then 3
    else if n == 12 then 8
    else if n == 19 then 7
    else if d > 8 then 0
    else if 19 < n <= 19 + 8 * d && (n - 19) % 8 == 0 then 8
    else if n == 26 + 8 * d then 7
    else if n == 34 + 8 * d then 8
    else 0
  }

  /** The length code of a frame, as the register showed it when the control field ended. */
  function FrameDlc(words: seq<Ll.Window>): nat {
    if |words| >= 19 then Value(Ll.Low(words[18], 4)) else 0
  }

  /** The byte pushed upon the last of `words`, if any. */
  function FieldBytes(words: seq<Ll.Window>): (r: seq<Byte>)
    requires words != []
    ensures |r| <= 1
  {
    var k := FieldWidth(|words|, FrameDlc(words));
    if k == 0 then [] else [ByteOf(Ll.Low(words[|words| - 1], k))]
  }

  /**
   * The record bytes pushed for a frame so far, given the contents of the
   * shift register at each accepted bit of the frame.
   */
  function Pushed(words: seq<Ll.Window>): seq<Byte>
    decreases |words|
  {
    if words == [] then [] else Pushed(words[..|words| - 1]) + FieldBytes(words)
  }

  lemma PushedAppend(words: seq<Ll.Window>, w: Ll.Window)
    ensures Pushed(words + [w]) == Pushed(words) + FieldBytes(words + [w])
    ensures |words| >= 19 ==> FrameDlc(words + [w]) == FrameDlc(words)
    ensures |words| == 18 ==> FrameDlc(words + [w]) == Value(Ll.Low(w, 4))
  {
    assert (words + [w])[..|words|] == words;
  }

  /** The length code is the low four of the seven control bits. */
  lemma ControlDlc(w: Ll.Window)
    ensures Dlc(ByteOf(Ll.Low(w, 7))) == Value(Ll.Low(w, 4))
  {
    var hi, lo := w[25..28], w[28..];
    assert Ll.Low(w, 7) == hi + lo;
    ValueConcat(hi, lo);
    ValueBound(lo);
    assert Pow2(4) == 16;
    LowNibble(Value(hi), Value(lo));
  }

  lemma LowNibble(q: nat, r: nat)
    requires r < 16
    ensures (q * 16 + r) % 16 == r
  {
  }

  lemma SmallPowers()
    ensures Pow2(3) == 8 && Pow2(7) == 128
  {
    assert Pow2(3) == 8;
  }

  datatype Phase = Idle | ArbitrationId | ArbitrationControl | Data | Crc | Crc1 | IdleWaitInit | IdleWait

  /** The phases in which the assembler counts the bits of a frame. */
  predicate Counting(p: Phase) {
    p == ArbitrationId || p == ArbitrationControl || p == Data || p == Crc
  }

  /** The registers of the assembler: FSM state, `ctr`, `ctl_dlc` and `crc.run`. */
  datatype Regs = Regs(phase: Phase, ctr: nat, ctlDlc: nat, crcRun: bool)

  /**
   * The FIFO contents, with the bookkeeping that explains them: the records
   * completed so far, the part of the current record pushed so far, and the
   * contents of `rx_data` at every bit of the current frame counted so far.
   */
  datatype Book = Book(fifo: seq<Byte>, records: seq<seq<Byte>>, current: seq<Byte>, words: seq<Ll.Window>)

  /** The byte, if any, pushed to the FIFO in a tick (lines 267-345). */
  function Emit(r: Regs, rxRdy: bool, rxData: Ll.Window, crcZero: bool): (e: seq<Byte>)
    ensures |e| <= 1
    ensures e != [] ==> rxRdy || r.phase == Crc1
  {
    match r.phase
    case ArbitrationId =>
      if rxRdy && r.ctr == 8 then [ByteOf(Ll.Low(rxData, 3))]
      else if rxRdy && r.ctr == 0 then [ByteOf(Ll.Low(rxData, 8))]
      else []
    case ArbitrationControl =>
      if rxRdy && r.ctr == 0 then [ByteOf(Ll.Low(rxData, 7))] else []
    case Data =>
      if rxRdy && r.ctr == 0 then [ByteOf(Ll.Low(rxData, 8))] else []
    case Crc =>
      if rxRdy && r.ctr == 8 then [ByteOf(Ll.Low(rxData, 7))]
      else if rxRdy && r.ctr == 0 then [ByteOf(Ll.Low(rxData, 8))]
      else []
    case Crc1 => [if crcZero then 1 else 0]
    case _ => []
  }

  /** The registers after a tick (lines 258-360). */
  function NextRegs(r: Regs, rxTrigger: bool, rxRdy: bool, rxData: Ll.Window): (r': Regs)
    ensures r.ctr < 0x1_0000_0000 ==> r'.ctr < 0x1_0000_0000
    ensures r.ctlDlc < 16 ==> r'.ctlDlc < 16
  {
    var dec := Dec32(r.ctr);
    match r.phase
    case Idle =>
      if rxTrigger then Regs(ArbitrationId, 11, r.ctlDlc, true) else r
    case ArbitrationId =>
      if !rxRdy then r
      else if r.ctr == 0 then r.(phase := ArbitrationControl, ctr := 6)
      else r.(ctr := dec)
    case ArbitrationControl =>
      if !rxRdy then r
      else if r.ctr != 0 then r.(ctr := dec)
      else
        var d := Value(Ll.Low(rxData, 4));
        if d == 0 then r.(phase := Crc, ctr := 14)
        else if d > 8 then r.(phase := IdleWaitInit, ctr := dec)
        else r.(phase := Data, ctr := 7, ctlDlc := d - 1)
    case Data =>
      if !rxRdy then r
      else if r.ctr != 0 then r.(ctr := dec)
      else if r.ctlDlc > 0 then r.(ctr := 7, ctlDlc := Dec4(r.ctlDlc))
      else r.(phase := Crc, ctr := 14, ctlDlc := Dec4(r.ctlDlc))
    case Crc =>
      if !rxRdy then r
      else if r.ctr == 0 then r.(phase := Crc1, ctr := dec, crcRun := false)
      else r.(ctr := dec)
    case Crc1 => r.(phase := IdleWaitInit)
    case IdleWaitInit => r.(phase := IdleWait, ctr := 8)
    case IdleWait =>
      if !rxRdy then r
      else if r.ctr == 0 then r.(phase := Idle, ctr := dec)
      else r.(ctr := dec)
  }

  /** The registers after `k` ticks that each accept a bit. */
  function Accepting(r: Regs, k: nat, rxData: Ll.Window): Regs {
    if k == 0 then r else NextRegs(Accepting(r, k - 1, rxData), false, true, rxData)
  }

  /** IDLE-WAIT counts `ctr` down by one per accepted bit while it is above zero (lines 354-360). */
  lemma {:induction false} IdleWaitCounts(r: Regs, k: nat, rxData: Ll.Window)
    requires r.phase == IdleWait && k <= r.ctr
    ensures Accepting(r, k, rxData) == r.(ctr := r.ctr - k)
  {
    if k > 0 {
      IdleWaitCounts(r, k - 1, rxData);
    }
  }

  /**
   * After a frame (lines 351-360): IDLE-WAIT-INIT loads `ctr` with 8, and
   * IDLE-WAIT then lets eight accepted bits pass and returns to IDLE at the
   * ninth.
   */
  lemma IdleWaitNine(r: Regs, rxTrigger: bool, rxRdy: bool, rxData: Ll.Window)
    requires r.phase == IdleWaitInit
    ensures var w := NextRegs(r, rxTrigger, rxRdy, rxData);
      w.phase == IdleWait && w.ctr == 8
      && (forall k :: 0 <= k <= 8 ==> Accepting(w, k, rxData).phase == IdleWait)
      && Accepting(w, 9, rxData).phase == Idle
  {
    var w := NextRegs(r, rxTrigger, rxRdy, rxData);
    forall k | 0 <= k <= 8
      ensures Accepting(w, k, rxData).phase == IdleWait
    {
      IdleWaitCounts(w, k, rxData);
    }
    IdleWaitCounts(w, 8, rxData);
  }

  /** Whether the tick completes the current record: after the CRC flag, or at an illegal length code. */
  predicate Completes(r: Regs, rxRdy: bool, rxData: Ll.Window) {
    r.phase == Crc1 || (r.phase == ArbitrationControl && rxRdy && r.ctr == 0 && Value(Ll.Low(rxData, 4)) > 8)
  }

  /** The register contents of the frame's counted bits after a tick. */
  function NextWords(r: Regs, words: seq<Ll.Window>, rxTrigger: bool, rxRdy: bool, rxData: Ll.Window): seq<Ll.Window> {
    if r.phase == Idle && rxTrigger then []
    else if Counting(r.phase) && rxRdy then words + [rxData]
    else words
  }

  /** Pushes `e`, and moves the current record to the completed ones when it is complete. */
  function Commit(b: Book, e: seq<Byte>, completes: bool, words: seq<Ll.Window>): Book {
    if completes then Book(b.fifo + e, b.records + [b.current + e], [], words)
    else Book(b.fifo + e, b.records, b.current + e, words)
  }

  /** The FIFO and its bookkeeping after a tick. */
  function NextBook(r: Regs, b: Book, rxTrigger: bool, rxRdy: bool, rxData: Ll.Window, crcZero: bool): Book {
    Commit(b, Emit(r, rxRdy, rxData, crcZero), Completes(r, rxRdy, rxData), NextWords(r, b.words, rxTrigger, rxRdy, rxData))
  }

  /**
   * The number `n` of bits counted, the length code `d` and the number `c`
   * of bytes pushed in each phase of a frame.
   */
  predicate Counts(r: Regs, n: nat, d: nat, c: nat) {
    match r.phase
    case Idle => c == 0
    case ArbitrationId => r.ctr <= 11 && n == 11 - r.ctr && c == (if r.ctr < 8 then 1 else 0) && r.crcRun
    case ArbitrationControl => r.ctr <= 6 && n == 18 - r.ctr && c == 2 && r.crcRun
    case Data =>
      1 <= d <= 8 && r.ctlDlc < d && r.ctr <= 7 && n == 19 + 8 * (d - 1 - r.ctlDlc) + 7 - r.ctr
      && c == 3 + (d - 1 - r.ctlDlc) && r.crcRun
    case Crc => d <= 8 && r.ctr <= 14 && n == 19 + 8 * d + 14 - r.ctr && c == 3 + d + (if r.ctr < 8 then 1 else 0) && r.crcRun
    case Crc1 => d <= 8 && n == 34 + 8 * d && c == 5 + d && !r.crcRun
    case IdleWaitInit => c == 0
    case IdleWait => c == 0 && r.ctr <= 8
  }

  /** The bounds a partial record's bytes obey, as WellFormed demands of a whole one. */
  predicate Shape(current: seq<Byte>, d: nat) {
    (|current| >= 1 ==> current[0] < 8)
    && (|current| >= 3 ==> current[2] < 128 && Dlc(current[2]) == d)
    && (d <= 8 && |current| >= 4 + d ==> current[3 + d] < 128)
  }

  /** The FIFO holds the completed records, all well formed, followed by the current one. */
  predicate Stream(b: Book) {
    b.fifo == Flatten(b.records) + b.current && AllWellFormed(b.records)
  }

  /** Within a frame, the bytes pushed are those its fields call for. */
  predicate Content(r: Regs, b: Book) {
    Counting(r.phase) || r.phase == Crc1 ==> b.current == Pushed(b.words) && Shape(b.current, FrameDlc(b.words))
  }

  /** The invariant of the assembler. */
  predicate Good(r: Regs, b: Book) {
    r.ctr < 0x1_0000_0000 && r.ctlDlc < 16 && Stream(b)
    && Counts(r, |b.words|, FrameDlc(b.words), |b.current|) && Content(r, b)
  }

  /** The records then seen by the host: every completed record, and no more. */
  lemma GoodParses(r: Regs, b: Book)
    requires Good(r, b)
    ensures ReadRecords(b.fifo) == DecodeAll(b.records)
  {
    ReadRecordsStream(b.records, b.current);
  }

  /** A byte pushed onto a partial record keeps the earlier bytes where they were. */
  lemma ShapeAppend(current: seq<Byte>, e: seq<Byte>, d: nat)
    requires Shape(current, d) && |e| <= 1
    requires |current| == 0 && e != [] ==> e[0] < 8
    requires |current| == 2 && e != [] ==> e[0] < 128 && Dlc(e[0]) == d
    requires d <= 8 && |current| == 3 + d && e != [] ==> e[0] < 128
    ensures Shape(current + e, d)
  {
  }

  lemma AppendKeepsStream(b: Book, e: seq<Byte>, words: seq<Ll.Window>)
    requires Stream(b)
    ensures Stream(Book(b.fifo + e, b.records, b.current + e, words))
  {
  }

  lemma CompleteKeepsStream(b: Book, e: seq<Byte>, words: seq<Ll.Window>)
    requires Stream(b) && WellFormed(b.current + e)
    ensures Stream(Book(b.fifo + e, b.records + [b.current + e], [], words))
  {
    FlattenAppend(b.records, b.current + e);
  }

  lemma IdentifierCounts(r: Regs, n: nat, c: nat, rxTrigger: bool, rxData: Ll.Window)
    requires Counts(r, n, 0, c) && r.phase == ArbitrationId
    ensures FieldWidth(n + 1, 0) == if r.ctr == 8 then 3 else if r.ctr == 0 then 8 else 0
    ensures Counts(NextRegs(r, rxTrigger, true, rxData), n + 1, 0, c + (if r.ctr == 8 || r.ctr == 0 then 1 else 0))
  {
  }

  lemma ControlCounts(r: Regs, n: nat, c: nat, rxTrigger: bool, rxData: Ll.Window)
    requires Counts(r, n, 0, c) && r.phase == ArbitrationControl
    requires !Completes(r, true, rxData)
    ensures FieldWidth(n + 1, Value(Ll.Low(rxData, 4))) == if r.ctr == 0 then 7 else 0
    ensures Counts(NextRegs(r, rxTrigger, true, rxData), n + 1, if r.ctr == 0 then Value(Ll.Low(rxData, 4)) else 0, c + (if r.ctr == 0 then 1 else 0))
  {
  }

  lemma DataCounts(r: Regs, n: nat, d: nat, c: nat, rxTrigger: bool, rxData: Ll.Window)
    requires Counts(r, n, d, c) && r.phase == Data && r.ctlDlc < 16
    ensures FieldWidth(n + 1, d) == if r.ctr == 0 then 8 else 0
    ensures Counts(NextRegs(r, rxTrigger, true, rxData), n + 1, d, c + (if r.ctr == 0 then 1 else 0))
  {
  }

  lemma CrcCounts(r: Regs, n: nat, d: nat, c: nat, rxTrigger: bool, rxData: Ll.Window)
    requires Counts(r, n, d, c) && r.phase == Crc
    ensures FieldWidth(n + 1, d) == if r.ctr == 8 then 7 else if r.ctr == 0 then 8 else 0
    ensures Counts(NextRegs(r, rxTrigger, true, rxData), n + 1, d, c + (if r.ctr == 8 || r.ctr == 0 then 1 else 0))
  {
  }

  /** A counted bit that pushes `e` and completes nothing. */
  lemma Counted(r: Regs, b: Book, rxTrigger: bool, rxData: Ll.Window, crcZero: bool)
    requires Counting(r.phase) && !Completes(r, true, rxData)
    ensures NextBook(r, b, rxTrigger, true, rxData, crcZero)
      == Book(b.fifo + Emit(r, true, rxData, crcZero), b.records, b.current + Emit(r, true, rxData, crcZero), b.words + [rxData])
  {
  }

  /** The invariant after a counted bit that pushes `e` onto the current record. */
  lemma AppendedGood(r': Regs, b: Book, e: seq<Byte>, ws: seq<Ll.Window>)
    requires r'.ctr < 0x1_0000_0000 && r'.ctlDlc < 16 && Stream(b)
    requires Counts(r', |ws|, FrameDlc(ws), |b.current| + |e|)
    requires b.current + e == Pushed(ws) && Shape(b.current + e, FrameDlc(ws))
    ensures Good(r', Book(b.fifo + e, b.records, b.current + e, ws))
  {
    AppendKeepsStream(b, e, ws);
  }

  /** The byte pushed upon a counted bit is the one the bit's place in the frame calls for. */
  lemma LastField(ws: seq<Ll.Window>, w: Ll.Window, k: nat, e: seq<Byte>)
    requires ws != [] && ws[|ws| - 1] == w && FieldWidth(|ws|, FrameDlc(ws)) == k
    requires k <= 8 && e == if k == 0 then [] else [ByteOf(Ll.Low(w, k))]
    ensures FieldBytes(ws) == e
  {
  }

  lemma IdentifierKeepsGood(r: Regs, b: Book, rxTrigger: bool, rxData: Ll.Window, crcZero: bool)
    requires Good(r, b) && r.phase == ArbitrationId
    ensures Good(NextRegs(r, rxTrigger, true, rxData), NextBook(r, b, rxTrigger, true, rxData, crcZero))
  {
    var e := Emit(r, true, rxData, crcZero);
    var ws := b.words + [rxData];
    var k := if r.ctr == 8 then 3 else if r.ctr == 0 then 8 else 0;
    Counted(r, b, rxTrigger, rxData, crcZero);
    PushedAppend(b.words, rxData);
    IdentifierCounts(r, |b.words|, |b.current|, rxTrigger, rxData);
    LastField(ws, rxData, k, e);
    SmallPowers();
    ShapeAppend(b.current, e, 0);
    AppendedGood(NextRegs(r, rxTrigger, true, rxData), b, e, ws);
  }

  lemma ControlKeepsGood(r: Regs, b: Book, rxTrigger: bool, rxData: Ll.Window, crcZero: bool)
    requires Good(r, b) && r.phase == ArbitrationControl
    ensures Good(NextRegs(r, rxTrigger, true, rxData), NextBook(r, b, rxTrigger, true, rxData, crcZero))
    ensures r.ctr == 0 && Value(Ll.Low(rxData, 4)) > 8 ==> NextRegs(r, rxTrigger, true, rxData).phase == IdleWaitInit
  {
    var e := Emit(r, true, rxData, crcZero);
    var ws := b.words + [rxData];
    PushedAppend(b.words, rxData);
    if r.ctr == 0 {
      ControlDlc(rxData);
      SmallPowers();
    }
    ShapeAppend(b.current, e, FrameDlc(ws));
    if Completes(r, true, rxData) {
      assert NextBook(r, b, rxTrigger, true, rxData, crcZero) == Book(b.fifo + e, b.records + [b.current + e], [], ws);
      CompleteKeepsStream(b, e, ws);
    } else {
      Counted(r, b, rxTrigger, rxData, crcZero);
      ControlCounts(r, |b.words|, |b.current|, rxTrigger, rxData);
      LastField(ws, rxData, if r.ctr == 0 then 7 else 0, e);
      AppendedGood(NextRegs(r, rxTrigger, true, rxData), b, e, ws);
    }
  }

  lemma DataKeepsGood(r: Regs, b: Book, rxTrigger: bool, rxData: Ll.Window, crcZero: bool)
    requires r.phase == Data && r.ctr < 0x1_0000_0000 && r.ctlDlc < 16 && Stream(b)
    requires Counts(r, |b.words|, FrameDlc(b.words), |b.current|)
    requires b.current == Pushed(b.words) && Shape(b.current, FrameDlc(b.words))
    ensures Good(NextRegs(r, rxTrigger, true, rxData), NextBook(r, b, rxTrigger, true, rxData, crcZero))
  {
    var e := Emit(r, true, rxData, crcZero);
    var ws := b.words + [rxData];
    var d := FrameDlc(b.words);
    Counted(r, b, rxTrigger, rxData, crcZero);
    PushedAppend(b.words, rxData);
    DataCounts(r, |b.words|, d, |b.current|, rxTrigger, rxData);
    LastField(ws, rxData, if r.ctr == 0 then 8 else 0, e);
    ShapeAppend(b.current, e, d);
    AppendedGood(NextRegs(r, rxTrigger, true, rxData), b, e, ws);
  }

  lemma CrcKeepsGood(r: Regs, b: Book, rxTrigger: bool, rxData: Ll.Window, crcZero: bool)
    requires r.phase == Crc && r.ctr < 0x1_0000_0000 && r.ctlDlc < 16 && Stream(b)
    requires Counts(r, |b.words|, FrameDlc(b.words), |b.current|)
    requires b.current == Pushed(b.words) && Shape(b.current, FrameDlc(b.words))
    ensures Good(NextRegs(r, rxTrigger, true, rxData), NextBook(r, b, rxTrigger, true, rxData, crcZero))
  {
    var e := Emit(r, true, rxData, crcZero);
    var ws := b.words + [rxData];
    var d := FrameDlc(b.words);
    Counted(r, b, rxTrigger, rxData, crcZero);
    PushedAppend(b.words, rxData);
    CrcCounts(r, |b.words|, d, |b.current|, rxTrigger, rxData);
    if r.ctr == 8 {
      LastField(ws, rxData, 7, e);
      SmallPowers();
    } else if r.ctr == 0 {
      LastField(ws, rxData, 8, e);
    } else {
      LastField(ws, rxData, 0, e);
    }
    ShapeAppend(b.current, e, d);
    AppendedGood(NextRegs(r, rxTrigger, true, rxData), b, e, ws);
  }

  lemma FlagKeepsGood(r: Regs, b: Book, rxTrigger: bool, rxRdy: bool, rxData: Ll.Window, crcZero: bool)
    requires Good(r, b) && r.phase == Crc1
    ensures Good(NextRegs(r, rxTrigger, rxRdy, rxData), NextBook(r, b, rxTrigger, rxRdy, rxData, crcZero))
    ensures NextRegs(r, rxTrigger, rxRdy, rxData).phase == IdleWaitInit
  {
    var e := Emit(r, rxRdy, rxData, crcZero);
    assert WellFormed(b.current + e);
    assert NextBook(r, b, rxTrigger, rxRdy, rxData, crcZero) == Book(b.fifo + e, b.records + [b.current + e], [], b.words);
    CompleteKeepsStream(b, e, b.words);
  }

  /** A tick appends what it emits to the FIFO. */
  lemma NextFifo(r: Regs, b: Book, rxTrigger: bool, rxRdy: bool, rxData: Ll.Window, crcZero: bool)
    ensures NextBook(r, b, rxTrigger, rxRdy, rxData, crcZero).fifo == b.fifo + Emit(r, rxRdy, rxData, crcZero)
  {
  }

  /**
   * Within a frame, a tick adds one bit to the frame exactly when it is an
   * accepted bit while the CRC register runs; a frame starts empty.
   */
  lemma FrameBits(r: Regs, b: Book, rxTrigger: bool, rxRdy: bool, rxData: Ll.Window, crcZero: bool)
    requires Good(r, b)
    ensures var r', b' := NextRegs(r, rxTrigger, rxRdy, rxData), NextBook(r, b, rxTrigger, rxRdy, rxData, crcZero);
      Counting(r'.phase) || r'.phase == Crc1 ==>
        if r.phase == Idle then b'.words == []
        else (Counting(r.phase) || r.phase == Crc1) && |b'.words| == |b.words| + (if r.crcRun && rxRdy then 1 else 0)
  {
  }

  /** The start of a frame: counting begins with no bits and no bytes. */
  lemma StartKeepsGood(r: Regs, b: Book, rxTrigger: bool, rxRdy: bool, rxData: Ll.Window, crcZero: bool)
    requires Good(r, b) && r.phase == Idle
    ensures Good(NextRegs(r, rxTrigger, rxRdy, rxData), NextBook(r, b, rxTrigger, rxRdy, rxData, crcZero))
    ensures rxTrigger ==> NextRegs(r, rxTrigger, rxRdy, rxData) == Regs(ArbitrationId, 11, r.ctlDlc, true)
    ensures !rxTrigger ==> NextRegs(r, rxTrigger, rxRdy, rxData) == r
  {
    var words := if rxTrigger then [] else b.words;
    assert NextBook(r, b, rxTrigger, rxRdy, rxData, crcZero) == Book(b.fifo, b.records, b.current, words);
  }

  /** The wait after a frame pushes nothing. */
  lemma WaitBook(r: Regs, b: Book, rxTrigger: bool, rxRdy: bool, rxData: Ll.Window, crcZero: bool)
    requires r.phase == IdleWaitInit || r.phase == IdleWait
    ensures NextBook(r, b, rxTrigger, rxRdy, rxData, crcZero) == b
  {
    assert Emit(r, rxRdy, rxData, crcZero) == [];
    assert b.fifo + [] == b.fifo && b.current + [] == b.current;
  }

  lemma WaitKeepsGood(r: Regs, b: Book, rxTrigger: bool, rxRdy: bool, rxData: Ll.Window, crcZero: bool)
    requires Good(r, b) && (r.phase == IdleWaitInit || r.phase == IdleWait)
    ensures Good(NextRegs(r, rxTrigger, rxRdy, rxData), NextBook(r, b, rxTrigger, rxRdy, rxData, crcZero))
  {
    WaitBook(r, b, rxTrigger, rxRdy, rxData, crcZero);
  }

  /** Within a frame, a tick without an accepted bit changes nothing. */
  lemma IdleTickKeepsGood(r: Regs, b: Book, rxTrigger: bool, rxData: Ll.Window, crcZero: bool)
    requires Good(r, b) && Counting(r.phase)
    ensures NextRegs(r, rxTrigger, false, rxData) == r
    ensures NextBook(r, b, rxTrigger, false, rxData, crcZero) == b
  {
    assert Emit(r, false, rxData, crcZero) == [];
    assert b.fifo + [] == b.fifo && b.current + [] == b.current;
  }

  /** Every tick keeps the invariant of the assembler. */
  lemma StepKeepsGood(r: Regs, b: Book, rxTrigger: bool, rxRdy: bool, rxData: Ll.Window, crcZero: bool)
    requires Good(r, b)
    ensures Good(NextRegs(r, rxTrigger, rxRdy, rxData), NextBook(r, b, rxTrigger, rxRdy, rxData, crcZero))
  {
    if r.phase == Crc1 {
      FlagKeepsGood(r, b, rxTrigger, rxRdy, rxData, crcZero);
    } else if r.phase == Idle {
      StartKeepsGood(r, b, rxTrigger, rxRdy, rxData, crcZero);
    } else if !Counting(r.phase) {
      WaitKeepsGood(r, b, rxTrigger, rxRdy, rxData, crcZero);
    } else if !rxRdy {
      IdleTickKeepsGood(r, b, rxTrigger, rxData, crcZero);
    } else if r.phase == ArbitrationId {
      IdentifierKeepsGood(r, b, rxTrigger, rxData, crcZero);
    } else if r.phase == ArbitrationControl {
      ControlKeepsGood(r, b, rxTrigger, rxData, crcZero);
    } else if r.phase == Data {
      DataKeepsGood(r, b, rxTrigger, rxData, crcZero);
    } else {
      CrcKeepsGood(r, b, rxTrigger, rxData, crcZero);
    }
  }

  /**
   * The frame assembler of class CANSubtarget, with the FIFO towards the host
   * as a sequence of the bytes written to it.  The ghost fields keep the
   * bookkeeping that explains the FIFO.
   */
  class Assembler {
    var phase: Phase
    var ctr: nat
    var ctlDlc: nat
    var crcRun: bool
    var fifo: seq<Byte>
    ghost var records: seq<seq<Byte>>
    ghost var current: seq<Byte>
    ghost var words: seq<Ll.Window>

    function Registers(): Regs
      reads this
    {
      Regs(phase, ctr, ctlDlc, crcRun)
    }

    ghost function Bookkeeping(): Book
      reads this
    {
      Book(fifo, records, current, words)
    }

    ghost predicate Valid()
      reads this
    {
      Good(Registers(), Bookkeeping())
    }

    constructor ()
      ensures Valid()
      ensures Registers() == Regs(Idle, 0, 0, false) && fifo == []
    {
      phase, ctr, ctlDlc, crcRun := Idle, 0, 0, false;
      fifo, records, current, words := [], [], [], [];
    }

    /** `timing.run` (line 250): the bit timing runs whenever the assembler is not idle. */
    function TimingRun(): bool
      reads this
    {
      phase != Idle
    }

    /** `crc.rst` (line 251): the CRC register is held at zero while the assembler is idle. */
    function CrcRst(): bool
      reads this
    {
      phase == Idle
    }

    /** Writes a byte to the FIFO, as part of the current record. */
    method Push(x: Byte)
      modifies this
      ensures fifo == old(fifo) + [x] && current == old(current) + [x]
      ensures Registers() == old(Registers()) && records == old(records) && words == old(words)
    {
      fifo := fifo + [x];
      current := current + [x];
    }

    /**
     * One clock (lines 258-360), given the start-of-frame trigger, the
     * accepted-bit strobe, the shift register and whether the CRC register
     * is zero.  A later assignment to a register in the same clock wins.
     */
    method Step(rxTrigger: bool, rxRdy: bool, rxData: Ll.Window, crcZero: bool)
      requires Valid()
      modifies this
      ensures Registers() == NextRegs(old(Registers()), rxTrigger, rxRdy, rxData)
      ensures Bookkeeping() == NextBook(old(Registers()), old(Bookkeeping()), rxTrigger, rxRdy, rxData, crcZero)
      ensures fifo == old(fifo) + Emit(old(Registers()), rxRdy, rxData, crcZero)
      ensures Valid()
    {
      ghost var r, b := Registers(), Bookkeeping();
      StepKeepsGood(r, b, rxTrigger, rxRdy, rxData, crcZero);
      NextFifo(r, b, rxTrigger, rxRdy, rxData, crcZero);
      match phase
      case Idle => IdleStep(rxTrigger, rxRdy, rxData, crcZero);
      case ArbitrationId => IdentifierStep(rxTrigger, rxRdy, rxData, crcZero);
      case ArbitrationControl => ControlStep(rxTrigger, rxRdy, rxData, crcZero);
      case Data => DataStep(rxTrigger, rxRdy, rxData, crcZero);
      case Crc => CrcStep(rxTrigger, rxRdy, rxData, crcZero);
      case _ => AfterFrameStep(rxTrigger, rxRdy, rxData, crcZero);
    }

    /**
     * One clock, as the rest of the receiver relies on it: the invariant is
     * kept, the FIFO grows by what the clock emits, and within a frame the
     * assembler counts a bit exactly when the CRC register takes one in.
     */
    method Clock(rxTrigger: bool, rxRdy: bool, rxData: Ll.Window, crcZero: bool)
      requires Valid()
      modifies this
      ensures Valid()
      ensures Registers() == NextRegs(old(Registers()), rxTrigger, rxRdy, rxData)
      ensures fifo == old(fifo) + Emit(old(Registers()), rxRdy, rxData, crcZero)
      ensures Counting(phase) || phase == Crc1 ==>
        if old(phase) == Idle then words == []
        else (Counting(old(phase)) || old(phase) == Crc1) && |words| == |old(words)| + (if old(crcRun) && rxRdy then 1 else 0)
      ensures old(phase) == Crc1 ==> |old(words)| >= 34 && fifo == old(fifo) + [if crcZero then 1 else 0]
      ensures ReadRecords(fifo) == DecodeAll(records)
    {
      ghost var r, b := Registers(), Bookkeeping();
      Step(rxTrigger, rxRdy, rxData, crcZero);
      FrameBits(r, b, rxTrigger, rxRdy, rxData, crcZero);
      GoodParses(Registers(), Bookkeeping());
    }

    /** State IDLE: the start-of-frame edge starts the count of 11 identifier bits and the CRC. */
    method IdleStep(rxTrigger: bool, rxRdy: bool, rxData: Ll.Window, crcZero: bool)
      requires phase == Idle
      modifies this
      ensures Registers() == NextRegs(old(Registers()), rxTrigger, rxRdy, rxData)
      ensures Bookkeeping() == NextBook(old(Registers()), old(Bookkeeping()), rxTrigger, rxRdy, rxData, crcZero)
    {
      if rxTrigger {
        ctr, crcRun, phase := 11, true, ArbitrationId;
        words := [];
      }
    }

    /** State ARBITRATION-ID: identifier bits 10-8 and 7-0 are pushed as they complete. */
    method IdentifierStep(rxTrigger: bool, rxRdy: bool, rxData: Ll.Window, crcZero: bool)
      requires phase == ArbitrationId
      modifies this
      ensures Registers() == NextRegs(old(Registers()), rxTrigger, rxRdy, rxData)
      ensures Bookkeeping() == NextBook(old(Registers()), old(Bookkeeping()), rxTrigger, rxRdy, rxData, crcZero)
    {
      if rxRdy {
        var was := ctr;
        ctr := Dec32(ctr);
        words := words + [rxData];
        if was == 8 {
          Push(ByteOf(Ll.Low(rxData, 3)));
        }
        if was == 0 {
          Push(ByteOf(Ll.Low(rxData, 8)));
          ctr, phase := 6, ArbitrationControl;
        }
      }
    }

    /** State ARBITRATION-CONTROL: the seven control bits are pushed and the length code chooses the next state. */
    method ControlStep(rxTrigger: bool, rxRdy: bool, rxData: Ll.Window, crcZero: bool)
      requires phase == ArbitrationControl
      modifies this
      ensures Registers() == NextRegs(old(Registers()), rxTrigger, rxRdy, rxData)
      ensures Bookkeeping() == NextBook(old(Registers()), old(Bookkeeping()), rxTrigger, rxRdy, rxData, crcZero)
    {
      if rxRdy {
        var was := ctr;
        ctr := Dec32(ctr);
        words := words + [rxData];
        if was == 0 {
          Push(ByteOf(Ll.Low(rxData, 7)));
          var dlc := Value(Ll.Low(rxData, 4));
          if dlc == 0 {
            ctr, phase := 14, Crc;
          } else if dlc > 8 {
            phase := IdleWaitInit;
            records, current := records + [current], [];
          } else {
            ctlDlc, ctr, phase := dlc - 1, 7, Data;
          }
        }
      }
    }

    /** State DATA: every eighth bit completes a data byte; `ctl_dlc` counts the bytes still due. */
    method DataStep(rxTrigger: bool, rxRdy: bool, rxData: Ll.Window, crcZero: bool)
      requires phase == Data
      modifies this
      ensures Registers() == NextRegs(old(Registers()), rxTrigger, rxRdy, rxData)
      ensures Bookkeeping() == NextBook(old(Registers()), old(Bookkeeping()), rxTrigger, rxRdy, rxData, crcZero)
    {
      if rxRdy {
        var was := ctr;
        ctr := Dec32(ctr);
        words := words + [rxData];
        if was == 0 {
          Push(ByteOf(Ll.Low(rxData, 8)));
          var more := ctlDlc > 0;
          ctlDlc := Dec4(ctlDlc);
          if more {
            ctr := 7;
          } else {
            ctr, phase := 14, Crc;
          }
        }
      }
    }

    /** State CRC: the top 7 and the low 8 bits of the CRC field are pushed; the CRC register stops. */
    method CrcStep(rxTrigger: bool, rxRdy: bool, rxData: Ll.Window, crcZero: bool)
      requires phase == Crc
      modifies this
      ensures Registers() == NextRegs(old(Registers()), rxTrigger, rxRdy, rxData)
      ensures Bookkeeping() == NextBook(old(Registers()), old(Bookkeeping()), rxTrigger, rxRdy, rxData, crcZero)
    {
      if rxRdy {
        var was := ctr;
        ctr := Dec32(ctr);
        words := words + [rxData];
        if was == 8 {
          Push(ByteOf(Ll.Low(rxData, 7)));
        }
        if was == 0 {
          Push(ByteOf(Ll.Low(rxData, 8)));
          crcRun, phase := false, Crc1;
        }
      }
    }

    /** States CRC-1, IDLE-WAIT-INIT and IDLE-WAIT: the check outcome is pushed, then nine bits pass. */
    method AfterFrameStep(rxTrigger: bool, rxRdy: bool, rxData: Ll.Window, crcZero: bool)
      requires phase == Crc1 || phase == IdleWaitInit || phase == IdleWait
      modifies this
      ensures Registers() == NextRegs(old(Registers()), rxTrigger, rxRdy, rxData)
      ensures Bookkeeping() == NextBook(old(Registers()), old(Bookkeeping()), rxTrigger, rxRdy, rxData, crcZero)
    {
      if phase == Crc1 {
        Push(if crcZero then 1 else 0);
        records, current := records + [current], [];
        phase := IdleWaitInit;
      } else if phase == IdleWaitInit {
        ctr, phase := 8, IdleWait;
      } else if rxRdy {
        var was := ctr;
        ctr := Dec32(ctr);
        if was == 0 {
          phase := Idle;
        }
      }
    }
  }
}
