/**
 * The I2C target of the gateware (class I2CTarget): a state machine over
 * the strobes of an I2C bus monitor that matches a 7-bit address, shifts
 * write data in and read data out, and reports transactions to the design
 * around it through one-cycle strobes.
 *
 * The bus monitor itself is not part of this model: its `start`, `stop`,
 * `setup` and `sample` strobes and the line levels `scl_i` and `sda_i` are
 * inputs of every clock.  Shift registers are written as 8 bits, most
 * significant bit first: `s[0]` is bit 7 and `s[7]` is bit 0.
 */
module I2cTarget {

  import opened Bits

  type Octet = s: seq<bool> | |s| == 8 witness [false, false, false, false, false, false, false, false]

  const Cleared: Octet := [false, false, false, false, false, false, false, false]

  /** The `n` bits of `x`, most significant first. */
  function BitsOf(x: nat, n: nat): (s: seq<bool>)
    requires x < Pow2(n)
    ensures |s| == n && Value(s) == x
  {
    if n == 0 then []
    else
      var s := BitsOf(x / 2, n - 1) + [x % 2 == 1];
      assert s[..n - 1] == BitsOf(x / 2, n - 1);
      s
  }

  /** A byte as the 8 bits of a shift register. */
  function OctetOf(x: Byte): (s: Octet)
    ensures Value(s) == x
  {
    assert Pow2(8) == 256;
    BitsOf(x, 8)
  }

  /** `(s << 1) | bit` in 8 bits. */
  function ShiftIn(s: Octet, bit: bool): (r: Octet)
    ensures r[7] == bit && r[..7] == s[1..]
  {
    s[1..] + [bit]
  }

  /** `bitno + 1` in the 3-bit register `bitno`: 7 + 1 wraps to 0. */
  function Inc3(k: nat): (r: nat)
    requires k < 8
    ensures r < 8 && (k < 7 ==> r == k + 1) && (k == 7 ==> r == 0)
  {
    (k + 1) % 8
  }

  datatype State = Idle | Start | AddrShift | AddrAck | WriteShift | WriteAck | ReadStretch | ReadShift | ReadAck

  /** The states of a transaction that addressed this target. */
  predicate Addressed(s: State) {
    s == AddrAck || s == WriteShift || s == WriteAck || s == ReadStretch || s == ReadShift || s == ReadAck
  }

  /** The strobes and levels of the bus monitor in one clock. */
  datatype Bus = Bus(start: bool, stop: bool, setup: bool, sample: bool, sclI: bool, sdaI: bool)

  /** The inputs from the design that uses the target. */
  datatype Host = Host(address: nat, dataO: Byte, ackO: bool, busy: bool)

  /**
   * The registers: the FSM state, `bitno`, `shreg_i`, `shreg_o`, `data_i`,
   * the driven levels `sda_o` and `scl_o` of the bus, and the flip-flop
   * behind the `write` strobe.
   */
  datatype Regs = Regs(state: State, bitno: nat, shregI: Octet, shregO: Octet, dataI: Byte, sdaO: bool, sclO: bool, writeStb: bool)

  /** The strobes the target raises in one clock. */
  datatype Strobes = Strobes(start: bool, stop: bool, restart: bool, write: bool, read: bool)

  /** Whether the address bits of `shreg_i` (its top seven) equal `address` (line 93). */
  predicate Matches(r: Regs, address: nat) {
    Value(r.shregI[..7]) == address
  }

  /** The registers after a clock, apart from the `write` flip-flop (lines 68-212). */
  function Update(r: Regs, bus: Bus, host: Host): (r': Regs)
    requires r.bitno < 8
    ensures r'.bitno < 8
  {
    match r.state
    case Idle =>
      if bus.start then r.(state := Start) else r
    case Start =>
      if bus.stop then r.(state := Idle)
      else if bus.setup then r.(bitno := 0, state := AddrShift)
      else r
    case AddrShift =>
      if bus.stop then r.(state := Idle)
      else if bus.start then r.(state := Start)
      else if bus.sample then r.(shregI := ShiftIn(r.shregI, bus.sdaI))
      else if bus.setup then
        if r.bitno != 7 then r.(bitno := Inc3(r.bitno))
        else if Matches(r, host.address) then r.(bitno := 0, sdaO := false, state := AddrAck)
        else r.(bitno := 0, state := Idle)
      else r
    case AddrAck =>
      if bus.stop then r.(state := Idle)
      else if bus.start then r.(state := Start)
      else if bus.setup then
        if !r.shregI[7] then r.(sdaO := true, state := WriteShift) else r
      else if bus.sample then
        if r.shregI[7] then r.(shregO := OctetOf(host.dataO), state := ReadStretch) else r
      else r
    case WriteShift =>
      if bus.stop then r.(state := Idle)
      else if bus.start then r.(state := Start)
      else if bus.sample then r.(shregI := ShiftIn(r.shregI, bus.sdaI))
      else if bus.setup then
        if r.bitno != 7 then r.(bitno := Inc3(r.bitno))
        else r.(bitno := 0, dataI := ByteOf(r.shregI), state := WriteAck)
      else r
    case WriteAck =>
      if bus.stop then r.(state := Idle)
      else if bus.start then r.(state := Start)
      else if bus.setup then r.(sdaO := true, state := WriteShift)
      else if !bus.sclI then r.(sclO := !host.busy, sdaO := if host.ackO then false else r.sdaO)
      else r
    case ReadStretch =>
      var r0 := if host.busy then r.(shregO := OctetOf(host.dataO)) else r;
      if bus.stop then r0.(state := Idle)
      else if bus.start then r0.(state := Start)
      else if host.busy then
        if !bus.sclI then r0.(sclO := false) else r0
      else r.(sdaO := if !bus.sclI then r.shregO[0] else r.sdaO, sclO := true, state := ReadShift)
    case ReadShift =>
      if bus.stop then r.(state := Idle)
      else if bus.start then r.(state := Start)
      else if bus.setup then r.(sdaO := r.shregO[0])
      else if bus.sample then
        var r1 := r.(shregO := r.shregO[1..] + [false], bitno := Inc3(r.bitno));
        if r.bitno == 7 then r1.(state := ReadAck) else r1
      else r
    case ReadAck =>
      if bus.stop then r.(state := Idle)
      else if bus.start then r.(state := Start)
      else if bus.setup then r.(sdaO := true)
      else if bus.sample then
        if !bus.sdaI then r.(shregO := OctetOf(host.dataO), state := ReadStretch)
        else r.(state := Idle)
      else r
  }

  /**
   * The registers after a clock.  The `write` flip-flop is set exactly in
   * the clock that enters WRITE-ACK (`after_entering`, line 139), so the
   * strobe is high in the first cycle spent there.
   */
  function Next(r: Regs, bus: Bus, host: Host): (r': Regs)
    requires r.bitno < 8
    ensures r'.bitno < 8
  {
    var u := Update(r, bus, host);
    u.(writeStb := r.state != WriteAck && u.state == WriteAck)
  }

  /**
   * The strobes of a clock as written (lines 94, 104-109, 123-128, 139-146,
   * 157, 162-166, 180-185, 197-212): `read` is high in the clock that
   * enters READ-STRETCH (`before_entering`) and `write` is the flip-flop.
   */
  function StrobesAsWritten(r: Regs, bus: Bus, host: Host): (o: Strobes)
    requires r.bitno < 8
    ensures o.read ==> Next(r, bus, host).shregO == OctetOf(host.dataO)
    ensures o.write ==> r.state == WriteAck || !Good(r)
  {
    EnteringStretchLatches(r, bus, host);
    var quiet := !bus.stop && !bus.start;
    Strobes(
      start := r.state == AddrShift && quiet && !bus.sample && bus.setup && r.bitno == 7 && Matches(r, host.address),
      stop := (Addressed(r.state) && bus.stop) || (r.state == ReadAck && quiet && !bus.setup && bus.sample && bus.sdaI),
      restart := Addressed(r.state) && r.state != ReadStretch && !bus.stop && bus.start,
      write := r.writeStb,
      read := r.state != ReadStretch && Update(r, bus, host).state == ReadStretch)
  }

  /** Every way into READ-STRETCH (lines 116-118, 206-208) latches `data_o` into `shreg_o`. */
  lemma EnteringStretchLatches(r: Regs, bus: Bus, host: Host)
    requires r.bitno < 8
    ensures r.state != ReadStretch && Update(r, bus, host).state == ReadStretch ==>
      Next(r, bus, host).shregO == OctetOf(host.dataO)
  {
  }

  /**
   * The strobes as the class documentation intends them: the repeated start
   * of READ-STRETCH raises `restart` like that of every other state of an
   * addressed transaction.  Only `restart` differs from the strobes as
   * written, and only there.
   */
  function IntendedStrobes(r: Regs, bus: Bus, host: Host): (o: Strobes)
    requires r.bitno < 8
    ensures o.(restart := false) == StrobesAsWritten(r, bus, host).(restart := false)
    ensures o.restart != StrobesAsWritten(r, bus, host).restart <==> r.state == ReadStretch && !bus.stop && bus.start
  {
    var o := StrobesAsWritten(r, bus, host);
    o.(restart := o.restart || (r.state == ReadStretch && !bus.stop && bus.start))
  }

  /** The invariant of the registers: `bitno` fits its 3 bits and `write` is high only in WRITE-ACK. */
  predicate Good(r: Regs) {
    r.bitno < 8 && (r.writeStb ==> r.state == WriteAck)
  }

  /** The `write` and `read` strobes in terms of the registers before and after the clock. */
  lemma StrobesFields(r: Regs, bus: Bus, host: Host)
    requires r.bitno < 8
    ensures StrobesAsWritten(r, bus, host).write == r.writeStb
    ensures StrobesAsWritten(r, bus, host).read == (r.state != ReadStretch && Update(r, bus, host).state == ReadStretch)
  {
  }

  lemma NextGood(r: Regs, bus: Bus, host: Host)
    requires Good(r)
    ensures Good(Next(r, bus, host))
  {
  }

  /**
   * The transaction delimiters, as the class documentation promises them
   * (lines 16-19): `start` is raised exactly when a transaction addressing
   * this target begins.
   */
  lemma TransactionStart(r: Regs, bus: Bus, host: Host)
    requires r.bitno < 8
    ensures StrobesAsWritten(r, bus, host).start <==> !Addressed(r.state) && Addressed(Next(r, bus, host).state)
  {
  }

  /**
   * `stop` or `restart`, never both, is raised exactly when a transaction
   * addressing this target ends; a stop leads to IDLE and a restart to
   * START.
   */
  lemma TransactionEnd(r: Regs, bus: Bus, host: Host)
    requires r.bitno < 8
    ensures var o, r' := IntendedStrobes(r, bus, host), Next(r, bus, host);
      (o.stop || o.restart <==> Addressed(r.state) && !Addressed(r'.state))
      && !(o.stop && o.restart)
      && (o.stop ==> r'.state == Idle) && (o.restart ==> r'.state == Start)
  {
  }

  /**
   * The delimiters as written: `stop` and `restart` are sound, and complete
   * except for a repeated start seen in READ-STRETCH.
   */
  lemma DelimitersAsWritten(r: Regs, bus: Bus, host: Host)
    requires r.bitno < 8
    ensures var o, r' := StrobesAsWritten(r, bus, host), Next(r, bus, host);
      (o.stop || o.restart ==> Addressed(r.state) && !Addressed(r'.state))
      && (Addressed(r.state) && !Addressed(r'.state) ==>
            o.stop || o.restart || (r.state == ReadStretch && !bus.stop && bus.start))
      && !(o.stop && o.restart)
      && (o.stop ==> r'.state == Idle) && (o.restart ==> r'.state == Start)
  {
  }

  /**
   * Outside IDLE a stop condition always leads back to IDLE, and from
   * ADDR-SHIFT on a start condition without a stop leads to START.
   */
  lemma StopBeforeStart(r: Regs, bus: Bus, host: Host)
    requires r.bitno < 8 && r.state != Idle
    ensures bus.stop ==> Next(r, bus, host).state == Idle
    ensures r.state != Start && !bus.stop && bus.start ==> Next(r, bus, host).state == Start
  {
  }

  /**
   * As written, a repeated start seen in READ-STRETCH ends the addressed
   * transaction with neither `stop` nor `restart`.
   */
  lemma StretchStartUndelimited(r: Regs, host: Host)
    requires r.bitno < 8 && r.state == ReadStretch
    ensures var bus := Bus(true, false, false, false, true, true);
      var o := StrobesAsWritten(r, bus, host);
      Addressed(r.state) && !Addressed(Next(r, bus, host).state) && !o.stop && !o.restart
  {
  }

  /** The bus during the sampling of a bit driven by the controller (SCL high, SDA `bit`). */
  function SampleBus(bit: bool): Bus {
    Bus(false, false, false, true, true, bit)
  }

  /** The bus when the next bit is set up (SCL low). */
  const SetupBus: Bus := Bus(false, false, true, false, false, false)

  /** The registers after the controller sends `bits`, oldest first: each is sampled, then the next one set up. */
  function Sending(r: Regs, bits: seq<bool>, host: Host): (r': Regs)
    requires r.bitno < 8
    ensures r'.bitno < 8
    decreases |bits|
  {
    if bits == [] then r else Sending(Next(Next(r, SampleBus(bits[0]), host), SetupBus, host), bits[1..], host)
  }

  /** The registers after the target sends `k` bits: each is set up, then sampled. */
  function Receiving(r: Regs, k: nat, host: Host): (r': Regs)
    requires r.bitno < 8
    ensures r'.bitno < 8
    decreases k
  {
    if k == 0 then r else Receiving(Next(Next(r, SetupBus, host), SampleBus(false), host), k - 1, host)
  }

  /** The sample of a bit sent by the controller. */
  lemma SampleStep(r: Regs, b: bool, host: Host)
    requires r.state == AddrShift || r.state == WriteShift
    requires !r.writeStb && r.bitno < 8
    ensures Next(r, SampleBus(b), host) == r.(shregI := ShiftIn(r.shregI, b))
  {
  }

  /** One bit sent by the controller, not the last of its byte. */
  lemma ShiftPair(r: Regs, b: bool, host: Host)
    requires r.state == AddrShift || r.state == WriteShift
    requires !r.writeStb && r.bitno < 7
    ensures Next(Next(r, SampleBus(b), host), SetupBus, host) == r.(bitno := r.bitno + 1, shregI := ShiftIn(r.shregI, b))
  {
  }

  /** The last bit of a byte the controller sends, up to the setup that follows it. */
  lemma LastBit(r: Regs, b: bool, host: Host)
    requires r.state == AddrShift || r.state == WriteShift
    requires !r.writeStb && r.bitno == 7
    ensures Sending(r, [b], host) == Next(r.(shregI := ShiftIn(r.shregI, b)), SetupBus, host)
  {
    SampleStep(r, b, host);
  }

  lemma ShiftWindow(s: Octet, bits: seq<bool>)
    requires bits != []
    ensures (ShiftIn(s, bits[0]) + bits[1..])[|bits| - 1..] == (s + bits)[|bits|..]
  {
    assert ShiftIn(s, bits[0]) + bits[1..] == (s + bits)[1..];
  }

  /**
   * While fewer than eight bits are counted, the shifting states take each
   * bit the controller sends into `shreg_i` and count it.
   */
  lemma {:induction false} ShiftBits(r: Regs, bits: seq<bool>, host: Host)
    requires r.state == AddrShift || r.state == WriteShift
    requires !r.writeStb && r.bitno + |bits| <= 7
    ensures Sending(r, bits, host) == r.(bitno := r.bitno + |bits|, shregI := (r.shregI + bits)[|bits|..])
    decreases |bits|
  {
    if bits == [] {
      assert (r.shregI + bits)[0..] == r.shregI;
    } else {
      ShiftPair(r, bits[0], host);
      ShiftBits(r.(bitno := r.bitno + 1, shregI := ShiftIn(r.shregI, bits[0])), bits[1..], host);
      ShiftWindow(r.shregI, bits);
    }
  }

  /** Sending two runs of bits in turn, the first within the count of a byte. */
  lemma {:induction false} SendingAppend(r: Regs, a: seq<bool>, b: seq<bool>, host: Host)
    requires r.state == AddrShift || r.state == WriteShift
    requires !r.writeStb && r.bitno + |a| <= 7
    ensures Sending(r, a + b, host) == Sending(Sending(r, a, host), b, host)
    decreases |a|
  {
    if a == [] {
      assert a + b == b;
    } else {
      ShiftPair(r, a[0], host);
      assert (a + b)[0] == a[0] && (a + b)[1..] == a[1..] + b;
      SendingAppend(r.(bitno := r.bitno + 1, shregI := ShiftIn(r.shregI, a[0])), a[1..], b, host);
    }
  }

  /**
   * A whole byte: after its first seven bits the setup that follows the
   * eighth finds the byte in `shreg_i` with `bitno` at 7.
   */
  lemma ByteBits(r: Regs, bits: seq<bool>, host: Host)
    requires r.state == AddrShift || r.state == WriteShift
    requires !r.writeStb && r.bitno == 0 && |bits| == 8
    ensures Sending(r, bits, host) == Next(r.(bitno := 7, shregI := bits), SetupBus, host)
  {
    assert bits == bits[..7] + [bits[7]];
    SendingAppend(r, bits[..7], [bits[7]], host);
    ShiftBits(r, bits[..7], host);
    var p := r.(bitno := 7, shregI := (r.shregI + bits[..7])[7..]);
    LastBit(p, bits[7], host);
    assert ShiftIn(p.shregI, bits[7]) == bits;
  }

  /**
   * Address phase (lines 84-100): after the eight bits of an address byte
   * the target acknowledges (drives SDA low), raising `start` at the
   * following setup, exactly when their top seven equal its address;
   * otherwise it goes back to IDLE.
   */
  lemma AddressMatch(r: Regs, bits: seq<bool>, host: Host)
    requires r.state == AddrShift && !r.writeStb && r.bitno == 0 && |bits| == 8
    ensures var m, r' := r.(bitno := 7, shregI := bits), Sending(r, bits, host);
      r' == Next(m, SetupBus, host)
      && (StrobesAsWritten(m, SetupBus, host).start <==> Value(bits[..7]) == host.address)
      && r'.shregI == bits && r'.bitno == 0
      && r'.state == (if Value(bits[..7]) == host.address then AddrAck else Idle)
      && (r'.state == AddrAck ==> !r'.sdaO)
  {
    ByteBits(r, bits, host);
  }

  /**
   * Write phase (lines 129-139): after the eight bits of a data byte the
   * target holds it in `data_i`, in WRITE-ACK, with the `write` strobe
   * high in the next clock.
   */
  lemma WriteByte(r: Regs, bits: seq<bool>, host: Host)
    requires r.state == WriteShift && !r.writeStb && r.bitno == 0 && |bits| == 8
    ensures var r' := Sending(r, bits, host);
      r'.state == WriteAck && r'.dataI == Value(bits) && r'.bitno == 0
      && StrobesAsWritten(r', SetupBus, host).write
  {
    ByteBits(r, bits, host);
  }

  /** One bit sent by the target: set up on SDA, then shifted out at the sample. */
  lemma ReadPair(r: Regs, host: Host)
    requires r.state == ReadShift && !r.writeStb && r.bitno < 8
    ensures var m := Next(Next(r, SetupBus, host), SampleBus(false), host);
      m == r.(sdaO := r.shregO[0], shregO := r.shregO[1..] + [false], bitno := Inc3(r.bitno),
               state := if r.bitno == 7 then ReadAck else ReadShift)
  {
  }

  lemma ReadWindow(s: Octet, k: nat)
    requires 1 <= k <= 8
    ensures ((s[1..] + [false]) + Cleared[..k - 1])[k - 1..] == (s + Cleared[..k])[k..]
  {
    assert (s[1..] + [false]) + Cleared[..k - 1] == (s + Cleared[..k])[1..];
  }

  /**
   * Read phase (lines 186-197): while fewer than eight bits are counted,
   * each setup of READ-SHIFT drives the top bit of `shreg_o` on SDA and
   * each sample shifts it out and counts it, so the byte goes out most
   * significant bit first.
   */
  lemma {:induction false} ReadBits(r: Regs, k: nat, host: Host)
    requires r.state == ReadShift && !r.writeStb && r.bitno + k <= 7
    ensures Receiving(r, k, host)
      == r.(bitno := r.bitno + k, shregO := (r.shregO + Cleared[..k])[k..], sdaO := if k > 0 then r.shregO[k - 1] else r.sdaO)
    decreases k
  {
    if k == 0 {
      assert (r.shregO + Cleared[..0])[0..] == r.shregO;
    } else {
      ReadPair(r, host);
      ReadBits(r.(sdaO := r.shregO[0], shregO := r.shregO[1..] + [false], bitno := r.bitno + 1), k - 1, host);
      ReadWindow(r.shregO, k);
    }
  }

  /** One more bit after `k`, within the count of a byte. */
  lemma {:induction false} ReceivingLast(r: Regs, k: nat, host: Host)
    requires r.state == ReadShift && !r.writeStb && r.bitno + k <= 7
    ensures Receiving(r, k + 1, host) == Next(Next(Receiving(r, k, host), SetupBus, host), SampleBus(false), host)
    decreases k
  {
    if k > 0 {
      ReadPair(r, host);
      ReceivingLast(r.(sdaO := r.shregO[0], shregO := r.shregO[1..] + [false], bitno := r.bitno + 1), k - 1, host);
    }
  }

  /**
   * The eighth sample of READ-SHIFT moves on to wait for the controller's
   * acknowledge, with every bit of the byte shifted out.
   */
  lemma ReadByte(r: Regs, host: Host)
    requires r.state == ReadShift && !r.writeStb && r.bitno == 0
    ensures var r' := Receiving(r, 8, host);
      r'.state == ReadAck && r'.bitno == 0 && r'.shregO == Cleared && r'.sdaO == r.shregO[7]
  {
    ReceivingLast(r, 7, host);
    ReadBits(r, 7, host);
    ReadPair(Receiving(r, 7, host), host);
    LastWindow(r.shregO);
  }

  lemma LastWindow(s: Octet)
    ensures (s + Cleared[..7])[7..][1..] + [false] == Cleared
  {
  }

  /**
   * Read acknowledge (lines 205-212): an acknowledge from the controller
   * latches the next byte with the `read` strobe and stretches; a
   * not-acknowledge ends the transaction with `stop`.
   */
  lemma ReadAcknowledge(r: Regs, ack: bool, host: Host)
    requires r.state == ReadAck && r.bitno < 8
    ensures Next(r, SetupBus, host) == r.(sdaO := true, writeStb := false)
    ensures var bus := SampleBus(!ack);
      var o, r' := StrobesAsWritten(r, bus, host), Next(r, bus, host);
      (ack ==> o.read && !o.stop && r'.state == ReadStretch && r'.shregO == OctetOf(host.dataO))
      && (!ack ==> o.stop && !o.read && r'.state == Idle)
  {
  }

  /**
   * IDLE and START (lines 68-82): a start condition leads from IDLE to
   * START, and the first setup after it clears `bitno` and begins the
   * address; a stop in START goes back to IDLE.  No strobe is raised.
   */
  lemma StartEntry(r: Regs, bus: Bus, host: Host)
    requires r.bitno < 8 && (r.state == Idle || r.state == Start)
    ensures var o := StrobesAsWritten(r, bus, host); !o.start && !o.stop && !o.restart && !o.read
    ensures r.state == Idle ==> Next(r, bus, host) == r.(state := if bus.start then Start else Idle, writeStb := false)
    ensures r.state == Start && bus.stop ==> Next(r, bus, host) == r.(state := Idle, writeStb := false)
    ensures r.state == Start && !bus.stop && bus.setup ==> Next(r, bus, host) == r.(bitno := 0, state := AddrShift, writeStb := false)
    ensures r.state == Start && !bus.stop && !bus.setup ==> Next(r, bus, host) == r.(writeStb := false)
  {
  }

  /**
   * ADDR-ACK (lines 110-120): the R/W bit, the last bit shifted in, decides.
   * A write releases SDA at the next setup and enters WRITE-SHIFT; a read
   * latches `data_o` at the next sample and enters READ-STRETCH with the
   * `read` strobe.  The other edge leaves the registers as they are.
   */
  lemma AddressAckDecision(r: Regs, bus: Bus, host: Host)
    requires r.state == AddrAck && r.bitno < 8 && !bus.stop && !bus.start
    ensures var o, r' := StrobesAsWritten(r, bus, host), Next(r, bus, host);
      !o.start && !o.stop && !o.restart
      && (bus.setup && !r.shregI[7] ==> r' == r.(sdaO := true, state := WriteShift, writeStb := false) && !o.read)
      && (bus.setup && r.shregI[7] ==> r' == r.(writeStb := false) && !o.read)
      && (!bus.setup && bus.sample && r.shregI[7] ==>
            r' == r.(shregO := OctetOf(host.dataO), state := ReadStretch, writeStb := false) && o.read)
      && (!bus.setup && bus.sample && !r.shregI[7] ==> r' == r.(writeStb := false) && !o.read)
  {
  }

  /**
   * WRITE-ACK (lines 147-154): while SCL is low the target drives the
   * acknowledge the design asks for and holds SCL low while the design is
   * busy; the next setup releases SDA and returns to WRITE-SHIFT.
   */
  lemma WriteAcknowledge(r: Regs, bus: Bus, host: Host)
    requires r.state == WriteAck && r.bitno < 8 && !bus.stop && !bus.start
    ensures var o := StrobesAsWritten(r, bus, host); !o.start && !o.stop && !o.restart && !o.read
    ensures bus.setup ==> Next(r, bus, host) == r.(sdaO := true, state := WriteShift, writeStb := false)
    ensures !bus.setup && !bus.sclI ==>
      Next(r, bus, host) == r.(sclO := !host.busy, sdaO := if host.ackO then false else r.sdaO, writeStb := false)
    ensures !bus.setup && bus.sclI ==> Next(r, bus, host) == r.(writeStb := false)
  {
  }

  /**
   * READ-STRETCH (lines 159-177): while the design is busy `shreg_o` keeps
   * reloading from `data_o` and SCL is held low once it is low; when the
   * design is ready SCL is released, the top bit goes to SDA if SCL is low,
   * and the FSM enters READ-SHIFT.  A stop or start leaves as everywhere.
   */
  lemma StretchRelease(r: Regs, bus: Bus, host: Host)
    requires r.state == ReadStretch && r.bitno < 8
    ensures host.busy ==> Next(r, bus, host).shregO == OctetOf(host.dataO)
    ensures !StrobesAsWritten(r, bus, host).read && !StrobesAsWritten(r, bus, host).start
    ensures bus.stop ==> Next(r, bus, host).state == Idle && StrobesAsWritten(r, bus, host).stop
    ensures !bus.stop && bus.start ==> Next(r, bus, host).state == Start
    ensures !bus.stop && !bus.start && host.busy ==>
      Next(r, bus, host) == r.(shregO := OctetOf(host.dataO), sclO := if bus.sclI then r.sclO else false, writeStb := false)
    ensures !bus.stop && !bus.start && !host.busy ==>
      Next(r, bus, host) == r.(sdaO := if bus.sclI then r.sdaO else r.shregO[0], sclO := true, state := ReadShift, writeStb := false)
  {
  }

  /** The target of class I2CTarget. */
  class Target {
    var state: State
    var bitno: nat
    var shregI: Octet
    var shregO: Octet
    var dataI: Byte
    var sdaO: bool
    var sclO: bool
    var writeStb: bool

    function Registers(): Regs
      reads this
    {
      Regs(state, bitno, shregI, shregO, dataI, sdaO, sclO, writeStb)
    }

    ghost predicate Valid()
      reads this
    {
      Good(Registers())
    }

    /** The reset state: IDLE, registers zero, both bus lines released. */
    constructor ()
      ensures Valid() && Registers() == Regs(Idle, 0, Cleared, Cleared, 0, true, true, false)
    {
      state, bitno, shregI, shregO, dataI := Idle, 0, Cleared, Cleared, 0;
      sdaO, sclO, writeStb := true, true, false;
    }

    /**
     * One clock: the strobes are those of the registers before the clock,
     * and every `NextValue` takes effect at its end.
     */
    method Step(bus: Bus, host: Host) returns (out: Strobes)
      requires Valid()
      modifies this
      ensures Valid()
      ensures Registers() == Next(old(Registers()), bus, host)
      ensures out == StrobesAsWritten(old(Registers()), bus, host)
    {
      NextGood(Registers(), bus, host);
      StrobesFields(Registers(), bus, host);
      var was, write := state, writeStb;
      var start, stop, restart := Dispatch(bus, host);
      writeStb := was != WriteAck && state == WriteAck;
      out := Strobes(start, stop, restart, write, was != ReadStretch && state == ReadStretch);
    }

    /** The action of the current state, with the combinational strobes it raises. */
    method Dispatch(bus: Bus, host: Host) returns (start: bool, stop: bool, restart: bool)
      requires bitno < 8
      modifies this
      ensures Registers() == Update(old(Registers()), bus, host)
      ensures var o := StrobesAsWritten(old(Registers()), bus, host); start == o.start && stop == o.stop && restart == o.restart
    {
      match state {
      case Idle => start, stop, restart := IdleStep(bus, host);
      case Start => start, stop, restart := StartStep(bus, host);
      case AddrShift => start, stop, restart := AddressStep(bus, host);
      case AddrAck => start, stop, restart := AddressAckStep(bus, host);
      case WriteShift => start, stop, restart := WriteShiftStep(bus, host);
      case WriteAck => start, stop, restart := WriteAckStep(bus, host);
      case ReadStretch => start, stop, restart := StretchStep(bus, host);
      case ReadShift => start, stop, restart := ReadShiftStep(bus, host);
      case ReadAck => start, stop, restart := ReadAckStep(bus, host);
      }
    }

    /** IDLE (lines 68-72): wait for a start condition. */
    method IdleStep(bus: Bus, host: Host) returns (start: bool, stop: bool, restart: bool)
      requires state == Idle && bitno < 8
      modifies this
      ensures Registers() == Update(old(Registers()), bus, host)
      ensures var o := StrobesAsWritten(old(Registers()), bus, host); start == o.start && stop == o.stop && restart == o.restart
    {
      start, stop, restart := false, false, false;
      if bus.start {
        state := Start;
      }
    }

    /** START (lines 73-82): the first setup after the start condition begins the address. */
    method StartStep(bus: Bus, host: Host) returns (start: bool, stop: bool, restart: bool)
      requires state == Start && bitno < 8
      modifies this
      ensures Registers() == Update(old(Registers()), bus, host)
      ensures var o := StrobesAsWritten(old(Registers()), bus, host); start == o.start && stop == o.stop && restart == o.restart
    {
      start, stop, restart := false, false, false;
      if bus.stop {
        state := Idle;
      } else if bus.setup {
        bitno, state := 0, AddrShift;
      }
    }

    /** ADDR-SHIFT (lines 83-101): shift in the address byte and compare it on the eighth setup. */
    method AddressStep(bus: Bus, host: Host) returns (start: bool, stop: bool, restart: bool)
      requires state == AddrShift && bitno < 8
      modifies this
      ensures Registers() == Update(old(Registers()), bus, host)
      ensures var o := StrobesAsWritten(old(Registers()), bus, host); start == o.start && stop == o.stop && restart == o.restart
    {
      start, stop, restart := false, false, false;
      if bus.stop {
        state := Idle;
      } else if bus.start {
        state := Start;
      } else if bus.sample {
        shregI := ShiftIn(shregI, bus.sdaI);
      } else if bus.setup {
        var last := bitno == 7;
        bitno := Inc3(bitno);
        if last {
          if Value(shregI[..7]) == host.address {
            start := true;
            sdaO, state := false, AddrAck;
          } else {
            state := Idle;
          }
        }
      }
    }

    /** ADDR-ACK (lines 102-121): the R/W bit chooses between writing and reading. */
    method AddressAckStep(bus: Bus, host: Host) returns (start: bool, stop: bool, restart: bool)
      requires state == AddrAck && bitno < 8
      modifies this
      ensures Registers() == Update(old(Registers()), bus, host)
      ensures var o := StrobesAsWritten(old(Registers()), bus, host); start == o.start && stop == o.stop && restart == o.restart
    {
      start, stop, restart := false, false, false;
      if bus.stop {
        stop, state := true, Idle;
      } else if bus.start {
        restart, state := true, Start;
      } else if bus.setup {
        if !shregI[7] {
          sdaO, state := true, WriteShift;
        }
      } else if bus.sample {
        if shregI[7] {
          shregO, state := OctetOf(host.dataO), ReadStretch;
        }
      }
    }

    /** WRITE-SHIFT (lines 122-139): shift in a data byte and hand it over on the eighth setup. */
    method WriteShiftStep(bus: Bus, host: Host) returns (start: bool, stop: bool, restart: bool)
      requires state == WriteShift && bitno < 8
      modifies this
      ensures Registers() == Update(old(Registers()), bus, host)
      ensures var o := StrobesAsWritten(old(Registers()), bus, host); start == o.start && stop == o.stop && restart == o.restart
    {
      start, stop, restart := false, false, false;
      if bus.stop {
        stop, state := true, Idle;
      } else if bus.start {
        restart, state := true, Start;
      } else if bus.sample {
        shregI := ShiftIn(shregI, bus.sdaI);
      } else if bus.setup {
        var last := bitno == 7;
        bitno := Inc3(bitno);
        if last {
          dataI, state := ByteOf(shregI), WriteAck;
        }
      }
    }

    /** WRITE-ACK (lines 141-155): drive the acknowledge the design asks for while SCL is low. */
    method WriteAckStep(bus: Bus, host: Host) returns (start: bool, stop: bool, restart: bool)
      requires state == WriteAck && bitno < 8
      modifies this
      ensures Registers() == Update(old(Registers()), bus, host)
      ensures var o := StrobesAsWritten(old(Registers()), bus, host); start == o.start && stop == o.stop && restart == o.restart
    {
      start, stop, restart := false, false, false;
      if bus.stop {
        stop, state := true, Idle;
      } else if bus.start {
        restart, state := true, Start;
      } else if bus.setup {
        sdaO, state := true, WriteShift;
      } else if !bus.sclI {
        sclO := !host.busy;
        if host.ackO {
          sdaO := false;
        }
      }
    }

    /**
     * READ-STRETCH (lines 157-178): hold SCL low while the design is busy,
     * then release it and start shifting out.  A repeated start here leads
     * to START without raising `restart` (line 166).
     */
    method StretchStep(bus: Bus, host: Host) returns (start: bool, stop: bool, restart: bool)
      requires state == ReadStretch && bitno < 8
      modifies this
      ensures Registers() == Update(old(Registers()), bus, host)
      ensures var o := StrobesAsWritten(old(Registers()), bus, host); start == o.start && stop == o.stop && restart == o.restart
    {
      start, stop, restart := false, false, false;
      var top := shregO[0];
      if host.busy {
        shregO := OctetOf(host.dataO);
      }
      if bus.stop {
        stop, state := true, Idle;
      } else if bus.start {
        state := Start;
      } else if host.busy {
        if !bus.sclI {
          sclO := false;
        }
      } else {
        if !bus.sclI {
          sdaO := top;
        }
        sclO, state := true, ReadShift;
      }
    }

    /** READ-SHIFT (lines 179-197): drive each bit at setup and move to the next at sample. */
    method ReadShiftStep(bus: Bus, host: Host) returns (start: bool, stop: bool, restart: bool)
      requires state == ReadShift && bitno < 8
      modifies this
      ensures Registers() == Update(old(Registers()), bus, host)
      ensures var o := StrobesAsWritten(old(Registers()), bus, host); start == o.start && stop == o.stop && restart == o.restart
    {
      start, stop, restart := false, false, false;
      if bus.stop {
        stop, state := true, Idle;
      } else if bus.start {
        restart, state := true, Start;
      } else if bus.setup {
        sdaO := shregO[0];
      } else if bus.sample {
        var last := bitno == 7;
        shregO := shregO[1..] + [false];
        bitno := Inc3(bitno);
        if last {
          state := ReadAck;
        }
      }
    }

    /** READ-ACK (lines 198-212): the controller's acknowledge decides whether another byte follows. */
    method ReadAckStep(bus: Bus, host: Host) returns (start: bool, stop: bool, restart: bool)
      requires state == ReadAck && bitno < 8
      modifies this
      ensures Registers() == Update(old(Registers()), bus, host)
      ensures var o := StrobesAsWritten(old(Registers()), bus, host); start == o.start && stop == o.stop && restart == o.restart
    {
      start, stop, restart := false, false, false;
      if bus.stop {
        stop, state := true, Idle;
      } else if bus.start {
        restart, state := true, Start;
      } else if bus.setup {
        sdaO := true;
      } else if bus.sample {
        if !bus.sdaI {
          shregO, state := OctetOf(host.dataO), ReadStretch;
        } else {
          stop, state := true, Idle;
        }
      }
    }
  }
}
