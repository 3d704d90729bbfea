/** The WonderSwan's two serial EEPROMs (93Cxx / Microwire style): the
 *  console's internal EEPROM and the cartridge EEPROM.  Each has a 16-bit
 *  data register, a 16-bit address register and a command/status register
 *  reached through I/O ports; a write to the command port runs one command
 *  (READ, WRITE, ERASE or one of the extended EWDS, WRAL, ERAL, EWEN) on the
 *  EEPROM's byte array. */
module WSwanEeprom {
  import opened Common

  // ---------------------------------------------------------------------
  // Registers and ports

  /** The three registers of one EEPROM. */
  datatype Registers = Registers(data: bv16, address: bv16, command: bv8)

  /** Byte `hi` (0 = low, 1 = high) of a 16-bit register. */
  function ByteOf(r: bv16, hi: bool): bv8
  {
    if hi then ((r >> 8) & 0xFF) as bv8 else (r & 0xFF) as bv8
  }

  /** A register with byte `hi` replaced: the other byte is masked out and
   *  kept, the new byte ORed into its place. */
  function WithByte(r: bv16, hi: bool, v: bv8): bv16
  {
    if hi then (r & 0x00FF) | ((v as bv16) << 8) else (r & 0xFF00) | (v as bv16)
  }

  lemma WithLowByte(r: bv16, v: bv8)
    ensures (((r & 0xFF00) | (v as bv16)) & 0xFF) as bv8 == v
    ensures ((((r & 0xFF00) | (v as bv16)) >> 8) & 0xFF) as bv8 == ((r >> 8) & 0xFF) as bv8
  {
  }

  lemma WithHighByte(r: bv16, v: bv8)
    ensures ((((r & 0x00FF) | ((v as bv16) << 8)) >> 8) & 0xFF) as bv8 == v
    ensures (((r & 0x00FF) | ((v as bv16) << 8)) & 0xFF) as bv8 == (r & 0xFF) as bv8
  {
  }

  /** Writing one byte of a register replaces exactly that byte. */
  lemma WithByteReplacesOne(r: bv16, hi: bool, v: bv8)
    ensures ByteOf(WithByte(r, hi, v), hi) == v
    ensures ByteOf(WithByte(r, hi, v), !hi) == ByteOf(r, !hi)
  {
    WithLowByte(r, v);
    WithHighByte(r, v);
  }

  /** The per-EEPROM register an I/O port selects, counted from the block's
   *  first port: 0/1 data low/high, 2/3 address low/high, 4 command. */
  datatype Port = Port(internal: bool, reg: nat)

  /** Ports 0xBA-0xBE belong to the internal EEPROM, 0xC4-0xC8 to the
   *  cartridge's; no other port does. */
  function PortOf(a: bv32): (p: Option<Port>)
    ensures p.Some? ==> p.value.reg < 5
    ensures p.Some? && p.value.internal <==> 0xBA <= a <= 0xBE
    ensures p.Some? && !p.value.internal <==> 0xC4 <= a <= 0xC8
  {
    if 0xBA <= a <= 0xBE then Some(Port(true, (a - 0xBA) as int))
    else if 0xC4 <= a <= 0xC8 then Some(Port(false, (a - 0xC4) as int))
    else None
  }

  /** WSwan_EEPROMRead of register `reg`: the bytes of data and address,
   *  and the command register with its six upper bits reading as 1. */
  function RegisterRead(s: Registers, reg: nat): bv8
    requires reg < 5
  {
    if reg == 0 then ByteOf(s.data, false)
    else if reg == 1 then ByteOf(s.data, true)
    else if reg == 2 then ByteOf(s.address, false)
    else if reg == 3 then ByteOf(s.address, true)
    else s.command | 0xFC
  }

  /** WSwan_EEPROMWrite to a data or address port. */
  function RegisterWritten(s: Registers, reg: nat, v: bv8): Registers
    requires reg < 4
  {
    if reg < 2 then s.(data := WithByte(s.data, reg == 1, v))
    else s.(address := WithByte(s.address, reg == 3, v))
  }

  /** The value a port read returns; any other port reads as 0. */
  function PortRead(a: bv32, inner: Registers, cart: Registers): bv8
  {
    match PortOf(a)
    case None => 0
    case Some(p) => RegisterRead(if p.internal then inner else cart, p.reg)
  }

  /** A register port reads back the byte last written to it; every other
   *  register reads as before, and the command register is untouched. */
  lemma {:induction false} RegisterRoundTrip(s: Registers, reg: nat, v: bv8, other: nat)
    requires reg < 4 && other < 5
    ensures RegisterRead(RegisterWritten(s, reg, v), reg) == v
    ensures other != reg ==> RegisterRead(RegisterWritten(s, reg, v), other) == RegisterRead(s, other)
    ensures RegisterWritten(s, reg, v).command == s.command
  {
    WithByteReplacesOne(s.data, reg == 1, v);
    WithByteReplacesOne(s.address, reg == 3, v);
  }

  /** A command-port read has the upper six bits set, the low two bits
   *  being the status bits. */
  lemma CommandReadStatus(s: Registers)
    ensures RegisterRead(s, 4) & 0xFC == 0xFC
    ensures RegisterRead(s, 4) & 0x03 == s.command & 0x03
  {
  }

  // ---------------------------------------------------------------------
  // Command decoding

  /** The sizes that occur: 2^3 to 2^11 bytes (the internal EEPROM is 0x80
   *  or 0x800 bytes, a cartridge EEPROM at most 2048). */
  predicate EepromSize(size: nat)
  {
    size in {8, 16, 32, 64, 128, 256, 512, 1024, 2048}
  }

  function Log2(size: nat): (k: nat)
    requires EepromSize(size)
    ensures 3 <= k <= 11
  {
    if size == 8 then 3 else if size == 16 then 4 else if size == 32 then 5
    else if size == 64 then 6 else if size == 128 then 7 else if size == 256 then 8
    else if size == 512 then 9 else if size == 1024 then 10 else 11
  }

  /** Only command classes 0x10, 0x20 and 0x40 in bits 4-6 run. */
  predicate Runs(cmd: bv8)
  {
    cmd & 0x70 == 0x40 || cmd & 0x70 == 0x20 || cmd & 0x70 == 0x10
  }

  /** The byte address of the word the address register selects: the
   *  register doubled and cut to the EEPROM's size (the `& (size - 1)` of a
   *  power-of-two size, written as the remainder). */
  function WordAddress(address: bv16, size: nat): nat
    requires EepromSize(size)
  {
    (address as int * 2) % size
  }

  /** The opcode: the address register shifted down by log2(size) - 3,
   *  cut to 8 bits. */
  function Opcode(address: bv16, size: nat): bv8
    requires EepromSize(size)
  {
    ((address >> (Log2(size) - 3)) & 0xFF) as bv8
  }

  /** The operation an opcode selects: bits 2-4 pick the class, and class
   *  0x10 is extended by bits 0-1. */
  datatype Op = Ewds | Wral | Eral | Ewen | Read | Write | Erase | NoOp

  function OpOf(opcode: bv8): Op
  {
    if opcode & 0x1C == 0x10 then
      if opcode & 0x03 == 0 then Ewds
      else if opcode & 0x03 == 1 then Wral
      else if opcode & 0x03 == 2 then Eral
      else Ewen
    else if opcode & 0x1C == 0x18 then Read
    else if opcode & 0x1C == 0x14 then Write
    else if opcode & 0x1C == 0x1C then Erase
    else NoOp
  }

  lemma ExtendedBits(opcode: bv8)
    ensures opcode & 0x03 == 0 || opcode & 0x03 == 1 || opcode & 0x03 == 2 || opcode & 0x03 == 3
  {
  }

  /** Opcodes with bit 4 clear do nothing; the four classes with it set are
   *  the extended opcodes, READ, WRITE and ERASE. */
  lemma OpClasses(opcode: bv8)
    ensures OpOf(opcode) == NoOp <==> opcode & 0x10 == 0
    ensures OpOf(opcode) in {Ewds, Wral, Eral, Ewen} <==> opcode & 0x1C == 0x10
  {
    ExtendedBits(opcode);
  }

  /** Every word address is even and its word lies inside the EEPROM. */
  lemma WordAddressBounds(address: bv16, size: nat)
    requires EepromSize(size)
    ensures WordAddress(address, size) % 2 == 0
    ensures WordAddress(address, size) + 1 < size
  {
    DoubledModEven(address as int, size);
  }

  lemma DoubledModEven(x: nat, size: nat)
    requires EepromSize(size)
    ensures (x * 2) % size % 2 == 0 && (x * 2) % size + 1 < size
  {
    assert size == 2 * (size / 2);
    DoubledModHalves(x, size / 2);
  }

  lemma DoubledModHalves(x: nat, h: nat)
    requires h > 0
    ensures (x * 2) % (2 * h) % 2 == 0 && (x * 2) % (2 * h) + 1 < 2 * h
  {
    var q, r := x / h, x % h;
    assert x == q * h + r && 0 <= r < h;
    MulTwice(q, h);
    ModUnique(x * 2, q, 2 * r, 2 * h);
  }

  lemma MulTwice(q: int, h: int)
    ensures q * (2 * h) == 2 * (q * h)
  {
  }

  /** The command register once bit 0x80 of the command is latched. */
  function Latched(cmd: bv8, command: bv8): bv8
  {
    if cmd & 0x80 != 0 then command | 0x80 else command
  }

  /** Protection: the write-disable bit 0x08 locks the EEPROM, and the
   *  internal EEPROM with bit 0x80 latched also locks from byte 0x30 up. */
  predicate Unlocked(internal: bool, command: bv8, a: nat)
  {
    command & 0x08 == 0 && !(internal && command & 0x80 != 0 && a >= 0x30)
  }

  /** The byte WRAL stores at `i`: the low byte of the data at even
   *  addresses, the high byte at odd ones. */
  function AllByte(data: bv16, i: nat): bv8
  {
    ByteOf(data, i % 2 == 1)
  }

  /** The value a running command works with: the data register for
   *  class 0x20, 0xFFFF otherwise. */
  function CommandData(cmd: bv8, s: Registers): bv16
  {
    if cmd & 0x20 != 0 then s.data else 0xFFFF
  }

  /** WRAL's memory: every byte below `size` rewritten from the data. */
  function WrittenAll(mem: seq<bv8>, size: nat, data: bv16): (r: seq<bv8>)
    ensures |r| == |mem|
  {
    seq(|mem|, i requires 0 <= i < |mem| => if i < size then AllByte(data, i) else mem[i])
  }

  /** ERAL's memory: every byte below `size` set to 0xFF. */
  function ErasedAll(mem: seq<bv8>, size: nat): (r: seq<bv8>)
    ensures |r| == |mem|
  {
    seq(|mem|, i requires 0 <= i < |mem| => if i < size then 0xFF else mem[i])
  }

  /** The memory after operation `op` at word address `a` with value
   *  `data`; a locked EEPROM is not written. */
  function Effect(op: Op, a: nat, data: bv16, unlocked: bool, size: nat, mem: seq<bv8>): (r: seq<bv8>)
    requires a + 1 < |mem|
    ensures |r| == |mem|
  {
    if !unlocked then mem
    else match op
      case Wral => WrittenAll(mem, size, data)
      case Eral => ErasedAll(mem, size)
      case Write => mem[a := ByteOf(data, false)][a + 1 := ByteOf(data, true)]
      case Erase => mem[a := 0xFF][a + 1 := 0xFF]
      case _ => mem
  }

  /** The registers once bit 0x80 of the command is latched. */
  function LatchedState(cmd: bv8, s: Registers): Registers
  {
    s.(command := Latched(cmd, s.command))
  }

  /** The memory after a command. */
  function BytesAfter(cmd: bv8, s: Registers, size: nat, internal: bool, mem: seq<bv8>): (r: seq<bv8>)
    requires EepromSize(size) && size <= |mem|
    ensures |r| == |mem|
  {
    if !Runs(cmd) then mem else RanBytes(cmd, LatchedState(cmd, s), size, internal, mem)
  }

  /** The registers after a command. */
  function RegistersAfter(cmd: bv8, s: Registers, size: nat, mem: seq<bv8>): Registers
    requires EepromSize(size) && size <= |mem|
  {
    if !Runs(cmd) then LatchedState(cmd, s) else RanRegisters(cmd, LatchedState(cmd, s), size, mem)
  }

  /** The memory after a running command, from the latched registers `s`. */
  function RanBytes(cmd: bv8, s: Registers, size: nat, internal: bool, mem: seq<bv8>): (r: seq<bv8>)
    requires EepromSize(size) && size <= |mem|
    ensures |r| == |mem|
  {
    var a := WordAddress(s.address, size);
    WordAddressBounds(s.address, size);
    Effect(OpOf(Opcode(s.address, size)), a, CommandData(cmd, s), Unlocked(internal, s.command, a), size, mem)
  }

  /** The registers after a running command, from the latched registers `s`. */
  function RanRegisters(cmd: bv8, s: Registers, size: nat, mem: seq<bv8>): Registers
    requires EepromSize(size) && size <= |mem|
  {
    var a := WordAddress(s.address, size);
    WordAddressBounds(s.address, size);
    var op := OpOf(Opcode(s.address, size));
    var data := DataAfter(op, a, CommandData(cmd, s), mem);
    Registers(if cmd & 0x10 != 0 then data else s.data, s.address, StatusAfter(cmd, op, s.command))
  }

  lemma RanUnfold(cmd: bv8, s: Registers, size: nat, internal: bool, mem: seq<bv8>, a: nat, op: Op)
    requires EepromSize(size) && size <= |mem|
    requires a == WordAddress(s.address, size) && op == OpOf(Opcode(s.address, size))
    ensures a + 1 < size
    ensures RanBytes(cmd, s, size, internal, mem) == Effect(op, a, CommandData(cmd, s), Unlocked(internal, s.command, a), size, mem)
    ensures RanRegisters(cmd, s, size, mem)
         == Registers(if cmd & 0x10 != 0 then DataAfter(op, a, CommandData(cmd, s), mem) else s.data, s.address, StatusAfter(cmd, op, s.command))
  {
    WordAddressBounds(s.address, size);
  }

  /** The write-disable bit after the operation: EWDS sets it, EWEN clears it. */
  function LockAfter(op: Op, c: bv8): bv8
  {
    if op == Ewds then c | 0x08 else if op == Ewen then c & 0xF7 else c
  }

  /** The command register once a running command is done: status bits
   *  cleared, the lock bit updated, then bit 0x02 set, and bit 0x01 for
   *  class 0x10. */
  function StatusAfter(cmd: bv8, op: Op, latched: bv8): bv8
  {
    var lock := LockAfter(op, latched & 0xFC);
    if cmd & 0x10 != 0 then lock | 0x03 else lock | 0x02
  }

  /** The value the command ends with: the word read by READ, otherwise
   *  the value it started with. */
  function DataAfter(op: Op, a: nat, data: bv16, mem: seq<bv8>): bv16
    requires a + 1 < |mem|
  {
    if op == Read then (mem[a] as bv16) | ((mem[a + 1] as bv16) << 8) else data
  }

  // ---------------------------------------------------------------------
  // What a command promises

  /** A command outside classes 0x10/0x20/0x40 only latches bit 0x80. */
  lemma IdleCommand(cmd: bv8, s: Registers, size: nat, internal: bool, mem: seq<bv8>)
    requires EepromSize(size) && size <= |mem| && !Runs(cmd)
    ensures BytesAfter(cmd, s, size, internal, mem) == mem
    ensures RegistersAfter(cmd, s, size, mem) == s.(command := Latched(cmd, s.command))
    ensures cmd & 0x80 == 0 ==> RegistersAfter(cmd, s, size, mem) == s
  {
  }

  lemma StatusBits(c: bv8)
    ensures (LockAfter(Ewds, c & 0xFC) & 0x03) == 0
    ensures (LockAfter(Ewen, c & 0xFC) & 0x03) == 0
    ensures ((c & 0xFC) & 0x03) == 0
  {
  }

  lemma ClearKeepsLock(c: bv8)
    ensures (c & 0xFC) & 0x08 == c & 0x08 && (c & 0xFC) & 0x80 == c & 0x80
  {
  }

  lemma RunsHasClass(cmd: bv8)
    requires Runs(cmd)
    ensures cmd & 0x70 != 0
  {
  }

  /** Setting bit 0x02 and then bit 0x01 sets both. */
  lemma StatusOrder(c: bv8)
    ensures (c | 0x02) | 0x01 == c | 0x03
  {
  }

  lemma StatusAfterIs(cmd: bv8, op: Op, latched: bv8, lock: bv8)
    requires lock == LockAfter(op, latched & 0xFC)
    ensures StatusAfter(cmd, op, latched) == if cmd & 0x10 != 0 then lock | 0x03 else lock | 0x02
  {
  }

  lemma UnlockedIgnoresStatus(internal: bool, c: bv8, a: nat)
    ensures Unlocked(internal, c & 0xFC, a) == Unlocked(internal, c, a)
  {
    ClearKeepsLock(c);
  }

  lemma StatusLow(lock: bv8)
    requires lock & 0x03 == 0
    ensures (lock | 0x03) & 0x03 == 0x03 && (lock | 0x02) & 0x03 == 0x02
  {
  }

  /** A command that runs leaves status bit 0x02 set and bit 0x01 set
   *  exactly for class 0x10. */
  lemma RunStatus(cmd: bv8, s: Registers, size: nat, mem: seq<bv8>)
    requires EepromSize(size) && size <= |mem| && Runs(cmd)
    ensures RegistersAfter(cmd, s, size, mem).command & 0x02 == 0x02
    ensures (RegistersAfter(cmd, s, size, mem).command & 0x01 == 0x01) == (cmd & 0x10 != 0)
  {
    var latched := Latched(cmd, s.command);
    var op := OpOf(Opcode(s.address, size));
    StatusBits(latched);
    StatusLow(LockAfter(op, latched & 0xFC));
  }

  lemma LockBits(c: bv8)
    ensures (((c & 0xFC) | 0x08) | 0x03) & 0x08 != 0 && (((c & 0xFC) | 0x08) | 0x02) & 0x08 != 0
    ensures (((c & 0xFC) & 0xF7) | 0x03) & 0x08 == 0 && (((c & 0xFC) & 0xF7) | 0x02) & 0x08 == 0
    ensures (((c & 0xFC) | 0x03) & 0x08) == c & 0x08 && (((c & 0xFC) | 0x02) & 0x08) == c & 0x08
    ensures (((c & 0xFC) | 0x08) | 0x03) & 0x80 == c & 0x80 && (((c & 0xFC) | 0x08) | 0x02) & 0x80 == c & 0x80
    ensures (((c & 0xFC) & 0xF7) | 0x03) & 0x80 == c & 0x80 && (((c & 0xFC) & 0xF7) | 0x02) & 0x80 == c & 0x80
    ensures (((c & 0xFC) | 0x03) & 0x80) == c & 0x80 && (((c & 0xFC) | 0x02) & 0x80) == c & 0x80
  {
  }

  /** EWDS sets the write-disable bit, EWEN clears it, and no other command
   *  touches it; bit 0x80 only ever gets latched. */
  lemma WriteEnableBit(cmd: bv8, s: Registers, size: nat, mem: seq<bv8>)
    requires EepromSize(size) && size <= |mem| && Runs(cmd)
    ensures var op := OpOf(Opcode(s.address, size));
      RegistersAfter(cmd, s, size, mem).command & 0x08
        == if op == Ewds then 0x08 else if op == Ewen then 0 else s.command & 0x08
    ensures RegistersAfter(cmd, s, size, mem).command & 0x80 == Latched(cmd, s.command) & 0x80
  {
    var latched := Latched(cmd, s.command);
    LockBits(latched);
    assert latched & 0x08 == s.command & 0x08;
  }

  /** READ loads the little-endian word at the word address into the data
   *  register (for class 0x10) and leaves memory alone. */
  lemma ReadCommand(cmd: bv8, s: Registers, size: nat, internal: bool, mem: seq<bv8>)
    requires EepromSize(size) && size <= |mem| && Runs(cmd)
    requires OpOf(Opcode(s.address, size)) == Read
    ensures var a := WordAddress(s.address, size);
      a + 1 < size &&
      RegistersAfter(cmd, s, size, mem).data
        == if cmd & 0x10 != 0 then (mem[a] as bv16) | ((mem[a + 1] as bv16) << 8) else s.data
    ensures BytesAfter(cmd, s, size, internal, mem) == mem
  {
    WordAddressBounds(s.address, size);
  }

  /** A locked EEPROM keeps its memory whatever the command. */
  lemma LockedKeepsMemory(cmd: bv8, s: Registers, size: nat, internal: bool, mem: seq<bv8>)
    requires EepromSize(size) && size <= |mem|
    requires !Unlocked(internal, Latched(cmd, s.command), WordAddress(s.address, size))
    ensures BytesAfter(cmd, s, size, internal, mem) == mem
  {
  }

  /** Unlocked WRITE stores the data little-endian in the selected word and
   *  nowhere else; ERASE stores 0xFF there. */
  lemma WordCommands(cmd: bv8, s: Registers, size: nat, internal: bool, mem: seq<bv8>, i: nat)
    requires EepromSize(size) && size <= |mem| && Runs(cmd) && i < |mem|
    requires Unlocked(internal, Latched(cmd, s.command), WordAddress(s.address, size))
    requires OpOf(Opcode(s.address, size)) in {Write, Erase}
    ensures var a, r := WordAddress(s.address, size), BytesAfter(cmd, s, size, internal, mem);
      var data := if OpOf(Opcode(s.address, size)) == Write then CommandData(cmd, s) else 0xFFFF;
      r[i] == if i == a then ByteOf(data, false) else if i == a + 1 then ByteOf(data, true) else mem[i]
  {
    WordAddressBounds(s.address, size);
    assert ByteOf(0xFFFF, false) == 0xFF && ByteOf(0xFFFF, true) == 0xFF;
  }

  /** Unlocked WRAL and ERAL rewrite every byte of the EEPROM. */
  lemma AllCommands(cmd: bv8, s: Registers, size: nat, internal: bool, mem: seq<bv8>, i: nat)
    requires EepromSize(size) && size <= |mem| && Runs(cmd) && i < |mem|
    requires Unlocked(internal, Latched(cmd, s.command), WordAddress(s.address, size))
    requires OpOf(Opcode(s.address, size)) in {Wral, Eral}
    ensures var r := BytesAfter(cmd, s, size, internal, mem);
      r[i] == if i >= size then mem[i]
              else if OpOf(Opcode(s.address, size)) == Wral then AllByte(CommandData(cmd, s), i)
              else 0xFF
  {
  }

  /** WSwan_EEPROMLock: bit 0x80 of the internal command register becomes
   *  the lock flag; the other bits are kept. */
  function LockedCommand(command: bv8, locked: bool): (r: bv8)
    ensures r & 0x7F == command & 0x7F
    ensures (r & 0x80 != 0) == locked
  {
    (command & 0x7F) | (if locked then 0x80 else 0x00)
  }

  // ---------------------------------------------------------------------
  // One EEPROM

  /** One EEPROM: its registers and its 2048-byte array, of which the
   *  first `size` bytes are addressed by a command. */
  class Eeprom {
    const internal: bool
    const mem: array<bv8>
    var data: bv16
    var address: bv16
    var command: bv8

    function State(): Registers
      reads this
    {
      Registers(data, address, command)
    }

    constructor (internal: bool)
      ensures this.internal == internal && mem.Length == 0x800 && fresh(mem)
      ensures State() == Registers(0, 0, 0)
    {
      this.internal := internal;
      mem := new bv8[0x800];
      data, address, command := 0, 0, 0;
    }

    /** A write to a data or address port. */
    method WriteRegister(reg: nat, v: bv8)
      requires reg < 4
      modifies this
      ensures State() == RegisterWritten(old(State()), reg, v)
    {
      if reg == 0 {
        data := (data & 0xFF00) | (v as bv16);
      } else if reg == 1 {
        data := (data & 0x00FF) | ((v as bv16) << 8);
      } else if reg == 2 {
        address := (address & 0xFF00) | (v as bv16);
      } else {
        address := (address & 0x00FF) | ((v as bv16) << 8);
      }
    }

    /** WSwan_EEPROMCommand on this EEPROM with `size` addressable bytes. */
    method Command(cmd: bv8, size: nat)
      requires EepromSize(size) && size <= mem.Length
      modifies this, mem
      ensures mem[..] == BytesAfter(cmd, old(State()), size, internal, old(mem[..]))
      ensures State() == RegistersAfter(cmd, old(State()), size, old(mem[..]))
    {
      ghost var m0 := mem[..];
      command := Latched(cmd, command);
      assert mem[..] == m0;
      if Runs(cmd) {
        Run(cmd, size);
      }
    }

    /** The part of WSwan_EEPROMCommand that a command of class 0x10, 0x20
     *  or 0x40 runs, bit 0x80 being latched already. */
    method Run(cmd: bv8, size: nat)
      requires EepromSize(size) && size <= mem.Length && Runs(cmd)
      modifies this, mem
      ensures mem[..] == RanBytes(cmd, old(State()), size, internal, old(mem[..]))
      ensures State() == RanRegisters(cmd, old(State()), size, old(mem[..]))
    {
      ghost var s0, m0 := State(), mem[..];
      var c := command & 0xFC;
      var d: bv16 := 0xFFFF;
      if cmd & 0x20 != 0 {
        d := data;
      }
      var a := WordAddress(address, size);
      var opcode := Opcode(address, size);
      WordAddressBounds(address, size);
      UnlockedIgnoresStatus(internal, command, a);
      var unlocked := Unlocked(internal, c, a);
      RanUnfold(cmd, s0, size, internal, m0, a, OpOf(opcode));
      c, d := Execute(opcode, a, d, unlocked, size, c);
      StatusAfterIs(cmd, OpOf(opcode), s0.command, c);
      RunsHasClass(cmd);
      StatusOrder(c);
      if cmd & 0x70 != 0 {
        c := c | 0x02;
      }
      if cmd & 0x10 != 0 {
        c := c | 0x01;
        data := d;
      }
      command := c;
    }

    /** The opcode dispatch of WSwan_EEPROMCommand, given command register
     *  `c` and value `d`; returns the command register and value after it. */
    method Execute(opcode: bv8, a: nat, d: bv16, unlocked: bool, size: nat, c: bv8) returns (c': bv8, d': bv16)
      requires a + 1 < size <= mem.Length
      modifies mem
      ensures mem[..] == Effect(OpOf(opcode), a, d, unlocked, size, old(mem[..]))
      ensures c' == LockAfter(OpOf(opcode), c)
      ensures d' == DataAfter(OpOf(opcode), a, d, old(mem[..]))
    {
      ExtendedBits(opcode);
      c', d' := c, d;
      if opcode & 0x1C == 0x10 {
        if opcode & 0x03 == 0 {
          c' := c | 0x08;
        } else if opcode & 0x03 == 1 {
          if unlocked {
            WriteAll(d, size);
          }
        } else if opcode & 0x03 == 2 {
          if unlocked {
            EraseAll(size);
          }
        } else {
          c' := c & 0xF7;
        }
      } else if opcode & 0x1C == 0x18 {
        d' := (mem[a] as bv16) | ((mem[a + 1] as bv16) << 8);
      } else if opcode & 0x1C == 0x14 {
        if unlocked {
          WriteWord(a, ByteOf(d, false), ByteOf(d, true));
        }
      } else if opcode & 0x1C == 0x1C {
        if unlocked {
          WriteWord(a, 0xFF, 0xFF);
        }
      }
    }

    /** The two byte stores of WRITE and ERASE. */
    method WriteWord(a: nat, low: bv8, high: bv8)
      requires a + 1 < mem.Length
      modifies mem
      ensures mem[..] == old(mem[..])[a := low][a + 1 := high]
    {
      mem[a] := low;
      mem[a + 1] := high;
    }

    /** WRAL's loop: the data's low byte to even and its high byte to odd
     *  addresses below `size`. */
    method WriteAll(d: bv16, size: nat)
      requires size <= mem.Length
      modifies mem
      ensures mem[..] == WrittenAll(old(mem[..]), size, d)
    {
      for i := 0 to size
        invariant forall j :: 0 <= j < mem.Length ==> mem[j] == if j < i then AllByte(d, j) else old(mem[j])
      {
        mem[i] := ((d >> ((i % 2) * 8) as bv16) & 0xFF) as bv8;
        assert mem[i] == AllByte(d, i);
      }
    }

    /** ERAL's memset: 0xFF to every byte below `size`. */
    method EraseAll(size: nat)
      requires size <= mem.Length
      modifies mem
      ensures mem[..] == ErasedAll(old(mem[..]), size)
    {
      forall i | 0 <= i < size {
        mem[i] := 0xFF;
      }
    }
  }

  // ---------------------------------------------------------------------
  // Owner data written by WSwan_EEPROMInit

  /** MDFN_azupper: lower-case ASCII letters to upper case, all else kept. */
  function Upper(c: char): char
  {
    if 'a' <= c <= 'z' then (c as int - 32) as char else c
  }

  /** The console's character code for an owner-name character (after
   *  upper-casing): space 0, digits 1-10, letters 0x0B-0x24, `+ - ? .`
   *  0x27-0x2A; any other character is stored as 0. */
  function NameCode(c: char): (z: bv8)
    ensures z <= 0x2A
  {
    var tc := Upper(c);
    if tc == ' ' then 0
    else if tc == '+' then 0x27
    else if tc == '-' then 0x28
    else if tc == '?' then 0x29
    else if tc == '.' then 0x2A
    else if '0' <= tc <= '9' then (tc as int - '0' as int + 0x1) as bv8
    else if 'A' <= tc <= 'Z' then (tc as int - 'A' as int + 0xB) as bv8
    else 0
  }

  /** Byte x of the 16-byte owner-name field: the name's character code,
   *  0 beyond the end of the name. */
  function NameByte(name: string, x: nat): bv8
  {
    if x < |name| then NameCode(name[x]) else 0
  }

  /** The characters the console can show, by code (the inverse table). */
  function NameChar(z: bv8): Option<char>
  {
    if z == 0 then Some(' ')
    else if 1 <= z <= 10 then Some(('0' as int + z as int - 1) as char)
    else if 0x0B <= z <= 0x24 then Some(('A' as int + z as int - 0x0B) as char)
    else if z == 0x27 then Some('+')
    else if z == 0x28 then Some('-')
    else if z == 0x29 then Some('?')
    else if z == 0x2A then Some('.')
    else None
  }

  /** A character the console has a code for, once upper-cased. */
  predicate Showable(c: char)
  {
    var tc := Upper(c);
    tc == ' ' || tc == '+' || tc == '-' || tc == '?' || tc == '.' || '0' <= tc <= '9' || 'A' <= tc <= 'Z'
  }

  /** Every showable character is stored as a code that decodes to its
   *  upper-case form; every other character is stored as 0. */
  lemma NameRoundTrip(c: char)
    ensures Showable(c) ==> NameChar(NameCode(c)) == Some(Upper(c))
    ensures !Showable(c) ==> NameCode(c) == 0
  {
    var tc := Upper(c);
    if '0' <= tc <= '9' {
      DigitRoundTrip(c, tc);
    } else if 'A' <= tc <= 'Z' {
      LetterRoundTrip(c, tc);
    }
  }

  lemma DigitRoundTrip(c: char, tc: char)
    requires tc == Upper(c) && '0' <= tc <= '9'
    ensures NameChar(NameCode(c)) == Some(tc)
  {
    var z := (tc as int - '0' as int + 0x1) as bv8;
    assert NameCode(c) == z;
    assert 1 <= z <= 10;
    assert ('0' as int + z as int - 1) as char == tc;
  }

  lemma LetterRoundTrip(c: char, tc: char)
    requires tc == Upper(c) && 'A' <= tc <= 'Z'
    ensures NameChar(NameCode(c)) == Some(tc)
  {
    var z := (tc as int - 'A' as int + 0xB) as bv8;
    assert NameCode(c) == z;
    assert 0x0B <= z <= 0x24;
    assert ('A' as int + z as int - 0x0B) as char == tc;
  }

  /** Digits, letters and the four symbols land in their listed ranges. */
  lemma NameRanges(c: char)
    ensures '0' <= Upper(c) <= '9' ==> 1 <= NameCode(c) <= 10
    ensures 'A' <= Upper(c) <= 'Z' ==> 0x0B <= NameCode(c) <= 0x24
    ensures Upper(c) in {'+', '-', '?', '.'} ==> 0x27 <= NameCode(c) <= 0x2A
  {
  }

  /** Two decimal digits of n as one BCD byte, tens in the high nibble. */
  function Bcd2(n: nat): nat
  {
    ((n % 100) / 10) * 16 + n % 10
  }

  /** INT16_TO_BCD: the last four decimal digits of a year, two BCD digits
   *  per byte, the hundreds in the high byte (the source's OR of disjoint
   *  bit fields, written as a sum). */
  function YearBcd(y: nat): (r: nat)
    ensures r < 0x10000
  {
    Bcd2(y) + Bcd2(y / 100) * 256
  }

  /** The value of two BCD digits. */
  function BcdByteValue(b: nat): nat
  {
    (b / 16) * 10 + b % 16
  }

  /** The value of four BCD digits. */
  function BcdValue(r: nat): nat
  {
    BcdByteValue(r / 256 % 256) * 100 + BcdByteValue(r % 256)
  }

  lemma Bcd2Digits(n: nat)
    ensures Bcd2(n) < 256
    ensures Bcd2(n) / 16 == (n % 100) / 10 && Bcd2(n) % 16 == n % 10
    ensures BcdByteValue(Bcd2(n)) == n % 100
  {
    ModUnique(Bcd2(n), (n % 100) / 10, n % 10, 16);
    ModUnique(n % 100, (n % 100) / 10, n % 10, 10);
    assert n % 10 == (n % 100) % 10 by {
      ModUnique(n, n / 100 * 10 + (n % 100) / 10, (n % 100) % 10, 10);
    }
  }

  lemma YearBytes(y: nat)
    ensures YearBcd(y) / 256 % 256 == Bcd2(y / 100) && YearBcd(y) % 256 == Bcd2(y)
  {
    Bcd2Digits(y);
    Bcd2Digits(y / 100);
    ModUnique(YearBcd(y), Bcd2(y / 100), Bcd2(y), 256);
  }

  lemma Mod10000(y: nat)
    ensures y % 10000 == ((y / 100) % 100) * 100 + y % 100
  {
    ModUnique(y, y / 100, y % 100, 100);
    ModUnique(y / 100, y / 10000, (y / 100) % 100, 100);
    ModUnique(y, y / 10000, ((y / 100) % 100) * 100 + y % 100, 10000);
  }

  /** The year bytes hold four decimal digits, and they spell the year
   *  modulo 10000. */
  lemma YearBcdRoundTrip(y: nat)
    ensures var r := YearBcd(y);
      (r / 256 % 256) / 16 < 10 && (r / 256 % 256) % 16 < 10 && (r % 256) / 16 < 10 && (r % 256) % 16 < 10
    ensures BcdValue(YearBcd(y)) == y % 10000
  {
    YearBytes(y);
    Bcd2Digits(y);
    Bcd2Digits(y / 100);
    Mod10000(y);
  }

  /** The internal EEPROM as WSwan_EEPROMInit leaves it: program area
   *  0x00-0x5F zero, owner name at 0x60-0x6F, birth year (BCD, high byte
   *  first), month, day, sex and blood type at 0x70-0x75, the three change
   *  counters at 0x7C-0x7E set to 1, 0x7F zero, 0x83 set to 3, and 0xFF
   *  everywhere else.  Month and day go through the mBCD macro, given as
   *  `bcd`. */
  function InitialByte(name: string, year: nat, month: bv8, day: bv8, sex: bv8, blood: bv8, bcd: bv8 -> bv8, i: nat): bv8
  {
    if i < 0x60 then 0
    else if i < 0x70 then NameByte(name, i - 0x60)
    else if i == 0x70 then (YearBcd(year) / 256 % 256) as bv8
    else if i == 0x71 then (YearBcd(year) % 256) as bv8
    else if i == 0x72 then bcd(month)
    else if i == 0x73 then bcd(day)
    else if i == 0x74 then sex
    else if i == 0x75 then blood
    else if 0x7C <= i <= 0x7E then 1
    else if i == 0x7F then 0
    else if i == 0x83 then 3
    else 0xFF
  }

  /** The internal EEPROM's size for the console model: 128 bytes on a
   *  WonderSwan, 2048 on a WonderSwan Color (wsGetEepromMask() + 1). */
  function InternalSize(color: bool): (size: nat)
    ensures EepromSize(size)
  {
    if color then 0x800 else 0x80
  }

  /** The effect of a port write on one EEPROM: a register byte, a command,
   *  or nothing when the port belongs to the other EEPROM or to neither. */
  function BlockWrite(p: Option<Port>, internal: bool, v: bv8, s: Registers, size: nat, mem: seq<bv8>): (Registers, seq<bv8>)
    requires EepromSize(size) && size <= |mem|
  {
    if p.None? || p.value.internal != internal then (s, mem)
    else if p.value.reg < 4 then (RegisterWritten(s, p.value.reg, v), mem)
    else (RegistersAfter(v, s, size, mem), BytesAfter(v, s, size, internal, mem))
  }

  /** A port write changes at most the EEPROM the port belongs to. */
  lemma PortWriteSelects(a: bv32, v: bv8, s: Registers, size: nat, mem: seq<bv8>)
    requires EepromSize(size) && size <= |mem|
    ensures !(0xBA <= a <= 0xBE) ==> BlockWrite(PortOf(a), true, v, s, size, mem) == (s, mem)
    ensures !(0xC4 <= a <= 0xC8) ==> BlockWrite(PortOf(a), false, v, s, size, mem) == (s, mem)
  {
  }

  /** The internal EEPROM after the program area and the owner name are
   *  written and before the fixed owner record (0x70-0x83) is. */
  function NamedByte(name: string, i: nat): bv8
  {
    if i < 0x60 then 0 else if i < 0x70 then NameByte(name, i - 0x60) else 0xFF
  }

  /** Byte i once the birth date, sex and blood type are stored over `prior`. */
  function BirthByte(yearHi: bv8, yearLo: bv8, month: bv8, day: bv8, sex: bv8, blood: bv8, prior: bv8, i: nat): bv8
  {
    if i == 0x70 then yearHi
    else if i == 0x71 then yearLo
    else if i == 0x72 then month
    else if i == 0x73 then day
    else if i == 0x74 then sex
    else if i == 0x75 then blood
    else prior
  }

  /** Byte i once the change counters, 0x7F and 0x83 are stored over `prior`. */
  function CounterByte(prior: bv8, i: nat): bv8
  {
    if 0x7C <= i <= 0x7E then 1
    else if i == 0x7F then 0
    else if i == 0x83 then 3
    else prior
  }

  lemma InitialByteIs(name: string, year: nat, month: bv8, day: bv8, sex: bv8, blood: bv8, bcd: bv8 -> bv8, i: nat)
    ensures InitialByte(name, year, month, day, sex, blood, bcd, i)
         == CounterByte(BirthByte((YearBcd(year) / 256 % 256) as bv8, (YearBcd(year) % 256) as bv8, bcd(month), bcd(day), sex, blood, NamedByte(name, i), i), i)
  {
  }

  /** The internal and the cartridge EEPROM behind their I/O ports. */
  class EepromPorts {
    const inner: Eeprom
    const cart: Eeprom
    /** eeprom_size, the cartridge EEPROM's size. */
    const cartSize: nat

    predicate Valid()
    {
      inner != cart && inner.mem != cart.mem && inner.internal && !cart.internal
      && inner.mem.Length == 0x800 && cart.mem.Length == 0x800 && EepromSize(cartSize)
    }

    constructor (cartSize: nat)
      requires EepromSize(cartSize)
      ensures Valid() && this.cartSize == cartSize
      ensures inner.State() == Registers(0, 0, 0) && cart.State() == Registers(0, 0, 0)
    {
      inner := new Eeprom(true);
      cart := new Eeprom(false);
      this.cartSize := cartSize;
    }

    /** WSwan_EEPROMRead. */
    method Read(a: bv32) returns (v: bv8)
      requires Valid()
      ensures v == PortRead(a, inner.State(), cart.State())
    {
      var p := PortOf(a);
      if p.None? {
        v := 0;
      } else if p.value.internal {
        v := ReadRegister(inner, p.value.reg);
      } else {
        v := ReadRegister(cart, p.value.reg);
      }
    }

    static method ReadRegister(e: Eeprom, reg: nat) returns (v: bv8)
      requires reg < 5
      ensures v == RegisterRead(e.State(), reg)
    {
      if reg == 0 {
        v := (e.data & 0xFF) as bv8;
      } else if reg == 1 {
        v := ((e.data >> 8) & 0xFF) as bv8;
      } else if reg == 2 {
        v := (e.address & 0xFF) as bv8;
      } else if reg == 3 {
        v := ((e.address >> 8) & 0xFF) as bv8;
      } else {
        v := e.command | 0xFC;
      }
    }

    /** WSwan_EEPROMWrite; `color` is the console model (wsIsColor). */
    method Write(a: bv32, v: bv8, color: bool)
      requires Valid()
      modifies inner, inner.mem, cart, cart.mem
      ensures (inner.State(), inner.mem[..])
           == BlockWrite(PortOf(a), true, v, old(inner.State()), InternalSize(color), old(inner.mem[..]))
      ensures (cart.State(), cart.mem[..])
           == BlockWrite(PortOf(a), false, v, old(cart.State()), cartSize, old(cart.mem[..]))
    {
      var p := PortOf(a);
      if p.Some? {
        if p.value.internal {
          Dispatch(inner, cart, p.value.reg, v, InternalSize(color));
        } else {
          Dispatch(cart, inner, p.value.reg, v, cartSize);
        }
      }
    }

    /** A write to register `reg` of EEPROM `e`; `other` is untouched. */
    static method Dispatch(e: Eeprom, other: Eeprom, reg: nat, v: bv8, size: nat)
      requires reg < 5 && EepromSize(size) && size <= e.mem.Length
      requires e != other && e.mem != other.mem
      modifies e, e.mem
      ensures (e.State(), e.mem[..])
           == if reg < 4 then (RegisterWritten(old(e.State()), reg, v), old(e.mem[..]))
              else (RegistersAfter(v, old(e.State()), size, old(e.mem[..])), BytesAfter(v, old(e.State()), size, e.internal, old(e.mem[..])))
      ensures other.State() == old(other.State()) && other.mem[..] == old(other.mem[..])
    {
      if reg < 4 {
        e.WriteRegister(reg, v);
      } else {
        e.Command(v, size);
      }
    }

    /** WSwan_EEPROMLock: only bit 0x80 of the internal command register. */
    method Lock(locked: bool)
      requires Valid()
      modifies inner`command
      ensures inner.command == LockedCommand(old(inner.command), locked)
    {
      inner.command := (inner.command & 0x7F) | (if locked then 0x80 else 0x00);
    }

    /** WSwan_EEPROMReset: every register of both EEPROMs to 0. */
    method Reset()
      requires Valid()
      modifies inner, cart
      ensures inner.State() == Registers(0, 0, 0) && cart.State() == Registers(0, 0, 0)
    {
      inner.command, cart.command := 0, 0;
      inner.address, cart.address := 0, 0;
      inner.data, cart.data := 0, 0;
    }

    /** The birth date, sex and blood type of the owner record. */
    static method WriteBirth(mem: array<bv8>, yearHi: bv8, yearLo: bv8, month: bv8, day: bv8, sex: bv8, blood: bv8)
      requires mem.Length == 0x800
      modifies mem
      ensures forall i :: 0 <= i < 0x800 ==> mem[i] == BirthByte(yearHi, yearLo, month, day, sex, blood, old(mem[i]), i)
    {
      mem[0x70] := yearHi;
      mem[0x71] := yearLo;
      mem[0x72] := month;
      mem[0x73] := day;
      mem[0x74] := sex;
      mem[0x75] := blood;
    }

    /** The three change counters, byte 0x7F and byte 0x83. */
    static method WriteCounters(mem: array<bv8>)
      requires mem.Length == 0x800
      modifies mem
      ensures forall i :: 0 <= i < 0x800 ==> mem[i] == CounterByte(old(mem[i]), i)
    {
      mem[0x7C] := 0x01;
      mem[0x7D] := 0x01;
      mem[0x7E] := 0x01;
      mem[0x7F] := 0x00;
      mem[0x83] := 0x03;
    }

    /** WSwan_EEPROMInit: the cartridge EEPROM cleared, the internal one
     *  filled with the owner data.  `name` is the C string (no NUL). */
    method Init(name: string, year: nat, month: bv8, day: bv8, sex: bv8, blood: bv8, bcd: bv8 -> bv8)
      requires Valid() && year < 0x10000
      modifies inner.mem, cart.mem
      ensures forall i :: 0 <= i < 0x800 ==> cart.mem[i] == 0
      ensures forall i :: 0 <= i < 0x800 ==> inner.mem[i] == InitialByte(name, year, month, day, sex, blood, bcd, i)
    {
      forall i | 0 <= i < 0x800 {
        cart.mem[i] := 0;
      }
      forall i | 0 <= i < 0x800 {
        inner.mem[i] := 0xFF;
      }
      forall i | 0 <= i < 0x60 {
        inner.mem[i] := 0;
      }
      for x := 0 to 16
        invariant forall i :: 0 <= i < 0x800 ==> cart.mem[i] == 0
        invariant forall i :: 0 <= i < 0x800 ==>
          inner.mem[i] == if i < 0x60 + x then NamedByte(name, i) else 0xFF
      {
        var zechar: bv8 := 0;
        if x < |name| {
          zechar := NameCode(name[x]);
        }
        inner.mem[0x60 + x] := zechar;
      }
      var bcdYear := YearBcd(year);
      WriteBirth(inner.mem, (bcdYear / 256 % 256) as bv8, (bcdYear % 256) as bv8, bcd(month), bcd(day), sex, blood);
      WriteCounters(inner.mem);
      forall i | 0 <= i < 0x800
        ensures inner.mem[i] == InitialByte(name, year, month, day, sex, blood, bcd, i)
      {
        InitialByteIs(name, year, month, day, sex, blood, bcd, i);
      }
    }
  }
}
