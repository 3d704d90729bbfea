/** The HuC6280 disassembler of the PC Engine debugger: the instruction at a 16-bit address
 *  becomes one listing line, and the address moves past the bytes the instruction occupies.
 *  Memory reads and the X and Y registers come from the caller, as the `Read`, `GetX` and
 *  `GetY` hooks of the disassembler class do. */
module Dis6280 {
  import opened Common

  type Byte = x: int | 0 <= x < 0x100
  type Word = x: int | 0 <= x < 0x10000

  /** The hooks the disassembler reads through: memory, and the X and Y index registers. */
  datatype Cpu = Cpu(read: Word -> Byte, x: Byte, y: Byte)

  /** C's conversion of an int to `uint16`. */
  function Wrap16(v: int): Word
  {
    if 0 <= v < 0x10000 then v else v % 0x10000
  }

  /** A memory read at an address that C narrows to `uint16` first. */
  function Peek(cpu: Cpu, a: int): Byte
  {
    cpu.read(Wrap16(a))
  }

  // ---------------------------------------------------------------- tables

  /** Addressing modes, in the order of the mode enumeration. */
  datatype Mode =
    IllegalMode | Nul | Acc | Mpr | Val | Rel | Zpg | Zpx |
    Zpy | Zpr | Izp | Izx | Izy | Abs | Abx | Aby |
    Jab | Iab | Iax | Vzp | Vzx | Vab | Vax | Blk

  /** How many operand bytes follow the opcode in each mode. */
  function ModeBytes(m: Mode): nat
  {
    match m
    case IllegalMode => 0
    case Nul => 0
    case Acc => 0
    case Mpr => 1
    case Val => 1
    case Rel => 1
    case Zpg => 1
    case Zpx => 1
    case Zpy => 1
    case Zpr => 2
    case Izp => 1
    case Izx => 1
    case Izy => 1
    case Abs => 2
    case Abx => 2
    case Aby => 2
    case Jab => 2
    case Iab => 2
    case Iax => 2
    case Vzp => 2
    case Vzx => 2
    case Vab => 3
    case Vax => 3
    case Blk => 6
  }

  /** Instructions, in the order of the instruction enumeration. */
  datatype Inst =
    IllegalInst | ADC | AND | ASL | BBR | BBS | BCC | BCS | BEQ | BIT |
    BMI | BNE | BPL | BRA | BRK | BSR | BVC | BVS | CLA | CLC |
    CLD | CLI | CLV | CLX | CLY | CMP | CPX | CPY | CSH | CSL |
    DEC | DEX | DEY | EOR | INC | INX | INY | JMP | JSR | LDA |
    LDX | LDY | LSR | NOP | ORA | PHA | PHP | PHX | PHY | PLA |
    PLP | PLX | PLY | RMB | ROL | ROR | RTI | RTS | SAX | SAY |
    SBC | SEC | SED | SEI | SET | SMB | ST0 | ST1 | ST2 | STA |
    STX | STY | STZ | SXY | TAI | TAM | TAX | TAY | TDD | TIA |
    TII | TIN | TMA | TRB | TSB | TST | TSX | TXA | TXS | TYA

  /** A mnemonic is three characters and a flag byte: bit 0 asks for the value at the effective
   *  address, bit 1 marks a store and bit 2 a bit or page index printed after the name. */
  datatype Mnemonic = Mnemonic(text: string, flags: nat)

  function NameOf(i: Inst): Mnemonic
  {
    match i
    case IllegalInst => Mnemonic("---", 0)
    case ADC => Mnemonic("ADC", 1)
    case AND => Mnemonic("AND", 1)
    case ASL => Mnemonic("ASL", 3)
    case BBR => Mnemonic("BBR", 5)
    case BBS => Mnemonic("BBS", 5)
    case BCC => Mnemonic("BCC", 0)
    case BCS => Mnemonic("BCS", 0)
    case BEQ => Mnemonic("BEQ", 0)
    case BIT => Mnemonic("BIT", 1)
    case BMI => Mnemonic("BMI", 0)
    case BNE => Mnemonic("BNE", 0)
    case BPL => Mnemonic("BPL", 0)
    case BRA => Mnemonic("BRA", 0)
    case BRK => Mnemonic("BRK", 0)
    case BSR => Mnemonic("BSR", 0)
    case BVC => Mnemonic("BVC", 0)
    case BVS => Mnemonic("BVS", 0)
    case CLA => Mnemonic("CLA", 0)
    case CLC => Mnemonic("CLC", 0)
    case CLD => Mnemonic("CLD", 0)
    case CLI => Mnemonic("CLI", 0)
    case CLV => Mnemonic("CLV", 0)
    case CLX => Mnemonic("CLX", 0)
    case CLY => Mnemonic("CLY", 0)
    case CMP => Mnemonic("CMP", 1)
    case CPX => Mnemonic("CPX", 1)
    case CPY => Mnemonic("CPY", 1)
    case CSH => Mnemonic("CSH", 0)
    case CSL => Mnemonic("CSL", 0)
    case DEC => Mnemonic("DEC", 3)
    case DEX => Mnemonic("DEX", 0)
    case DEY => Mnemonic("DEY", 0)
    case EOR => Mnemonic("EOR", 1)
    case INC => Mnemonic("INC", 3)
    case INX => Mnemonic("INX", 0)
    case INY => Mnemonic("INY", 0)
    case JMP => Mnemonic("JMP", 0)
    case JSR => Mnemonic("JSR", 0)
    case LDA => Mnemonic("LDA", 1)
    case LDX => Mnemonic("LDX", 1)
    case LDY => Mnemonic("LDY", 1)
    case LSR => Mnemonic("LSR", 3)
    case NOP => Mnemonic("NOP", 0)
    case ORA => Mnemonic("ORA", 1)
    case PHA => Mnemonic("PHA", 2)
    case PHP => Mnemonic("PHP", 2)
    case PHX => Mnemonic("PHX", 2)
    case PHY => Mnemonic("PHY", 2)
    case PLA => Mnemonic("PLA", 1)
    case PLP => Mnemonic("PLP", 1)
    case PLX => Mnemonic("PLX", 1)
    case PLY => Mnemonic("PLY", 1)
    case RMB => Mnemonic("RMB", 7)
    case ROL => Mnemonic("ROL", 3)
    case ROR => Mnemonic("ROR", 3)
    case RTI => Mnemonic("RTI", 0)
    case RTS => Mnemonic("RTS", 0)
    case SAX => Mnemonic("SAX", 0)
    case SAY => Mnemonic("SAY", 0)
    case SBC => Mnemonic("SBC", 1)
    case SEC => Mnemonic("SEC", 0)
    case SED => Mnemonic("SED", 0)
    case SEI => Mnemonic("SEI", 0)
    case SET => Mnemonic("SET", 0)
    case SMB => Mnemonic("SMB", 7)
    case ST0 => Mnemonic("ST0", 0)
    case ST1 => Mnemonic("ST1", 0)
    case ST2 => Mnemonic("ST2", 0)
    case STA => Mnemonic("STA", 2)
    case STX => Mnemonic("STX", 2)
    case STY => Mnemonic("STY", 2)
    case STZ => Mnemonic("STZ", 2)
    case SXY => Mnemonic("SXY", 0)
    case TAI => Mnemonic("TAI", 3)
    case TAM => Mnemonic("TAM", 4)
    case TAX => Mnemonic("TAX", 0)
    case TAY => Mnemonic("TAY", 0)
    case TDD => Mnemonic("TDD", 3)
    case TIA => Mnemonic("TIA", 3)
    case TII => Mnemonic("TII", 3)
    case TIN => Mnemonic("TIN", 3)
    case TMA => Mnemonic("TMA", 4)
    case TRB => Mnemonic("TRB", 3)
    case TSB => Mnemonic("TSB", 3)
    case TST => Mnemonic("TST", 1)
    case TSX => Mnemonic("TSX", 0)
    case TXA => Mnemonic("TXA", 0)
    case TXS => Mnemonic("TXS", 0)
    case TYA => Mnemonic("TYA", 0)
  }

  /** The instruction each opcode byte decodes to. */
  function InstByOpcode(op: Byte): Inst
  {
    match op
    case 0x00 => BRK case 0x01 => ORA case 0x02 => SXY case 0x03 => ST0 case 0x04 => TSB case 0x05 => ORA case 0x06 => ASL case 0x07 => RMB
    case 0x08 => PHP case 0x09 => ORA case 0x0A => ASL case 0x0B => IllegalInst case 0x0C => TSB case 0x0D => ORA case 0x0E => ASL case 0x0F => BBR
    case 0x10 => BPL case 0x11 => ORA case 0x12 => ORA case 0x13 => ST1 case 0x14 => TRB case 0x15 => ORA case 0x16 => ASL case 0x17 => RMB
    case 0x18 => CLC case 0x19 => ORA case 0x1A => INC case 0x1B => IllegalInst case 0x1C => TRB case 0x1D => ORA case 0x1E => ASL case 0x1F => BBR
    case 0x20 => JSR case 0x21 => AND case 0x22 => SAX case 0x23 => ST2 case 0x24 => BIT case 0x25 => AND case 0x26 => ROL case 0x27 => RMB
    case 0x28 => PLP case 0x29 => AND case 0x2A => ROL case 0x2B => IllegalInst case 0x2C => BIT case 0x2D => AND case 0x2E => ROL case 0x2F => BBR
    case 0x30 => BMI case 0x31 => AND case 0x32 => AND case 0x33 => IllegalInst case 0x34 => BIT case 0x35 => AND case 0x36 => ROL case 0x37 => RMB
    case 0x38 => SEC case 0x39 => AND case 0x3A => DEC case 0x3B => IllegalInst case 0x3C => BIT case 0x3D => AND case 0x3E => ROL case 0x3F => BBR
    case 0x40 => RTI case 0x41 => EOR case 0x42 => SAY case 0x43 => TMA case 0x44 => BSR case 0x45 => EOR case 0x46 => LSR case 0x47 => RMB
    case 0x48 => PHA case 0x49 => EOR case 0x4A => LSR case 0x4B => IllegalInst case 0x4C => JMP case 0x4D => EOR case 0x4E => LSR case 0x4F => BBR
    case 0x50 => BVC case 0x51 => EOR case 0x52 => EOR case 0x53 => TAM case 0x54 => CSL case 0x55 => EOR case 0x56 => LSR case 0x57 => RMB
    case 0x58 => CLI case 0x59 => EOR case 0x5A => PHY case 0x5B => IllegalInst case 0x5C => IllegalInst case 0x5D => EOR case 0x5E => LSR case 0x5F => BBR
    case 0x60 => RTS case 0x61 => ADC case 0x62 => CLA case 0x63 => IllegalInst case 0x64 => STZ case 0x65 => ADC case 0x66 => ROR case 0x67 => RMB
    case 0x68 => PLA case 0x69 => ADC case 0x6A => ROR case 0x6B => IllegalInst case 0x6C => JMP case 0x6D => ADC case 0x6E => ROR case 0x6F => BBR
    case 0x70 => BVS case 0x71 => ADC case 0x72 => ADC case 0x73 => TII case 0x74 => STZ case 0x75 => ADC case 0x76 => ROR case 0x77 => RMB
    case 0x78 => SEI case 0x79 => ADC case 0x7A => PLY case 0x7B => IllegalInst case 0x7C => JMP case 0x7D => ADC case 0x7E => ROR case 0x7F => BBR
    case 0x80 => BRA case 0x81 => STA case 0x82 => CLX case 0x83 => TST case 0x84 => STY case 0x85 => STA case 0x86 => STX case 0x87 => SMB
    case 0x88 => DEY case 0x89 => BIT case 0x8A => TXA case 0x8B => IllegalInst case 0x8C => STY case 0x8D => STA case 0x8E => STX case 0x8F => BBS
    case 0x90 => BCC case 0x91 => STA case 0x92 => STA case 0x93 => TST case 0x94 => STY case 0x95 => STA case 0x96 => STX case 0x97 => SMB
    case 0x98 => TYA case 0x99 => STA case 0x9A => TXS case 0x9B => IllegalInst case 0x9C => STZ case 0x9D => STA case 0x9E => STZ case 0x9F => BBS
    case 0xA0 => LDY case 0xA1 => LDA case 0xA2 => LDX case 0xA3 => TST case 0xA4 => LDY case 0xA5 => LDA case 0xA6 => LDX case 0xA7 => SMB
    case 0xA8 => TAY case 0xA9 => LDA case 0xAA => TAX case 0xAB => IllegalInst case 0xAC => LDY case 0xAD => LDA case 0xAE => LDX case 0xAF => BBS
    case 0xB0 => BCS case 0xB1 => LDA case 0xB2 => LDA case 0xB3 => TST case 0xB4 => LDY case 0xB5 => LDA case 0xB6 => LDX case 0xB7 => SMB
    case 0xB8 => CLV case 0xB9 => LDA case 0xBA => TSX case 0xBB => IllegalInst case 0xBC => LDY case 0xBD => LDA case 0xBE => LDX case 0xBF => BBS
    case 0xC0 => CPY case 0xC1 => CMP case 0xC2 => CLY case 0xC3 => TDD case 0xC4 => CPY case 0xC5 => CMP case 0xC6 => DEC case 0xC7 => SMB
    case 0xC8 => INY case 0xC9 => CMP case 0xCA => DEX case 0xCB => IllegalInst case 0xCC => CPY case 0xCD => CMP case 0xCE => DEC case 0xCF => BBS
    case 0xD0 => BNE case 0xD1 => CMP case 0xD2 => CMP case 0xD3 => TIN case 0xD4 => CSH case 0xD5 => CMP case 0xD6 => DEC case 0xD7 => SMB
    case 0xD8 => CLD case 0xD9 => CMP case 0xDA => PHX case 0xDB => IllegalInst case 0xDC => IllegalInst case 0xDD => CMP case 0xDE => DEC case 0xDF => BBS
    case 0xE0 => CPX case 0xE1 => SBC case 0xE2 => IllegalInst case 0xE3 => TIA case 0xE4 => CPX case 0xE5 => SBC case 0xE6 => INC case 0xE7 => SMB
    case 0xE8 => INX case 0xE9 => SBC case 0xEA => NOP case 0xEB => IllegalInst case 0xEC => CPX case 0xED => SBC case 0xEE => INC case 0xEF => BBS
    case 0xF0 => BEQ case 0xF1 => SBC case 0xF2 => SBC case 0xF3 => TAI case 0xF4 => SET case 0xF5 => SBC case 0xF6 => INC case 0xF7 => SMB
    case 0xF8 => SED case 0xF9 => SBC case 0xFA => PLX case 0xFB => IllegalInst case 0xFC => IllegalInst case 0xFD => SBC case 0xFE => INC case _ => BBS
  }

  /** The addressing mode of each opcode byte. */
  function ModeByOpcode(op: Byte): Mode
  {
    match op
    case 0x00 => Nul case 0x01 => Izx case 0x02 => Nul case 0x03 => Val case 0x04 => Zpg case 0x05 => Zpg case 0x06 => Zpg case 0x07 => Zpg
    case 0x08 => Nul case 0x09 => Val case 0x0A => Acc case 0x0B => IllegalMode case 0x0C => Abs case 0x0D => Abs case 0x0E => Abs case 0x0F => Zpr
    case 0x10 => Rel case 0x11 => Izy case 0x12 => Izp case 0x13 => Val case 0x14 => Zpg case 0x15 => Zpx case 0x16 => Zpx case 0x17 => Zpg
    case 0x18 => Nul case 0x19 => Aby case 0x1A => Acc case 0x1B => IllegalMode case 0x1C => Abs case 0x1D => Abx case 0x1E => Abx case 0x1F => Zpr
    case 0x20 => Jab case 0x21 => Izx case 0x22 => Nul case 0x23 => Val case 0x24 => Zpg case 0x25 => Zpg case 0x26 => Zpg case 0x27 => Zpg
    case 0x28 => Nul case 0x29 => Val case 0x2A => Acc case 0x2B => IllegalMode case 0x2C => Abs case 0x2D => Abs case 0x2E => Abs case 0x2F => Zpr
    case 0x30 => Rel case 0x31 => Izy case 0x32 => Izp case 0x33 => IllegalMode case 0x34 => Zpx case 0x35 => Zpx case 0x36 => Zpx case 0x37 => Zpg
    case 0x38 => Nul case 0x39 => Aby case 0x3A => Acc case 0x3B => IllegalMode case 0x3C => Abx case 0x3D => Abx case 0x3E => Abx case 0x3F => Zpr
    case 0x40 => Nul case 0x41 => Izx case 0x42 => Nul case 0x43 => Mpr case 0x44 => Rel case 0x45 => Zpg case 0x46 => Zpg case 0x47 => Zpg
    case 0x48 => Nul case 0x49 => Val case 0x4A => Acc case 0x4B => IllegalMode case 0x4C => Jab case 0x4D => Abs case 0x4E => Abs case 0x4F => Zpr
    case 0x50 => Rel case 0x51 => Izy case 0x52 => Izp case 0x53 => Mpr case 0x54 => Nul case 0x55 => Zpx case 0x56 => Zpx case 0x57 => Zpg
    case 0x58 => Nul case 0x59 => Aby case 0x5A => Nul case 0x5B => IllegalMode case 0x5C => IllegalMode case 0x5D => Abx case 0x5E => Abx case 0x5F => Zpr
    case 0x60 => Nul case 0x61 => Izx case 0x62 => Nul case 0x63 => IllegalMode case 0x64 => Zpg case 0x65 => Zpg case 0x66 => Zpg case 0x67 => Zpg
    case 0x68 => Nul case 0x69 => Val case 0x6A => Acc case 0x6B => IllegalMode case 0x6C => Iab case 0x6D => Abs case 0x6E => Abs case 0x6F => Zpr
    case 0x70 => Rel case 0x71 => Izy case 0x72 => Izp case 0x73 => Blk case 0x74 => Zpx case 0x75 => Zpx case 0x76 => Zpx case 0x77 => Zpg
    case 0x78 => Nul case 0x79 => Aby case 0x7A => Nul case 0x7B => IllegalMode case 0x7C => Iax case 0x7D => Abx case 0x7E => Abx case 0x7F => Zpr
    case 0x80 => Rel case 0x81 => Izx case 0x82 => Nul case 0x83 => Vzp case 0x84 => Zpg case 0x85 => Zpg case 0x86 => Zpg case 0x87 => Zpg
    case 0x88 => Nul case 0x89 => Val case 0x8A => Nul case 0x8B => IllegalMode case 0x8C => Abs case 0x8D => Abs case 0x8E => Abs case 0x8F => Zpr
    case 0x90 => Rel case 0x91 => Izy case 0x92 => Izp case 0x93 => Vab case 0x94 => Zpx case 0x95 => Zpx case 0x96 => Zpy case 0x97 => Zpg
    case 0x98 => Nul case 0x99 => Aby case 0x9A => Nul case 0x9B => IllegalMode case 0x9C => Abs case 0x9D => Abx case 0x9E => Abx case 0x9F => Zpr
    case 0xA0 => Val case 0xA1 => Izx case 0xA2 => Val case 0xA3 => Vzx case 0xA4 => Zpg case 0xA5 => Zpg case 0xA6 => Zpg case 0xA7 => Zpg
    case 0xA8 => Nul case 0xA9 => Val case 0xAA => Nul case 0xAB => IllegalMode case 0xAC => Abs case 0xAD => Abs case 0xAE => Abs case 0xAF => Zpr
    case 0xB0 => Rel case 0xB1 => Izy case 0xB2 => Izp case 0xB3 => Vax case 0xB4 => Zpx case 0xB5 => Zpx case 0xB6 => Zpy case 0xB7 => Zpg
    case 0xB8 => Nul case 0xB9 => Aby case 0xBA => Nul case 0xBB => IllegalMode case 0xBC => Abx case 0xBD => Abx case 0xBE => Aby case 0xBF => Zpr
    case 0xC0 => Val case 0xC1 => Izx case 0xC2 => Nul case 0xC3 => Blk case 0xC4 => Zpg case 0xC5 => Zpg case 0xC6 => Zpg case 0xC7 => Zpg
    case 0xC8 => Nul case 0xC9 => Val case 0xCA => Nul case 0xCB => IllegalMode case 0xCC => Abs case 0xCD => Abs case 0xCE => Abs case 0xCF => Zpr
    case 0xD0 => Rel case 0xD1 => Izy case 0xD2 => Izp case 0xD3 => Blk case 0xD4 => Nul case 0xD5 => Zpx case 0xD6 => Zpx case 0xD7 => Zpg
    case 0xD8 => Nul case 0xD9 => Aby case 0xDA => Nul case 0xDB => IllegalMode case 0xDC => IllegalMode case 0xDD => Abx case 0xDE => Abx case 0xDF => Zpr
    case 0xE0 => Val case 0xE1 => Izx case 0xE2 => IllegalMode case 0xE3 => Blk case 0xE4 => Zpg case 0xE5 => Zpg case 0xE6 => Zpg case 0xE7 => Zpg
    case 0xE8 => Nul case 0xE9 => Val case 0xEA => Nul case 0xEB => IllegalMode case 0xEC => Abs case 0xED => Abs case 0xEE => Abs case 0xEF => Zpr
    case 0xF0 => Rel case 0xF1 => Izy case 0xF2 => Izp case 0xF3 => Blk case 0xF4 => Nul case 0xF5 => Zpx case 0xF6 => Zpx case 0xF7 => Zpg
    case 0xF8 => Nul case 0xF9 => Aby case 0xFA => Nul case 0xFB => IllegalMode case 0xFC => IllegalMode case 0xFD => Abx case 0xFE => Abx case _ => Zpr
  }

  predicate ShowsValue(flags: nat)
  {
    flags % 2 == 1
  }

  predicate HasIndex(flags: nat)
  {
    flags / 4 % 2 == 1
  }

  // ---------------------------------------------------------------- decoding

  /** How many of the `n` operand bytes from address `a` on are fetched: fetching stops at
   *  the caller's special address and at the interrupt vectors from 0xFFF6 on. */
  function Fetched(a: nat, special: nat, n: nat): (k: nat)
    ensures k <= n
    ensures a <= 0xFFF6 ==> a + k <= 0xFFF6
    decreases n
  {
    if n == 0 || a == special || a >= 0xFFF6 then 0 else 1 + Fetched(a + 1, special, n - 1)
  }

  function Min(a: nat, b: nat): nat
  {
    if a <= b then a else b
  }

  /** The fetch count is the distance to the first stop: the end of the operand, the special
   *  address if it lies ahead, or the vector area. */
  lemma {:induction false} FetchedClosedForm(a: nat, special: nat, n: nat)
    ensures Fetched(a, special, n)
      == Min(n, Min(if a <= special then special - a else n, if a >= 0xFFF6 then 0 else 0xFFF6 - a))
    decreases n
  {
    if n > 0 && a != special && a < 0xFFF6 {
      FetchedClosedForm(a + 1, special, n - 1);
    }
  }

  /** `k` bytes of memory from `a` on, each address narrowed to 16 bits. */
  function Bytes(cpu: Cpu, a: int, k: nat): (s: seq<Byte>)
    ensures |s| == k
  {
    if k == 0 then [] else Bytes(cpu, a, k - 1) + [Peek(cpu, a + k - 1)]
  }

  lemma {:induction false} BytesAt(cpu: Cpu, a: int, k: nat, i: nat)
    requires i < k
    ensures Bytes(cpu, a, k)[i] == Peek(cpu, a + i)
  {
    if i < k - 1 {
      BytesAt(cpu, a, k - 1, i);
    }
  }

  lemma {:induction false} BytesCons(cpu: Cpu, a: int, k: nat)
    ensures Bytes(cpu, a, k + 1) == [Peek(cpu, a)] + Bytes(cpu, a + 1, k)
  {
    if k > 0 {
      BytesCons(cpu, a, k - 1);
      assert Peek(cpu, a + k) == Peek(cpu, (a + 1) + k - 1);
    }
  }

  /** One decoded instruction: its opcode byte, what it decodes to, the operand bytes fetched
   *  and the address after it. */
  datatype Decoding = Decoding(opcode: Byte, inst: Inst, mode: Mode, operands: seq<Byte>, next: Word)

  /** What `Disassemble` decodes at `addr`. In the vector area one byte is consumed, and one more
   *  when that lands on an odd address other than `special`. Elsewhere the opcode's operand bytes
   *  follow; an operand cut short by `special` or the vector area makes the instruction illegal. */
  function Decode(cpu: Cpu, addr: Word, special: Word): (d: Decoding)
    ensures |d.operands| >= ModeBytes(d.mode)
  {
    var op := cpu.read(addr);
    if addr >= 0xFFF6 then
      var a := Wrap16(addr as int + 1);
      Decoding(op, IllegalInst, IllegalMode, [], if a != special && a % 2 == 1 then Wrap16(a as int + 1) else a)
    else
      var mode := ModeByOpcode(op);
      var k := Fetched(addr + 1, special, ModeBytes(mode));
      var args := Bytes(cpu, addr + 1, k);
      if k < ModeBytes(mode) then Decoding(op, IllegalInst, IllegalMode, args, addr + 1 + k)
      else Decoding(op, InstByOpcode(op), mode, args, addr + 1 + k)
  }

  /** Below the vectors the address advances by one plus the mode's operand count, unless an
   *  operand position is the special address or reaches 0xFFF6; then the instruction is illegal
   *  and the address stops at that position. */
  lemma DecodeAdvance(cpu: Cpu, addr: Word, special: Word)
    requires addr < 0xFFF6
    ensures var d := Decode(cpu, addr, special);
      var n := ModeBytes(ModeByOpcode(cpu.read(addr)));
      && d.opcode == cpu.read(addr)
      && d.next == addr + 1 + |d.operands|
      && d.operands == Bytes(cpu, addr + 1, |d.operands|)
      && (|d.operands| == n <==> addr + n < 0xFFF6 && !(addr < special <= addr + n))
      && (|d.operands| == n ==> d.inst == InstByOpcode(d.opcode) && d.mode == ModeByOpcode(d.opcode))
      && (|d.operands| < n ==> d.inst == IllegalInst && d.mode == IllegalMode
                               && (d.next == special || d.next == 0xFFF6))
  {
    FetchedClosedForm(addr + 1, special, ModeBytes(ModeByOpcode(cpu.read(addr))));
  }

  /** In the vector area the address moves by one or two bytes, and it comes to rest on the even
   *  start of a vector unless the special address stops it first. */
  lemma VectorAdvance(cpu: Cpu, addr: Word, special: Word)
    requires addr >= 0xFFF6
    ensures var d := Decode(cpu, addr, special);
      && d.inst == IllegalInst && d.mode == IllegalMode && d.operands == []
      && Wrap16(d.next - addr) == (if Wrap16(addr as int + 1) != special && Wrap16(addr as int + 1) % 2 == 1 then 2 else 1)
      && (d.next % 2 == 0 || d.next == special)
  {
  }

  /** Step `Disassemble` takes first: the opcode and operand fetch, advancing the address. */
  method Fetch(cpu: Cpu, addr: Word, special: Word) returns (d: Decoding)
    ensures d == Decode(cpu, addr, special)
  {
    var op := cpu.read(addr);
    if addr >= 0xFFF6 {
      var a := Wrap16(addr as int + 1);
      if a != special && a % 2 == 1 {
        a := Wrap16(a as int + 1);
      }
      return Decoding(op, IllegalInst, IllegalMode, [], a);
    }
    var inst := InstByOpcode(op);
    var mode := ModeByOpcode(op);
    var n := ModeBytes(mode);
    var args, a, complete := FetchOperands(cpu, addr + 1, special, n);
    if !complete {
      inst := IllegalInst;
      mode := IllegalMode;
    }
    d := Decoding(op, inst, mode, args, a);
  }

  /** The operand loop: up to `n` bytes from `start`, given up at the special address or at the
   *  vector area. */
  method FetchOperands(cpu: Cpu, start: Word, special: Word, n: nat) returns (args: seq<Byte>, a: Word, complete: bool)
    requires start <= 0xFFF6
    ensures var k := Fetched(start, special, n);
      args == Bytes(cpu, start, k) && a == start + k && (complete <==> k == n)
  {
    a := start;
    args := [];
    var i := 0;
    complete := true;
    while i != n
      invariant i <= n && a == start + i && args == Bytes(cpu, start, i)
      invariant Fetched(start, special, n) == i + Fetched(a, special, n - i)
      decreases n - i
    {
      if a == special || a >= 0xFFF6 {
        complete := false;
        break;
      }
      args := args + [cpu.read(a)];
      a := a + 1;
      i := i + 1;
    }
  }

  // ---------------------------------------------------------------- operands

  /** The XOR-and-subtract sign extension of a branch displacement byte. */
  function SignExtend(b: Byte): (e: int)
    ensures e == if b < 0x80 then b else b - 0x100
  {
    (if b < 0x80 then b + 0x80 else b - 0x80) - 0x80
  }

  /** A relative branch target: the address after the instruction plus the signed displacement,
   *  as a `uint16`. */
  function BranchTarget(next: Word, b: Byte): Word
  {
    Wrap16(next + SignExtend(b))
  }

  /** The displacement byte is recovered from the target: the branch reaches 128 bytes back and
   *  127 forward, around the 16-bit address space. */
  lemma BranchRoundTrip(next: Word, b: Byte)
    ensures (BranchTarget(next, b) - next) % 0x100 == b
    ensures Wrap16(BranchTarget(next, b) - next) == Wrap16(SignExtend(b))
  {
    var e := SignExtend(b);
    var t := BranchTarget(next, b);
    var q := (next + e) / 0x10000;
    assert next + e == q * 0x10000 + t;
    var k := if b < 0x80 then -q * 0x100 else -q * 0x100 - 1;
    ModUnique(t - next, k, b, 0x100);
  }

  /** A zero-page address: page 0x2000, the offset wrapping within the page. */
  function ZeroPage(zp: Byte, index: Byte): (ea: Word)
    ensures 0x2000 <= ea < 0x2100
  {
    0x2000 + (zp as int + index) % 0x100
  }

  /** A little-endian word from two bytes. */
  function Word16(lo: Byte, hi: Byte): Word
  {
    lo + 0x100 * hi
  }

  lemma WordBytes(lo: Byte, hi: Byte)
    ensures Word16(lo, hi) % 0x100 == lo && Word16(lo, hi) / 0x100 == hi
  {
    ModUnique(Word16(lo, hi), hi, lo, 0x100);
  }

  /** A pointer held in zero page: its high byte comes from the next zero-page byte, wrapping
   *  from 0xFF back to the start of the page. */
  function ZpPointer(cpu: Cpu, zp: Byte): Word
  {
    Word16(Peek(cpu, ZeroPage(zp, 0)), Peek(cpu, ZeroPage(zp, 1)))
  }

  lemma ZpPointerBytes(cpu: Cpu, zp: Byte)
    ensures ZpPointer(cpu, zp) % 0x100 == cpu.read(0x2000 + zp as int)
    ensures ZpPointer(cpu, zp) / 0x100 == cpu.read(0x2000 + (zp as int + 1) % 0x100)
    ensures zp == 0xFF ==> ZpPointer(cpu, zp) / 0x100 == cpu.read(0x2000)
  {
    WordBytes(Peek(cpu, ZeroPage(zp, 0)), Peek(cpu, ZeroPage(zp, 1)));
  }

  /** A pointer anywhere in memory, its high byte from the next address (wrapping at 0xFFFF). */
  function Pointer(cpu: Cpu, w: Word): Word
  {
    Word16(Peek(cpu, w), Peek(cpu, w as int + 1))
  }

  function Hex2(v: nat): string
  {
    Hex(v, 2, true)
  }

  function Hex4(v: nat): string
  {
    Hex(v, 4, true)
  }

  /** The operand as the listing prints it. */
  function OperandText(mode: Mode, args: seq<Byte>, next: Word): string
    requires |args| >= ModeBytes(mode)
  {
    match mode
    case IllegalMode => ""
    case Nul => ""
    case Mpr => ""
    case Acc => "A"
    case Val => "#$" + Hex2(args[0])
    case Rel => "$" + Hex4(BranchTarget(next, args[0]))
    case Zpg => "<$" + Hex2(args[0])
    case Zpx => "<$" + Hex2(args[0]) + ", X"
    case Zpy => "<$" + Hex2(args[0]) + ", Y"
    case Zpr => "<$" + Hex2(args[0]) + ", $" + Hex4(BranchTarget(next, args[1]))
    case Izp => "[$" + Hex2(args[0]) + "]"
    case Izx => "[$" + Hex2(args[0]) + ", X]"
    case Izy => "[$" + Hex2(args[0]) + "], Y"
    case Abs => "$" + Hex4(Word16(args[0], args[1]))
    case Abx => "$" + Hex4(Word16(args[0], args[1])) + ", X"
    case Aby => "$" + Hex4(Word16(args[0], args[1])) + ", Y"
    case Jab => "$" + Hex4(Word16(args[0], args[1]))
    case Iab => "[$" + Hex4(Word16(args[0], args[1])) + "]"
    case Iax => "[$" + Hex4(Word16(args[0], args[1])) + ", X]"
    case Vzp => "#$" + Hex2(args[0]) + ", <$" + Hex2(args[1])
    case Vzx => "#$" + Hex2(args[0]) + ", <$" + Hex2(args[1]) + ", X"
    case Vab => "#$" + Hex2(args[0]) + ", $" + Hex4(Word16(args[1], args[2]))
    case Vax => "#$" + Hex2(args[0]) + ", $" + Hex4(Word16(args[1], args[2])) + ", X"
    case Blk =>
      "$" + Hex4(Word16(args[0], args[1])) + ", $" + Hex4(Word16(args[2], args[3]))
      + ", $" + Hex4(Word16(args[4], args[5]))
  }

  /** The effective address the listing annotates, when the mode forms one. */
  function EffectiveAddress(cpu: Cpu, mode: Mode, args: seq<Byte>, flags: nat): Option<Word>
    requires |args| >= ModeBytes(mode)
  {
    match mode
    case Zpg => if ShowsValue(flags) then Some(ZeroPage(args[0], 0)) else None
    case Zpx => Some(ZeroPage(args[0], cpu.x))
    case Zpy => Some(ZeroPage(args[0], cpu.y))
    case Zpr => Some(ZeroPage(args[0], 0))
    case Izp => Some(ZpPointer(cpu, args[0]))
    case Izx => Some(ZpPointer(cpu, (args[0] as int + cpu.x) % 0x100))
    case Izy => Some(Wrap16(ZpPointer(cpu, args[0]) as int + cpu.y))
    case Abs => if ShowsValue(flags) then Some(Word16(args[0], args[1])) else None
    case Abx => Some(Wrap16(Word16(args[0], args[1]) as int + cpu.x))
    case Aby => Some(Wrap16(Word16(args[0], args[1]) as int + cpu.y))
    case Iab => Some(Pointer(cpu, Word16(args[0], args[1])))
    case Iax => Some(Pointer(cpu, Wrap16(Word16(args[0], args[1]) as int + cpu.x)))
    case Vzp => Some(ZeroPage(args[1], 0))
    case Vzx => Some(ZeroPage(args[1], cpu.x))
    case Vab => Some(Word16(args[1], args[2]))
    case Vax => Some(Wrap16(Word16(args[1], args[2]) as int + cpu.x))
    case _ => None
  }

  /** An effective address is shown for every indexed, indirect and value-prefixed mode, for the
   *  bit-branch mode, and for plain zero-page and absolute operands only of reading instructions. */
  lemma EffectiveAddressShown(cpu: Cpu, mode: Mode, args: seq<Byte>, flags: nat)
    requires |args| >= ModeBytes(mode)
    ensures EffectiveAddress(cpu, mode, args, flags).Some?
      <==> (mode.Zpx? || mode.Zpy? || mode.Zpr? || mode.Izp? || mode.Izx? || mode.Izy?
            || mode.Abx? || mode.Aby? || mode.Iab? || mode.Iax?
            || mode.Vzp? || mode.Vzx? || mode.Vab? || mode.Vax?
            || ((mode.Zpg? || mode.Abs?) && ShowsValue(flags)))
  {
  }

  /** Zero-page modes address page 0x2000 with the index added modulo 256. */
  lemma ZeroPageOperands(cpu: Cpu, mode: Mode, args: seq<Byte>, flags: nat)
    requires |args| >= ModeBytes(mode)
    ensures var ea := EffectiveAddress(cpu, mode, args, flags);
      && (mode.Zpx? ==> ea == Some(0x2000 + (args[0] as int + cpu.x) % 0x100))
      && (mode.Zpy? ==> ea == Some(0x2000 + (args[0] as int + cpu.y) % 0x100))
      && (mode.Vzx? ==> ea == Some(0x2000 + (args[1] as int + cpu.x) % 0x100))
      && ((mode.Zpr? || (mode.Zpg? && ShowsValue(flags))) ==> ea == Some(0x2000 + args[0] as int))
      && (mode.Izp? ==> ea.Some? && ea.value % 0x100 == cpu.read(0x2000 + args[0] as int)
                               && ea.value / 0x100 == cpu.read(0x2000 + (args[0] as int + 1) % 0x100))
  {
    if mode.Izp? {
      ZpPointerBytes(cpu, args[0]);
    }
  }

  // ---------------------------------------------------------------- the name and its index digit

  function Digit(v: nat): char
    requires v < 10
  {
    ('0' as int + v) as char
  }

  /** The number of right shifts that leave a nonzero byte nonzero: its highest set bit. */
  function HighBit(b: nat): (d: nat)
    ensures b < 0x04 ==> d < 2
    ensures b < 0x08 ==> d < 3
    ensures b < 0x10 ==> d < 4
    ensures b < 0x20 ==> d < 5
    ensures b < 0x40 ==> d < 6
    ensures b < 0x80 ==> d < 7
    ensures b < 0x100 ==> d < 8
  {
    if b < 2 then 0 else 1 + HighBit(b / 2)
  }

  lemma {:induction false} HighBitBounds(b: nat)
    requires b >= 1
    ensures Pow2(HighBit(b)) <= b < Pow2(HighBit(b) + 1)
  {
    if b >= 2 {
      HighBitBounds(b / 2);
    }
  }

  /** The character after the three-letter name: a space, or for a mnemonic that carries an index,
   *  the highest page-register bit of TAM/TMA's mask or the bit number in BBR/BBS/RMB/SMB's
   *  opcode. */
  function IndexDigit(d: Decoding): char
  {
    if !HasIndex(NameOf(d.inst).flags) then ' '
    else if d.opcode == 0x43 || d.opcode == 0x53 then Digit(HighBit(if |d.operands| > 0 then d.operands[0] else 0))
    else Digit(d.opcode / 16 % 8)
  }

  /** TMA and TAM name the highest bit of their mask operand (0 for a mask of 0 or 1), and the
   *  mask byte is always there to read. */
  lemma PageRegisterDigit(cpu: Cpu, addr: Word, special: Word)
    requires var d := Decode(cpu, addr, special); d.opcode == 0x43 || d.opcode == 0x53
    requires Decode(cpu, addr, special).inst != IllegalInst
    ensures var d := Decode(cpu, addr, special);
      && (d.inst == if d.opcode == 0x43 then TMA else TAM)
      && |d.operands| == 1
      && IndexDigit(d) == Digit(HighBit(d.operands[0]))
      && (d.operands[0] >= 1 ==> Pow2(HighBit(d.operands[0])) <= d.operands[0] < Pow2(HighBit(d.operands[0]) + 1))
      && (d.operands[0] <= 1 ==> IndexDigit(d) == '0')
  {
    var d := Decode(cpu, addr, special);
    assert addr < 0xFFF6;
    DecodeAdvance(cpu, addr, special);
    if d.opcode == 0x43 {
      OpcodeTma();
    } else {
      OpcodeTam();
    }
    assert |d.operands| == 1;
    if d.operands[0] >= 1 {
      HighBitBounds(d.operands[0]);
    }
  }

  lemma OpcodeTma()
    ensures ModeByOpcode(0x43) == Mpr && InstByOpcode(0x43) == TMA && HasIndex(NameOf(TMA).flags)
  {
  }

  lemma OpcodeTam()
    ensures ModeByOpcode(0x53) == Mpr && InstByOpcode(0x53) == TAM && HasIndex(NameOf(TAM).flags)
  {
  }

  /** Step of `Disassemble` that counts the shifts of the TAM/TMA mask. */
  method CountShifts(b: Byte) returns (d: nat)
    ensures d == HighBit(b)
  {
    var v: nat := b / 2;
    d := 0;
    while v != 0
      invariant HighBit(b) == d + (if v == 0 then 0 else 1 + HighBit(v))
      decreases v
    {
      d := d + 1;
      v := v / 2;
    }
  }

  // ---------------------------------------------------------------- the line

  /** Spaces up to `column`, as the padding loops write them. */
  function Padded(s: string, column: nat): (r: string)
    ensures |r| == if |s| < column then column else |s|
    ensures r[..|s|] == s
    ensures forall i | |s| <= i < |r| :: r[i] == ' '
  {
    if |s| < column then s + seq(column - |s|, _ => ' ') else s
  }

  method PadTo(s: string, column: nat) returns (r: string)
    ensures r == Padded(s, column)
  {
    r := s;
    while |r| < column
      invariant |s| <= |r| <= if |s| < column then column else |s|
      invariant r == s + seq(|r| - |s|, _ => ' ')
      decreases column - |r|
    {
      assert s + seq(|r| + 1 - |s|, _ => ' ') == r + [' '];
      r := r + [' '];
    }
    assert |s| >= column ==> r == s;
  }

  /** " %02X" of each byte in turn. */
  function HexList(bs: seq<Byte>): (s: string)
    ensures |s| == 3 * |bs|
  {
    if bs == [] then [] else HexList(bs[..|bs| - 1]) + " " + Hex2(bs[|bs| - 1])
  }

  /** The trailing listing: the bytes from `start` up to `stop`, counted around 64K. */
  function Listing(cpu: Cpu, start: Word, stop: Word): string
  {
    HexList(Bytes(cpu, start, Wrap16(stop - start)))
  }

  /** C's `++` on a `uint16`. */
  function Next(p: Word): Word
  {
    if p == 0xFFFF then 0 else p + 1
  }

  /** `i` increments from `p`. */
  function Advance(p: Word, i: nat): Word
  {
    if i == 0 then p else Next(Advance(p, i - 1))
  }

  lemma WrapStep(v: int)
    requires 0 <= v < 0x1FFFF
    ensures Next(Wrap16(v)) == Wrap16(v + 1)
  {
    if v >= 0x10000 {
      ModUnique(v, 1, v - 0x10000, 0x10000);
      ModUnique(v + 1, 1, v + 1 - 0x10000, 0x10000);
    }
  }

  lemma {:induction false} AdvanceIsWrap(p: Word, i: nat)
    requires i <= 0x10000
    ensures Advance(p, i) == Wrap16(p as int + i)
  {
    if i > 0 {
      AdvanceIsWrap(p, i - 1);
      WrapStep(p as int + i - 1);
    }
  }

  /** The distance from `start` to `stop` around 64K, as C's `uint16` subtraction gives it. */
  lemma WrapGap(start: Word, stop: Word)
    ensures Wrap16(stop as int - start) == if start <= stop then stop - start else stop - start + 0x10000
  {
    if stop < start {
      ModUnique(stop as int - start, -1, stop as int - start + 0x10000, 0x10000);
    }
  }

  /** Incrementing `start` that many times reaches `stop`, and no fewer increments do. */
  lemma WrapDistance(start: Word, stop: Word)
    ensures Advance(start, Wrap16(stop as int - start)) == stop
  {
    WrapGap(start, stop);
    AdvanceIsWrap(start, Wrap16(stop as int - start));
    if stop < start {
      ModUnique(stop as int + 0x10000, 1, stop, 0x10000);
    }
  }

  lemma WrapBefore(start: Word, stop: Word, i: nat)
    requires i < Wrap16(stop as int - start)
    ensures Advance(start, i) != stop
  {
    WrapGap(start, stop);
    AdvanceIsWrap(start, i);
    if start as int + i >= 0x10000 {
      ModUnique(start as int + i, 1, start as int + i - 0x10000, 0x10000);
    }
  }

  lemma ListingStep(cpu: Cpu, start: Word, i: nat)
    requires i < 0x10000
    ensures HexList(Bytes(cpu, start, i + 1)) == HexList(Bytes(cpu, start, i)) + " " + Hex2(cpu.read(Advance(start, i)))
  {
    var bs := Bytes(cpu, start, i + 1);
    assert bs[..i] == Bytes(cpu, start, i);
    AdvanceIsWrap(start, i);
  }

  /** Last step of `Disassemble`: it lists the bytes while the start address has not yet caught
   *  up with the advanced one. */
  method ListBytes(cpu: Cpu, start: Word, stop: Word) returns (s: string)
    ensures s == Listing(cpu, start, stop)
  {
    var p := start;
    ghost var count := Wrap16(stop as int - start);
    ghost var i := 0;
    WrapDistance(start, stop);
    s := [];
    while p != stop
      invariant i <= count && p == Advance(start, i)
      invariant s == HexList(Bytes(cpu, start, i))
      decreases count - i
    {
      ListingStep(cpu, start, i);
      s := s + " " + Hex2(cpu.read(p));
      p := Next(p);
      i := i + 1;
    }
    if i < count {
      WrapBefore(start, stop, i);
    }
  }

  /** Below the vector area the listing holds exactly the opcode and the operand bytes fetched. */
  lemma ListingOfInstruction(cpu: Cpu, addr: Word, special: Word)
    requires addr < 0xFFF6
    ensures var d := Decode(cpu, addr, special);
      && Wrap16(d.next - addr) == 1 + |d.operands|
      && Bytes(cpu, addr, Wrap16(d.next - addr)) == [cpu.read(addr)] + d.operands
  {
    var d := Decode(cpu, addr, special);
    DecodeAdvance(cpu, addr, special);
    OpcodeAndOperands(cpu, addr, d.operands, d.next);
  }

  lemma OpcodeAndOperands(cpu: Cpu, addr: Word, operands: seq<Byte>, next: Word)
    requires next == addr + 1 + |operands| && operands == Bytes(cpu, addr + 1, |operands|)
    ensures Wrap16(next - addr) == 1 + |operands|
    ensures Bytes(cpu, addr, Wrap16(next - addr)) == [cpu.read(addr)] + operands
  {
    var k := |operands|;
    var n := Wrap16(next - addr);
    assert n == 1 + k;
    BytesCons(cpu, addr, k);
    assert Peek(cpu, addr) == cpu.read(addr);
    assert Bytes(cpu, addr, n) == [cpu.read(addr)] + Bytes(cpu, addr + 1, k);
  }

  /** "$bb:aaaa" and two tabs. */
  function Prefix(bank: Byte, addr: Word): string
  {
    "$" + Hex2(bank) + ":" + Hex4(addr) + "\t\t"
  }

  /** The effective-address annotation at column 34, with the value there for reading mnemonics. */
  function Annotated(cpu: Cpu, s: string, ea: Option<Word>, flags: nat): string
  {
    if ea.None? then s
    else Padded(s, 34) + "; @ $" + Hex4(ea.value) + ValueNote(cpu, ea, flags)
  }

  function ValueNote(cpu: Cpu, ea: Option<Word>, flags: nat): string
  {
    if ea.Some? && ShowsValue(flags) then " = $" + Hex2(cpu.read(ea.value)) else ""
  }

  /** The " = $value" note appears exactly when an effective address was formed and the mnemonic
   *  asks for the value, and then it holds the byte read at that address. */
  lemma ValueNoteShown(cpu: Cpu, ea: Option<Word>, flags: nat)
    ensures ValueNote(cpu, ea, flags) != [] <==> ea.Some? && ShowsValue(flags)
    ensures ValueNote(cpu, ea, flags) != [] ==>
      HexValue(ValueNote(cpu, ea, flags)[4..]) == Some(cpu.read(ea.value))
  {
    if ea.Some? && ShowsValue(flags) {
      var h := Hex2(cpu.read(ea.value));
      assert ValueNote(cpu, ea, flags) == " = $" + h;
      assert (" = $" + h)[4..] == h;
      Hex2RoundTrip(cpu.read(ea.value));
    }
  }

  lemma Hex2RoundTrip(v: Byte)
    ensures HexValue(Hex2(v)) == Some(v)
  {
    HexRoundTrip(v, 2, true);
    assert Pow16(2) == 0x100;
  }

  /** The padding to column 50, the ';' and the byte listing that end every line. */
  function Columns(body: string, listing: string): (r: string)
    ensures |r| == (if |body| < 50 then 50 else |body|) + 1 + |listing|
    ensures r[..|body|] == body
    ensures r[|r| - |listing| - 1] == ';' && r[|r| - |listing|..] == listing
  {
    var p := Padded(body, 50);
    assert (p + ";" + listing)[..|body|] == p[..|body|];
    p + ";" + listing
  }

  /** The text written for the decoded instruction `d` found at `addr`. */
  function LineOf(cpu: Cpu, addr: Word, bank: Byte, d: Decoding): string
    requires |d.operands| >= ModeBytes(d.mode)
  {
    var name := NameOf(d.inst);
    var ea := EffectiveAddress(cpu, d.mode, d.operands, name.flags);
    var body := Prefix(bank, addr) + name.text + [IndexDigit(d), ' '] + OperandText(d.mode, d.operands, d.next);
    Columns(Annotated(cpu, body, ea, name.flags), Listing(cpu, addr, d.next))
  }

  /** The whole text `Disassemble` writes for the instruction at `addr`. */
  function Line(cpu: Cpu, addr: Word, special: Word, bank: Byte): string
  {
    LineOf(cpu, addr, bank, Decode(cpu, addr, special))
  }

  /** One line of disassembly and the address after the instruction. */
  method Disassemble(cpu: Cpu, addr: Word, special: Word, bank: Byte) returns (line: string, next: Word)
    ensures next == Decode(cpu, addr, special).next
    ensures line == Line(cpu, addr, special, bank)
  {
    var d := Fetch(cpu, addr, special);
    var name := NameOf(d.inst);
    var digit := IndexDigitOf(cpu, addr, special, d);
    line := Prefix(bank, addr) + name.text + [digit, ' '];
    line := line + OperandText(d.mode, d.operands, d.next);
    var ea := EffectiveAddress(cpu, d.mode, d.operands, name.flags);
    ghost var body := line;
    if ea.Some? {
      line := PadTo(line, 34);
      line := line + "; @ $" + Hex4(ea.value);
      if ShowsValue(name.flags) {
        line := line + (" = $" + Hex2(cpu.read(ea.value)));
      }
    }
    assert line == Annotated(cpu, body, ea, name.flags);
    line := PadTo(line, 50);
    line := line + ";";
    var listing := ListBytes(cpu, addr, d.next);
    line := line + listing;
    assert line == LineOf(cpu, addr, bank, d);
    next := d.next;
  }

  /** Step of `Disassemble` that writes the character after the name. */
  method IndexDigitOf(cpu: Cpu, addr: Word, special: Word, d: Decoding) returns (c: char)
    requires d == Decode(cpu, addr, special)
    ensures c == IndexDigit(d)
  {
    c := ' ';
    if HasIndex(NameOf(d.inst).flags) {
      if d.opcode == 0x43 || d.opcode == 0x53 {
        PageRegisterDigit(cpu, addr, special);
        var shifts := CountShifts(d.operands[0]);
        c := Digit(shifts);
      } else {
        c := Digit(d.opcode / 16 % 8);
      }
    }
  }
}
