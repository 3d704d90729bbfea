/**
 * The PC Engine joypad port (pce/input.cpp): the multitap's read-index
 * counter, driven by SEL/CLR edges, and the Memory Base 128 (MB128), a
 * serial backup-RAM unit that listens on the same two lines.
 *
 * The input devices themselves (gamepad, mouse, keyboard) are not part of
 * this model: a read of port `which` is given as `devices[which]`, `None`
 * standing for an empty port.  The MB128's byte store (HuC_PeekMB128 and
 * HuC_PokeMB128) is a total function from address to byte.
 */
module PceInput {
  import opened Common

  // ---------------------------------------------------------------------
  // Multitap

  /** The read index after a write that moves SEL and CLR from
   *  (oldSel, oldClr) to (newSel, newClr) (MultiTapWrite). */
  function IndexAfter(oldSel: bool, newSel: bool, oldClr: bool, newClr: bool, index: nat): (r: nat)
    ensures index < 256 ==> r < 256
  {
    if newSel && !oldClr && newClr then 0
    else if !oldClr && !newClr && !oldSel && newSel then (if index < 255 then index + 1 else index)
    else index
  }

  /** SEL high on the write where CLR rises resets the counter; a SEL
   *  rising edge with CLR low throughout advances it, saturating at 255;
   *  every other write leaves it alone. */
  lemma IndexTransitions(oldSel: bool, newSel: bool, oldClr: bool, newClr: bool, index: nat)
    requires index < 256
    ensures newSel && !oldClr && newClr ==> IndexAfter(oldSel, newSel, oldClr, newClr, index) == 0
    ensures !oldClr && !newClr && !oldSel && newSel ==>
      IndexAfter(oldSel, newSel, oldClr, newClr, index) == (if index < 255 then index + 1 else 255)
    ensures !(newSel && !oldClr && newClr) && !(!oldClr && !newClr && !oldSel && newSel) ==>
      IndexAfter(oldSel, newSel, oldClr, newClr, index) == index
  {
  }

  /** What the multitap returns for the selected port (MultiTapRead and
   *  RealPortRead): nothing past port 5, 0xF for an empty port. */
  function TapValue(index: nat, devices: seq<Option<bv8>>): (r: bv8)
    requires |devices| == 5
    ensures index > 4 ==> r == 0
    ensures index <= 4 && devices[index].None? ==> r == 0xF
    ensures index <= 4 && devices[index].Some? ==> r == devices[index].value
  {
    if index > 4 then 0 else PortValue(devices[index])
  }

  /** RealPortRead: a port with no device reads as 0xF, a port with one
   *  reads as that device. */
  function PortValue(device: Option<bv8>): (r: bv8)
    ensures device.None? ==> r == 0xF
    ensures device.Some? ==> r == device.value
  {
    match device
    case None => 0xF
    case Some(v) => v
  }

  /** SEL, CLR and the read index, as a write leaves them. */
  datatype Tap = Tap(sel: bool, clr: bool, index: nat)

  /** The multitap after INPUT_Write(v) (bit 0 is SEL, bit 1 is CLR). */
  function TapWrite(t: Tap, v: bv8): Tap
  {
    var sel, clr := v & 1 != 0, v & 2 != 0;
    Tap(sel, clr, IndexAfter(t.sel, sel, t.clr, clr, t.index))
  }

  /** The multitap after a sequence of writes. */
  function TapWrites(t: Tap, vs: seq<bv8>): Tap
    decreases |vs|
  {
    if |vs| == 0 then t else TapWrites(TapWrite(t, vs[0]), vs[1..])
  }

  /** k pulses of SEL with CLR held low: the writes 0, 1, 0, 1, ... */
  function Pulses(k: nat): (vs: seq<bv8>)
    ensures |vs| == 2 * k
  {
    if k == 0 then [] else [0x00, 0x01] + Pulses(k - 1)
  }

  lemma {:induction false} TapWritesAppend(t: Tap, s: seq<bv8>, u: seq<bv8>)
    ensures TapWrites(t, s + u) == TapWrites(TapWrites(t, s), u)
    decreases |s|
  {
    if |s| > 0 {
      assert (s + u)[0] == s[0] && (s + u)[1..] == s[1..] + u;
      TapWritesAppend(TapWrite(t, s[0]), s[1..], u);
    } else {
      assert s + u == u;
    }
  }

  lemma {:induction false} PulsesCount(t: Tap, k: nat)
    requires t.sel && !t.clr && t.index < 256
    ensures TapWrites(t, Pulses(k)) == Tap(true, false, if t.index + k < 255 then t.index + k else 255)
    decreases k
  {
    if k > 0 {
      var t2 := TapWrites(t, [0x00, 0x01]);
      assert TapWrites(t, [0x00, 0x01]) == TapWrite(TapWrite(t, 0x00), 0x01) by {
        assert [0x00, 0x01][1..] == [0x01];
        assert [0x01][1..] == [];
      }
      assert t2 == Tap(true, false, if t.index < 255 then t.index + 1 else 255);
      TapWritesAppend(t, [0x00, 0x01], Pulses(k - 1));
      PulsesCount(t2, k - 1);
    }
  }

  /** The scan a game performs: SEL high, CLR pulsed high (reset), then k
   *  SEL pulses with CLR low select port k + 1, whatever the counter held
   *  before. */
  lemma TapScan(t: Tap, k: nat)
    ensures TapWrites(t, [0x01, 0x03, 0x01] + Pulses(k)).index == (if k < 255 then k else 255)
  {
    var t3 := TapWrite(TapWrite(TapWrite(t, 0x01), 0x03), 0x01);
    assert TapWrites(t, [0x01, 0x03, 0x01]) == t3 by {
      assert [0x01, 0x03, 0x01][1..] == [0x03, 0x01];
      assert [0x03, 0x01][1..] == [0x01];
      assert [0x01][1..] == [];
    }
    assert t3 == Tap(true, false, 0);
    TapWritesAppend(t, [0x01, 0x03, 0x01], Pulses(k));
    PulsesCount(t3, k);
  }

  /** The byte INPUT_Read delivers before the fixed bits are added: the
   *  MB128's return value while it is available and active, else the
   *  multitap (unless port 1 holds the Tsushin keyboard), else port 1. */
  function InputSource(mbAvailable: bool, mbActive: bool, mbRetVal: bv8, multiTap: bool, port1Keyboard: bool,
                       index: nat, devices: seq<Option<bv8>>): bv8
    requires |devices| == 5
  {
    if mbAvailable && mbActive then mbRetVal
    else if multiTap && !port1Keyboard then TapValue(index, devices)
    else PortValue(devices[0])
  }

  /** INPUT_Read: bit 0x80 set when no CD unit is attached, bits 0x30
   *  always set. */
  function InputValue(source: bv8, isCD: bool): (r: bv8)
    ensures r & 0x30 == 0x30
    ensures !isCD ==> r & 0x80 == 0x80
    ensures isCD ==> r & 0x80 == source & 0x80
    ensures r & 0x4F == source & 0x4F
  {
    (if isCD then source else source | 0x80) | 0x30
  }

  // ---------------------------------------------------------------------
  // Memory Base 128

  /** Ident bit in the MB128's return value. */
  const MB128_IDENT: bv8 := 0x04

  datatype Phase = Idle | A1 | A2 | Req | Addr | LenBits | Read | ReadTrail | Write | WriteTrail

  /** The MB128's registers (the MB128_* statics). */
  datatype Mb = Mb(shiftreg: bv8, active: bool, phase: Phase, bitnum: nat, cmdWrRd: bool,
                   address: nat, lenBits: nat, retVal: bv8)

  /** The registers' static initial values. */
  const MB_INITIAL := Mb(0xFF, false, Idle, 0, false, 0, 0, 0)

  /** An 8-bit counter's increment. */
  function Inc8(n: nat): nat
  {
    (n + 1) % 256
  }

  /** A 32-bit counter's decrement. */
  function Dec32(n: nat): nat
  {
    if n == 0 then TWO32 - 1 else n - 1
  }

  /** `x | (1 << k)` on naturals. */
  function SetBit(x: nat, k: nat): (r: nat)
    ensures (x / Pow2(k)) % 2 == 0 ==> r == x + Pow2(k)
    ensures (x / Pow2(k)) % 2 == 1 ==> r == x
  {
    if (x / Pow2(k)) % 2 == 1 then x else x + Pow2(k)
  }

  /** `1 << k` for a bit of a byte. */
  function Mask(k: nat): (r: bv8)
    requires k < 8
  {
    if k == 0 then 0x01 else if k == 1 then 0x02 else if k == 2 then 0x04 else if k == 3 then 0x08
    else if k == 4 then 0x10 else if k == 5 then 0x20 else if k == 6 then 0x40 else 0x80
  }

  /** `(b & (1 << k)) != 0` with C's int-width shift: no bit past 7. */
  function Bit(b: bv8, k: nat): bool
  {
    k < 8 && b & Mask(k) != 0
  }

  /** b with bit k replaced by v; `(uint8)(1 << k)` is 0 for k >= 8. */
  function WithBit(b: bv8, k: nat, v: bool): bv8
  {
    if k >= 8 then b else (b & !Mask(k)) | (if v then Mask(k) else 0)
  }

  /** A write changes only the addressed bit, and a read then returns it. */
  lemma WithBitOnly(b: bv8, k: nat, v: bool, j: nat)
    requires k < 8 && j < 8
    ensures Bit(WithBit(b, k, v), j) == if j == k then v else Bit(b, j)
  {
  }

  /** The data phases' bit step: one fewer bit to go; after the last bit the
   *  trailer, otherwise the next bit, moving to the next byte after bit 7. */
  function DataStep(m: Mb, trail: Phase): Mb
  {
    var b := Inc8(m.bitnum);
    var len := Dec32(m.lenBits);
    if len == 0 then m.(bitnum := 0, lenBits := len, phase := trail)
    else if b == 8 then m.(bitnum := 0, lenBits := len, address := (m.address + 1) % TWO32)
    else m.(bitnum := b, lenBits := len)
  }

  /** A phase after the length phase's last bit. */
  function DataPhase(read: bool, len: nat): Phase
  {
    if read then (if len == 0 then ReadTrail else Read)
    else (if len == 0 then WriteTrail else Write)
  }

  function AddrStep(m: Mb, sel: bool): Mb
  {
    var address := if sel then SetBit(m.address, m.bitnum + 7) else m.address;
    var b := Inc8(m.bitnum);
    if b == 10 then m.(address := address, retVal := 0, bitnum := 0, lenBits := 0, phase := LenBits)
    else m.(address := address, retVal := 0, bitnum := b)
  }

  function LenStep(m: Mb, sel: bool): Mb
  {
    var len := if sel then SetBit(m.lenBits, m.bitnum) else m.lenBits;
    var b := Inc8(m.bitnum);
    if b == 20 then m.(lenBits := len, retVal := 0, bitnum := 0, phase := DataPhase(m.cmdWrRd, len))
    else m.(lenBits := len, retVal := 0, bitnum := b)
  }

  function TrailStep(m: Mb): Mb
  {
    var b := Inc8(m.bitnum);
    var m1 := m.(bitnum := b, retVal := if b == 2 then 0 else m.retVal);
    if m.phase == WriteTrail then
      (if b == 3 then m1.(bitnum := 0, phase := ReadTrail) else m1)
    else
      (if b == 4 then m1.(bitnum := 0, cmdWrRd := false, address := 0, lenBits := 0, phase := Idle, active := false) else m1)
  }

  /** MB128_Send: one bit of the protocol, `peek` being the byte at the
   *  current address. */
  function Sent(m: Mb, sel: bool, peek: bv8): Mb
  {
    match m.phase
    case Idle => m
    case A1 => m.(phase := A2, retVal := if sel then MB128_IDENT else 0)
    case A2 => m.(phase := Req, retVal := if sel then MB128_IDENT else 0)
    case Req => m.(cmdWrRd := sel, phase := Addr, retVal := 0, bitnum := 0, address := 0)
    case Addr => AddrStep(m, sel)
    case LenBits => LenStep(m, sel)
    case Read => DataStep(m.(retVal := if Bit(peek, m.bitnum) then 1 else 0), ReadTrail)
    case Write => DataStep(m.(retVal := 0), WriteTrail)
    case WriteTrail => TrailStep(m)
    case ReadTrail => TrailStep(m)
  }

  /** While the MB128 is asleep, a CLR rising edge shifts SEL into bit 7. */
  function Shifted(m: Mb, sel: bool): (r: Mb)
    ensures r.shiftreg == (m.shiftreg >> 1) | (if sel then 0x80 else 0)
    ensures r.active <==> m.active || r.shiftreg == 0xA8
    ensures r.shiftreg == 0xA8 ==> r.phase == A1
  {
    var s := (m.shiftreg >> 1) | (if sel then 0x80 else 0);
    if s == 0xA8 then m.(shiftreg := s, phase := A1, active := true) else m.(shiftreg := s)
  }

  /** MB128Write: only a CLR rising edge clocks the MB128. */
  function Clocked(m: Mb, oldClr: bool, newClr: bool, sel: bool, peek: bv8): Mb
  {
    if !oldClr && newClr then (if m.active then Sent(m, sel, peek) else Shifted(m, sel)) else m
  }

  /** `ram` with byte `a` replaced by `v`. */
  function Poke(ram: nat -> bv8, a: nat, v: bv8): nat -> bv8
  {
    (x: nat) => if x == a then v else ram(x)
  }

  lemma PokeAt(ram: nat -> bv8, a: nat, v: bv8, x: nat)
    ensures Poke(ram, a, v)(x) == if x == a then v else ram(x)
  {
  }

  /** The byte store after MB128_Send: in the write phase, bit `bitnum` of
   *  the current byte becomes SEL. */
  function SentRam(m: Mb, sel: bool, ram: nat -> bv8): nat -> bv8
  {
    if m.phase == Write then Poke(ram, m.address, WithBit(ram(m.address), m.bitnum, sel)) else ram
  }

  /** The byte store after MB128Write. */
  function ClockedRam(m: Mb, oldClr: bool, newClr: bool, sel: bool, ram: nat -> bv8): nat -> bv8
  {
    if !oldClr && newClr && m.active then SentRam(m, sel, ram) else ram
  }

  /** A write phase bit changes bit `bitnum` of the current byte and no
   *  other bit of any byte; a read phase bit returns that bit. */
  lemma DataBits(m: Mb, sel: bool, ram: nat -> bv8, x: nat, j: nat)
    requires m.bitnum < 8 && j < 8
    ensures m.phase == Write ==>
      Bit(SentRam(m, sel, ram)(x), j) == if x == m.address && j == m.bitnum then sel else Bit(ram(x), j)
    ensures m.phase == Read ==>
      (SentRam(m, sel, ram) == ram && Sent(m, sel, ram(m.address)).retVal == if Bit(ram(m.address), m.bitnum) then 1 else 0)
  {
    if m.phase == Write {
      PokeAt(ram, m.address, WithBit(ram(m.address), m.bitnum, sel), x);
      WithBitOnly(ram(m.address), m.bitnum, sel, j);
    }
  }

  /** After each data bit one fewer bit is left; the last bit leads to the
   *  trailer, and after bit 7 the next byte follows. */
  lemma DataProgress(m: Mb, sel: bool, peek: bv8)
    requires m.phase == Read || m.phase == Write
    requires 0 < m.lenBits && m.bitnum < 8
    ensures var r := Sent(m, sel, peek);
      r.lenBits == m.lenBits - 1
      && (m.lenBits == 1 ==> r.phase == (if m.phase == Read then ReadTrail else WriteTrail) && r.bitnum == 0)
      && (m.lenBits > 1 && m.bitnum == 7 ==> r.phase == m.phase && r.bitnum == 0 && r.address == (m.address + 1) % TWO32)
      && (m.lenBits > 1 && m.bitnum < 7 ==> r.phase == m.phase && r.bitnum == m.bitnum + 1 && r.address == m.address)
  {
  }

  /** Reachable register values: the MB128 is active exactly outside the
   *  idle phase, and each phase's counters stay in their ranges. */
  predicate Reachable(m: Mb)
  {
    m.bitnum < 256 && m.address < TWO32 && m.lenBits < TWO32
    && (m.active <==> m.phase != Idle) && PhaseBounds(m)
  }

  predicate PhaseBounds(m: Mb)
  {
    match m.phase
    case Addr => m.bitnum < 10 && m.address < Pow2(m.bitnum + 7)
    case LenBits => m.bitnum < 20 && m.lenBits < Pow2(m.bitnum)
    case Read => m.bitnum < 8 && m.lenBits > 0
    case Write => m.bitnum < 8 && m.lenBits > 0
    case WriteTrail => m.bitnum < 3
    case ReadTrail => m.bitnum < 4
    case _ => true
  }

  lemma AddrValid(m: Mb, sel: bool)
    requires Reachable(m) && m.phase == Addr
    ensures Reachable(AddrStep(m, sel))
  {
    var k := m.bitnum + 7;
    SetBitFresh(m.address, k);
    var a := if sel then m.address + Pow2(k) else m.address;
    assert a < Pow2(k + 1);
    Pow2Monotone(k + 1, 32);
    Pow2Is32();
    assert Inc8(m.bitnum) == m.bitnum + 1;
    var r := AddrStep(m, sel);
    assert r.address == a;
  }

  lemma LenValid(m: Mb, sel: bool)
    requires Reachable(m) && m.phase == LenBits
    ensures Reachable(LenStep(m, sel))
  {
    var k := m.bitnum;
    SetBitFresh(m.lenBits, k);
    var len := if sel then m.lenBits + Pow2(k) else m.lenBits;
    assert len < Pow2(k + 1);
    Pow2Monotone(k + 1, 32);
    Pow2Is32();
    assert Inc8(m.bitnum) == m.bitnum + 1;
    var r := LenStep(m, sel);
    assert r.lenBits == len;
  }

  lemma Pow2Is32()
    ensures Pow2(32) == TWO32
  {
    assert Pow2(4) == 16;
    Pow2Add(4, 4);
    Pow2Add(8, 8);
    Pow2Add(16, 16);
  }

  lemma {:induction false} Pow2Add(j: nat, k: nat)
    ensures Pow2(j + k) == Pow2(j) * Pow2(k)
    decreases k
  {
    if k > 0 {
      Pow2Add(j, k - 1);
    }
  }

  /** Setting a bit above every set bit adds its weight. */
  lemma SetBitFresh(x: nat, k: nat)
    requires x < Pow2(k)
    ensures SetBit(x, k) == x + Pow2(k)
  {
    ModUnique(x, 0, x, Pow2(k));
  }

  /** `(x / a) / b` is `x / (a * b)`. */
  lemma DivDiv(x: nat, a: nat, b: nat)
    requires a > 0 && b > 0
    ensures (x / a) / b == x / (a * b)
  {
    var q := (x / a) / b;
    var r := (x / a) % b;
    assert x / a == q * b + r;
    assert x == a * (x / a) + x % a;
    assert x == q * (a * b) + (a * r + x % a);
    assert a * r <= a * (b - 1);
    ModUnique(x, q, a * r + x % a, a * b);
  }

  lemma DivModSplit(x: nat, p: nat)
    requires p > 0
    ensures x == (x / p) * p + x % p
  {
  }

  lemma MulAdd(a: int, b: int, n: int)
    ensures (a + b) * n == a * n + b * n
  {
  }

  /** Adding 2^k moves bit j < k by an even amount, so it keeps bit j. */
  lemma AddKeepsLowerBit(x: nat, k: nat, j: nat)
    requires j < k
    ensures ((x + Pow2(k)) / Pow2(j)) % 2 == (x / Pow2(j)) % 2
  {
    var p := Pow2(j);
    var h := Pow2(k - j - 1);
    Pow2Add(j, k - j);
    assert Pow2(k - j) == 2 * h;
    var m := 2 * h;
    var a, c := x / p, x % p;
    DivModSplit(x, p);
    assert Pow2(k) == m * p;
    MulAdd(a, m, p);
    ModUnique(x + Pow2(k), a + m, c, p);
    ModUnique(a + m, a / 2 + h, a % 2, 2);
  }

  /** With bit k clear, adding 2^k carries nothing past bit k. */
  lemma AddCarriesNothing(x: nat, k: nat)
    requires (x / Pow2(k)) % 2 == 0
    ensures (x + Pow2(k)) / Pow2(k + 1) == x / Pow2(k + 1)
  {
    var p := Pow2(k);
    var t, c := x / p, x % p;
    var u := t / 2;
    assert t == 2 * u;
    assert x == t * p + c;
    assert t * p == u * (2 * p);
    ModUnique(x, u, c, 2 * p);
    ModUnique(x + p, u, p + c, 2 * p);
  }

  /** With bit k clear, adding 2^k keeps every bit j > k. */
  lemma AddKeepsHigherBit(x: nat, k: nat, j: nat)
    requires k < j && (x / Pow2(k)) % 2 == 0
    ensures (x + Pow2(k)) / Pow2(j) == x / Pow2(j)
  {
    AddCarriesNothing(x, k);
    Pow2Add(k + 1, j - k - 1);
    DivDiv(x, Pow2(k + 1), Pow2(j - k - 1));
    DivDiv(x + Pow2(k), Pow2(k + 1), Pow2(j - k - 1));
  }

  /** Bit j of `x | (1 << k)` for a bit j other than k is bit j of x. */
  lemma SetBitKeeps(x: nat, k: nat, j: nat)
    requires j != k
    ensures (SetBit(x, k) / Pow2(j)) % 2 == (x / Pow2(j)) % 2
  {
    if (x / Pow2(k)) % 2 == 0 {
      if j < k {
        AddKeepsLowerBit(x, k, j);
      } else {
        AddKeepsHigherBit(x, k, j);
      }
    }
  }

  /** `x | (1 << k)` has bit k set and every other bit as in x. */
  lemma SetBitBits(x: nat, k: nat)
    ensures (SetBit(x, k) / Pow2(k)) % 2 == 1
    ensures forall j: nat :: j != k ==> (SetBit(x, k) / Pow2(j)) % 2 == (x / Pow2(j)) % 2
  {
    var p := Pow2(k);
    if (x / p) % 2 == 0 {
      assert x + p == (x / p + 1) * p + x % p;
      ModUnique(x + p, x / p + 1, x % p, p);
    }
    forall j: nat | j != k
      ensures (SetBit(x, k) / Pow2(j)) % 2 == (x / Pow2(j)) % 2
    {
      SetBitKeeps(x, k, j);
    }
  }

  lemma DataValid(m: Mb, trail: Phase)
    requires Reachable(m) && (m.phase == Read || m.phase == Write)
    requires trail == (if m.phase == Read then ReadTrail else WriteTrail)
    ensures Reachable(DataStep(m, trail))
  {
    assert Inc8(m.bitnum) == m.bitnum + 1;
  }

  lemma TrailValid(m: Mb)
    requires Reachable(m) && (m.phase == WriteTrail || m.phase == ReadTrail)
    ensures Reachable(TrailStep(m))
  {
    assert Inc8(m.bitnum) == m.bitnum + 1;
  }

  lemma SentValid(m: Mb, sel: bool, peek: bv8)
    requires Reachable(m) && m.active
    ensures Reachable(Sent(m, sel, peek))
  {
    match m.phase
    case Req =>
      assert Pow2(7) > 0;
    case Addr => AddrValid(m, sel);
    case LenBits => LenValid(m, sel);
    case Read => DataValid(m.(retVal := if Bit(peek, m.bitnum) then 1 else 0), ReadTrail);
    case Write => DataValid(m.(retVal := 0), WriteTrail);
    case WriteTrail => TrailValid(m);
    case ReadTrail => TrailValid(m);
    case _ =>
  }

  /** Every MB128Write keeps the registers reachable. */
  lemma ClockedValid(m: Mb, oldClr: bool, newClr: bool, sel: bool, peek: bv8)
    requires Reachable(m)
    ensures Reachable(Clocked(m, oldClr, newClr, sel, peek))
  {
    if !oldClr && newClr && m.active {
      SentValid(m, sel, peek);
    }
  }

  // Several clocks in a row.

  /** The MB128 and its store after CLR pulses carrying the SEL bits `sels`. */
  function Pulsed(m: Mb, ram: nat -> bv8, sels: seq<bool>): (Mb, nat -> bv8)
    decreases |sels|
  {
    if |sels| == 0 then (m, ram)
    else Pulsed(Clocked(m, false, true, sels[0], ram(m.address)), ClockedRam(m, false, true, sels[0], ram), sels[1..])
  }

  lemma {:induction false} PulsedAppend(m: Mb, ram: nat -> bv8, s: seq<bool>, u: seq<bool>)
    ensures Pulsed(m, ram, s + u) == Pulsed(Pulsed(m, ram, s).0, Pulsed(m, ram, s).1, u)
    decreases |s|
  {
    if |s| > 0 {
      assert (s + u)[0] == s[0] && (s + u)[1..] == s[1..] + u;
      PulsedAppend(Clocked(m, false, true, s[0], ram(m.address)), ClockedRam(m, false, true, s[0], ram), s[1..], u);
    } else {
      assert s + u == u;
    }
  }

  lemma PulsedOne(m: Mb, ram: nat -> bv8, sel: bool)
    ensures Pulsed(m, ram, [sel]) == (Clocked(m, false, true, sel, ram(m.address)), ClockedRam(m, false, true, sel, ram))
  {
    assert [sel][1..] == [];
  }

  /** The bits' value, first bit least significant. */
  function BitsValue(bits: seq<bool>): nat
    decreases |bits|
  {
    if |bits| == 0 then 0 else (if bits[0] then 1 else 0) + 2 * BitsValue(bits[1..])
  }

  /** The SEL pattern that wakes the MB128: 0xA8, least significant bit
   *  first. */
  const WAKE: seq<bool> := [false, false, false, true, false, true, false, true]

  /** A pulse while asleep only shifts the register. */
  lemma AsleepPulse(m: Mb, ram: nat -> bv8, sels: seq<bool>)
    requires |sels| > 0 && !m.active
    ensures Pulsed(m, ram, sels) == Pulsed(Shifted(m, sels[0]), ram, sels[1..])
  {
  }

  /** From any sleeping state, the wake-up pattern wakes the MB128 on its
   *  eighth bit and not before. */
  lemma WakeUp(m: Mb, ram: nat -> bv8)
    requires !m.active
    ensures var r := Pulsed(m, ram, WAKE).0;
      r.active && r.phase == A1 && r.shiftreg == 0xA8
  {
    var m1 := Shifted(m, false);
    AsleepPulse(m, ram, WAKE);
    assert m1.shiftreg & 0x80 == 0;
    var m2 := Shifted(m1, false);
    AsleepPulse(m1, ram, WAKE[1..]);
    assert m2.shiftreg & 0xC0 == 0;
    var m3 := Shifted(m2, false);
    AsleepPulse(m2, ram, WAKE[2..]);
    assert m3.shiftreg & 0xE0 == 0;
    var m4 := Shifted(m3, true);
    AsleepPulse(m3, ram, WAKE[3..]);
    assert m4.shiftreg & 0xF0 == 0x80;
    var m5 := Shifted(m4, false);
    AsleepPulse(m4, ram, WAKE[4..]);
    assert m5.shiftreg & 0xF8 == 0x40;
    var m6 := Shifted(m5, true);
    AsleepPulse(m5, ram, WAKE[5..]);
    assert m6.shiftreg & 0xFC == 0xA0;
    var m7 := Shifted(m6, false);
    AsleepPulse(m6, ram, WAKE[6..]);
    assert m7.shiftreg & 0xFE == 0x50;
    var m8 := Shifted(m7, true);
    AsleepPulse(m7, ram, WAKE[7..]);
    assert m8.shiftreg == 0xA8;
    assert WAKE[8..] == [];
  }

  /** The command bit after the wake-up: A1 and A2 answer with the ident
   *  bit when SEL is high, and the request bit selects read (1) or
   *  write (0) and starts the address phase with a cleared address. */
  lemma Handshake(m: Mb, ram: nat -> bv8, a1: bool, a2: bool, req: bool)
    requires m.active && m.phase == A1
    ensures var r1 := Pulsed(m, ram, [a1]).0;
      r1.phase == A2 && r1.retVal == (if a1 then MB128_IDENT else 0)
    ensures var r2 := Pulsed(m, ram, [a1, a2]).0;
      r2.phase == Req && r2.retVal == (if a2 then MB128_IDENT else 0)
    ensures var r3 := Pulsed(m, ram, [a1, a2, req]).0;
      r3.phase == Addr && r3.cmdWrRd == req && r3.bitnum == 0 && r3.address == 0 && r3.retVal == 0
  {
    PulsedOne(m, ram, a1);
    var p1 := Pulsed(m, ram, [a1]);
    PulsedOne(p1.0, p1.1, a2);
    PulsedAppend(m, ram, [a1], [a2]);
    assert [a1] + [a2] == [a1, a2];
    var p2 := Pulsed(m, ram, [a1, a2]);
    PulsedOne(p2.0, p2.1, req);
    PulsedAppend(m, ram, [a1, a2], [req]);
    assert [a1, a2] + [req] == [a1, a2, req];
  }

  /** A pulse while awake is one MB128_Send. */
  lemma ActivePulse(m: Mb, ram: nat -> bv8, sels: seq<bool>)
    requires |sels| > 0 && m.active
    ensures Pulsed(m, ram, sels) == Pulsed(Sent(m, sels[0], ram(m.address)), SentRam(m, sels[0], ram), sels[1..])
  {
  }

  lemma BitWeight(b: bool, v: nat, p: nat)
    ensures ((if b then 1 else 0) + 2 * v) * p == (if b then p else 0) + v * (2 * p)
  {
  }

  /** The address phase before its last bit: each SEL bit lands at address
   *  bit `bitnum + 7`. */
  lemma {:induction false} AddrBits(m: Mb, ram: nat -> bv8, bits: seq<bool>)
    requires m.active && m.phase == Addr && m.bitnum + |bits| < 10 && m.address < Pow2(m.bitnum + 7)
    ensures Pulsed(m, ram, bits).1 == ram
    ensures Pulsed(m, ram, bits).0 == m.(bitnum := m.bitnum + |bits|, address := m.address + BitsValue(bits) * Pow2(m.bitnum + 7),
                                         retVal := if |bits| == 0 then m.retVal else 0)
    decreases |bits|
  {
    if |bits| > 0 {
      ActivePulse(m, ram, bits);
      var k := m.bitnum + 7;
      SetBitFresh(m.address, k);
      assert Inc8(m.bitnum) == m.bitnum + 1;
      var m1 := m.(bitnum := m.bitnum + 1, address := m.address + (if bits[0] then Pow2(k) else 0), retVal := 0);
      assert AddrStep(m, bits[0]) == m1;
      AddrBits(m1, ram, bits[1..]);
      BitWeight(bits[0], BitsValue(bits[1..]), Pow2(k));
    }
  }

  /** The length phase before its last bit: each SEL bit lands at length
   *  bit `bitnum`. */
  lemma {:induction false} LenBitsIn(m: Mb, ram: nat -> bv8, bits: seq<bool>)
    requires m.active && m.phase == LenBits && m.bitnum + |bits| < 20 && m.lenBits < Pow2(m.bitnum)
    ensures Pulsed(m, ram, bits).1 == ram
    ensures Pulsed(m, ram, bits).0 == m.(bitnum := m.bitnum + |bits|, lenBits := m.lenBits + BitsValue(bits) * Pow2(m.bitnum),
                                         retVal := if |bits| == 0 then m.retVal else 0)
    decreases |bits|
  {
    if |bits| > 0 {
      ActivePulse(m, ram, bits);
      var k := m.bitnum;
      SetBitFresh(m.lenBits, k);
      assert Inc8(m.bitnum) == m.bitnum + 1;
      var m1 := m.(bitnum := m.bitnum + 1, lenBits := m.lenBits + (if bits[0] then Pow2(k) else 0), retVal := 0);
      assert LenStep(m, bits[0]) == m1;
      LenBitsIn(m1, ram, bits[1..]);
      BitWeight(bits[0], BitsValue(bits[1..]), Pow2(k));
    }
  }

  lemma {:induction false} BitsValueBound(bits: seq<bool>)
    ensures BitsValue(bits) < Pow2(|bits|)
    decreases |bits|
  {
    if |bits| > 0 {
      BitsValueBound(bits[1..]);
    }
  }

  lemma {:induction false} BitsValueSnoc(bits: seq<bool>, b: bool)
    ensures BitsValue(bits + [b]) == BitsValue(bits) + (if b then 1 else 0) * Pow2(|bits|)
    decreases |bits|
  {
    if |bits| > 0 {
      assert (bits + [b])[1..] == bits[1..] + [b];
      BitsValueSnoc(bits[1..], b);
    }
  }

  /** The address phase: ten SEL bits form address bits 7 to 16, first bit
   *  lowest; then the length phase begins with a cleared length. */
  lemma AddressPhase(m: Mb, ram: nat -> bv8, bits: seq<bool>)
    requires m.active && m.phase == Addr && m.bitnum == 0 && m.address == 0 && |bits| == 10
    ensures var r := Pulsed(m, ram, bits);
      r.1 == ram && r.0.phase == LenBits && r.0.bitnum == 0 && r.0.lenBits == 0
      && r.0.address == BitsValue(bits) * 128 && r.0.cmdWrRd == m.cmdWrRd
  {
    var front := bits[..9];
    assert bits == front + [bits[9]];
    AddrBits(m, ram, front);
    var p := Pulsed(m, ram, front);
    PulsedAppend(m, ram, front, [bits[9]]);
    PulsedOne(p.0, p.1, bits[9]);
    BitsValueBound(front);
    assert Pow2(9) == 512 && Pow2(7) == 128;
    assert Pow2(16) == Pow2(9) * Pow2(7) by {
      Pow2Add(9, 7);
    }
    SetBitFresh(p.0.address, 16);
    BitsValueSnoc(front, bits[9]);
    assert Pow2(9) == 512;
  }

  /** The length phase: twenty SEL bits form the bit count, first bit
   *  lowest; a read or write phase follows, or its trailer straight away
   *  when the count is zero. */
  lemma LengthPhase(m: Mb, ram: nat -> bv8, bits: seq<bool>)
    requires m.active && m.phase == LenBits && m.bitnum == 0 && m.lenBits == 0 && |bits| == 20
    ensures var r := Pulsed(m, ram, bits);
      r.1 == ram && r.0.bitnum == 0 && r.0.lenBits == BitsValue(bits) && r.0.address == m.address
      && r.0.phase == DataPhase(m.cmdWrRd, BitsValue(bits))
  {
    var front := bits[..19];
    assert bits == front + [bits[19]];
    LenBitsIn(m, ram, front);
    var q := m.(bitnum := 19, lenBits := BitsValue(front), retVal := 0);
    assert Pulsed(m, ram, front) == (q, ram);
    PulsedAppend(m, ram, front, [bits[19]]);
    ActivePulse(q, ram, [bits[19]]);
    assert [bits[19]][1..] == [];
    BitsValueBound(front);
    SetBitFresh(q.lenBits, 19);
    BitsValueSnoc(front, bits[19]);
    var len := BitsValue(bits);
    assert LenStep(q, bits[19]) == q.(lenBits := len, retVal := 0, bitnum := 0, phase := DataPhase(m.cmdWrRd, len));
  }

  /** A trailer clock. */
  lemma TrailPulse(m: Mb, ram: nat -> bv8, sels: seq<bool>)
    requires |sels| > 0 && m.active && (m.phase == WriteTrail || m.phase == ReadTrail)
    ensures Pulsed(m, ram, sels) == Pulsed(TrailStep(m), ram, sels[1..])
  {
    ActivePulse(m, ram, sels);
  }

  /** The write trailer lasts three clocks and hands over to the read
   *  trailer. */
  lemma WriteTrailer(m: Mb, ram: nat -> bv8, t: seq<bool>)
    requires m.active && m.phase == WriteTrail && m.bitnum == 0 && |t| == 3
    ensures Pulsed(m, ram, t) == (m.(phase := ReadTrail, bitnum := 0, retVal := 0), ram)
  {
    var m1 := m.(bitnum := 1);
    TrailPulse(m, ram, t);
    var m2 := m.(bitnum := 2, retVal := 0);
    TrailPulse(m1, ram, t[1..]);
    TrailPulse(m2, ram, t[2..]);
    assert t[2..][1..] == [];
  }

  /** The read trailer lasts four clocks and puts the MB128 back to sleep
   *  with address, length and command cleared. */
  lemma ReadTrailer(m: Mb, ram: nat -> bv8, u: seq<bool>)
    requires m.active && m.phase == ReadTrail && m.bitnum == 0 && |u| == 4
    ensures Pulsed(m, ram, u)
         == (m.(phase := Idle, active := false, bitnum := 0, cmdWrRd := false, address := 0, lenBits := 0, retVal := 0), ram)
  {
    var m1 := m.(bitnum := 1);
    TrailPulse(m, ram, u);
    assert TrailStep(m) == m1;
    var m2 := m.(bitnum := 2, retVal := 0);
    TrailPulse(m1, ram, u[1..]);
    assert TrailStep(m1) == m2;
    var m3 := m2.(bitnum := 3);
    TrailPulse(m2, ram, u[2..]);
    assert TrailStep(m2) == m3;
    TrailPulse(m3, ram, u[3..]);
    assert u[3..][1..] == [];
  }

  /** The two trailers together: seven clocks from the end of a write back
   *  to sleep. */
  lemma Trailers(m: Mb, ram: nat -> bv8, t: seq<bool>, u: seq<bool>)
    requires m.active && m.phase == WriteTrail && m.bitnum == 0 && |t| == 3 && |u| == 4
    ensures Pulsed(m, ram, t + u)
         == (m.(phase := Idle, active := false, bitnum := 0, cmdWrRd := false, address := 0, lenBits := 0, retVal := 0), ram)
  {
    WriteTrailer(m, ram, t);
    PulsedAppend(m, ram, t, u);
    ReadTrailer(m.(phase := ReadTrail, bitnum := 0, retVal := 0), ram, u);
  }

  /** The MB128's registers and byte store. */
  class Mb128 {
    var shiftreg: bv8
    var active: bool
    var phase: Phase
    var bitnum: nat
    var cmdWrRd: bool
    var address: nat
    var lenBits: nat
    var retVal: bv8
    /** The store behind HuC_PeekMB128 and HuC_PokeMB128. */
    var ram: nat -> bv8

    function Registers(): Mb
      reads this
    {
      Mb(shiftreg, active, phase, bitnum, cmdWrRd, address, lenBits, retVal)
    }

    constructor (ram: nat -> bv8)
      ensures Registers() == MB_INITIAL && this.ram == ram
    {
      shiftreg, active, phase, bitnum := 0xFF, false, Idle, 0;
      cmdWrRd, address, lenBits, retVal := false, 0, 0, 0;
      this.ram := ram;
    }

    /** MB128_Send. */
    method Send(sel: bool)
      modifies this
      ensures Registers() == Sent(old(Registers()), sel, old(ram(address)))
      ensures ram == SentRam(old(Registers()), sel, old(ram))
    {
      match phase
      case Idle =>
      case A1 =>
        phase := A2;
        retVal := if sel then MB128_IDENT else 0;
      case A2 =>
        phase := Req;
        retVal := if sel then MB128_IDENT else 0;
      case Req =>
        cmdWrRd := sel;
        phase := Addr;
        retVal := 0;
        bitnum := 0;
        address := 0;
      case Addr =>
        if sel {
          address := SetBit(address, bitnum + 7);
        }
        retVal := 0;
        bitnum := Inc8(bitnum);
        if bitnum == 10 {
          bitnum := 0;
          lenBits := 0;
          phase := LenBits;
        }
      case LenBits =>
        if sel {
          lenBits := SetBit(lenBits, bitnum);
        }
        retVal := 0;
        bitnum := Inc8(bitnum);
        if bitnum == 20 {
          bitnum := 0;
          phase := DataPhase(cmdWrRd, lenBits);
        }
      case Read =>
        retVal := if Bit(ram(address), bitnum) then 1 else 0;
        NextDataBit(ReadTrail);
      case Write =>
        var mask := WithBit(ram(address), bitnum, sel);
        ram := Poke(ram, address, mask);
        retVal := 0;
        NextDataBit(WriteTrail);
      case WriteTrail =>
        bitnum := Inc8(bitnum);
        if bitnum == 2 {
          retVal := 0;
        }
        if bitnum == 3 {
          bitnum := 0;
          phase := ReadTrail;
        }
      case ReadTrail =>
        bitnum := Inc8(bitnum);
        if bitnum == 2 {
          retVal := 0;
        }
        if bitnum == 4 {
          bitnum := 0;
          cmdWrRd := false;
          address := 0;
          lenBits := 0;
          phase := Idle;
          active := false;
        }
    }

    /** The bit counting shared by the read and write phases. */
    method NextDataBit(trail: Phase)
      modifies this`bitnum, this`lenBits, this`address, this`phase
      ensures Registers() == DataStep(old(Registers()), trail)
    {
      bitnum := Inc8(bitnum);
      lenBits := Dec32(lenBits);
      if lenBits == 0 {
        bitnum := 0;
        phase := trail;
      } else if bitnum == 8 {
        bitnum := 0;
        address := (address + 1) % TWO32;
      }
    }

    /** MB128Write. */
    method Clock(oldSel: bool, newSel: bool, oldClr: bool, newClr: bool)
      modifies this
      ensures Registers() == Clocked(old(Registers()), oldClr, newClr, newSel, old(ram(address)))
      ensures ram == ClockedRam(old(Registers()), oldClr, newClr, newSel, old(ram))
    {
      if !oldClr && newClr {
        if active {
          Send(newSel);
        } else {
          shiftreg := (shiftreg >> 1) | (if newSel then 0x80 else 0x00);
          if shiftreg == 0xA8 {
            phase := A1;
            active := true;
          }
        }
      }
    }
  }

  // ---------------------------------------------------------------------
  // The port

  /** The joypad port: SEL, CLR, the multitap's read index and the MB128.
   *  The settings and the attached devices are fixed here. */
  class InputPort {
    var sel: bool
    var clr: bool
    var readIndex: nat
    /** pce.input.multitap */
    const multiTap: bool
    /** Port 1 holds the Tsushin keyboard. */
    const port1Keyboard: bool
    /** HuC_IsMB128Available() */
    const mbAvailable: bool
    /** PCE_IsCD */
    const isCD: bool
    const mb: Mb128

    predicate Valid()
      reads this, mb
    {
      readIndex < 256 && Reachable(mb.Registers())
    }

    constructor (multiTap: bool, port1Keyboard: bool, mbAvailable: bool, isCD: bool, ram: nat -> bv8)
      ensures Valid() && fresh(mb)
      ensures !sel && !clr && readIndex == 0 && mb.Registers() == MB_INITIAL && mb.ram == ram
      ensures this.multiTap == multiTap && this.port1Keyboard == port1Keyboard
      ensures this.mbAvailable == mbAvailable && this.isCD == isCD
    {
      sel, clr, readIndex := false, false, 0;
      this.multiTap, this.port1Keyboard := multiTap, port1Keyboard;
      this.mbAvailable, this.isCD := mbAvailable, isCD;
      mb := new Mb128(ram);
    }

    /** INPUT_Read; `devices` are what the five ports' devices return. */
    method Read(devices: seq<Option<bv8>>) returns (ret: bv8)
      requires |devices| == 5
      ensures ret == InputValue(InputSource(mbAvailable, mb.active, mb.retVal, multiTap, port1Keyboard, readIndex, devices), isCD)
    {
      if mbAvailable && mb.active {
        ret := mb.retVal;
      } else if multiTap && !port1Keyboard {
        ret := MultiTapRead(devices);
      } else {
        ret := PortValue(devices[0]);
      }
      if !isCD {
        ret := ret | 0x80;
      }
      ret := ret | 0x30;
    }

    /** MultiTapRead. */
    method MultiTapRead(devices: seq<Option<bv8>>) returns (ret: bv8)
      requires |devices| == 5
      ensures ret == TapValue(readIndex, devices)
    {
      if readIndex > 4 {
        ret := 0;
      } else {
        ret := PortValue(devices[readIndex]);
      }
    }

    /** INPUT_Write: bit 0 is the new SEL, bit 1 the new CLR. */
    method Write(v: bv8)
      requires Valid()
      modifies this, mb
      ensures Valid()
      ensures sel == (v & 1 != 0) && clr == (v & 2 != 0)
      ensures readIndex == if multiTap then IndexAfter(old(sel), sel, old(clr), clr, old(readIndex)) else old(readIndex)
      ensures mb.Registers() == if mbAvailable then Clocked(old(mb.Registers()), old(clr), clr, sel, old(mb.ram(mb.address))) else old(mb.Registers())
      ensures mb.ram == if mbAvailable then ClockedRam(old(mb.Registers()), old(clr), clr, sel, old(mb.ram)) else old(mb.ram)
    {
      var newSel := v & 0x1 != 0;
      var newClr := v & 0x2 != 0;
      ClockedValid(mb.Registers(), clr, newClr, newSel, mb.ram(mb.address));
      if mbAvailable {
        mb.Clock(sel, newSel, clr, newClr);
      }
      if multiTap {
        readIndex := IndexAfter(sel, newSel, clr, newClr, readIndex);
      }
      sel := newSel;
      clr := newClr;
    }

    /** PCEINPUT_Power: the MB128 is not reset here. */
    method Power()
      modifies this`readIndex, this`sel, this`clr
      ensures readIndex == 0 && !sel && !clr
    {
      readIndex := 0;
      sel := false;
      clr := false;
    }
  }
}
