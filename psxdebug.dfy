/** The PlayStation debugger engine: PC, read and write breakpoint lists
 *  checked at the start address only, the per-instruction handler, the
 *  hook-install decision, the branch-trace ring with an exception flag per
 *  slot, the masked CPU/RAM address spaces, the halfword-wide SPU and GPU
 *  RAM spaces with their byte read-modify-write, and the alignment of the
 *  disassembly cursor. */
module PsxDebug {
  import opened Common
  import opened DebugCommon

  /** One access the CPU reports to the breakpoint callback. */
  datatype PsxAccess = PsxAccess(write: bool, address: bv32, len: nat)

  /** CheckCPUBPCallB sets the hit flag: the start address lies in a range
   *  of the write list (for a write) or the read list (otherwise). */
  predicate CheckHit(lists: BPLists, a: PsxAccess)
  {
    ListCovers(if a.write then lists.write else lists.read, a.address)
  }

  predicate AnyCheckHit(lists: BPLists, s: seq<PsxAccess>)
    decreases |s|
  {
    |s| > 0 && (AnyCheckHit(lists, s[..|s| - 1]) || CheckHit(lists, s[|s| - 1]))
  }

  /** The access length plays no part: a hit is exactly a one-byte hit at
   *  the start address. */
  lemma StartAddressOnly(lists: BPLists, a: PsxAccess)
    ensures CheckHit(lists, a) == ListTouched(if a.write then lists.write else lists.read, a.address, 1)
  {
    OneByteAccess(if a.write then lists.write else lists.read, a.address);
  }

  /** A four-byte read that overlaps a breakpoint past its first byte does
   *  not hit. */
  lemma OverlapPastStartMisses()
    ensures var lists := NO_LISTS.(read := [BreakPoint(0x101, 0x101)]);
            ListTouched(lists.read, 0x100, 4) && !CheckHit(lists, PsxAccess(false, 0x100, 4))
  {
    var bp := BreakPoint(0x101, 0x101);
    assert AccessBytes(0x100, 4)[1] == 0x101 by {
      AccessBytesStep(0x100, 4);
      AccessBytesStep(0x101, 3);
    }
    assert Touches(bp, 0x100, 4);
    assert [bp][0] == bp;
  }

  datatype HookCall = HookCall(pc: bv32, bpoint: bool)

  /** The exported form of one slot: "e" for an exception, "" otherwise. */
  function PsxLine(e: BTEntry<bool>): TraceLine
  {
    LineOf(e, if e.code then "e" else "")
  }

  /** A slot's code text is "e" exactly when it records an exception. */
  lemma PsxLineCode(e: BTEntry<bool>)
    ensures PsxLine(e).code == "e" <==> e.code
    ensures !e.code ==> PsxLine(e).code == ""
  {
  }

  /** A zeroed slot. */
  const BLANK: BTEntry<bool> := BTEntry(0, 0, 0, false, false)

  class PsxDebugger {
    var lists: BPLists
    var found: bool
    var continuous: bool
    var hasCallback: bool
    var loggingOn: bool
    var handlerInstalled: bool
    var branchHookInstalled: bool
    const trace: BranchTrace<bool>

    /** RedoCPUHook's decision about the instruction handler. */
    predicate HandlerWanted()
      reads this
    {
      hasCallback || lists.pc != [] || lists.read != [] || lists.write != [] || loggingOn
    }

    ghost predicate Valid()
      reads this, trace
    {
      trace.Valid() && MemoryListsOnly(lists) &&
      handlerInstalled == HandlerWanted() && branchHookInstalled == trace.enabled
    }

    /** DBG_Init: no callback, tracing off, index 0, every slot zeroed. */
    constructor ()
      ensures Valid() && fresh(trace) && fresh(trace.entries)
      ensures lists == NO_LISTS && !found && !continuous && !hasCallback && !loggingOn
      ensures !trace.enabled && trace.index == 0 && trace.entries[..] == seq(NUMBT, _ => BLANK)
    {
      lists := NO_LISTS;
      found := false;
      continuous := false;
      hasCallback := false;
      loggingOn := false;
      handlerInstalled := false;
      branchHookInstalled := false;
      trace := new BranchTrace(BLANK);
    }

    /** DBG_Break: the CPU reports a break of its own. */
    method Break()
      modifies this`found
      ensures found
    {
      found := true;
    }

    /** The CPU's branch hook: merges only into a valid previous slot with
     *  the same from, to and exception flag. */
    method AddBranchTrace(from: bv32, to: bv32, exception: bool)
      requires Valid()
      modifies trace`index, trace.entries
      ensures Valid()
      ensures (trace.entries[..], trace.index) == Recorded(old(trace.entries[..]), old(trace.index), from, to, exception, true)
    {
      trace.Add(from, to, exception, true);
    }

    method EnableBranchTrace(enable: bool)
      requires Valid()
      modifies trace`enabled, trace`index, trace.entries, this`handlerInstalled, this`branchHookInstalled
      ensures Valid() && trace.enabled == enable && branchHookInstalled == enable
      ensures !enable ==> trace.index == 0 && trace.entries[..] == seq(NUMBT, _ => BLANK)
      ensures enable ==> trace.index == old(trace.index) && trace.entries[..] == old(trace.entries[..])
    {
      trace.Enable(enable, BLANK);
      RedoCPUHook();
    }

    /** GetBranchTrace: all 24 slots oldest first, invalid ones included. */
    method GetBranchTrace() returns (lines: seq<TraceLine>)
      requires Valid()
      ensures lines == Lines(Ordered(trace.entries[..], trace.index), PsxLine, false)
      ensures |lines| == NUMBT
    {
      lines := trace.Export(PsxLine, false);
      LinesAll(Ordered(trace.entries[..], trace.index), PsxLine);
    }

    /** CheckCPUBPCallB: stops at the first range holding the start address. */
    method CheckCPUBPCallB(write: bool, address: bv32, len: nat)
      modifies this`found
      ensures found == (old(found) || CheckHit(lists, PsxAccess(write, address, len)))
    {
      var list := if write then lists.write else lists.read;
      var hit := ScanAddress(list, address);
      if hit {
        found := true;
      }
    }

    /** CPUHandler for the instruction at `pc` with the accesses the CPU
     *  reports for it. */
    method CPUHandler(pc: bv32, accesses: seq<PsxAccess>) returns (call: Option<HookCall>)
      modifies this`found, this`continuous
      ensures var hit := old(found) || ListCovers(lists.pc, pc) || AnyCheckHit(lists, accesses);
              continuous == (old(continuous) || hit) &&
              call == (if continuous && hasCallback then Some(HookCall(pc, hit)) else None)
      ensures !found
    {
      var pcHit := ScanAddress(lists.pc, pc);
      if pcHit {
        found := true;
      }
      ghost var f0 := found;
      var i := 0;
      while i < |accesses|
        invariant 0 <= i <= |accesses|
        invariant found == (f0 || AnyCheckHit(lists, accesses[..i]))
        invariant continuous == old(continuous)
      {
        assert accesses[..i + 1][..i] == accesses[..i];
        CheckCPUBPCallB(accesses[i].write, accesses[i].address, accesses[i].len);
        i := i + 1;
      }
      assert accesses[..|accesses|] == accesses;
      continuous := continuous || found;
      if continuous && hasCallback {
        call := Some(HookCall(pc, found));
      } else {
        call := None;
      }
      found := false;
    }

    method RedoCPUHook()
      requires trace.Valid() && MemoryListsOnly(lists)
      modifies this`handlerInstalled, this`branchHookInstalled
      ensures Valid() && handlerInstalled == HandlerWanted() && branchHookInstalled == trace.enabled
    {
      handlerInstalled := hasCallback || lists.pc != [] || lists.read != [] || lists.write != [] || loggingOn;
      branchHookInstalled := trace.enabled;
    }

    method SetLogFunc(logFunc: bool)
      requires Valid()
      modifies this`loggingOn, this`handlerInstalled, this`branchHookInstalled
      ensures Valid() && loggingOn == logFunc
    {
      loggingOn := logFunc;
      RedoCPUHook();
    }

    /** FlushBreakPoints: empties the read, write or PC list. */
    method FlushBreakPoints(kind: BPKind)
      requires Valid()
      modifies this`lists, this`handlerInstalled, this`branchHookInstalled
      ensures Valid() && lists == Flushed(old(lists), kind, MEMORY_KINDS)
    {
      lists := Flushed(lists, kind, MEMORY_KINDS);
      RedoCPUHook();
    }

    /** AddBreakPoint: appends to the read, write or PC list. */
    method AddBreakPoint(kind: BPKind, a1: bv32, a2: bv32)
      requires Valid()
      modifies this`lists, this`handlerInstalled, this`branchHookInstalled
      ensures Valid() && lists == Added(old(lists), kind, BreakPoint(a1, a2), MEMORY_KINDS)
    {
      lists := Added(lists, kind, BreakPoint(a1, a2), MEMORY_KINDS);
      RedoCPUHook();
    }

    method SetCPUCallback(callback: bool, cont: bool)
      requires Valid()
      modifies this`hasCallback, this`continuous, this`handlerInstalled, this`branchHookInstalled
      ensures Valid() && hasCallback == callback && continuous == cont
    {
      hasCallback := callback;
      continuous := cont;
      RedoCPUHook();
    }
  }

  // ---------------------------------------------------------------------
  // Address spaces

  const CPU_MASK: bv32 := 0xFFFF_FFFF
  const RAM_MASK: bv32 := 0x1F_FFFF
  const SPU_MASK: bv32 := 0x7_FFFF
  const GPU_MASK: bv32 := 0xF_FFFF

  /** Each mask keeps exactly the address bits of the width DBG_Init
   *  registers for its space: 32, 21, 19 and 20. */
  lemma MasksMatchWidths()
    ensures CPU_MASK as nat == Pow2(32) - 1 && RAM_MASK as nat == Pow2(21) - 1
    ensures SPU_MASK as nat == Pow2(19) - 1 && GPU_MASK as nat == Pow2(20) - 1
  {
    Pow2Value21();
    assert Pow2(32) == Pow2(21) * 2048 by { Pow2Split(21, 11); }
  }

  lemma Pow2Value21()
    ensures Pow2(19) == 0x8_0000 && Pow2(20) == 0x10_0000 && Pow2(21) == 0x20_0000
  {
    assert Pow2(10) == 1024 by { Pow2Split(5, 5); }
    assert Pow2(19) == Pow2(10) * Pow2(9) by { Pow2Split(10, 9); }
  }

  lemma {:induction false} Pow2Split(m: nat, n: nat)
    ensures Pow2(m + n) == Pow2(m) * Pow2(n)
    decreases n
  {
    if n > 0 {
      Pow2Split(m, n - 1);
      assert Pow2(m + n) == 2 * Pow2(m + n - 1);
    }
  }

  /** A and A + 2^21 reach the same RAM byte. */
  lemma RamMaskWraps(a: bv32)
    ensures (a + 0x20_0000) & RAM_MASK == a & RAM_MASK
  {
  }

  lemma SpuMaskWraps(a: bv32)
    ensures (a + 0x8_0000) & SPU_MASK == a & SPU_MASK
  {
  }

  lemma GpuMaskWraps(a: bv32)
    ensures (a + 0x10_0000) & GPU_MASK == a & GPU_MASK
  {
  }

  /** The four space masks. */
  predicate SpaceMask(mask: bv32)
  {
    mask == CPU_MASK || mask == RAM_MASK || mask == SPU_MASK || mask == GPU_MASK
  }

  /** Incrementing a masked cursor reaches the same masked address as
   *  incrementing the unmasked one. */
  lemma IncMasked(x: bv32, mask: bv32)
    requires SpaceMask(mask)
    ensures ((x & mask) + 1) & mask == (x + 1) & mask
  {
    if mask == RAM_MASK {
      IncRam(x);
    } else if mask == SPU_MASK {
      IncSpu(x);
    } else if mask == GPU_MASK {
      IncGpu(x);
    }
  }

  lemma IncRam(x: bv32)
    ensures ((x & RAM_MASK) + 1) & RAM_MASK == (x + 1) & RAM_MASK
  {
  }

  lemma IncSpu(x: bv32)
    ensures ((x & SPU_MASK) + 1) & SPU_MASK == (x + 1) & SPU_MASK
  {
  }

  lemma IncGpu(x: bv32)
    ensures ((x & GPU_MASK) + 1) & GPU_MASK == (x + 1) & GPU_MASK
  {
  }

  /** The source's cursor walk: mask the cursor, read there, increment. */
  function MaskedWalk(f: bv32 -> bv8, mask: bv32, a: bv32, n: nat): (r: seq<bv8>)
    ensures |r| == n
    decreases n
  {
    if n == 0 then [] else [f(a & mask)] + MaskedWalk(f, mask, (a & mask) + 1, n - 1)
  }

  /** The walk depends on the cursor's masked value only. */
  lemma MaskedWalkLow(f: bv32 -> bv8, mask: bv32, x: bv32, y: bv32, n: nat)
    requires x & mask == y & mask
    ensures MaskedWalk(f, mask, x, n) == MaskedWalk(f, mask, y, n)
  {
    if n > 0 {
      assert MaskedWalk(f, mask, x, n) == [f(x & mask)] + MaskedWalk(f, mask, (x & mask) + 1, n - 1);
    }
  }

  /** With a mask of low bits, masking the cursor as it goes reads the same
   *  bytes as masking each address of the access (g reads at the masked
   *  address; WalkAt names byte i). */
  lemma {:induction false} MaskedWalkIsWalk(f: bv32 -> bv8, g: bv32 -> bv8, mask: bv32, a: bv32, n: nat)
    requires SpaceMask(mask)
    requires forall x :: g(x) == f(x & mask)
    ensures MaskedWalk(f, mask, a, n) == Walk(g, a, n)
    decreases n
  {
    if n > 0 {
      MaskedWalkIsWalk(f, g, mask, a + 1, n - 1);
      IncMasked(a, mask);
      MaskedWalkLow(f, mask, (a & mask) + 1, a + 1, n - 1);
      MaskedWalkUnfold(f, mask, a, n);
      WalkUnfold(g, a, n);
    }
  }

  lemma MaskedWalkUnfold(f: bv32 -> bv8, mask: bv32, a: bv32, n: nat)
    requires n > 0
    ensures MaskedWalk(f, mask, a, n) == [f(a & mask)] + MaskedWalk(f, mask, (a & mask) + 1, n - 1)
  {
  }

  /** The source's cursor walk for writes. */
  function MaskedWrites(mask: bv32, a: bv32, vs: seq<bv8>): (r: seq<(bv32, bv8)>)
    ensures |r| == |vs|
    decreases |vs|
  {
    if vs == [] then [] else [(a & mask, vs[0])] + MaskedWrites(mask, (a & mask) + 1, vs[1..])
  }

  /** Each write with its address masked. */
  function MaskAll(mask: bv32, ws: seq<(bv32, bv8)>): (r: seq<(bv32, bv8)>)
    ensures |r| == |ws|
    decreases |ws|
  {
    if ws == [] then [] else [(ws[0].0 & mask, ws[0].1)] + MaskAll(mask, ws[1..])
  }

  lemma MaskedWritesLow(mask: bv32, x: bv32, y: bv32, vs: seq<bv8>)
    requires x & mask == y & mask
    ensures MaskedWrites(mask, x, vs) == MaskedWrites(mask, y, vs)
  {
    if vs != [] {
      assert MaskedWrites(mask, x, vs) == [(x & mask, vs[0])] + MaskedWrites(mask, (x & mask) + 1, vs[1..]);
    }
  }

  lemma MaskedWritesUnfold(mask: bv32, a: bv32, vs: seq<bv8>)
    requires vs != []
    ensures MaskedWrites(mask, a, vs) == [(a & mask, vs[0])] + MaskedWrites(mask, (a & mask) + 1, vs[1..])
  {
  }

  lemma MaskAllUnfold(mask: bv32, ws: seq<(bv32, bv8)>)
    requires ws != []
    ensures MaskAll(mask, ws) == [(ws[0].0 & mask, ws[0].1)] + MaskAll(mask, ws[1..])
  {
  }

  lemma MaskedWritesStep(mask: bv32, a: bv32, vs: seq<bv8>)
    requires vs != []
    requires ((a & mask) + 1) & mask == (a + 1) & mask
    ensures MaskedWrites(mask, a, vs) == [(a & mask, vs[0])] + MaskedWrites(mask, a + 1, vs[1..])
  {
    MaskedWritesUnfold(mask, a, vs);
    MaskedWritesLow(mask, (a & mask) + 1, a + 1, vs[1..]);
  }

  lemma WritesStep(mask: bv32, a: bv32, vs: seq<bv8>)
    requires vs != []
    ensures MaskAll(mask, Writes(a, vs)) == [(a & mask, vs[0])] + MaskAll(mask, Writes(a + 1, vs[1..]))
  {
    var w := Writes(a, vs);
    assert w[0] == (a, vs[0]) && w[1..] == Writes(a + 1, vs[1..]);
    MaskAllUnfold(mask, w);
  }

  lemma {:induction false} MaskedWritesAreMasked(mask: bv32, a: bv32, vs: seq<bv8>)
    requires SpaceMask(mask)
    ensures MaskedWrites(mask, a, vs) == MaskAll(mask, Writes(a, vs))
    decreases |vs|
  {
    if vs != [] {
      MaskedWritesAreMasked(mask, a + 1, vs[1..]);
      IncMasked(a, mask);
      MaskedWritesStep(mask, a, vs);
      WritesStep(mask, a, vs);
    }
  }

  /** GetAddressSpaceBytes for "cpu" (CPU_MASK) and "ram" (RAM_MASK): one
   *  PeekMem8 per byte, the cursor masked before each read. */
  method GetBusBytes(peek: bv32 -> bv8, mask: bv32, address: bv32, length: nat) returns (buffer: seq<bv8>)
    requires SpaceMask(mask)
    ensures buffer == MaskedWalk(peek, mask, address, length)
    ensures buffer == Walk(MaskedPeek(peek, mask), address, length)
  {
    MaskedPeekWalk(peek, mask, address, length);
    buffer := [];
    var a := address;
    var i := 0;
    while i < length
      invariant 0 <= i <= length
      invariant buffer + MaskedWalk(peek, mask, a, length - i) == MaskedWalk(peek, mask, address, length)
    {
      MaskedWalkUnfold(peek, mask, a, length - i);
      a := a & mask;
      var b := peek(a);
      AppendStep(buffer, b, MaskedWalk(peek, mask, a + 1, length - i - 1));
      buffer := buffer + [b];
      a := a + 1;
      i := i + 1;
    }
    assert buffer == buffer + MaskedWalk(peek, mask, a, 0);
  }

  /** PeekMem8 behind the source's address mask. */
  function MaskedPeek(peek: bv32 -> bv8, mask: bv32): bv32 -> bv8
  {
    x => peek(x & mask)
  }

  lemma MaskedPeekWalk(peek: bv32 -> bv8, mask: bv32, a: bv32, n: nat)
    requires SpaceMask(mask)
    ensures MaskedWalk(peek, mask, a, n) == Walk(MaskedPeek(peek, mask), a, n)
  {
    MaskedWalkIsWalk(peek, MaskedPeek(peek, mask), mask, a, n);
  }

  /** PutAddressSpaceBytes for "cpu" and "ram": the PokeMem8 calls made,
   *  one per byte at the masked cursor. */
  method PutBusBytes(mask: bv32, address: bv32, values: seq<bv8>) returns (pokes: seq<(bv32, bv8)>)
    requires SpaceMask(mask)
    ensures pokes == MaskAll(mask, Writes(address, values))
  {
    pokes := [];
    var a := address;
    var i := 0;
    while i < |values|
      invariant 0 <= i <= |values|
      invariant pokes + MaskedWrites(mask, a, values[i..]) == MaskedWrites(mask, address, values)
    {
      assert values[i..][1..] == values[i + 1..];
      MaskedWritesUnfold(mask, a, values[i..]);
      a := a & mask;
      AppendStep(pokes, (a, values[i]), MaskedWrites(mask, a + 1, values[i + 1..]));
      pokes := pokes + [(a, values[i])];
      a := a + 1;
      i := i + 1;
    }
    assert pokes == pokes + MaskedWrites(mask, a, values[i..]);
    MaskedWritesAreMasked(mask, address, values);
  }

  // ---------------------------------------------------------------------
  // Halfword-wide RAM (SPU and GPU)

  /** The shift that selects byte (A & 1) of a halfword. */
  function Shift(a: bv32): bv16
  {
    ((a & 1) * 8) as bv16
  }

  /** The byte at address `a` of halfword `w`: the halfword shifted down,
   *  cut to 8 bits. */
  function Extract(w: bv16, a: bv32): bv8
  {
    ((w >> Shift(a)) & 0xFF) as bv8
  }

  /** The halfword written back when byte `b` is poked at `a`: the byte
   *  shifted into its lane, the other lane kept from `peeko`. */
  function Merged(peeko: bv16, b: bv8, a: bv32): bv16
  {
    ((b as bv16) << Shift(a)) | (peeko & (0xFF00 >> Shift(a)))
  }

  lemma ShiftLane(a: bv32)
    ensures Shift(a) == if a & 1 == 0 then 0 else 8
  {
  }

  lemma MergedLow(peeko: bv16, b: bv8)
    ensures ((((b as bv16) | (peeko & 0xFF00)) >> 0) & 0xFF) as bv8 == b
    ensures ((((b as bv16) | (peeko & 0xFF00)) >> 8) & 0xFF) as bv8 == ((peeko >> 8) & 0xFF) as bv8
  {
  }

  lemma MergedHigh(peeko: bv16, b: bv8)
    ensures (((((b as bv16) << 8) | (peeko & 0xFF)) >> 8) & 0xFF) as bv8 == b
    ensures (((((b as bv16) << 8) | (peeko & 0xFF)) >> 0) & 0xFF) as bv8 == ((peeko >> 0) & 0xFF) as bv8
  {
  }

  lemma MergedAtLow(peeko: bv16, b: bv8, a: bv32)
    requires a & 1 == 0
    ensures Merged(peeko, b, a) == (b as bv16) | (peeko & 0xFF00)
  {
    ShiftLane(a);
  }

  lemma MergedAtHigh(peeko: bv16, b: bv8, a: bv32)
    requires a & 1 == 1
    ensures Merged(peeko, b, a) == ((b as bv16) << 8) | (peeko & 0xFF)
  {
    ShiftLane(a);
  }

  lemma ExtractLow(w: bv16, a: bv32)
    requires a & 1 == 0
    ensures Extract(w, a) == ((w >> 0) & 0xFF) as bv8
  {
    ShiftLane(a);
  }

  lemma ExtractHigh(w: bv16, a: bv32)
    requires a & 1 == 1
    ensures Extract(w, a) == ((w >> 8) & 0xFF) as bv8
  {
    ShiftLane(a);
  }

  lemma LaneBit(a: bv32)
    ensures a & 1 == 0 || a & 1 == 1
  {
  }

  /** A poked byte reads back, and the other byte of its halfword is kept. */
  lemma MergedBytes(peeko: bv16, b: bv8, a: bv32, c: bv32)
    ensures Extract(Merged(peeko, b, a), a) == b
    ensures c & 1 != a & 1 ==> Extract(Merged(peeko, b, a), c) == Extract(peeko, c)
  {
    LaneBit(a);
    LaneBit(c);
    if a & 1 == 0 {
      MergedAtLow(peeko, b, a);
      MergedLow(peeko, b);
      ExtractLow(Merged(peeko, b, a), a);
      if c & 1 == 1 {
        ExtractHigh(Merged(peeko, b, a), c);
        ExtractHigh(peeko, c);
      }
    } else {
      MergedAtHigh(peeko, b, a);
      MergedHigh(peeko, b);
      ExtractHigh(Merged(peeko, b, a), a);
      if c & 1 == 0 {
        ExtractLow(Merged(peeko, b, a), c);
        ExtractLow(peeko, c);
      }
    }
  }

  /** The halfword a masked address falls in. */
  function Half(a: bv32, mask: bv32): bv32
  {
    (a & mask) >> 1
  }

  predicate HalfwordMask(mask: bv32)
  {
    mask == SPU_MASK || mask == GPU_MASK
  }

  /** Every halfword index lies below the halfword count of the space. */
  lemma SpuIndexBound(a: bv32)
    ensures Half(a, SPU_MASK) < 0x4_0000
  {
  }

  lemma GpuIndexBound(a: bv32)
    ensures Half(a, GPU_MASK) < 0x8_0000
  {
  }

  /** Two masked addresses in the same halfword that differ are its two bytes. */
  lemma SameHalfOtherLane(x: bv32, y: bv32)
    ensures x >> 1 == y >> 1 && x != y ==> x & 1 != y & 1
  {
  }

  lemma MaskIdempotent(x: bv32, mask: bv32)
    ensures (x & mask) & mask == x & mask
  {
  }

  /** The memory of a halfword space: the halfword at each index. */
  type Halfwords = bv32 -> bv16

  /** The byte GetAddressSpaceBytes reads at `a`: byte (A & 1) of halfword
   *  A >> 1 of the masked address. */
  function ByteAt(mem: Halfwords, mask: bv32, a: bv32): bv8
  {
    Extract(mem(Half(a, mask)), a & mask)
  }

  /** The byte reader of a halfword space. */
  function ByteReader(mem: Halfwords, mask: bv32): bv32 -> bv8
  {
    x => ByteAt(mem, mask, x)
  }

  /** PeekSPURAM or GPU_PeekRAM as the debugger's byte reader: byte
   *  (A & 1) of halfword A >> 1, before the source's address mask. */
  function LanePeek(mem: Halfwords): bv32 -> bv8
  {
    x => LaneByte(mem, x)
  }

  function LaneByte(mem: Halfwords, a: bv32): bv8
  {
    Extract(mem(a >> 1), a)
  }

  /** Behind the space's mask, that reader reads the byte ByteAt names. */
  lemma LanePeekIsByteAt(mem: Halfwords, mask: bv32, x: bv32)
    ensures MaskedPeek(LanePeek(mem), mask)(x) == ByteAt(mem, mask, x)
  {
    var y := x & mask;
    assert MaskedPeek(LanePeek(mem), mask)(x) == LanePeek(mem)(y);
    assert LanePeek(mem)(y) == LaneByte(mem, y);
  }

  /** The memory after PutAddressSpaceBytes pokes byte `b` at `a`: halfword
   *  A >> 1 is read, the byte merged into lane A & 1, the halfword written
   *  back; no other halfword changes. */
  function Poked(mem: Halfwords, mask: bv32, a: bv32, b: bv8): Halfwords
  {
    var i := Half(a, mask);
    var w := Merged(mem(i), b, a & mask);
    x => if x == i then w else mem(x)
  }

  /** A later peek returns the poked byte. */
  lemma PeekAfterPoke(mem: Halfwords, mask: bv32, a: bv32, b: bv8)
    ensures ByteAt(Poked(mem, mask, a, b), mask, a) == b
  {
    MergedBytes(mem(Half(a, mask)), b, a & mask, a & mask);
  }

  /** Every other address of the space, including the other byte of the
   *  same halfword, keeps its byte. */
  lemma PokeKeepsOthers(mem: Halfwords, mask: bv32, a: bv32, b: bv8, c: bv32)
    requires a & mask != c & mask
    ensures ByteAt(Poked(mem, mask, a, b), mask, c) == ByteAt(mem, mask, c)
  {
    if Half(c, mask) == Half(a, mask) {
      SameHalfOtherLane(a & mask, c & mask);
      MergedBytes(mem(Half(a, mask)), b, a & mask, c & mask);
    }
  }

  /** The memory after the source's run of pokes: mask the cursor, poke,
   *  increment. */
  function PokedFrom(mem: Halfwords, mask: bv32, a: bv32, vs: seq<bv8>): Halfwords
    decreases |vs|
  {
    if vs == [] then mem else PokedFrom(Poked(mem, mask, a & mask, vs[0]), mask, (a & mask) + 1, vs[1..])
  }

  /** Poking from A + 2^bits changes the memory exactly as from A. */
  lemma PokedFromLow(mem: Halfwords, mask: bv32, a: bv32, b: bv32, vs: seq<bv8>)
    requires a & mask == b & mask
    ensures PokedFrom(mem, mask, a, vs) == PokedFrom(mem, mask, b, vs)
  {
    if vs != [] {
      assert PokedFrom(mem, mask, a, vs) == PokedFrom(Poked(mem, mask, a & mask, vs[0]), mask, (a & mask) + 1, vs[1..]);
    }
  }

  /** SPU or GPU RAM as the debugger reaches it through PeekSPURAM and
   *  PokeSPURAM or GPU_PeekRAM and GPU_PokeRAM. */
  class HalfwordRam {
    const mask: bv32
    var mem: Halfwords

    constructor (mask: bv32, mem: Halfwords)
      requires HalfwordMask(mask)
      ensures this.mask == mask && this.mem == mem
    {
      this.mask := mask;
      this.mem := mem;
    }

    /** GetAddressSpaceBytes for "spu" and "gpu": the cursor loop of the
     *  bus spaces with the halfword reader in place of PeekMem8. */
    method GetBytes(address: bv32, length: nat) returns (buffer: seq<bv8>)
      requires HalfwordMask(mask)
      ensures buffer == Walk(MaskedPeek(LanePeek(mem), mask), address, length)
    {
      buffer := GetBusBytes(LanePeek(mem), mask, address, length);
    }

    /** PutAddressSpaceBytes for "spu" and "gpu". */
    method PutBytes(address: bv32, values: seq<bv8>)
      modifies this`mem
      ensures mem == PokedFrom(old(mem), mask, address, values)
    {
      var a := address;
      var i := 0;
      while i < |values|
        invariant 0 <= i <= |values|
        invariant PokedFrom(mem, mask, a, values[i..]) == PokedFrom(old(mem), mask, address, values)
      {
        assert values[i..][1..] == values[i + 1..];
        a := a & mask;
        mem := Poked(mem, mask, a, values[i]);
        a := a + 1;
        i := i + 1;
      }
    }
  }

  // ---------------------------------------------------------------------
  // Disassembly cursor

  /** Disassemble: an unaligned cursor yields "UNALIGNED"; otherwise the
   *  fetched word (memory or instruction cache) is disassembled and cut to
   *  255 characters.  The cursor comes back aligned down and advanced by 4. */
  method Disassemble(a: bv32, fetch: bv32 -> bv32, disasm: (bv32, bv32) -> string) returns (next: bv32, text: string)
    ensures text == if a & 3 != 0 then "UNALIGNED" else Truncated(disasm(a, fetch(a)), 255)
    ensures next == (a & !3) + 4
  {
    var cursor := a;
    if cursor & 3 != 0 {
      text := "UNALIGNED";
      cursor := cursor & !3;
    } else {
      var instr := fetch(cursor);
      text := Truncated(disasm(cursor, instr), 255);
    }
    next := cursor + 4;
  }

  function Truncated(s: string, n: nat): (r: string)
    ensures |r| <= n && |r| <= |s| && r == s[..|r|]
    ensures |s| <= n ==> r == s
  {
    if |s| <= n then s else s[..n]
  }

  /** The returned cursor is aligned and lies within 4 bytes past `a`
   *  (unless it wraps at the top of the address space). */
  lemma CursorAdvances(a: bv32)
    ensures ((a & !3) + 4) & 3 == 0
    ensures a & !3 <= a && a - (a & !3) < 4
  {
  }
}
