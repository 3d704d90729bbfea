/** The Virtual Boy debugger engine: PC, read and write breakpoint lists,
 *  the per-instruction handler, the hook-install decision, the branch-trace
 *  ring whose slots carry a valid flag, and the CPU, RAM and VSU wave-data
 *  address spaces. */
module VbDebug {
  import opened Common
  import opened DebugCommon

  /** The list VBDBG_CheckBP scans: IO reads go to the read list, IO writes
   *  to the write list, and every other kind has none. */
  function CheckedList(lists: BPLists, kind: BPKind): seq<BreakPoint>
  {
    if kind == ReadKind || kind == IoReadKind then lists.read
    else if kind == WriteKind || kind == IoWriteKind then lists.write
    else []
  }

  /** VBDBG_CheckBP sets the hit flag for this access. */
  predicate CheckHit(lists: BPLists, a: Access)
  {
    ListTouched(CheckedList(lists, a.kind), a.address, a.len)
  }

  predicate AnyCheckHit(lists: BPLists, s: seq<Access>)
    decreases |s|
  {
    |s| > 0 && (AnyCheckHit(lists, s[..|s| - 1]) || CheckHit(lists, s[|s| - 1]))
  }

  /** An IO access is checked exactly like the memory access of the same direction. */
  lemma IoFoldsIntoMemory(lists: BPLists, address: bv32, value: bv32, len: nat)
    ensures CheckHit(lists, Access(IoReadKind, address, value, len)) == CheckHit(lists, Access(ReadKind, address, value, len))
    ensures CheckHit(lists, Access(IoWriteKind, address, value, len)) == CheckHit(lists, Access(WriteKind, address, value, len))
  {
  }

  /** Accesses of the other kinds never hit, whatever the lists hold. */
  lemma OtherKindsNeverHit(lists: BPLists, a: Access)
    requires a.kind !in {ReadKind, IoReadKind, WriteKind, IoWriteKind}
    ensures !CheckHit(lists, a)
  {
  }

  /** The callback invocation the handler makes: the PC and the hit flag. */
  datatype HookCall = HookCall(pc: bv32, bpoint: bool)

  /** The exported form of one valid ring slot. */
  function VbLine(e: BTEntry<bv32>): TraceLine
  {
    LineOf(e, CauseLabel(e.code))
  }

  /** A zeroed slot: count 0 and not valid. */
  const BLANK: BTEntry<bv32> := BTEntry(0, 0, 0, 0, false)

  class VbDebugger {
    var lists: BPLists
    var found: bool
    var continuous: bool
    var hasCallback: bool
    var loggingOn: bool
    /** Whether CPUHandler is installed as the CPU's instruction hook. */
    var handlerInstalled: bool
    /** Whether AddBranchTrace is installed as the CPU's branch hook. */
    var branchHookInstalled: bool
    const trace: BranchTrace<bv32>

    /** RedoCPUHook's decision about the instruction handler. */
    predicate HandlerWanted()
      reads this
    {
      hasCallback || loggingOn || lists.pc != [] || lists.read != [] || lists.write != []
    }

    /** Every operation that changes the inputs of RedoCPUHook re-runs it,
     *  so both hooks always match the decision. */
    ghost predicate Valid()
      reads this, trace
    {
      trace.Valid() && MemoryListsOnly(lists) &&
      handlerInstalled == HandlerWanted() && branchHookInstalled == trace.enabled
    }

    /** VBDBG_Init: tracing off, index 0, every slot zeroed (so invalid). */
    constructor ()
      ensures Valid() && fresh(trace) && fresh(trace.entries)
      ensures lists == NO_LISTS && !found && !continuous && !hasCallback && !loggingOn
      ensures !trace.enabled && trace.index == 0 && trace.entries[..] == seq(NUMBT, _ => BLANK)
    {
      lists := NO_LISTS;
      found := false;
      continuous := false;
      hasCallback := false;
      loggingOn := false;
      handlerInstalled := false;
      branchHookInstalled := false;
      trace := new BranchTrace(BLANK);
    }

    /** The CPU's branch hook: records one branch, merging only into a valid slot. */
    method AddBranchTrace(from: bv32, to: bv32, ecode: bv32)
      requires Valid()
      modifies trace`index, trace.entries
      ensures Valid()
      ensures (trace.entries[..], trace.index) == Recorded(old(trace.entries[..]), old(trace.index), from, to, ecode, true)
    {
      trace.Add(from, to, ecode, true);
    }

    /** VBDBG_EnableBranchTrace: sets the flag (clearing the ring when it
     *  goes off) and re-runs RedoCPUHook. */
    method EnableBranchTrace(enable: bool)
      requires Valid()
      modifies trace`enabled, trace`index, trace.entries, this`handlerInstalled, this`branchHookInstalled
      ensures Valid() && trace.enabled == enable && branchHookInstalled == enable
      ensures !enable ==> trace.index == 0 && trace.entries[..] == seq(NUMBT, _ => BLANK)
      ensures enable ==> trace.index == old(trace.index) && trace.entries[..] == old(trace.entries[..])
    {
      trace.Enable(enable, BLANK);
      RedoCPUHook();
    }

    /** VBDBG_GetBranchTrace: the valid slots only, oldest first (LinesValid
     *  gives one line per valid slot, in ring order). */
    method GetBranchTrace() returns (lines: seq<TraceLine>)
      requires Valid()
      ensures lines == Lines(Ordered(trace.entries[..], trace.index), VbLine, true)
      ensures |lines| <= NUMBT
    {
      lines := trace.Export(VbLine, true);
      LinesValid(Ordered(trace.entries[..], trace.index), VbLine);
    }

    /** VBDBG_CheckBP: sets the hit flag if the access touches the list its
     *  kind is folded into; never clears it. */
    method CheckBP(a: Access)
      modifies this`found
      ensures found == (old(found) || CheckHit(lists, a))
    {
      var list: seq<BreakPoint>;
      if a.kind == ReadKind || a.kind == IoReadKind {
        list := lists.read;
      } else if a.kind == WriteKind || a.kind == IoWriteKind {
        list := lists.write;
      } else {
        return;
      }
      var hit := ScanAccess(list, a.address, a.len);
      if hit {
        found := true;
      }
    }

    /** CPUHandler for the instruction at `pc` with the accesses the CPU
     *  reports for it. */
    method CPUHandler(pc: bv32, accesses: seq<Access>) returns (call: Option<HookCall>)
      modifies this`found, this`continuous
      ensures var hit := old(found) || ListCovers(lists.pc, pc) || AnyCheckHit(lists, accesses);
              continuous == (old(continuous) || hit) &&
              call == (if hasCallback && continuous then Some(HookCall(pc, hit)) else None)
      ensures !found
    {
      var pcHit := ScanAddress(lists.pc, pc);
      if pcHit {
        found := true;
      }
      ghost var f0 := found;
      var i := 0;
      while i < |accesses|
        invariant 0 <= i <= |accesses|
        invariant found == (f0 || AnyCheckHit(lists, accesses[..i]))
        invariant continuous == old(continuous)
      {
        assert accesses[..i + 1][..i] == accesses[..i];
        CheckBP(accesses[i]);
        i := i + 1;
      }
      assert accesses[..|accesses|] == accesses;
      continuous := continuous || found;
      if hasCallback && continuous {
        call := Some(HookCall(pc, found));
      } else {
        call := None;
      }
      found := false;
    }

    method RedoCPUHook()
      requires trace.Valid() && MemoryListsOnly(lists)
      modifies this`handlerInstalled, this`branchHookInstalled
      ensures Valid() && handlerInstalled == HandlerWanted() && branchHookInstalled == trace.enabled
    {
      handlerInstalled := hasCallback || loggingOn || lists.pc != [] || lists.read != [] || lists.write != [];
      branchHookInstalled := trace.enabled;
    }

    /** VBDBG_AddBreakPoint: PC, read and write breakpoints are appended to
     *  their list; any other kind changes no list. */
    method AddBreakPoint(kind: BPKind, a1: bv32, a2: bv32)
      requires Valid()
      modifies this`lists, this`handlerInstalled, this`branchHookInstalled
      ensures Valid() && lists == Added(old(lists), kind, BreakPoint(a1, a2), MEMORY_KINDS)
    {
      lists := Added(lists, kind, BreakPoint(a1, a2), MEMORY_KINDS);
      RedoCPUHook();
    }

    /** VBDBG_FlushBreakPoints: empties the PC, read or write list. */
    method FlushBreakPoints(kind: BPKind)
      requires Valid()
      modifies this`lists, this`handlerInstalled, this`branchHookInstalled
      ensures Valid() && lists == Flushed(old(lists), kind, MEMORY_KINDS)
    {
      lists := Flushed(lists, kind, MEMORY_KINDS);
      RedoCPUHook();
    }

    method SetCPUCallback(callback: bool, cont: bool)
      requires Valid()
      modifies this`hasCallback, this`continuous, this`handlerInstalled, this`branchHookInstalled
      ensures Valid() && hasCallback == callback && continuous == cont
    {
      hasCallback := callback;
      continuous := cont;
      RedoCPUHook();
    }

    method SetLogFunc(logFunc: bool)
      requires Valid()
      modifies this`loggingOn, this`handlerInstalled, this`branchHookInstalled
      ensures Valid() && loggingOn == logFunc
    {
      loggingOn := logFunc;
      RedoCPUHook();
    }
  }

  // ---------------------------------------------------------------------
  // Address spaces

  /** The spaces VBDBG_Init registers: the 27-bit CPU bus, 64 KiB of RAM
   *  and the five 32-byte VSU wave tables. */
  datatype Space = CpuSpace | RamSpace | WaveSpace(which: nat)

  const CPU_BITS := 27
  const RAM_BITS := 16
  const WAVE_BITS := 5

  /** The name of wave space x, "vsuwd0" to "vsuwd4". */
  function WaveName(x: nat): (name: string)
    requires x < 5
    ensures |name| == 6
  {
    "vsuwd" + [('0' as int + x) as char]
  }

  /** The table index the accessors take from a space name: name[5] - '0'. */
  function WaveIndex(name: string): int
    requires |name| >= 6
  {
    name[5] as int - '0' as int
  }

  lemma WaveNameRoundTrip(x: nat)
    requires x < 5
    ensures WaveIndex(WaveName(x)) == x
  {
  }

  /** RAM offsets reach the bus at 0x05000000 with the offset cut to 16 bits. */
  function RamBusAddress(a: bv32): bv32
  {
    0x0500_0000 | (a & 0xFFFF)
  }

  /** Offsets 0x10000 apart reach the same RAM byte. */
  lemma RamWraps(a: bv32)
    ensures RamBusAddress(a + 0x10000) == RamBusAddress(a)
  {
  }

  /** Every RAM offset lands in the 64 KiB window at 0x05000000. */
  lemma RamInWindow(a: bv32)
    ensures 0x0500_0000 <= RamBusAddress(a) <= 0x0500_FFFF
  {
  }

  /** The low 16 bits of the bus address are the low 16 bits of the offset,
   *  so distinct offsets within the 16-bit space reach distinct bytes. */
  lemma RamLowBits(a: bv32)
    ensures RamBusAddress(a) & 0xFFFF == a & 0xFFFF
  {
  }

  /** A byte write an accessor passes on: to the bus (MemWrite8) or to a
   *  VSU wave table (PokeWave). */
  datatype Poke = BusPoke(address: bv32, value: bv8) | WavePoke(which: nat, address: bv32, value: bv8)

  /** The byte a Get accessor reads at one address of the space: the bus
   *  read for CPU and RAM, PeekWave for a wave table. */
  function SpaceByte(space: Space, busRead: bv32 -> bv8, peekWave: (nat, bv32) -> bv8, a: bv32): bv8
  {
    match space
    case CpuSpace => busRead(a)
    case RamSpace => busRead(RamBusAddress(a))
    case WaveSpace(which) => peekWave(which, a)
  }

  /** The write a Put accessor passes on for one address of the space. */
  function SpacePoke(space: Space, a: bv32, v: bv8): Poke
  {
    match space
    case CpuSpace => BusPoke(a, v)
    case RamSpace => BusPoke(RamBusAddress(a), v)
    case WaveSpace(which) => WavePoke(which, a, v)
  }

  /** GetAddressSpaceBytes_CPU, _RAM and _VSUWD: Length bytes from Address
   *  upwards (32-bit wrap), one read each; WalkAt gives byte i as the read
   *  at byte i of the access. */
  method GetAddressSpaceBytes(space: Space, busRead: bv32 -> bv8, peekWave: (nat, bv32) -> bv8, address: bv32, length: nat)
    returns (buffer: seq<bv8>)
    ensures buffer == Walk(SpaceReader(space, busRead, peekWave), address, length)
  {
    ghost var read := SpaceReader(space, busRead, peekWave);
    buffer := [];
    var a := address;
    var i := 0;
    while i < length
      invariant 0 <= i <= length
      invariant buffer + Walk(read, a, length - i) == Walk(read, address, length)
    {
      var b := SpaceByte(space, busRead, peekWave, a);
      SpaceReaderAt(space, busRead, peekWave, a);
      WalkUnfold(read, a, length - i);
      AppendStep(buffer, b, Walk(read, a + 1, length - i - 1));
      buffer := buffer + [b];
      a := a + 1;
      i := i + 1;
    }
    assert buffer == buffer + Walk(read, a, 0);
  }

  /** The reader a Get accessor applies at each address. */
  function SpaceReader(space: Space, busRead: bv32 -> bv8, peekWave: (nat, bv32) -> bv8): bv32 -> bv8
  {
    x => SpaceByte(space, busRead, peekWave, x)
  }

  lemma SpaceReaderAt(space: Space, busRead: bv32 -> bv8, peekWave: (nat, bv32) -> bv8, a: bv32)
    ensures SpaceReader(space, busRead, peekWave)(a) == SpaceByte(space, busRead, peekWave, a)
  {
  }

  /** The accessor write for each (address, value) pair. */
  function SpacePokes(space: Space, ws: seq<(bv32, bv8)>): (r: seq<Poke>)
    ensures |r| == |ws|
    decreases |ws|
  {
    if ws == [] then [] else [SpacePoke(space, ws[0].0, ws[0].1)] + SpacePokes(space, ws[1..])
  }

  lemma {:induction false} SpacePokesAt(space: Space, ws: seq<(bv32, bv8)>)
    ensures forall i :: 0 <= i < |ws| ==> SpacePokes(space, ws)[i] == SpacePoke(space, ws[i].0, ws[i].1)
    decreases |ws|
  {
    if ws != [] {
      SpacePokesAt(space, ws[1..]);
    }
  }

  /** PutAddressSpaceBytes_CPU, _RAM and _VSUWD: one write per byte of the
   *  buffer, from Address upwards (32-bit wrap); WritesAt gives the address
   *  of byte i as byte i of the access. */
  method PutAddressSpaceBytes(space: Space, address: bv32, values: seq<bv8>) returns (pokes: seq<Poke>)
    ensures pokes == SpacePokes(space, Writes(address, values))
  {
    pokes := [];
    var a := address;
    var i := 0;
    while i < |values|
      invariant 0 <= i <= |values|
      invariant pokes + SpacePokes(space, Writes(a, values[i..])) == SpacePokes(space, Writes(address, values))
    {
      var p := SpacePoke(space, a, values[i]);
      ghost var w := Writes(a, values[i..]);
      assert values[i..][1..] == values[i + 1..];
      assert w[0] == (a, values[i]) && w[1..] == Writes(a + 1, values[i + 1..]);
      assert SpacePokes(space, w) == [p] + SpacePokes(space, Writes(a + 1, values[i + 1..]));
      AppendStep(pokes, p, SpacePokes(space, Writes(a + 1, values[i + 1..])));
      pokes := pokes + [p];
      a := a + 1;
      i := i + 1;
    }
    assert pokes == pokes + SpacePokes(space, Writes(a, values[i..]));
  }
}
