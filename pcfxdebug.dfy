/** The PC-FX debugger engine: seven breakpoint lists, the per-instruction
 *  handler with its sticky "continuous" flag, the hook-install decision, the
 *  branch-trace ring (entries without a valid flag) with its exporter, and
 *  the VDC access simulation that turns VDC port accesses into Aux checks. */
module PcfxDebug {
  import opened Common
  import opened DebugCommon

  /** The kinds AddBreakPoint and FlushBreakPoints keep a list for. */
  const PCFX_KINDS: set<BPKind> := {PcKind, ReadKind, WriteKind, IoReadKind, IoWriteKind, AuxReadKind, AuxWriteKind}

  /** What a VDC reports about a simulated 16-bit port access: the VRAM
   *  words it would read and write, and whether it would complete a
   *  register read or write (and which register). */
  datatype VdcResult = VdcResult(readCount: nat, readStart: bv32, writeCount: nat, writeStart: bv32,
                                 regReadDone: bool, regWriteDone: bool, regIndex: bv32)

  /** SimulateRead16/SimulateWrite16 of VDC `which`: (write, which, register-select bit, value). */
  type VdcSim = (bool, bool, bool, bv32) -> VdcResult

  /** The Aux address of a VDC touch: 0x80000 for VRAM, 0xA0000 for a
   *  register, bit 16 for the second VDC, the offset in the low bits. */
  function AuxAddress(register: bool, which: bool, offset: bv32): bv32
  {
    (if register then 0xA0000 else 0x80000) | (if which then 0x10000 else 0) | offset
  }

  /** The encoding is reversible for a 16-bit offset: the
   *  touch kind, the VDC and the offset can be read back from the address. */
  lemma AuxAddressDecodes(register: bool, which: bool, offset: bv16)
    ensures (AuxAddress(register, which, offset as bv32) >> 17 == 5) == register
    ensures ((AuxAddress(register, which, offset as bv32) >> 16) & 1 == 1) == which
    ensures (AuxAddress(register, which, offset as bv32) & 0xFFFF) == offset as bv32
  {
    AuxKindBit(register, which, offset);
    AuxChipBit(register, which, offset);
    AuxOffset(register, which, offset);
  }

  lemma AuxKindBit(register: bool, which: bool, offset: bv16)
    ensures (AuxAddress(register, which, offset as bv32) >> 17 == 5) == register
  {
  }

  lemma AuxChipBit(register: bool, which: bool, offset: bv16)
    ensures ((AuxAddress(register, which, offset as bv32) >> 16) & 1 == 1) == which
  {
  }

  lemma AuxOffset(register: bool, which: bool, offset: bv16)
    ensures (AuxAddress(register, which, offset as bv32) & 0xFFFF) == offset as bv32
  {
  }

  /** The Aux accesses that SimuVDC checks for one simulated access, in order. */
  function VdcTouches(which: bool, r: VdcResult): (t: seq<Access>)
    ensures forall i :: 0 <= i < |t| ==> t[i].kind == AuxReadKind || t[i].kind == AuxWriteKind
    ensures |t| <= 4
  {
    var t0 := if r.readCount > 0 then [Access(AuxReadKind, AuxAddress(false, which, r.readStart), 0, r.readCount)] else [];
    var t1 := if r.writeCount > 0 then t0 + [Access(AuxWriteKind, AuxAddress(false, which, r.writeStart), 0, r.writeCount)] else t0;
    var t2 := if r.regReadDone then t1 + [Access(AuxReadKind, AuxAddress(true, which, r.regIndex), 0, 1)] else t1;
    if r.regWriteDone then t2 + [Access(AuxWriteKind, AuxAddress(true, which, r.regIndex), 0, 1)] else t2
  }

  /** The access lies in one of the windows that trigger the VDC simulation:
   *  memory reads at 0xA4000000-0xABFFFFFF, memory writes at
   *  0xB4000000-0xBBFFFFFF, IO reads and writes at 0x400-0x5FF. */
  predicate InVdcWindow(a: Access)
  {
    (a.kind == ReadKind && 0xA400_0000 <= a.address <= 0xABFF_FFFF) ||
    (a.kind == WriteKind && 0xB400_0000 <= a.address <= 0xBBFF_FFFF) ||
    ((a.kind == IoReadKind || a.kind == IoWriteKind) && 0x400 <= a.address <= 0x5FF)
  }

  /** The touches of a simulated access: memory accesses pick the VDC by
   *  bit 27 and always select the register port; IO accesses pick the VDC
   *  by bit 8 and the port by bit 2.  Reads pass the value 0. */
  function SimTouches(a: Access, sim: VdcSim): (t: seq<Access>)
    ensures forall i :: 0 <= i < |t| ==> t[i].kind == AuxReadKind || t[i].kind == AuxWriteKind
  {
    if !InVdcWindow(a) then []
    else if a.kind == ReadKind || a.kind == WriteKind then
      var which := a.address & 0x800_0000 != 0;
      VdcTouches(which, sim(a.kind == WriteKind, which, true, if a.kind == WriteKind then a.value else 0))
    else
      var which := a.address & 0x100 != 0;
      VdcTouches(which, sim(a.kind == IoWriteKind, which, a.address & 4 != 0, if a.kind == IoWriteKind then a.value else 0))
  }

  /** PCFXDBG_CheckBP sets the hit flag for this access. */
  predicate CheckHit(lists: BPLists, a: Access, sim: VdcSim)
  {
    AnyAccessHits(lists, SimTouches(a, sim)) || AccessHits(lists, a)
  }

  /** Some access of `s` sets the hit flag. */
  predicate AnyCheckHit(lists: BPLists, s: seq<Access>, sim: VdcSim)
    decreases |s|
  {
    |s| > 0 && (AnyCheckHit(lists, s[..|s| - 1], sim) || CheckHit(lists, s[|s| - 1], sim))
  }

  /** Outside the VDC windows an access is checked against its own list only,
   *  and an unknown kind never hits. */
  lemma PlainAccess(lists: BPLists, a: Access, sim: VdcSim)
    requires !InVdcWindow(a)
    ensures CheckHit(lists, a, sim) <==> a.kind != PcKind && ListTouched(ListOf(lists, a.kind), a.address, a.len)
    ensures a.kind == Unknown ==> !CheckHit(lists, a, sim)
  {
    assert SimTouches(a, sim) == [];
  }

  /** With every Aux list empty, the simulation never adds a hit. */
  lemma SimulationNeedsAuxLists(lists: BPLists, a: Access, sim: VdcSim)
    requires lists.auxRead == [] && lists.auxWrite == []
    ensures CheckHit(lists, a, sim) <==> AccessHits(lists, a)
  {
    AuxTouchesMiss(lists, SimTouches(a, sim));
  }

  lemma AuxTouchesMiss(lists: BPLists, t: seq<Access>)
    requires lists.auxRead == [] && lists.auxWrite == []
    requires forall i :: 0 <= i < |t| ==> t[i].kind == AuxReadKind || t[i].kind == AuxWriteKind
    ensures !AnyAccessHits(lists, t)
  {
    forall i | 0 <= i < |t|
      ensures !AccessHits(lists, t[i])
    {
      assert ListOf(lists, t[i].kind) == [];
    }
  }

  /** An access with every list empty never hits. */
  lemma {:induction false} NoListsNoHits(s: seq<Access>, sim: VdcSim)
    ensures !AnyCheckHit(NO_LISTS, s, sim)
    decreases |s|
  {
    if |s| > 0 {
      NoListsNoHits(s[..|s| - 1], sim);
      SimulationNeedsAuxLists(NO_LISTS, s[|s| - 1], sim);
    }
  }

  /** Hits over a sequence grown at the back. */
  lemma AnyHitsAppend(lists: BPLists, s: seq<Access>, x: Access)
    ensures AnyAccessHits(lists, s + [x]) <==> AnyAccessHits(lists, s) || AccessHits(lists, x)
  {
    var t := s + [x];
    assert t[|s|] == x;
    if AnyAccessHits(lists, s) {
      var i :| 0 <= i < |s| && AccessHits(lists, s[i]);
      assert t[i] == s[i];
    }
  }

  /** The callback invocation the handler makes: the PC and the hit flag. */
  datatype HookCall = HookCall(pc: bv32, bpoint: bool)

  /** The exported form of one ring slot. */
  function PcfxLine(e: BTEntry<bv32>): TraceLine
  {
    LineOf(e, CauseLabel(e.code))
  }

  const BLANK: BTEntry<bv32> := BTEntry(0, 0, 0, 0, false)

  class PcfxDebugger {
    var lists: BPLists
    var found: bool
    var continuous: bool
    var hasCallback: bool
    var loggingOn: bool
    /** Whether CPUHandler is installed as the CPU's instruction hook. */
    var handlerInstalled: bool
    /** Whether AddBranchTrace is installed as the CPU's branch hook. */
    var branchHookInstalled: bool
    /** The Aux read/write list sizes last reported to KING. */
    var kingNotice: (nat, nat)
    const trace: BranchTrace<bv32>

    /** RedoCPUHook's decision about the instruction handler. */
    predicate HandlerWanted()
      reads this
    {
      hasCallback || loggingOn || AnyListSet(lists)
    }

    ghost predicate Valid()
      reads this, trace
    {
      trace.Valid() && handlerInstalled == HandlerWanted()
    }

    constructor ()
      ensures Valid() && fresh(trace) && fresh(trace.entries)
      ensures lists == NO_LISTS && !found && !continuous && !hasCallback && !loggingOn
      ensures !handlerInstalled && !branchHookInstalled && kingNotice == (0, 0)
      ensures !trace.enabled && trace.index == 0 && trace.entries[..] == seq(NUMBT, _ => BLANK)
    {
      lists := NO_LISTS;
      found := false;
      continuous := false;
      hasCallback := false;
      loggingOn := false;
      handlerInstalled := false;
      branchHookInstalled := false;
      kingNotice := (0, 0);
      trace := new BranchTrace(BLANK);
    }

    /** The CPU's branch hook: records one branch in the ring. */
    method AddBranchTrace(from: bv32, to: bv32, ecode: bv32)
      requires Valid()
      modifies trace`index, trace.entries
      ensures Valid()
      ensures (trace.entries[..], trace.index) == Recorded(old(trace.entries[..]), old(trace.index), from, to, ecode, false)
    {
      trace.Add(from, to, ecode, false);
    }

    /** PCFXDBG_EnableBranchTrace: sets the flag (clearing the ring when it
     *  goes off) and does not re-run RedoCPUHook, so the installed branch
     *  hook stays as it was. */
    method EnableBranchTrace(enable: bool)
      requires Valid()
      modifies trace`enabled, trace`index, trace.entries
      ensures Valid() && trace.enabled == enable && branchHookInstalled == old(branchHookInstalled)
      ensures !enable ==> trace.index == 0 && trace.entries[..] == seq(NUMBT, _ => BLANK)
      ensures enable ==> trace.index == old(trace.index) && trace.entries[..] == old(trace.entries[..])
    {
      trace.Enable(enable, BLANK);
    }

    /** PCFXDBG_GetBranchTrace: all 24 slots, oldest first (LinesAll gives
     *  line x as the line of slot (x + index) mod 24). */
    method GetBranchTrace() returns (lines: seq<TraceLine>)
      requires Valid()
      ensures lines == Lines(Ordered(trace.entries[..], trace.index), PcfxLine, false)
      ensures |lines| == NUMBT
    {
      lines := trace.Export(PcfxLine, false);
      LinesAll(Ordered(trace.entries[..], trace.index), PcfxLine);
    }

    /** SimuVDC: checks the Aux touches of one simulated VDC access. */
    method SimuVdc(write: bool, which: bool, register: bool, value: bv32, sim: VdcSim)
      modifies this`found
      ensures found == (old(found) || AnyAccessHits(lists, VdcTouches(which, sim(write, which, register, value))))
      decreases 1, 0
    {
      var r := sim(write, which, register, value);
      ghost var t: seq<Access> := [];
      ghost var f0 := found;
      if r.readCount > 0 {
        var x := Access(AuxReadKind, AuxAddress(false, which, r.readStart), 0, r.readCount);
        CheckTouch(x, sim);
        AnyHitsAppend(lists, t, x);
        t := t + [x];
      }
      if r.writeCount > 0 {
        var x := Access(AuxWriteKind, AuxAddress(false, which, r.writeStart), 0, r.writeCount);
        CheckTouch(x, sim);
        AnyHitsAppend(lists, t, x);
        t := t + [x];
      }
      if r.regReadDone {
        var x := Access(AuxReadKind, AuxAddress(true, which, r.regIndex), 0, 1);
        CheckTouch(x, sim);
        AnyHitsAppend(lists, t, x);
        t := t + [x];
      }
      if r.regWriteDone {
        var x := Access(AuxWriteKind, AuxAddress(true, which, r.regIndex), 0, 1);
        CheckTouch(x, sim);
        AnyHitsAppend(lists, t, x);
        t := t + [x];
      }
      assert t == VdcTouches(which, r);
    }

    /** CheckBP of one Aux touch, which simulates nothing. */
    method CheckTouch(x: Access, sim: VdcSim)
      requires x.kind == AuxReadKind || x.kind == AuxWriteKind
      modifies this`found
      ensures found == (old(found) || AccessHits(lists, x))
      decreases 0, 1
    {
      CheckBP(x, sim);
      assert SimTouches(x, sim) == [];
    }

    /** PCFXDBG_CheckBP: simulates VDC accesses in the VDC windows, then sets
     *  the hit flag if the access touches its kind's list.  It never clears
     *  the flag; the PC kind and an unknown kind do nothing. */
    method CheckBP(a: Access, sim: VdcSim)
      modifies this`found
      ensures found == (old(found) || CheckHit(lists, a, sim))
      decreases if a.kind == AuxReadKind || a.kind == AuxWriteKind then 0 else 2, 0
    {
      if a.kind == PcKind || a.kind == Unknown {
        assert !InVdcWindow(a) && !AccessHits(lists, a);
        return;
      }
      if InVdcWindow(a) {
        SimulateAccess(a, sim);
      }
      var hit := ScanAccess(ListOf(lists, a.kind), a.address, a.len);
      if hit {
        found := true;
      }
    }

    /** The SimuVDC call of an access in a VDC window. */
    method SimulateAccess(a: Access, sim: VdcSim)
      requires InVdcWindow(a)
      modifies this`found
      ensures found == (old(found) || AnyAccessHits(lists, SimTouches(a, sim)))
      decreases 1, 1
    {
      if a.kind == ReadKind || a.kind == WriteKind {
        var write := a.kind == WriteKind;
        SimuVdc(write, a.address & 0x800_0000 != 0, true, if write then a.value else 0, sim);
      } else {
        var write := a.kind == IoWriteKind;
        SimuVdc(write, a.address & 0x100 != 0, a.address & 4 != 0, if write then a.value else 0, sim);
      }
    }

    /** CPUHandler for the instruction at `pc`: `syncBreak` is the VSYNC/HSYNC
     *  breakpoint state and `accesses` what the CPU reports for the
     *  instruction.  The hit flag is ORed into the continuous flag, the
     *  callback (if any) is called while continuous, and the flag is cleared. */
    method CPUHandler(pc: bv32, syncBreak: bool, accesses: seq<Access>, sim: VdcSim) returns (call: Option<HookCall>)
      modifies this`found, this`continuous
      ensures var hit := old(found) || ListCovers(lists.pc, pc) || syncBreak || AnyCheckHit(lists, accesses, sim);
              continuous == (old(continuous) || hit) &&
              call == (if continuous && hasCallback then Some(HookCall(pc, hit)) else None)
      ensures !found
    {
      var pcHit := ScanAddress(lists.pc, pc);
      if pcHit {
        found := true;
      }
      found := found || syncBreak;
      ghost var f0 := found;
      var i := 0;
      while i < |accesses|
        invariant 0 <= i <= |accesses|
        invariant found == (f0 || AnyCheckHit(lists, accesses[..i], sim))
        invariant continuous == old(continuous)
      {
        assert accesses[..i + 1][..i] == accesses[..i];
        CheckBP(accesses[i], sim);
        i := i + 1;
      }
      assert accesses[..|accesses|] == accesses;
      continuous := continuous || found;
      if continuous && hasCallback {
        call := Some(HookCall(pc, found));
      } else {
        call := None;
      }
      found := false;
    }

    /** RedoCPUHook: the handler is installed iff a callback is set, logging
     *  is on or some list is non-empty; the branch hook iff tracing is on. */
    method RedoCPUHook()
      requires trace.Valid()
      modifies this`handlerInstalled, this`branchHookInstalled
      ensures Valid() && handlerInstalled == HandlerWanted() && branchHookInstalled == trace.enabled
    {
      handlerInstalled := hasCallback || loggingOn || AnyListSet(lists);
      branchHookInstalled := trace.enabled;
    }

    /** PCFXDBG_AddBreakPoint: appends to the kind's list (an unknown kind
     *  changes nothing), re-runs RedoCPUHook and reports the Aux list sizes. */
    method AddBreakPoint(kind: BPKind, a1: bv32, a2: bv32)
      requires Valid()
      modifies this`lists, this`handlerInstalled, this`branchHookInstalled, this`kingNotice
      ensures Valid() && lists == Added(old(lists), kind, BreakPoint(a1, a2), PCFX_KINDS)
      ensures branchHookInstalled == trace.enabled && kingNotice == (|lists.auxRead|, |lists.auxWrite|)
    {
      lists := Added(lists, kind, BreakPoint(a1, a2), PCFX_KINDS);
      RedoCPUHook();
      kingNotice := (|lists.auxRead|, |lists.auxWrite|);
    }

    /** PCFXDBG_FlushBreakPoints: empties the kind's list, then as AddBreakPoint. */
    method FlushBreakPoints(kind: BPKind)
      requires Valid()
      modifies this`lists, this`handlerInstalled, this`branchHookInstalled, this`kingNotice
      ensures Valid() && lists == Flushed(old(lists), kind, PCFX_KINDS)
      ensures branchHookInstalled == trace.enabled && kingNotice == (|lists.auxRead|, |lists.auxWrite|)
    {
      lists := Flushed(lists, kind, PCFX_KINDS);
      RedoCPUHook();
      kingNotice := (|lists.auxRead|, |lists.auxWrite|);
    }

    /** PCFXDBG_SetCPUCallback. */
    method SetCPUCallback(callback: bool, cont: bool)
      requires Valid()
      modifies this`hasCallback, this`continuous, this`handlerInstalled, this`branchHookInstalled
      ensures Valid() && hasCallback == callback && continuous == cont && branchHookInstalled == trace.enabled
    {
      hasCallback := callback;
      continuous := cont;
      RedoCPUHook();
    }

    /** PCFXDBG_SetLogFunc: logging is on iff a log function is given. */
    method SetLogFunc(logFunc: bool)
      requires Valid()
      modifies this`loggingOn, this`handlerInstalled, this`branchHookInstalled
      ensures Valid() && loggingOn == logFunc && branchHookInstalled == trace.enabled
    {
      loggingOn := logFunc;
      RedoCPUHook();
    }
  }
}
