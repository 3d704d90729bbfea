/** What the PC-FX, Virtual Boy and PlayStation debuggers share: address
 *  breakpoint ranges and the scans over them, the 24-slot branch-trace
 *  ring, the V810 exception-code labels, and the little-endian peek. */
module DebugCommon {
  import opened Common

  // ---------------------------------------------------------------------
  // Breakpoints

  /** The breakpoint kinds a front end names; any other number is Unknown. */
  datatype BPKind = PcKind | ReadKind | WriteKind | IoReadKind | IoWriteKind | AuxReadKind | AuxWriteKind | Unknown

  /** An address breakpoint: the inclusive 32-bit range [lo, hi].  An
   *  inverted range is stored as given and covers nothing. */
  datatype BreakPoint = BreakPoint(lo: bv32, hi: bv32)

  predicate Covers(bp: BreakPoint, x: bv32)
  {
    bp.lo <= x <= bp.hi
  }

  /** The byte addresses of a len-byte access at address, with 32-bit wrap-around. */
  function AccessBytes(address: bv32, len: nat): (s: seq<bv32>)
    ensures |s| == len
    decreases len
  {
    if len == 0 then [] else [address] + AccessBytes(address + 1, len - 1)
  }

  lemma AccessBytesStep(address: bv32, len: nat)
    requires len > 0
    ensures AccessBytes(address, len)[0] == address
    ensures AccessBytes(address, len)[1..] == AccessBytes(address + 1, len - 1)
  {
  }

  /** Some byte of the access falls in bp. */
  predicate Touches(bp: BreakPoint, address: bv32, len: nat)
  {
    exists k :: 0 <= k < len && Covers(bp, AccessBytes(address, len)[k])
  }

  /** Some breakpoint of the list is touched by the access. */
  predicate ListTouched(list: seq<BreakPoint>, address: bv32, len: nat)
  {
    exists i :: 0 <= i < |list| && Touches(list[i], address, len)
  }

  /** Some breakpoint of the list covers the address. */
  predicate ListCovers(list: seq<BreakPoint>, x: bv32)
  {
    exists i :: 0 <= i < |list| && Covers(list[i], x)
  }

  /** The byte-by-byte walk over one breakpoint, stopping at the first hit. */
  method RangeTouched(bp: BreakPoint, address: bv32, len: nat) returns (hit: bool)
    ensures hit <==> Touches(bp, address, len)
  {
    ghost var whole := AccessBytes(address, len);
    var tmpAddress := address;
    var tmpLen: nat := len;
    hit := false;
    while tmpLen > 0
      invariant tmpLen <= len
      invariant AccessBytes(tmpAddress, tmpLen) == whole[len - tmpLen..]
      invariant forall k :: 0 <= k < len - tmpLen ==> !Covers(bp, whole[k])
    {
      if Covers(bp, tmpAddress) {
        assert whole[len - tmpLen] == tmpAddress;
        hit := true;
        break;
      }
      assert whole[len - tmpLen] == tmpAddress;
      tmpAddress := tmpAddress + 1;
      tmpLen := tmpLen - 1;
    }
  }

  /** The scan of one list for a len-byte access: every breakpoint is tried. */
  method ScanAccess(list: seq<BreakPoint>, address: bv32, len: nat) returns (hit: bool)
    ensures hit <==> ListTouched(list, address, len)
  {
    hit := false;
    var i := 0;
    while i < |list|
      invariant 0 <= i <= |list|
      invariant hit <==> exists j :: 0 <= j < i && Touches(list[j], address, len)
    {
      var h := RangeTouched(list[i], address, len);
      hit := hit || h;
      i := i + 1;
    }
  }

  /** The scan of a list for a single address, stopping at the first hit. */
  method ScanAddress(list: seq<BreakPoint>, x: bv32) returns (hit: bool)
    ensures hit <==> ListCovers(list, x)
  {
    hit := false;
    var i := 0;
    while i < |list|
      invariant 0 <= i <= |list|
      invariant forall j :: 0 <= j < i ==> !Covers(list[j], x)
    {
      if Covers(list[i], x) {
        hit := true;
        break;
      }
      i := i + 1;
    }
  }

  /** One memory access the CPU reports before an instruction runs: its
   *  kind, start address, value (for writes) and length in bytes. */
  datatype Access = Access(kind: BPKind, address: bv32, value: bv32, len: nat)

  /** The per-kind breakpoint lists. */
  datatype BPLists = BPLists(pc: seq<BreakPoint>, read: seq<BreakPoint>, write: seq<BreakPoint>,
                             ioRead: seq<BreakPoint>, ioWrite: seq<BreakPoint>,
                             auxRead: seq<BreakPoint>, auxWrite: seq<BreakPoint>)

  const NO_LISTS := BPLists([], [], [], [], [], [], [])

  /** The list a kind is checked against; an unknown kind has none. */
  function ListOf(lists: BPLists, kind: BPKind): seq<BreakPoint>
  {
    match kind
    case PcKind => lists.pc
    case ReadKind => lists.read
    case WriteKind => lists.write
    case IoReadKind => lists.ioRead
    case IoWriteKind => lists.ioWrite
    case AuxReadKind => lists.auxRead
    case AuxWriteKind => lists.auxWrite
    case Unknown => []
  }

  function WithList(lists: BPLists, kind: BPKind, l: seq<BreakPoint>): BPLists
  {
    match kind
    case PcKind => lists.(pc := l)
    case ReadKind => lists.(read := l)
    case WriteKind => lists.(write := l)
    case IoReadKind => lists.(ioRead := l)
    case IoWriteKind => lists.(ioWrite := l)
    case AuxReadKind => lists.(auxRead := l)
    case AuxWriteKind => lists.(auxWrite := l)
    case Unknown => lists
  }

  /** Some list holds a breakpoint. */
  predicate AnyListSet(lists: BPLists)
  {
    lists.pc != [] || lists.read != [] || lists.write != [] || lists.ioRead != [] ||
    lists.ioWrite != [] || lists.auxRead != [] || lists.auxWrite != []
  }

  /** AddBreakPoint: `bp` is appended to the list of `kind` when the engine
   *  keeps a list for that kind (`accepted`); no range check is made. */
  function Added(lists: BPLists, kind: BPKind, bp: BreakPoint, accepted: set<BPKind>): (r: BPLists)
    requires Unknown !in accepted
    ensures forall k :: ListOf(r, k) == if k == kind && k in accepted then ListOf(lists, k) + [bp] else ListOf(lists, k)
  {
    if kind in accepted then WithList(lists, kind, ListOf(lists, kind) + [bp]) else lists
  }

  /** FlushBreakPoints: the list of `kind` is emptied when the engine keeps one. */
  function Flushed(lists: BPLists, kind: BPKind, accepted: set<BPKind>): (r: BPLists)
    requires Unknown !in accepted
    ensures forall k :: ListOf(r, k) == if k == kind && k in accepted then [] else ListOf(lists, k)
  {
    if kind in accepted then WithList(lists, kind, []) else lists
  }

  /** The kinds the VB and PSX engines keep a list for. */
  const MEMORY_KINDS: set<BPKind> := {PcKind, ReadKind, WriteKind}

  /** Only the PC, read and write lists can hold anything. */
  predicate MemoryListsOnly(lists: BPLists)
  {
    lists.ioRead == [] && lists.ioWrite == [] && lists.auxRead == [] && lists.auxWrite == []
  }

  /** Adding or flushing with MEMORY_KINDS keeps the other lists empty; an
   *  added PC, read or write breakpoint leaves a list set, and any other kind
   *  changes nothing. */
  lemma MemoryListsKept(lists: BPLists, kind: BPKind, bp: BreakPoint)
    requires MemoryListsOnly(lists)
    ensures MemoryListsOnly(Added(lists, kind, bp, MEMORY_KINDS)) && MemoryListsOnly(Flushed(lists, kind, MEMORY_KINDS))
    ensures kind in MEMORY_KINDS ==> AnyListSet(Added(lists, kind, bp, MEMORY_KINDS))
    ensures kind !in MEMORY_KINDS ==> Added(lists, kind, bp, MEMORY_KINDS) == lists && Flushed(lists, kind, MEMORY_KINDS) == lists
  {
    var r := Added(lists, kind, bp, MEMORY_KINDS);
    assert ListOf(r, IoReadKind) == [] && ListOf(r, IoWriteKind) == [];
    assert ListOf(r, AuxReadKind) == [] && ListOf(r, AuxWriteKind) == [];
    if kind in MEMORY_KINDS {
      assert ListOf(r, kind) != [];
    }
    var f := Flushed(lists, kind, MEMORY_KINDS);
    assert ListOf(f, IoReadKind) == [] && ListOf(f, IoWriteKind) == [];
    assert ListOf(f, AuxReadKind) == [] && ListOf(f, AuxWriteKind) == [];
  }

  /** The data access touches a breakpoint of its own kind's list; the PC
   *  list is not one an access is checked against. */
  predicate AccessHits(lists: BPLists, a: Access)
  {
    a.kind != PcKind && ListTouched(ListOf(lists, a.kind), a.address, a.len)
  }

  /** Some access of `s` touches a breakpoint of its kind. */
  predicate AnyAccessHits(lists: BPLists, s: seq<Access>)
  {
    exists i :: 0 <= i < |s| && AccessHits(lists, s[i])
  }

  /** A one-byte access touches exactly the breakpoints covering its address. */
  lemma OneByteAccess(list: seq<BreakPoint>, x: bv32)
    ensures ListTouched(list, x, 1) <==> ListCovers(list, x)
  {
    assert AccessBytes(x, 1) == [x];
    if ListCovers(list, x) {
      var i :| 0 <= i < |list| && Covers(list[i], x);
      assert Covers(list[i], AccessBytes(x, 1)[0]);
    }
  }

  /** Appending a breakpoint adds exactly its own hits. */
  lemma TouchedAfterAppend(list: seq<BreakPoint>, bp: BreakPoint, address: bv32, len: nat)
    ensures ListTouched(list + [bp], address, len) <==> ListTouched(list, address, len) || Touches(bp, address, len)
  {
    var l := list + [bp];
    if ListTouched(list, address, len) {
      var i :| 0 <= i < |list| && Touches(list[i], address, len);
      assert l[i] == list[i];
    }
    if Touches(bp, address, len) {
      assert l[|list|] == bp;
    }
    if ListTouched(l, address, len) {
      var i :| 0 <= i < |l| && Touches(l[i], address, len);
      if i < |list| {
        assert list[i] == l[i];
      }
    }
  }

  // ---------------------------------------------------------------------
  // The branch-trace ring

  const NUMBT: nat := 24
  const COUNT_MAX: bv32 := 0xFFFF_FFFF

  /** One slot of the ring.  `code` is the exception code (a number on the
   *  V810, a flag on the R3000A); the PC-FX slots have no valid flag, so
   *  its ring ignores `valid`. */
  datatype BTEntry<C> = BTEntry(from: bv32, to: bv32, count: bv32, code: C, valid: bool)

  /** The slot written by the previous record. */
  function Prev(index: nat): (p: nat)
    requires index < NUMBT
    ensures p < NUMBT
  {
    (index + NUMBT - 1) % NUMBT
  }

  /** Whether a branch repeats the previous record: same from, to and code,
   *  a count that can still grow and, where slots carry one, a valid flag. */
  predicate Repeats<C(==)>(prev: BTEntry<C>, from: bv32, to: bv32, code: C, checkValid: bool)
  {
    prev.from == from && prev.to == to && prev.code == code && prev.count < COUNT_MAX &&
    (prev.valid || !checkValid)
  }

  /** The ring after one record. */
  function Recorded<C(==)>(ring: seq<BTEntry<C>>, index: nat, from: bv32, to: bv32, code: C, checkValid: bool): (r: (seq<BTEntry<C>>, nat))
    requires |ring| == NUMBT && index < NUMBT
    ensures |r.0| == NUMBT && r.1 < NUMBT
  {
    var p := Prev(index);
    if Repeats(ring[p], from, to, code, checkValid) then
      (ring[p := ring[p].(count := ring[p].count + 1)], index)
    else
      (ring[index := BTEntry(from, to, 1, code, true)], (index + 1) % NUMBT)
  }

  /** The ring oldest first: slot (x + index) mod 24 at position x. */
  function Ordered<C>(ring: seq<BTEntry<C>>, index: nat): (s: seq<BTEntry<C>>)
    requires |ring| == NUMBT && index < NUMBT
    ensures |s| == NUMBT
  {
    seq(NUMBT, x requires 0 <= x < NUMBT => ring[(x + index) % NUMBT])
  }

  /** A repeat of the newest record only bumps its count. */
  lemma RecordedRepeat<C>(ring: seq<BTEntry<C>>, index: nat, from: bv32, to: bv32, code: C, checkValid: bool)
    requires |ring| == NUMBT && index < NUMBT
    requires Repeats(Ordered(ring, index)[NUMBT - 1], from, to, code, checkValid)
    ensures var (ring', index') := Recorded(ring, index, from, to, code, checkValid);
      var o := Ordered(ring, index);
      index' == index && Ordered(ring', index') == o[NUMBT - 1 := o[NUMBT - 1].(count := o[NUMBT - 1].count + 1)]
  {
    var (ring', index') := Recorded(ring, index, from, to, code, checkValid);
    var o := Ordered(ring, index);
    var o' := Ordered(ring', index');
    LastIsPrev(index);
    forall x | 0 <= x < NUMBT - 1
      ensures o'[x] == o[x]
    {
      OtherSlot(index, x);
    }
  }

  /** A new branch evicts the oldest slot and becomes the newest, with count 1. */
  lemma RecordedNew<C>(ring: seq<BTEntry<C>>, index: nat, from: bv32, to: bv32, code: C, checkValid: bool)
    requires |ring| == NUMBT && index < NUMBT
    requires !Repeats(Ordered(ring, index)[NUMBT - 1], from, to, code, checkValid)
    ensures var (ring', index') := Recorded(ring, index, from, to, code, checkValid);
      Ordered(ring', index') == Ordered(ring, index)[1..] + [BTEntry(from, to, 1, code, true)]
  {
    var (ring', index') := Recorded(ring, index, from, to, code, checkValid);
    var o := Ordered(ring, index);
    var o' := Ordered(ring', index');
    LastIsPrev(index);
    var t := o[1..] + [BTEntry(from, to, 1, code, true)];
    forall x | 0 <= x < NUMBT
      ensures o'[x] == t[x]
    {
      ShiftedSlot(index, x);
    }
  }

  /** Position 23 of the oldest-first view is the previous slot. */
  lemma LastIsPrev(index: nat)
    requires index < NUMBT
    ensures (NUMBT - 1 + index) % NUMBT == Prev(index)
  {
  }

  lemma OtherSlot(index: nat, x: nat)
    requires index < NUMBT && x < NUMBT - 1
    ensures (x + index) % NUMBT != Prev(index)
  {
  }

  /** After a new record, position x reads the slot that was at position x + 1,
   *  and the last position reads the slot just written. */
  lemma ShiftedSlot(index: nat, x: nat)
    requires index < NUMBT && x < NUMBT
    ensures x < NUMBT - 1 ==> (x + (index + 1) % NUMBT) % NUMBT == (x + 1 + index) % NUMBT && (x + 1 + index) % NUMBT != index
    ensures x == NUMBT - 1 ==> (x + (index + 1) % NUMBT) % NUMBT == index
  {
  }

  /** A record changes one slot: the previous one on a repeat, else the current one. */
  lemma RecordedChangesOneSlot<C>(ring: seq<BTEntry<C>>, index: nat, from: bv32, to: bv32, code: C, checkValid: bool)
    requires |ring| == NUMBT && index < NUMBT
    ensures var (ring', _) := Recorded(ring, index, from, to, code, checkValid);
      var changed := if Repeats(ring[Prev(index)], from, to, code, checkValid) then Prev(index) else index;
      forall k :: 0 <= k < NUMBT && k != changed ==> ring'[k] == ring[k]
  {
  }

  /** A ring with every slot marked invalid never repeats: the first record
   *  after a reset always makes a new entry (where slots carry the flag). */
  lemma FirstRecordAfterClear<C>(ring: seq<BTEntry<C>>, index: nat, from: bv32, to: bv32, code: C)
    requires |ring| == NUMBT && index < NUMBT
    requires forall k :: 0 <= k < NUMBT ==> !ring[k].valid
    ensures Recorded(ring, index, from, to, code, true) == (ring[index := BTEntry(from, to, 1, code, true)], (index + 1) % NUMBT)
  {
    assert !ring[Prev(index)].valid;
  }

  /** One line of an exported trace: the count, both addresses as eight
   *  lower-case hex digits, and the cause label. */
  datatype TraceLine = TraceLine(count: bv32, from: string, to: string, code: string)

  function LineOf<C>(e: BTEntry<C>, code: string): (l: TraceLine)
    ensures |l.from| == 8 && |l.to| == 8
  {
    TraceLine(e.count, Hex(e.from as nat, 8, false), Hex(e.to as nat, 8, false), code)
  }

  /** The exported lines of `o` in order, dropping invalid slots when
   *  `onlyValid` is set. */
  function Lines<C>(o: seq<BTEntry<C>>, line: BTEntry<C> -> TraceLine, onlyValid: bool): (ls: seq<TraceLine>)
    ensures |ls| <= |o|
  {
    if o == [] then []
    else Lines(o[..|o| - 1], line, onlyValid) + (if onlyValid && !o[|o| - 1].valid then [] else [line(o[|o| - 1])])
  }

  /** Without filtering, line x is the line of slot x. */
  lemma {:induction false} LinesAll<C>(o: seq<BTEntry<C>>, line: BTEntry<C> -> TraceLine)
    ensures |Lines(o, line, false)| == |o|
    ensures forall x :: 0 <= x < |o| ==> Lines(o, line, false)[x] == line(o[x])
  {
    if o != [] {
      LinesAll(o[..|o| - 1], line);
    }
  }

  /** With filtering, the lines are those of the valid slots, in order:
   *  there is one per valid slot and each is the line of a valid slot. */
  lemma {:induction false} LinesValid<C>(o: seq<BTEntry<C>>, line: BTEntry<C> -> TraceLine)
    ensures |Lines(o, line, true)| == |ValidSlots(o)|
    ensures forall x :: 0 <= x < |Lines(o, line, true)| ==> Lines(o, line, true)[x] == line(o[ValidSlots(o)[x]])
  {
    if o != [] {
      var p := o[..|o| - 1];
      LinesValid(p, line);
      ValidSlotsPrefix(o);
      var ls := Lines(o, line, true);
      var ps := Lines(p, line, true);
      forall x | 0 <= x < |ps|
        ensures ls[x] == line(o[ValidSlots(o)[x]])
      {
        assert ls[x] == ps[x];
        assert ValidSlots(o)[x] == ValidSlots(p)[x];
        assert o[ValidSlots(p)[x]] == p[ValidSlots(p)[x]];
      }
    }
  }

  /** The positions of the valid slots of `o`, increasing. */
  function ValidSlots<C>(o: seq<BTEntry<C>>): (v: seq<nat>)
    ensures |v| <= |o|
    ensures forall x :: 0 <= x < |v| ==> v[x] < |o| && o[v[x]].valid
  {
    if o == [] then []
    else ValidSlots(o[..|o| - 1]) + (if o[|o| - 1].valid then [|o| - 1] else [])
  }

  lemma ValidSlotsPrefix<C>(o: seq<BTEntry<C>>)
    requires o != []
    ensures ValidSlots(o) == ValidSlots(o[..|o| - 1]) + (if o[|o| - 1].valid then [|o| - 1] else [])
  {
  }

  /** The 24 slots, their record index, and whether the CPU reports branches. */
  class BranchTrace<C(==)> {
    var entries: array<BTEntry<C>>
    var index: nat
    var enabled: bool

    ghost predicate Valid()
      reads this
    {
      entries.Length == NUMBT && index < NUMBT
    }

    /** The state at start-up: every slot blank, index 0, tracing off. */
    constructor (blank: BTEntry<C>)
      ensures Valid() && fresh(entries)
      ensures entries[..] == seq(NUMBT, _ => blank) && index == 0 && !enabled
    {
      entries := new BTEntry<C>[NUMBT](_ => blank);
      index := 0;
      enabled := false;
    }

    /** AddBranchTrace: the branch from `from` to `to` with cause `code`;
     *  `checkValid` says whether slots carry a valid flag. */
    method Add(from: bv32, to: bv32, code: C, checkValid: bool)
      requires Valid()
      modifies this`index, entries
      ensures Valid()
      ensures (entries[..], index) == Recorded(old(entries[..]), old(index), from, to, code, checkValid)
    {
      ghost var before := entries[..];
      var p := Prev(index);
      var prev := entries[p];
      if Repeats(prev, from, to, code, checkValid) {
        entries[p] := prev.(count := prev.count + 1);
        assert entries[..] == before[p := prev.(count := prev.count + 1)];
      } else {
        entries[index] := BTEntry(from, to, 1, code, true);
        assert entries[..] == before[index := BTEntry(from, to, 1, code, true)];
        index := (index + 1) % NUMBT;
      }
    }

    /** The exporter loop: every slot oldest first, skipping invalid ones
     *  when `onlyValid` is set, each formatted by `line`. */
    method Export(line: BTEntry<C> -> TraceLine, onlyValid: bool) returns (lines: seq<TraceLine>)
      requires Valid()
      ensures lines == Lines(Ordered(entries[..], index), line, onlyValid)
    {
      ghost var o := Ordered(entries[..], index);
      lines := [];
      var x := 0;
      while x < NUMBT
        invariant 0 <= x <= NUMBT
        invariant lines == Lines(o[..x], line, onlyValid)
      {
        var e := entries[(x + index) % NUMBT];
        assert e == o[x];
        assert o[..x + 1][..x] == o[..x];
        if !onlyValid || e.valid {
          lines := lines + [line(e)];
        }
        x := x + 1;
      }
      assert o[..NUMBT] == o;
    }

    /** The enable switch: turning tracing off clears every slot to `blank`
     *  (the zeroed struct) and rewinds the index; turning it on keeps both. */
    method Enable(enable: bool, blank: BTEntry<C>)
      requires Valid()
      modifies this`enabled, this`index, entries
      ensures Valid() && enabled == enable
      ensures !enable ==> index == 0 && entries[..] == seq(NUMBT, _ => blank)
      ensures enable ==> index == old(index) && entries[..] == old(entries[..])
    {
      enabled := enable;
      if !enable {
        index := 0;
        forall k | 0 <= k < NUMBT {
          entries[k] := blank;
        }
      }
    }
  }

  // ---------------------------------------------------------------------
  // V810 exception-code labels (shared by the PC-FX and the Virtual Boy)

  /** The decimal digits printf writes for a value below 16. */
  function Decimal(n: nat): (s: string)
    requires n < 16
    ensures 1 <= |s| <= 2
  {
    if n < 10 then [('0' as int + n) as char] else ['1', ('0' as int + n - 10) as char]
  }

  /** The label the branch trace shows for a V810 exception code. */
  function CauseLabel(ecode: bv32): string
  {
    if 0xFFA0 <= ecode <= 0xFFBF then "TRAP"
    else if 0xFE00 <= ecode <= 0xFEFF then "INT" + Decimal(((ecode >> 4) & 0xF) as nat)
    else if ecode == 0 then ""
    else if ecode == 0xFFF0 then "R"
    else if ecode == 0xFFD0 then "NMI"
    else if ecode == 0xFFC0 then "ADTR"
    else if ecode == 0xFF90 then "ILL"
    else if ecode == 0xFF80 then "ZD"
    else if ecode == 0xFF70 then "FIV"
    else if ecode == 0xFF68 then "FZD"
    else if ecode == 0xFF64 then "FOV"
    else if ecode == 0xFF62 then "FUD"
    else if ecode == 0xFF61 then "FPR"
    else if ecode == 0xFF60 then "FRO"
    else "e"
  }

  /** The codes with a name of their own, and the names. */
  const NamedCodes: seq<(bv32, string)> := [
    (0xFFF0, "R"), (0xFFD0, "NMI"), (0xFFC0, "ADTR"), (0xFF90, "ILL"), (0xFF80, "ZD"),
    (0xFF70, "FIV"), (0xFF68, "FZD"), (0xFF64, "FOV"), (0xFF62, "FUD"), (0xFF61, "FPR"), (0xFF60, "FRO")]

  predicate IsNamed(ecode: bv32)
  {
    exists i :: 0 <= i < |NamedCodes| && NamedCodes[i].0 == ecode
  }

  /** No exception gives the empty label, and only that. */
  lemma EmptyLabelIff(ecode: bv32)
    ensures CauseLabel(ecode) == "" <==> ecode == 0
  {
  }

  /** TRAP labels exactly the 32 trap codes. */
  lemma TrapLabelIff(ecode: bv32)
    ensures CauseLabel(ecode) == "TRAP" <==> 0xFFA0 <= ecode <= 0xFFBF
  {
    if !(0xFFA0 <= ecode <= 0xFFBF) && 0xFE00 <= ecode <= 0xFEFF {
      assert CauseLabel(ecode)[0] == 'I';
    }
  }

  /** An INT label is given exactly to the interrupt codes, and its number
   *  is bits 4-7 of the code. */
  lemma IntLabelIff(ecode: bv32, n: nat)
    requires n < 16
    ensures CauseLabel(ecode) == "INT" + Decimal(n) <==> 0xFE00 <= ecode <= 0xFEFF && ((ecode >> 4) & 0xF) as nat == n
  {
    var s := CauseLabel(ecode);
    if 0xFE00 <= ecode <= 0xFEFF && s == "INT" + Decimal(n) {
      var m := ((ecode >> 4) & 0xF) as nat;
      assert s[3..] == Decimal(m);
      assert s[3..] == Decimal(n);
      DecimalInjective(m, n);
    }
    if !(0xFE00 <= ecode <= 0xFEFF) && !(0xFFA0 <= ecode <= 0xFFBF) {
      assert |s| < 4 || s[0] != 'I';
    }
    if 0xFFA0 <= ecode <= 0xFFBF {
      assert s[0] == 'T';
    }
  }

  lemma DecimalInjective(a: nat, b: nat)
    requires a < 16 && b < 16 && Decimal(a) == Decimal(b)
    ensures a == b
  {
    if a < 10 && b < 10 {
      assert Decimal(a)[0] == Decimal(b)[0];
    } else if a >= 10 && b >= 10 {
      assert Decimal(a)[1] == Decimal(b)[1];
    }
  }

  /** Each named code gets its name from the table. */
  lemma NamedLabels(i: nat)
    requires i < |NamedCodes|
    ensures CauseLabel(NamedCodes[i].0) == NamedCodes[i].1
  {
  }

  /** "e" labels every code that is not zero, a trap, an interrupt or named. */
  lemma OtherLabelIff(ecode: bv32)
    ensures CauseLabel(ecode) == "e" <==>
      ecode != 0 && !(0xFFA0 <= ecode <= 0xFFBF) && !(0xFE00 <= ecode <= 0xFEFF) && !IsNamed(ecode)
  {
    if IsNamed(ecode) {
      var i :| 0 <= i < |NamedCodes| && NamedCodes[i].0 == ecode;
      NamedLabels(i);
    }
    if 0xFE00 <= ecode <= 0xFEFF {
      assert CauseLabel(ecode)[..3] == "INT";
    }
    if !IsNamed(ecode) && ecode != 0 && !(0xFFA0 <= ecode <= 0xFFBF) && !(0xFE00 <= ecode <= 0xFEFF) {
      assert NamedCodes[0].0 != ecode && NamedCodes[1].0 != ecode && NamedCodes[2].0 != ecode;
      assert NamedCodes[3].0 != ecode && NamedCodes[4].0 != ecode && NamedCodes[5].0 != ecode;
      assert NamedCodes[6].0 != ecode && NamedCodes[7].0 != ecode && NamedCodes[8].0 != ecode;
      assert NamedCodes[9].0 != ecode && NamedCodes[10].0 != ecode;
    }
  }

  // ---------------------------------------------------------------------
  // Little-endian peek

  /** Bytes read least significant first as a number. */
  function JoinLE(bs: seq<bv8>): nat
  {
    if bs == [] then 0 else bs[0] as nat + 256 * JoinLE(bs[1..])
  }

  /** Byte k, least significant first, of a number. */
  function ByteOf(x: nat, k: nat): nat
  {
    if k == 0 then x % 256 else ByteOf(x / 256, k - 1)
  }

  /** Byte k of the joined value is byte k of the sequence. */
  lemma {:induction false} JoinLEByte(bs: seq<bv8>, k: nat)
    requires k < |bs|
    ensures ByteOf(JoinLE(bs), k) == bs[k] as nat
  {
    ModUnique(JoinLE(bs), JoinLE(bs[1..]), bs[0] as nat, 256);
    if k > 0 {
      JoinLEByte(bs[1..], k - 1);
    }
  }

  /** n bytes join to less than 256^n. */
  lemma {:induction false} JoinLEBound(bs: seq<bv8>)
    ensures JoinLE(bs) < Pow256(|bs|)
  {
    if bs != [] {
      JoinLEBound(bs[1..]);
    }
  }

  function Pow256(n: nat): (p: nat)
    ensures p >= 1
  {
    if n == 0 then 1 else 256 * Pow256(n - 1)
  }

  /** A byte added above the bytes joined so far lands 8*|bs| bits up;
   *  its bits are clear in the value so far, so OR and sum agree. */
  lemma {:induction false} JoinLEAppend(bs: seq<bv8>, b: bv8)
    ensures JoinLE(bs + [b]) == JoinLE(bs) + b as nat * Pow256(|bs|)
  {
    if bs != [] {
      var rest := bs[1..];
      assert (bs + [b])[1..] == rest + [b];
      JoinLEAppend(rest, b);
      var x, p := b as nat, Pow256(|rest|);
      assert JoinLE(bs + [b]) == bs[0] as nat + 256 * JoinLE(rest + [b]);
      assert Pow256(|bs|) == 256 * p;
      AppendArith(bs[0] as nat, JoinLE(rest), x, p);
    }
  }

  lemma AppendArith(h: int, j: int, x: int, p: int)
    ensures h + 256 * (j + x * p) == (h + 256 * j) + x * (256 * p)
  {
  }

  /** The bytes f gives at n consecutive addresses from a, with 32-bit wrap. */
  function Walk(f: bv32 -> bv8, a: bv32, n: nat): (r: seq<bv8>)
    ensures |r| == n
    decreases n
  {
    if n == 0 then [] else [f(a)] + Walk(f, a + 1, n - 1)
  }

  /** Byte i of the walk is f at byte i of the access. */
  lemma WalkUnfold(f: bv32 -> bv8, a: bv32, n: nat)
    requires n > 0
    ensures Walk(f, a, n) == [f(a)] + Walk(f, a + 1, n - 1)
  {
  }

  lemma {:induction false} WalkAt(f: bv32 -> bv8, a: bv32, n: nat)
    ensures forall i :: 0 <= i < n ==> Walk(f, a, n)[i] == f(AccessBytes(a, n)[i])
    decreases n
  {
    if n > 0 {
      WalkAt(f, a + 1, n - 1);
      assert forall i :: 1 <= i < n ==> AccessBytes(a, n)[i] == AccessBytes(a + 1, n - 1)[i - 1];
    }
  }

  /** Moving the head of the rest onto the end of the part done. */
  lemma AppendStep<T>(done: seq<T>, x: T, rest: seq<T>)
    ensures done + ([x] + rest) == (done + [x]) + rest
  {
  }

  /** Each value paired with its address, from a upwards with 32-bit wrap. */
  function Writes(a: bv32, vs: seq<bv8>): (r: seq<(bv32, bv8)>)
    ensures |r| == |vs|
    decreases |vs|
  {
    if vs == [] then [] else [(a, vs[0])] + Writes(a + 1, vs[1..])
  }

  lemma {:induction false} WritesAt(a: bv32, vs: seq<bv8>)
    ensures forall i :: 0 <= i < |vs| ==> Writes(a, vs)[i] == (AccessBytes(a, |vs|)[i], vs[i])
    decreases |vs|
  {
    if vs != [] {
      WritesAt(a + 1, vs[1..]);
      assert forall i :: 1 <= i < |vs| ==> AccessBytes(a, |vs|)[i] == AccessBytes(a + 1, |vs| - 1)[i - 1];
    }
  }

  /** MemPeek: bsize bytes from a, a+1, ... (32-bit wrap) joined little-endian.
   *  `peek` is the system's side-effect-free byte read.  The source ORs
   *  byte i in at bit 8*i, above every bit already set: that is the sum. */
  method MemPeek(peek: bv32 -> bv8, a: bv32, bsize: nat) returns (r: nat)
    requires bsize <= 4
    ensures r == JoinLE(Walk(peek, a, bsize))
    ensures r < Pow256(bsize)
  {
    ghost var bytes: seq<bv8> := [];
    r := 0;
    var scale := 1;
    var address := a;
    var i := 0;
    while i < bsize
      invariant 0 <= i <= bsize && |bytes| == i && scale == Pow256(i)
      invariant bytes + Walk(peek, address, bsize - i) == Walk(peek, a, bsize)
      invariant r == JoinLE(bytes)
    {
      var b := peek(address);
      assert Walk(peek, address, bsize - i) == [b] + Walk(peek, address + 1, bsize - i - 1);
      AppendStep(bytes, b, Walk(peek, address + 1, bsize - i - 1));
      JoinLEAppend(bytes, b);
      r := r + b as nat * scale;
      bytes := bytes + [b];
      address := address + 1;
      scale := scale * 256;
      i := i + 1;
    }
    assert bytes == Walk(peek, a, bsize);
    JoinLEBound(bytes);
  }
}
