# mednafen debugger and device cores, modelled in Dafny

This project models the integer logic at the centre of several mednafen
components and proves properties of it:

- **The memory debugger** (`drivers/memdebugger.cpp`). An address space is a
  ring of bytes. The model covers:
  - the exact byte-string search and the relative (delta) search around that ring;
  - the hex-string parser used by the search prompts;
  - cursor movement and alignment;
  - the nibble-by-nibble hex editor;
  - the size guards that refuse searches on large spaces.
- **The PC-FX, Virtual Boy and PlayStation debugger engines** (`pcfx/debug.cpp`,
  `vb/debug.cpp`, `psx/debug.cpp`). Each has:
  - per-kind lists of inclusive address ranges and the scan that checks an access against them;
  - the decision to install the CPU hooks;
  - the per-instruction handler with its sticky "continuous" flag;
  - the 24-slot branch-trace ring with run-length de-duplication, and its oldest-first exporter;
  - the V810 exception-code labels (PC-FX and VB);
  - the PC-FX VDC access simulation, which turns a VDC port access into Aux breakpoint checks;
  - the VB and PlayStation address-space accessors, including the PlayStation byte
    read-modify-write of halfword SPU/GPU memory.
- **The WonderSwan EEPROMs** (`wswan/eeprom.cpp`): the register ports, the 93Cxx-style
  command interpreter (READ, WRITE, ERASE, EWDS, WRAL, ERAL, EWEN) with its write-protect
  rules, the lock, the reset, and the owner record written at initialisation.
- **The PC Engine joypad port** (`pce/input.cpp`): the multitap read index driven by SEL/CLR
  edges, and the Memory Base 128 serial protocol (wake-up, address, length, data and trailer
  phases).
- **The PC-FX SoundBox ADPCM unit** (`pcfx/soundbox.cpp`), integer part only: the nibble
  decoder with its step table, the predictor and the anti-click accumulator, nibble and
  halfword sequencing, register writes, the debugger registers, the reset and the clamps
  applied after a state load.
- **The HuC6280 disassembler** (`pce/dis6280.cpp`): decoding through the opcode tables, the
  address advance with its two cut-offs, operand text, effective addresses, the index digit
  after TAM/TMA/BBR/BBS/RMB/SMB, and the padded line with its trailing byte listing.

The model follows the source's own form, one module per source file (`DebugCommon` holds
what the three debuggers share; `Common` holds hex text and powers of two):

- State the C code keeps in globals becomes the fields of a class. Each method states the
  new state as a function of the old one.
- Loops stay loops, with invariants. Each one is proved against a specification function,
  and lemmas about those functions prove the properties the source promises.
- C's fixed-width arithmetic is written out: `uint32` addresses are `bv32`, `uint16`
  wrap-around is an explicit reduction modulo 0x10000, and `& (2^k - 1)` on a non-negative
  value is `% 2^k`.

Code the model cannot see becomes a parameter:

- memory readers and writers;
- the VDC simulation;
- the accesses the CPU reports to the breakpoint check;
- the KING halfword fetch;
- the input devices;
- the MB128 backing store;
- the disassembler's Read/GetX/GetY hooks;
- the console model (`wsIsColor`);
- the two-digit BCD macro `mBCD`.

## Model

| member | source | states |
|---|---|---|
| MemDebugger.SpaceSize | mednafen/src/drivers/memdebugger.cpp:1452-1462 | the cached size is the stated non-power-of-two size when there is one and 2^TotalBits otherwise, never 0 |
| MemDebugger.Window | mednafen/src/drivers/memdebugger.cpp:112 | the accessor returns exactly the n bytes asked for, wrapping around the space |
| MemDebugger.AheadOfStep | mednafen/src/drivers/memdebugger.cpp:103-122 | the cell reached after k steps of the scan is k steps ahead of the start |
| MemDebugger.WrapsOnlyAtFull | mednafen/src/drivers/memdebugger.cpp:121-122 | the scan is back at its start only after visiting all cells, so the do-while loop visits each cell once |
| MemDebugger.AheadInjective | mednafen/src/drivers/memdebugger.cpp:103-122 | two cells the same distance ahead of the start are the same cell |
| MemDebugger.CellAhead | mednafen/src/drivers/memdebugger.cpp:103-122 | walking the distance ahead of a cell from the start lands on that cell |
| MemDebugger.ScanResultUnique | mednafen/src/drivers/memdebugger.cpp:101-123 | the search outcome is determined: found or not, and the first match in scan order |
| MemDebugger.FindExact | mednafen/src/drivers/memdebugger.cpp:101-123 | the exact search finds the first cell in scan order from the cursor whose window equals the pattern, or reports that none does |
| MemDebugger.DeltasMatch | mednafen/src/drivers/memdebugger.cpp:139-147 | the inner loop accepts exactly when each byte differs from its predecessor by the given delta modulo 256 |
| MemDebugger.FindRelative | mednafen/src/drivers/memdebugger.cpp:125-157 | the relative search finds the first cell in scan order whose byte steps match the deltas, or reports that none does |
| MemDebugger.RStart | mednafen/src/drivers/memdebugger.cpp:129 | the intended start of the relative search is the cell just before the cursor |
| MemDebugger.RStartAsWritten | mednafen/src/drivers/memdebugger.cpp:129 | the start as written: the cursor minus one is taken modulo 2^32 before the size |
| MemDebugger.RStartAsWrittenSkipsPredecessor | mednafen/src/drivers/memdebugger.cpp:129 | at cursor 0 in a 3-byte space the written start is cell 0, not the predecessor cell 2 |
| MemDebugger.RStartAgrees | mednafen/src/drivers/memdebugger.cpp:129 | the written and intended starts agree whenever the cursor is not 0 or the size divides 2^32 |
| MemDebugger.PredecessorOfNext | mednafen/src/drivers/memdebugger.cpp:150 | the cursor set after a relative match, one past the match, has the match as its predecessor |
| MemDebugger.Pack | mednafen/src/drivers/memdebugger.cpp:182-190 | nibble pairs pack into half as many bytes, high nibble first |
| MemDebugger.NibblesBounded | mednafen/src/drivers/memdebugger.cpp:165-183 | the parsed nibbles are fewer than the characters and each is below 16 |
| MemDebugger.TextToBS | mednafen/src/drivers/memdebugger.cpp:159-192 | the parser returns the byte string the text names: hex digits of either case, spaces skipped, an error on any other character or on an odd number of digits |
| MemDebugger.OrNibble | mednafen/src/drivers/memdebugger.cpp:182-183 | ORing one nibble into the zeroed buffer fills the high half and then the low half of the next byte |
| MemDebugger.PackedComplete | mednafen/src/drivers/memdebugger.cpp:186-191 | once the count is even, the buffer truncated to count/2 bytes is the packed byte string |
| MemDebugger.NibblesSkip | mednafen/src/drivers/memdebugger.cpp:176-179 | a space adds no nibble |
| MemDebugger.NibblesTake | mednafen/src/drivers/memdebugger.cpp:167-175 | a hex digit adds its value as the next nibble |
| MemDebugger.NibblesRefuse | mednafen/src/drivers/memdebugger.cpp:180-181 | any other character is refused, naming the lower-cased character |
| MemDebugger.ErrPersists | mednafen/src/drivers/memdebugger.cpp:180-181 | once a prefix is refused the whole text is refused with the same error |
| MemDebugger.HexText | mednafen/src/drivers/memdebugger.cpp:159-192 | the text of a byte string has two digits per byte (the parser's inverse) |
| MemDebugger.Unpack | mednafen/src/drivers/memdebugger.cpp:182-183 | a byte string splits into twice as many nibbles |
| MemDebugger.ByteDigits | mednafen/src/drivers/memdebugger.cpp:167-175 | the two upper-case digits of a byte parse back as its high and low nibble |
| MemDebugger.NibbleOfHexDigit | mednafen/src/drivers/memdebugger.cpp:167-175 | every hex digit the formatter prints parses back to its value |
| MemDebugger.NibblesAppend | mednafen/src/drivers/memdebugger.cpp:165-184 | appending a digit appends its nibble |
| MemDebugger.NibblesOfHexText | mednafen/src/drivers/memdebugger.cpp:165-184 | the digits of a byte string parse to its nibbles |
| MemDebugger.PackUnpack | mednafen/src/drivers/memdebugger.cpp:182-190 | packing the nibbles of a byte string gives it back |
| MemDebugger.UnpackAt | mednafen/src/drivers/memdebugger.cpp:182-183 | nibbles 2i and 2i+1 are the high and low halves of byte i |
| MemDebugger.ParseHexText | mednafen/src/drivers/memdebugger.cpp:159-192 | round trip: the text of any byte string parses back to that byte string |
| MemDebugger.ReplaceDigitExact | mednafen/src/drivers/memdebugger.cpp:1193-1194 | replacing a digit of the edited word makes that digit read back as the typed value and keeps every other bit |
| MemDebugger.FieldReadsBack | mednafen/src/drivers/memdebugger.cpp:1206-1207 | the value written into a digit field reads back from it |
| MemDebugger.EditByteNibble | mednafen/src/drivers/memdebugger.cpp:1221-1224 | a byte edit replaces nibble d and keeps the other nibble |
| MemDebugger.EditedSpace | mednafen/src/drivers/memdebugger.cpp:1186-1226 | the edit changes no byte count of the space |
| MemDebugger.ByteEditLocal | mednafen/src/drivers/memdebugger.cpp:1219-1226 | in byte mode only the byte under the cursor changes, and only its nibble d |
| MemDebugger.NeighbourDistinct | mednafen/src/drivers/memdebugger.cpp:1203-1218 | the two bytes of a word edit are different cells once the space has two |
| MemDebugger.WordEditReadsBack | mednafen/src/drivers/memdebugger.cpp:1201-1218 | a little-endian word edit reads back with digit d equal to the typed value and every other bit kept |
| MemDebugger.WordBytesRoundTrip | mednafen/src/drivers/memdebugger.cpp:1203-1212 | the edited 16-bit word splits into two bytes that rebuild it |
| MemDebugger.GuardsAgreeOnPowerOfTwo | mednafen/src/drivers/memdebugger.cpp:1316-1362 | on a power-of-two space the size guard (more than 1 << 24) and the TotalBits guard (more than 24) refuse the same searches |
| MemDebugger.MemDebugger.constructor | mednafen/src/drivers/memdebugger.cpp:1435-1462 | a new debugger caches the space size, has the cursor at 0, digit 1, no prompt and no error |
| MemDebugger.MemDebugger.ChangePos | mednafen/src/drivers/memdebugger.cpp:1086-1100 | the cursor moves by delta modulo the size, forward or back, and the digit resets to the highest |
| MemDebugger.MemDebugger.AlignPos | mednafen/src/drivers/memdebugger.cpp:1078-1084 | with one-byte cells nothing changes; with two-byte cells the cursor is rounded down to even |
| MemDebugger.MemDebugger.AdvanceDigit | mednafen/src/drivers/memdebugger.cpp:1258-1267 | a skipped digit moves one digit right, and past the last digit to the next cell's first |
| MemDebugger.MemDebugger.RetreatDigit | mednafen/src/drivers/memdebugger.cpp:1247-1257 | backspace moves one digit left, and before the first digit to the previous cell's last |
| MemDebugger.MemDebugger.TypeDigit | mednafen/src/drivers/memdebugger.cpp:1174-1234 | a typed hex digit replaces the digit under the cursor in the space and then advances like a skip |
| MemDebugger.MemDebugger.RequestSearch | mednafen/src/drivers/memdebugger.cpp:1305-1362 | a search prompt opens unless the space is too large, in which case the error is set and no prompt opens |
| MemDebugger.MemDebugger.DoBSSearch | mednafen/src/drivers/memdebugger.cpp:101-123 | on success the cursor is on the first exact match from the cursor; otherwise it is unchanged and there is no match anywhere |
| MemDebugger.MemDebugger.DoRSearch | mednafen/src/drivers/memdebugger.cpp:125-157 | on success the cursor is one past the first relative match, scanning from the corrected start (see Findings), the cell before the cursor; otherwise unchanged and no match exists |
| MemDebugger.MemDebugger.FinishSearch | mednafen/src/drivers/memdebugger.cpp:403-465 | a search prompt closes; a parse error, a not-found error or a successful move of the cursor follows, as the search kind says; a relative search scans from the corrected start (see Findings) |
| MemDebugger.MemDebugger.FinishGoto | mednafen/src/drivers/memdebugger.cpp:207-219 | a parsed goto address moves the cursor to address times the word size, modulo 2^32, and resets the digit; unparsed text changes nothing |
| DebugCommon.AccessBytes | mednafen/src/pcfx/debug.cpp:269-282 | a len-byte access covers len consecutive 32-bit addresses from its start |
| DebugCommon.AccessBytesStep | mednafen/src/pcfx/debug.cpp:273-281 | the walk tests the start address first and then carries on from the next address |
| DebugCommon.RangeTouched | mednafen/src/pcfx/debug.cpp:271-281 | the byte walk over one breakpoint hits exactly when some byte of the access lies in its inclusive range |
| DebugCommon.ScanAccess | mednafen/src/pcfx/debug.cpp:269-282 | the scan of a list reports a hit exactly when some breakpoint of the list is touched by the access |
| DebugCommon.ScanAddress | mednafen/src/pcfx/debug.cpp:425-432 | the PC scan stops at the first breakpoint covering the address and hits exactly when one does |
| DebugCommon.Added | mednafen/src/pcfx/debug.cpp:517-542 | AddBreakPoint appends the range to its kind's list when the engine keeps that kind, and changes no other list |
| DebugCommon.Flushed | mednafen/src/pcfx/debug.cpp:494-515 | FlushBreakPoints empties the list of its kind when the engine keeps one, and changes no other list |
| DebugCommon.MemoryListsKept | mednafen/src/vb/debug.cpp:274-304 | engines with only PC, read and write lists keep every other list empty; other kinds are ignored by add and flush |
| DebugCommon.OneByteAccess | mednafen/src/psx/debug.cpp:118-143 | a one-byte access touches exactly the breakpoints that cover its address |
| DebugCommon.TouchedAfterAppend | mednafen/src/pcfx/debug.cpp:517-542 | appending a breakpoint adds exactly the accesses it touches to those the list stops on |
| DebugCommon.Prev | mednafen/src/pcfx/debug.cpp:76 | the previous record is slot (index + 23) mod 24, a valid slot |
| DebugCommon.Recorded | mednafen/src/vb/debug.cpp:69-87 | one record leaves a 24-slot ring and an index in range |
| DebugCommon.Ordered | mednafen/src/pcfx/debug.cpp:108-110 | the export order visits all 24 slots, oldest first |
| DebugCommon.RecordedRepeat | mednafen/src/vb/debug.cpp:75-76 | a branch equal to the newest record, below the count limit, only increments that record's count |
| DebugCommon.RecordedNew | mednafen/src/vb/debug.cpp:77-86 | any other branch overwrites the oldest slot with count 1 and makes it the newest; the others shift one place older |
| DebugCommon.LastIsPrev | mednafen/src/pcfx/debug.cpp:76 | the newest slot in export order is the previous record's slot |
| DebugCommon.ShiftedSlot | mednafen/src/pcfx/debug.cpp:86 | after the index advances, each export position reads the slot one position newer than before |
| DebugCommon.RecordedChangesOneSlot | mednafen/src/vb/debug.cpp:69-87 | a record changes exactly one slot: the previous one on a repeat, else the current one |
| DebugCommon.FirstRecordAfterClear | mednafen/src/vb/debug.cpp:89-99 | after a clear no slot is valid, so the next branch is always a new record in slot index |
| DebugCommon.LineOf | mednafen/src/pcfx/debug.cpp:112-114 | each exported address is written as eight hex digits |
| DebugCommon.Lines | mednafen/src/vb/debug.cpp:107-113 | the exporter produces at most one line per slot |
| DebugCommon.LinesAll | mednafen/src/pcfx/debug.cpp:106-179 | without filtering the exporter writes one line per slot, in export order |
| DebugCommon.LinesValid | mednafen/src/vb/debug.cpp:107-113 | with filtering the lines are those of the valid slots only, in export order |
| DebugCommon.ValidSlots | mednafen/src/vb/debug.cpp:111-112 | the positions kept by the filter are valid slots, in increasing order |
| DebugCommon.ValidSlotsPrefix | mednafen/src/vb/debug.cpp:107-113 | the filter decides slot by slot as the loop goes |
| DebugCommon.BranchTrace.constructor | mednafen/src/vb/debug.cpp:64-67 | at start-up every slot is blank, the index is 0 and tracing is off |
| DebugCommon.BranchTrace.Add | mednafen/src/vb/debug.cpp:69-87 | AddBranchTrace updates the slots and the index exactly as the ring specification says |
| DebugCommon.BranchTrace.Export | mednafen/src/vb/debug.cpp:101-113 | GetBranchTrace returns the lines of the slots in export order, skipping invalid ones when the engine filters |
| DebugCommon.BranchTrace.Enable | mednafen/src/vb/debug.cpp:89-99 | turning tracing off clears every slot and the index; turning it on keeps the ring |
| DebugCommon.Decimal | mednafen/src/pcfx/debug.cpp:126 | a number below 16 is printed in one or two decimal digits |
| DebugCommon.EmptyLabelIff | mednafen/src/pcfx/debug.cpp:128-130 | the label is empty exactly for code 0 |
| DebugCommon.TrapLabelIff | mednafen/src/pcfx/debug.cpp:120-123 | the label is TRAP exactly for codes 0xFFA0 to 0xFFBF |
| DebugCommon.IntLabelIff | mednafen/src/pcfx/debug.cpp:124-127 | the label is INTn exactly for codes 0xFE00 to 0xFEFF whose bits 4-7 are n |
| DebugCommon.DecimalInjective | mednafen/src/pcfx/debug.cpp:126 | different interrupt levels give different labels |
| DebugCommon.NamedLabels | mednafen/src/pcfx/debug.cpp:133-175 | each of the eleven named codes gets its own name (R, NMI, ADTR, ILL, ZD, FIV, FZD, FOV, FUD, FPR, FRO) |
| DebugCommon.OtherLabelIff | mednafen/src/pcfx/debug.cpp:130-131 | the label is "e" exactly for the codes that are not 0, a trap, an interrupt or named |
| DebugCommon.JoinLEByte | mednafen/src/pcfx/debug.cpp:554-566 | byte k of the peeked value is the byte read from the k-th address |
| DebugCommon.JoinLEBound | mednafen/src/pcfx/debug.cpp:554-566 | a value joined from n bytes is below 256^n |
| DebugCommon.JoinLEAppend | mednafen/src/pcfx/debug.cpp:561 | each further byte lands 8 bits above those before it |
| DebugCommon.Walk | mednafen/src/pcfx/debug.cpp:559-563 | the walk reads one byte per address |
| DebugCommon.WalkAt | mednafen/src/pcfx/debug.cpp:559-563 | byte i of the walk is the byte at address start + i, with 32-bit wrap-around |
| DebugCommon.Writes | mednafen/src/psx/debug.cpp:286-335 | a write pairs each value with its address from the start upwards |
| DebugCommon.WritesAt | mednafen/src/psx/debug.cpp:286-335 | value i goes to address start + i, with 32-bit wrap-around |
| DebugCommon.MemPeek | mednafen/src/pcfx/debug.cpp:554-566 | PCFXDBG_MemPeek, and the PlayStation MemPeek loop of the same shape, join bsize bytes from consecutive addresses little-endian, so its result is below 256^bsize |
| PcfxDebug.AuxAddressDecodes | mednafen/src/pcfx/debug.cpp:193-203 | the Aux address names the kind (VRAM at 0x80000 or register at 0xA0000), the VDC in bit 16 and the 16-bit offset, and each can be read back |
| PcfxDebug.AuxKindBit | mednafen/src/pcfx/debug.cpp:199-203 | bits 17 and up tell a register touch from a VRAM touch |
| PcfxDebug.AuxChipBit | mednafen/src/pcfx/debug.cpp:193-203 | bit 16 names the VDC |
| PcfxDebug.AuxOffset | mednafen/src/pcfx/debug.cpp:193-203 | the low 16 bits are the VRAM start or the register index |
| PcfxDebug.VdcTouches | mednafen/src/pcfx/debug.cpp:193-203 | one simulated access gives at most four Aux checks: VRAM read, VRAM write, register read, register write, each of an Aux kind |
| PcfxDebug.SimTouches | mednafen/src/pcfx/debug.cpp:211-249 | the touches of an access in a VDC window are all Aux checks; the VDC is chosen by bit 27 of a memory address or bit 8 of an I/O port |
| PcfxDebug.PlainAccess | mednafen/src/pcfx/debug.cpp:207-282 | outside the VDC windows an access hits exactly when its own kind's list is touched; an unknown kind never hits |
| PcfxDebug.SimulationNeedsAuxLists | mednafen/src/pcfx/debug.cpp:193-203 | with both Aux lists empty the simulation adds no hit |
| PcfxDebug.AuxTouchesMiss | mednafen/src/pcfx/debug.cpp:250-259 | Aux checks of empty Aux lists never hit |
| PcfxDebug.NoListsNoHits | mednafen/src/pcfx/debug.cpp:269-282 | with every list empty no access sets the hit flag |
| PcfxDebug.AnyHitsAppend | mednafen/src/pcfx/debug.cpp:269-282 | the hit flag after one more access is the old flag or that access's hit |
| PcfxDebug.PcfxDebugger.constructor | mednafen/src/pcfx/debug.cpp:45-72 | at start-up every list is empty, nothing is installed, tracing is off and the ring is zeroed |
| PcfxDebug.PcfxDebugger.AddBranchTrace | mednafen/src/pcfx/debug.cpp:74-91 | the ring is updated as the ring specification says, without a valid flag |
| PcfxDebug.PcfxDebugger.EnableBranchTrace | mednafen/src/pcfx/debug.cpp:93-101 | disabling clears the ring and index; the branch hook is not re-installed here |
| PcfxDebug.PcfxDebugger.GetBranchTrace | mednafen/src/pcfx/debug.cpp:103-181 | all 24 slots are exported, oldest first, with their cause labels |
| PcfxDebug.PcfxDebugger.SimuVdc | mednafen/src/pcfx/debug.cpp:183-203 | SimuVDC sets the hit flag exactly when one of its Aux checks hits |
| PcfxDebug.PcfxDebugger.CheckTouch | mednafen/src/pcfx/debug.cpp:250-282 | an Aux check sets the flag exactly when the access touches its Aux list |
| PcfxDebug.PcfxDebugger.CheckBP | mednafen/src/pcfx/debug.cpp:205-283 | PCFXDBG_CheckBP raises the hit flag exactly when the access or its simulated VDC touches hit, and never lowers it |
| PcfxDebug.PcfxDebugger.SimulateAccess | mednafen/src/pcfx/debug.cpp:211-249 | an access in a VDC window sets the flag exactly when one of its simulated touches hits |
| PcfxDebug.PcfxDebugger.CPUHandler | mednafen/src/pcfx/debug.cpp:421-482 | the hit is the PC list, the sync breaks or any reported access; continuous mode latches it; the callback is called with the PC and the hit when continuous; the flag is cleared |
| PcfxDebug.PcfxDebugger.RedoCPUHook | mednafen/src/pcfx/debug.cpp:484-492 | the instruction handler is installed exactly when a callback, logging or any breakpoint exists; the branch hook exactly when tracing is on |
| PcfxDebug.PcfxDebugger.AddBreakPoint | mednafen/src/pcfx/debug.cpp:517-542 | the range is appended to its kind's list, the hooks are redone and the Aux list sizes are reported |
| PcfxDebug.PcfxDebugger.FlushBreakPoints | mednafen/src/pcfx/debug.cpp:494-515 | the kind's list is emptied, the hooks are redone and the Aux list sizes are reported |
| PcfxDebug.PcfxDebugger.SetCPUCallback | mednafen/src/pcfx/debug.cpp:593-598 | the callback and the continuous flag are stored and the hooks redone |
| PcfxDebug.PcfxDebugger.SetLogFunc | mednafen/src/pcfx/debug.cpp:617-630 | logging is on exactly when a log function is given, and the hooks are redone |
| VbDebug.IoFoldsIntoMemory | mednafen/src/vb/debug.cpp:189-198 | an IO read or write is checked exactly as the memory read or write of the same address and length |
| VbDebug.OtherKindsNeverHit | mednafen/src/vb/debug.cpp:199-200 | accesses of any other kind return without a hit |
| VbDebug.VbDebugger.constructor | mednafen/src/vb/debug.cpp:607-611 | VBDBG_Init leaves tracing off, the index 0 and every slot zeroed, so invalid |
| VbDebug.VbDebugger.AddBranchTrace | mednafen/src/vb/debug.cpp:69-87 | the ring is updated as the ring specification says, merging only into a valid slot |
| VbDebug.VbDebugger.EnableBranchTrace | mednafen/src/vb/debug.cpp:89-99 | disabling clears the ring and index, and the hooks are redone so the branch hook follows the flag |
| VbDebug.VbDebugger.GetBranchTrace | mednafen/src/vb/debug.cpp:101-183 | only the valid slots are exported, oldest first, with their cause labels |
| VbDebug.VbDebugger.CheckBP | mednafen/src/vb/debug.cpp:185-217 | VBDBG_CheckBP raises the hit flag exactly when the access touches the list of its direction, and never lowers it |
| VbDebug.VbDebugger.CPUHandler | mednafen/src/vb/debug.cpp:243-266 | the hit is the PC list or any reported access; continuous mode latches it; the callback gets the PC and the hit; the flag is cleared |
| VbDebug.VbDebugger.RedoCPUHook | mednafen/src/vb/debug.cpp:268-272 | the handler is installed exactly when a callback, logging or a PC, read or write breakpoint exists; the branch hook exactly when tracing is on |
| VbDebug.VbDebugger.AddBreakPoint | mednafen/src/vb/debug.cpp:288-304 | PC, read and write ranges are appended to their list; other kinds change nothing; the hooks are redone |
| VbDebug.VbDebugger.FlushBreakPoints | mednafen/src/vb/debug.cpp:274-286 | the PC, read or write list is emptied; other kinds change nothing; the hooks are redone |
| VbDebug.VbDebugger.SetCPUCallback | mednafen/src/vb/debug.cpp:417-422 | the callback and continuous flag are stored and the hooks redone |
| VbDebug.VbDebugger.SetLogFunc | mednafen/src/vb/debug.cpp:441-452 | logging is on exactly when a log function is given, and the hooks are redone |
| VbDebug.WaveName | mednafen/src/vb/debug.cpp:617-624 | the wave spaces are named vsuwd0 to vsuwd4 |
| VbDebug.WaveNameRoundTrip | mednafen/src/vb/debug.cpp:357 | the accessor reads back from name[5] the wave number the name was built from |
| VbDebug.RamWraps | mednafen/src/vb/debug.cpp:348 | RAM offsets 0x10000 apart reach the same byte, since the offset is cut to 16 bits |
| VbDebug.RamInWindow | mednafen/src/vb/debug.cpp:348 | every RAM offset lands in the 64 KiB window at 0x05000000 |
| VbDebug.RamLowBits | mednafen/src/vb/debug.cpp:348 | the low 16 bits of the bus address are those of the offset |
| VbDebug.GetAddressSpaceBytes | mednafen/src/vb/debug.cpp:333-366 | the Get accessors return Length bytes, byte i from address Address + i of the space's reader |
| VbDebug.SpaceReaderAt | mednafen/src/vb/debug.cpp:333-366 | the reader of a space is the bus peek, the RAM window peek or the wave peek |
| VbDebug.SpacePokes | mednafen/src/vb/debug.cpp:368-405 | the Put accessors pass on one write per byte |
| VbDebug.SpacePokesAt | mednafen/src/vb/debug.cpp:368-405 | write i goes to the bus, the RAM window or the wave table, at address Address + i |
| VbDebug.PutAddressSpaceBytes | mednafen/src/vb/debug.cpp:368-405 | the Put accessors pass on exactly the writes of the values from Address upwards, with 32-bit wrap-around |
| PsxDebug.StartAddressOnly | mednafen/src/psx/debug.cpp:118-143 | CheckCPUBPCallB tests only the start address: the length plays no part in a hit |
| PsxDebug.OverlapPastStartMisses | mednafen/src/psx/debug.cpp:135-142 | a four-byte read at 0x100 misses a breakpoint at 0x101 that its later bytes overlap |
| PsxDebug.PsxLineCode | mednafen/src/psx/debug.cpp:111 | a slot's code is "e" exactly when it records an exception, and "" otherwise |
| PsxDebug.PsxDebugger.constructor | mednafen/src/psx/debug.cpp:706-722 | DBG_Init leaves no callback, tracing off, the index 0 and every slot zeroed |
| PsxDebug.PsxDebugger.Break | mednafen/src/psx/debug.cpp:63-66 | DBG_Break sets the hit flag |
| PsxDebug.PsxDebugger.AddBranchTrace | mednafen/src/psx/debug.cpp:68-86 | the ring is updated as the ring specification says, merging only into a valid slot with the same exception flag |
| PsxDebug.PsxDebugger.EnableBranchTrace | mednafen/src/psx/debug.cpp:88-97 | disabling clears the ring and index, and the hooks are redone so the branch hook follows the flag |
| PsxDebug.PsxDebugger.GetBranchTrace | mednafen/src/psx/debug.cpp:99-116 | all 24 slots are exported oldest first, invalid ones included |
| PsxDebug.PsxDebugger.CheckCPUBPCallB | mednafen/src/psx/debug.cpp:118-143 | the hit flag is raised exactly when the start address lies in a range of the read or write list, and never lowered |
| PsxDebug.PsxDebugger.CPUHandler | mednafen/src/psx/debug.cpp:145-189 | the hit is the PC list or any reported access; continuous mode latches it; the callback gets the PC and the hit; the flag is cleared |
| PsxDebug.PsxDebugger.RedoCPUHook | mednafen/src/psx/debug.cpp:191-196 | the handler is installed exactly when a callback, a log function or a breakpoint exists; the branch hook exactly when tracing is on |
| PsxDebug.PsxDebugger.SetLogFunc | mednafen/src/psx/debug.cpp:198-202 | the log function is stored and the hooks redone |
| PsxDebug.PsxDebugger.FlushBreakPoints | mednafen/src/psx/debug.cpp:204-214 | the read, write or PC list is emptied; other kinds change nothing; the hooks are redone |
| PsxDebug.PsxDebugger.AddBreakPoint | mednafen/src/psx/debug.cpp:216-232 | read, write and PC ranges are appended to their list; other kinds change nothing; the hooks are redone |
| PsxDebug.PsxDebugger.SetCPUCallback | mednafen/src/psx/debug.cpp:234-239 | the callback and continuous flag are stored and the hooks redone |
| PsxDebug.MasksMatchWidths | mednafen/src/psx/debug.cpp:726-729 | the masks of the cpu, ram, spu and gpu accessors keep exactly the 32, 21, 19 and 20 address bits the spaces are registered with |
| PsxDebug.RamMaskWraps | mednafen/src/psx/debug.cpp:255-263 | RAM offsets 2^21 apart reach the same byte |
| PsxDebug.SpuMaskWraps | mednafen/src/psx/debug.cpp:265-273 | SPU offsets 2^19 apart reach the same byte |
| PsxDebug.GpuMaskWraps | mednafen/src/psx/debug.cpp:275-283 | GPU offsets 2^20 apart reach the same byte |
| PsxDebug.IncMasked | mednafen/src/psx/debug.cpp:247-250 | masking the cursor before each increment reaches the same masked address as incrementing the raw cursor |
| PsxDebug.MaskedWalk | mednafen/src/psx/debug.cpp:245-263 | the cursor walk reads one byte per requested address |
| PsxDebug.MaskedWalkLow | mednafen/src/psx/debug.cpp:245-263 | the bytes read depend only on the masked start address |
| PsxDebug.MaskedWalkIsWalk | mednafen/src/psx/debug.cpp:245-263 | masking the cursor as it goes reads the same bytes as masking each address of a plain walk |
| PsxDebug.MaskedWritesAreMasked | mednafen/src/psx/debug.cpp:288-307 | the written addresses are the access's addresses masked, in order |
| PsxDebug.MaskedWritesLow | mednafen/src/psx/debug.cpp:288-307 | the writes depend only on the masked start address |
| PsxDebug.GetBusBytes | mednafen/src/psx/debug.cpp:243-263 | the cpu and ram accessors return Length bytes, byte i the peek of (Address + i) masked |
| PsxDebug.MaskedPeekWalk | mednafen/src/psx/debug.cpp:243-263 | the masked cursor loop equals a walk over the masked peek |
| PsxDebug.PutBusBytes | mednafen/src/psx/debug.cpp:286-307 | the cpu and ram accessors poke value i at (Address + i) masked, in order |
| PsxDebug.MergedBytes | mednafen/src/psx/debug.cpp:313-316 | a poked byte reads back from its halfword and the other byte of the halfword is kept |
| PsxDebug.MergedAtLow | mednafen/src/psx/debug.cpp:315 | a byte poked at an even address replaces the low byte of the halfword |
| PsxDebug.MergedAtHigh | mednafen/src/psx/debug.cpp:315 | a byte poked at an odd address replaces the high byte of the halfword |
| PsxDebug.ExtractLow | mednafen/src/psx/debug.cpp:270 | an even address reads the low byte of its halfword |
| PsxDebug.ExtractHigh | mednafen/src/psx/debug.cpp:270 | an odd address reads the high byte of its halfword |
| PsxDebug.SpuIndexBound | mednafen/src/psx/debug.cpp:268-270 | every SPU halfword index is below 0x40000 |
| PsxDebug.GpuIndexBound | mednafen/src/psx/debug.cpp:278-280 | every GPU halfword index is below 0x80000 |
| PsxDebug.SameHalfOtherLane | mednafen/src/psx/debug.cpp:313-315 | two different addresses in the same halfword are its two bytes |
| PsxDebug.LanePeekIsByteAt | mednafen/src/psx/debug.cpp:265-283 | behind the space mask, the lane reader reads byte (A & 1) of halfword A >> 1 |
| PsxDebug.PeekAfterPoke | mednafen/src/psx/debug.cpp:309-332 | a byte poked into SPU or GPU RAM is read back by a later peek |
| PsxDebug.PokeKeepsOthers | mednafen/src/psx/debug.cpp:309-332 | a poke changes no other address of the space, including the other byte of its halfword |
| PsxDebug.PokedFromLow | mednafen/src/psx/debug.cpp:309-332 | poking from addresses equal under the mask changes the memory in the same way |
| PsxDebug.HalfwordRam.constructor | mednafen/src/psx/debug.cpp:728-729 | a halfword space holds its mask and its memory |
| PsxDebug.HalfwordRam.GetBytes | mednafen/src/psx/debug.cpp:265-283 | the spu and gpu accessors return byte (A & 1) of halfword A >> 1 for each masked address A |
| PsxDebug.HalfwordRam.PutBytes | mednafen/src/psx/debug.cpp:309-332 | the spu and gpu accessors merge each byte into its halfword, in order |
| PsxDebug.Disassemble | mednafen/src/psx/debug.cpp:347-366 | an unaligned cursor gives "UNALIGNED"; otherwise the text is the disassembly cut to 255 characters; the cursor moves to the next aligned word |
| PsxDebug.Truncated | mednafen/src/psx/debug.cpp:362-363 | the copied text is a prefix of at most 255 characters, and all of a shorter text |
| PsxDebug.CursorAdvances | mednafen/src/psx/debug.cpp:351-365 | the returned cursor is word-aligned and lies past the aligned-down start by 4 |
| WSwanEeprom.WithByteReplacesOne | mednafen/src/wswan/eeprom.cpp:142-151 | writing one byte of the data or address register replaces that byte and keeps the other |
| WSwanEeprom.WithLowByte | mednafen/src/wswan/eeprom.cpp:142 | a low-byte write reads back as the byte written and keeps the high byte |
| WSwanEeprom.WithHighByte | mednafen/src/wswan/eeprom.cpp:143 | a high-byte write reads back as the byte written and keeps the low byte |
| WSwanEeprom.PortOf | mednafen/src/wswan/eeprom.cpp:40-59 | ports 0xBA-0xBE select the internal EEPROM's five registers and 0xC4-0xC8 the cartridge's; no other port selects one |
| WSwanEeprom.RegisterRoundTrip | mednafen/src/wswan/eeprom.cpp:40-59 | a register port reads back the byte last written to it; writing it changes no other port's value and not the command register |
| WSwanEeprom.CommandReadStatus | mednafen/src/wswan/eeprom.cpp:50 | a command-port read has the upper six bits set and the command's status bits below them |
| WSwanEeprom.Log2 | mednafen/src/wswan/eeprom.cpp:80 | every size that occurs, 2^3 to 2^11 bytes, has a shift of log2(size) - 3 that is not negative |
| WSwanEeprom.OpClasses | mednafen/src/wswan/eeprom.cpp:88-131 | opcodes with bit 4 clear do nothing; class 0x10 chooses the four extended operations |
| WSwanEeprom.WordAddressBounds | mednafen/src/wswan/eeprom.cpp:79 | the word address is even and both of its bytes lie inside the EEPROM |
| WSwanEeprom.Effect | mednafen/src/wswan/eeprom.cpp:88-131 | an operation keeps the size of the memory |
| WSwanEeprom.BytesAfter | mednafen/src/wswan/eeprom.cpp:61-136 | a command keeps the size of the memory |
| WSwanEeprom.RanUnfold | mednafen/src/wswan/eeprom.cpp:72-136 | a running command performs the operation its opcode selects at its word address, with the protection rule applied |
| WSwanEeprom.IdleCommand | mednafen/src/wswan/eeprom.cpp:63-70 | a command outside classes 0x10, 0x20 and 0x40 changes no memory and only latches bit 0x80 |
| WSwanEeprom.StatusAfterIs | mednafen/src/wswan/eeprom.cpp:72-134 | the status bits are cleared and then 0x02, and 0x01 for class 0x10, are set again |
| WSwanEeprom.RunStatus | mednafen/src/wswan/eeprom.cpp:133-134 | a command that runs leaves status bit 0x02 set, and bit 0x01 set exactly for class 0x10 |
| WSwanEeprom.WriteEnableBit | mednafen/src/wswan/eeprom.cpp:93-106 | EWDS sets the write-disable bit, EWEN clears it, and every other command keeps it |
| WSwanEeprom.ReadCommand | mednafen/src/wswan/eeprom.cpp:109-113 | READ loads the little-endian word at the word address into the data register (for class 0x10) and changes no memory |
| WSwanEeprom.LockedKeepsMemory | mednafen/src/wswan/eeprom.cpp:82-86 | with write-disable set, or above 0x30 of the locked internal EEPROM, no command changes the memory |
| WSwanEeprom.WordCommands | mednafen/src/wswan/eeprom.cpp:114-131 | unlocked WRITE stores the data and ERASE stores 0xFFFF in the selected word, little-endian; every other byte is kept |
| WSwanEeprom.AllCommands | mednafen/src/wswan/eeprom.cpp:96-103 | unlocked WRAL writes the data's low byte to even and high byte to odd addresses below the size; ERAL writes 0xFF there; bytes above are kept |
| WSwanEeprom.LockedCommand | mednafen/src/wswan/eeprom.cpp:163-166 | WSwan_EEPROMLock sets bit 0x80 to the lock flag and keeps the low seven bits |
| WSwanEeprom.Eeprom.constructor | mednafen/src/wswan/eeprom.cpp:33-38 | each EEPROM has a 2048-byte array and zeroed registers |
| WSwanEeprom.Eeprom.WriteRegister | mednafen/src/wswan/eeprom.cpp:142-151 | a data or address port write replaces one byte of that register |
| WSwanEeprom.Eeprom.Command | mednafen/src/wswan/eeprom.cpp:61-136 | WSwan_EEPROMCommand leaves the memory and the registers as the command specification says |
| WSwanEeprom.Eeprom.Run | mednafen/src/wswan/eeprom.cpp:72-136 | the part of a command that runs leaves the memory and registers as the specification of a running command says |
| WSwanEeprom.Eeprom.Execute | mednafen/src/wswan/eeprom.cpp:88-131 | the opcode dispatch changes the memory, the lock bit and the data as its operation says |
| WSwanEeprom.Eeprom.WriteWord | mednafen/src/wswan/eeprom.cpp:119-120 | two byte stores at the word address and the next |
| WSwanEeprom.Eeprom.WriteAll | mednafen/src/wswan/eeprom.cpp:98 | WRAL's loop writes every byte below size from the data and keeps the rest |
| WSwanEeprom.Eeprom.EraseAll | mednafen/src/wswan/eeprom.cpp:102 | ERAL's memset writes 0xFF below size and keeps the rest |
| WSwanEeprom.NameCode | mednafen/src/wswan/eeprom.cpp:180-192 | every owner-name character is stored as a code no larger than 0x2A |
| WSwanEeprom.NameRoundTrip | mednafen/src/wswan/eeprom.cpp:180-192 | every showable character, once upper-cased, is stored as a code that decodes back to it; every other character is stored as 0 |
| WSwanEeprom.DigitRoundTrip | mednafen/src/wswan/eeprom.cpp:190 | digits decode back from codes 1 to 10 |
| WSwanEeprom.LetterRoundTrip | mednafen/src/wswan/eeprom.cpp:191 | letters decode back from codes 0x0B to 0x24 |
| WSwanEeprom.NameRanges | mednafen/src/wswan/eeprom.cpp:185-191 | digits, letters and the four symbols land in their own code ranges |
| WSwanEeprom.YearBcd | mednafen/src/wswan/eeprom.cpp:197-199 | INT16_TO_BCD gives a 16-bit value |
| WSwanEeprom.Bcd2Digits | mednafen/src/wswan/eeprom.cpp:197 | each BCD byte holds the tens and the units of two decimal digits |
| WSwanEeprom.YearBytes | mednafen/src/wswan/eeprom.cpp:197-202 | the year's high byte holds its hundreds and thousands, the low byte its tens and units |
| WSwanEeprom.YearBcdRoundTrip | mednafen/src/wswan/eeprom.cpp:197-202 | the year bytes hold four decimal digits that spell the year modulo 10000 |
| WSwanEeprom.InternalSize | mednafen/src/wswan/eeprom.cpp:29-31 | the internal EEPROM has 128 bytes on a mono console and 2048 on a Color, both valid sizes |
| WSwanEeprom.PortWriteSelects | mednafen/src/wswan/eeprom.cpp:138-154 | a port write changes at most the EEPROM its port belongs to |
| WSwanEeprom.InitialByteIs | mednafen/src/wswan/eeprom.cpp:168-214 | the initial internal contents are the named, birth-date and counter bytes stored in the order the source stores them |
| WSwanEeprom.EepromPorts.constructor | mednafen/src/wswan/eeprom.cpp:33-38 | both EEPROMs start with zeroed registers and the cartridge EEPROM has its size |
| WSwanEeprom.EepromPorts.Read | mednafen/src/wswan/eeprom.cpp:40-59 | WSwan_EEPROMRead returns the selected register byte, or 0 for any other port |
| WSwanEeprom.EepromPorts.ReadRegister | mednafen/src/wswan/eeprom.cpp:46-56 | one EEPROM's register read |
| WSwanEeprom.EepromPorts.Write | mednafen/src/wswan/eeprom.cpp:138-154 | WSwan_EEPROMWrite updates the EEPROM the port selects, with the internal size of the console model |
| WSwanEeprom.EepromPorts.Dispatch | mednafen/src/wswan/eeprom.cpp:140-153 | a register write or command on one EEPROM leaves the other untouched |
| WSwanEeprom.EepromPorts.Lock | mednafen/src/wswan/eeprom.cpp:163-166 | only bit 0x80 of the internal command register changes |
| WSwanEeprom.EepromPorts.Reset | mednafen/src/wswan/eeprom.cpp:156-161 | every register of both EEPROMs is 0 |
| WSwanEeprom.EepromPorts.WriteBirth | mednafen/src/wswan/eeprom.cpp:199-206 | the birth date, sex and blood type are stored at 0x70-0x75 |
| WSwanEeprom.EepromPorts.WriteCounters | mednafen/src/wswan/eeprom.cpp:208-213 | the change counters, 0x7F and 0x83 are stored |
| WSwanEeprom.EepromPorts.Init | mednafen/src/wswan/eeprom.cpp:168-214 | WSwan_EEPROMInit zeroes the cartridge EEPROM and writes the initial internal contents |
| PceInput.IndexAfter | mednafen/src/pce/input.cpp:243-263 | the read index stays below 256 |
| PceInput.IndexTransitions | mednafen/src/pce/input.cpp:248-262 | SEL high on the write where CLR rises resets the index; a SEL rising edge with CLR held low increments it up to 255; any other write keeps it |
| PceInput.TapValue | mednafen/src/pce/input.cpp:231-241 | the multitap returns 0 past port 4, 0xF for an empty port, and the device's value otherwise |
| PceInput.PortValue | mednafen/src/pce/input.cpp:214-223 | a port with no device reads as 0xF; a port with a device reads as that device's value |
| PceInput.Pulses | mednafen/src/pce/input.cpp:256-262 | k SEL pulses are 2k writes |
| PceInput.TapWritesAppend | mednafen/src/pce/input.cpp:432-447 | writes compose one after another |
| PceInput.PulsesCount | mednafen/src/pce/input.cpp:256-262 | k SEL pulses with CLR low advance the index by k, stopping at 255 |
| PceInput.TapScan | mednafen/src/pce/input.cpp:243-263 | a game's scan (SEL high, CLR pulsed, then k SEL pulses) leaves the index at k, at most 255, whatever it was before |
| PceInput.InputValue | mednafen/src/pce/input.cpp:421-428 | INPUT_Read sets bits 0x30 always and 0x80 when there is no CD unit, and keeps the source's other bits |
| PceInput.SetBitBits | mednafen/src/pce/input.cpp:294 | ORing in bit k (`1 << k`) gives a value with bit k set and every other bit equal to x's |
| PceInput.SetBitKeeps | mednafen/src/pce/input.cpp:294 | ORing in bit k leaves each bit j other than k as it was in x |
| PceInput.WithBitOnly | mednafen/src/pce/input.cpp:336-338 | the MB128 write changes only the addressed bit of the byte, and a read then returns it |
| PceInput.Shifted | mednafen/src/pce/input.cpp:389-398 | while asleep, SEL shifts into bit 7 and the MB128 wakes, in state A1, exactly when the register reads 0xA8 |
| PceInput.PokeAt | mednafen/src/pce/input.cpp:338 | a store changes only the byte addressed |
| PceInput.DataBits | mednafen/src/pce/input.cpp:335-351 | a write-phase bit changes only bit bitnum of the current byte, to SEL; a read-phase bit returns that bit and changes no byte |
| PceInput.DataProgress | mednafen/src/pce/input.cpp:320-351 | after each data bit one fewer is left; the last one leads to the trailer; every eighth moves to the next byte |
| PceInput.AddrValid | mednafen/src/pce/input.cpp:293-303 | an address bit keeps the registers in their reachable ranges |
| PceInput.LenValid | mednafen/src/pce/input.cpp:305-318 | a length bit keeps the registers in their reachable ranges |
| PceInput.SetBitFresh | mednafen/src/pce/input.cpp:294 | setting a bit above every set bit adds its weight |
| PceInput.DataValid | mednafen/src/pce/input.cpp:320-351 | a data bit keeps the registers in their reachable ranges |
| PceInput.TrailValid | mednafen/src/pce/input.cpp:353-377 | a trailer clock keeps the registers in their reachable ranges |
| PceInput.SentValid | mednafen/src/pce/input.cpp:268-379 | MB128_Send keeps the registers reachable: active exactly outside Idle, counters within their phase's bounds |
| PceInput.ClockedValid | mednafen/src/pce/input.cpp:381-400 | every MB128Write keeps the registers reachable |
| PceInput.PulsedAppend | mednafen/src/pce/input.cpp:381-400 | clock pulses compose one after another |
| PceInput.PulsedOne | mednafen/src/pce/input.cpp:381-400 | one pulse is one CLR rising edge |
| PceInput.AsleepPulse | mednafen/src/pce/input.cpp:389-398 | a pulse while asleep only shifts the register |
| PceInput.WakeUp | mednafen/src/pce/input.cpp:389-398 | from any sleeping state the eight SEL bits of 0xA8 wake the MB128 in state A1 |
| PceInput.Handshake | mednafen/src/pce/input.cpp:275-291 | A1 and A2 answer the ident bit for a SEL bit; the third bit is the read/write command and starts the address phase |
| PceInput.ActivePulse | mednafen/src/pce/input.cpp:386-388 | a pulse while awake is one MB128_Send |
| PceInput.AddrBits | mednafen/src/pce/input.cpp:293-303 | each address bit lands at bit bitnum + 7 of the address |
| PceInput.LenBitsIn | mednafen/src/pce/input.cpp:305-318 | each length bit lands at bit bitnum of the bit count |
| PceInput.BitsValueBound | mednafen/src/pce/input.cpp:294 | n bits have a value below 2^n |
| PceInput.BitsValueSnoc | mednafen/src/pce/input.cpp:294 | a further bit adds its weight |
| PceInput.AddressPhase | mednafen/src/pce/input.cpp:293-303 | ten SEL bits form address bits 7 to 16, first bit lowest, then the length phase starts |
| PceInput.LengthPhase | mednafen/src/pce/input.cpp:305-318 | twenty SEL bits form the bit count, first bit lowest, then the read or write phase starts, or its trailer for a count of 0 |
| PceInput.TrailPulse | mednafen/src/pce/input.cpp:353-377 | a pulse in a trailer is one trailer step |
| PceInput.WriteTrailer | mednafen/src/pce/input.cpp:353-362 | the write trailer lasts three clocks and hands over to the read trailer |
| PceInput.ReadTrailer | mednafen/src/pce/input.cpp:364-377 | the read trailer lasts four clocks and puts the MB128 back to sleep with command, address and length cleared |
| PceInput.Trailers | mednafen/src/pce/input.cpp:353-377 | the two trailers take seven clocks from the end of a write back to sleep |
| PceInput.Mb128.constructor | mednafen/src/pce/input.cpp:110-117 | the registers start at their static initial values |
| PceInput.Mb128.Send | mednafen/src/pce/input.cpp:268-379 | MB128_Send leaves the registers and the store as the protocol step says |
| PceInput.Mb128.NextDataBit | mednafen/src/pce/input.cpp:322-332 | the bit counting of the data phases |
| PceInput.Mb128.Clock | mednafen/src/pce/input.cpp:381-400 | MB128Write acts only on a CLR rising edge: a protocol step when awake, a shift when asleep |
| PceInput.InputPort.constructor | mednafen/src/pce/input.cpp:88-117 | the port starts with SEL and CLR low, index 0 and the MB128 at its initial values |
| PceInput.InputPort.Read | mednafen/src/pce/input.cpp:402-429 | INPUT_Read returns the MB128's bit when it is present and awake, else the multitap's port or port 0, with the fixed bits added |
| PceInput.InputPort.MultiTapRead | mednafen/src/pce/input.cpp:231-241 | MultiTapRead returns the value of the selected port |
| PceInput.InputPort.Write | mednafen/src/pce/input.cpp:431-447 | INPUT_Write stores SEL and CLR from bits 0 and 1, clocks the MB128 when present and moves the multitap index when enabled |
| PceInput.InputPort.Power | mednafen/src/pce/input.cpp:449-458 | PCEINPUT_Power clears SEL, CLR and the index |
| PcfxSoundBox.Clamp | mednafen/src/pcfx/soundbox.cpp:781-792 | the clamp gives a value inside [lo, hi]: the value itself when it is already inside, otherwise the bound it passed |
| PcfxSoundBox.KingShift | mednafen/src/pcfx/soundbox.cpp:520 | the interpolation shift (KINGADPCMControl >> 2) & 3 is below 4 |
| PcfxSoundBox.Nibble | mednafen/src/pcfx/soundbox.cpp:539 | the selected nibble of the halfword is below 16 |
| PcfxSoundBox.NibbleDecoded | mednafen/src/pcfx/soundbox.cpp:539-568 | decoding a nibble keeps the step index inside the 49-entry step table |
| PcfxSoundBox.DeltaStep | mednafen/src/pcfx/soundbox.cpp:532-569 | the delta of a step keeps the step index inside the table and leaves the nibble position and the halfword alone |
| PcfxSoundBox.Decoded | mednafen/src/pcfx/soundbox.cpp:524-580 | one decode step of a channel keeps the step index inside the table |
| PcfxSoundBox.ResetHolds | mednafen/src/pcfx/soundbox.cpp:532-536 | while a channel's reset bit is set, a step gives a zero delta and keeps the step index and the predictor |
| PcfxSoundBox.SilentHolds | mednafen/src/pcfx/soundbox.cpp:523-524 | a channel that holds no halfword, and that KING does not tell to play, is left exactly as it is |
| PcfxSoundBox.DecodedDelta | mednafen/src/pcfx/soundbox.cpp:539-561 | a decoded delta is never zero and is negative exactly when nibble bit 3 is set; its magnitude is the step size times (n & 7) + 1, doubled by the buggy codec (1552 read as 1522), shifted down under interpolation, and at most 24352 |
| PcfxSoundBox.StepSizeRange | mednafen/src/pcfx/soundbox.cpp:35-41 | the step sizes lie between 16 and 1411, except for the last, which is 1552 |
| PcfxSoundBox.MagnitudeRange | mednafen/src/pcfx/soundbox.cpp:545-553 | every delta magnitude lies between 16 and 24352 |
| PcfxSoundBox.AppliedInRange | mednafen/src/pcfx/soundbox.cpp:599-607 | applying a pending delta keeps the predictor inside [-0x4000, 0x3FFF]; with no delta pending it changes nothing |
| PcfxSoundBox.DecayedInRange | mednafen/src/pcfx/soundbox.cpp:658-663 | the anti-click decay moves the accumulator towards 0 without crossing it, so the accumulator stays inside its bounds |
| PcfxSoundBox.DecodedPosition | mednafen/src/pcfx/soundbox.cpp:524-580 | a playing step moves the nibble position by 4 modulo 16; at position 0 it fetches a new halfword; it holds a halfword exactly while the new position is not 0 |
| PcfxSoundBox.NibbleCycle | mednafen/src/pcfx/soundbox.cpp:524-580 | four steps from the start of a halfword fetch it once, pass through positions 4, 8, 12 and 0, and then drop it |
| PcfxSoundBox.NibblesOfHalfword | mednafen/src/pcfx/soundbox.cpp:539 | the four nibble positions give the halfword's four nibbles, lowest first |
| PcfxSoundBox.ChannelResetValid | mednafen/src/pcfx/soundbox.cpp:429-444 | a channel reset keeps the anti-click accumulator inside its bounds and zeroes the predictor and the step index |
| PcfxSoundBox.ControlWrite | mednafen/src/pcfx/soundbox.cpp:426-447 | a write to register 0x20 restarts exactly the channels whose reset bit goes from 0 to 1, leaves every other channel as it was, and stores V as the new control |
| PcfxSoundBox.WriteKeepsValid | mednafen/src/pcfx/soundbox.cpp:412-474 | every SoundBox_Write keeps the state valid; an address below 0x20 after the 6-bit cut changes nothing here; a volume register stores the low 6 bits of V |
| PcfxSoundBox.RegisterRoundTrip | mednafen/src/pcfx/soundbox.cpp:142-241 | reading a debugger register back after setting it gives the value modulo the register's width: 16 bits for the control, 6 for the volumes, 15 for the predictors |
| PcfxSoundBox.RegisterSetOthers | mednafen/src/pcfx/soundbox.cpp:197-241 | setting one debugger register leaves the value of every other register alone |
| PcfxSoundBox.RegisterSetValid | mednafen/src/pcfx/soundbox.cpp:197-241 | a debugger write keeps the state valid |
| PcfxSoundBox.ResetValid | mednafen/src/pcfx/soundbox.cpp:715-744 | SoundBox_Reset keeps the state valid and leaves both channels at the start of a halfword, holding none |
| PcfxSoundBox.LoadedChannelValid | mednafen/src/pcfx/soundbox.cpp:784-798 | whatever a loaded channel holds, the clamps make it valid; applying them twice is the same as once, and a channel that is already valid comes through unchanged |
| PcfxSoundBox.LoadedValid | mednafen/src/pcfx/soundbox.cpp:779-800 | the same for the whole state, with bigdiv clamped to 1..1365 and smalldiv to 1..8; the uint16 control register and the uint8 CD-DA volumes are loaded unmasked and stay as loaded |
| PcfxSoundBox.SoundBox.constructor | mednafen/src/pcfx/soundbox.cpp:332-382 | SoundBox_Init records the two codec settings and zeroes the whole state |
| PcfxSoundBox.SoundBox.Write | mednafen/src/pcfx/soundbox.cpp:412-474 | SoundBox_Write keeps the state valid and leaves it exactly as the write specification says |
| PcfxSoundBox.SoundBox.WriteControl | mednafen/src/pcfx/soundbox.cpp:426-447 | register 0x20 resets each channel whose reset bit goes from 0 to 1, then stores V |
| PcfxSoundBox.SoundBox.DecodeStep | mednafen/src/pcfx/soundbox.cpp:521-581 | one pass of the channel loop decodes both channels as the step specification says, and keeps the state valid |
| PcfxSoundBox.SoundBox.DecodeChannel | mednafen/src/pcfx/soundbox.cpp:524-580 | the loop body decodes one channel as specified and keeps it valid |
| PcfxSoundBox.SoundBox.DecodeNibble | mednafen/src/pcfx/soundbox.cpp:539-568 | decodes the nibble of a channel that is not held in reset |
| PcfxSoundBox.SoundBox.Advance | mednafen/src/pcfx/soundbox.cpp:570-579 | the end of a step: the count of pending predictor steps and the next nibble position |
| PcfxSoundBox.SoundBox.ApplyDeltas | mednafen/src/pcfx/soundbox.cpp:591-607 | applies the predictor step to both channels and keeps the state valid |
| PcfxSoundBox.SoundBox.DecayAntiClick | mednafen/src/pcfx/soundbox.cpp:658-663 | applies the anti-click decay to both channels and keeps the state valid |
| PcfxSoundBox.SoundBox.GetRegister | mednafen/src/pcfx/soundbox.cpp:142-195 | SBoxDBG_GetRegister returns the register's value from the read specification |
| PcfxSoundBox.SoundBox.SetRegister | mednafen/src/pcfx/soundbox.cpp:197-241 | SBoxDBG_SetRegister keeps the state valid and stores the register's bits as the set specification says |
| PcfxSoundBox.SoundBox.Reset | mednafen/src/pcfx/soundbox.cpp:715-744 | SoundBox_Reset keeps the state valid, zeroes the control, the volumes, the predictors, the step indexes and the nibble state, and sets bigdiv to 2 and smalldiv to 0 |
| PcfxSoundBox.SoundBox.ClampLoaded | mednafen/src/pcfx/soundbox.cpp:779-800 | for any uint16 control value and any uint8 CD-DA volumes, the clamps after a state load leave the state valid and equal to the load specification |
| Dis6280.Fetched | mednafen/src/pce/dis6280.cpp:739-748 | the operand loop fetches at most the mode's byte count and never moves the address past 0xFFF6 |
| Dis6280.FetchedClosedForm | mednafen/src/pce/dis6280.cpp:739-748 | the number of bytes fetched is the distance to the first stop: the end of the operand, the special address, or the vector area at 0xFFF6 |
| Dis6280.Bytes | mednafen/src/pce/dis6280.cpp:747 | k reads from address a on give k bytes |
| Dis6280.BytesAt | mednafen/src/pce/dis6280.cpp:747 | byte i of the fetched run is the read at a + i, narrowed to 16 bits |
| Dis6280.BytesCons | mednafen/src/pce/dis6280.cpp:747 | a run of k + 1 reads is the first read followed by the run of k reads from the next address |
| Dis6280.Decode | mednafen/src/pce/dis6280.cpp:724-749 | a decoding that is not given up holds at least as many operand bytes as its mode needs |
| Dis6280.DecodeAdvance | mednafen/src/pce/dis6280.cpp:733-749 | below the vectors the address moves past the opcode and the operands fetched; it gets the full operand exactly when neither the special address nor 0xFFF6 falls inside it, and then it decodes through the opcode tables; otherwise the instruction is illegal and the address stops at the special address or at 0xFFF6 |
| Dis6280.VectorAdvance | mednafen/src/pce/dis6280.cpp:724-732 | in the vector area the instruction is illegal with no operands, the address moves by 2 when the next address is odd and not special and by 1 otherwise, and it ends up even or at the special address |
| Dis6280.Fetch | mednafen/src/pce/dis6280.cpp:719-749 | the opcode and operand fetch give the decoding the specification gives |
| Dis6280.FetchOperands | mednafen/src/pce/dis6280.cpp:739-748 | the loop returns the bytes read, the address after them, and whether the operand is complete, as the closed form counts them |
| Dis6280.SignExtend | mednafen/src/pce/dis6280.cpp:808 | (b ^ 0x80) - 0x80 turns a displacement byte into -128..127 |
| Dis6280.BranchRoundTrip | mednafen/src/pce/dis6280.cpp:806-811 | the displacement byte can be read back out of a branch target, and the target is the next address plus the signed displacement, modulo 64K |
| Dis6280.ZeroPage | mednafen/src/pce/dis6280.cpp:822-836 | an indexed zero-page address stays in page 0x2000..0x20FF |
| Dis6280.WordBytes | mednafen/src/pce/dis6280.cpp:875 | a little-endian word gives back its low and high bytes |
| Dis6280.ZpPointerBytes | mednafen/src/pce/dis6280.cpp:848-855 | a zero-page pointer takes its low byte from 0x2000 + zp and its high byte from the next zero-page byte, which wraps to 0x2000 when zp is 0xFF |
| Dis6280.EffectiveAddressShown | mednafen/src/pce/dis6280.cpp:780-966 | an effective address is formed exactly for the indexed, indirect, ZPR and value-prefixed modes, and for ZPG and ABS when the mnemonic reads its operand |
| Dis6280.ZeroPageOperands | mednafen/src/pce/dis6280.cpp:813-855 | the zero-page modes address page 0x2000 with the index added modulo 256, and [zp] reads its pointer out of that page |
| Dis6280.HighBit | mednafen/src/pce/dis6280.cpp:764 | counting right shifts until the byte is zero gives a digit that fits the byte's width |
| Dis6280.HighBitBounds | mednafen/src/pce/dis6280.cpp:762-764 | the shift count is the position of the highest set bit: 2^d <= b < 2^(d+1) |
| Dis6280.PageRegisterDigit | mednafen/src/pce/dis6280.cpp:757-765 | for opcodes 0x43 and 0x53 (TMA and TAM) the digit after the name is the highest set bit of the mask operand, and '0' for a mask of 0 or 1 |
| Dis6280.OpcodeTma | mednafen/src/pce/dis6280.cpp:597 | opcode 0x43 is TMA in mode MPR, a mnemonic that takes an index digit |
| Dis6280.OpcodeTam | mednafen/src/pce/dis6280.cpp:593 | opcode 0x53 is TAM in mode MPR, a mnemonic that takes an index digit |
| Dis6280.CountShifts | mednafen/src/pce/dis6280.cpp:762-764 | the shift loop counts the highest-bit position |
| Dis6280.IndexDigitOf | mednafen/src/pce/dis6280.cpp:757-775 | writes the character after the name: a space, the TAM/TMA page digit, or bits 4-6 of a BBR/BBS/RMB/SMB opcode |
| Dis6280.Padded | mednafen/src/pce/dis6280.cpp:970 | padding gives the text followed by spaces up to the column, and leaves text that is already long enough unchanged |
| Dis6280.PadTo | mednafen/src/pce/dis6280.cpp:970 | the padding loop writes exactly the padded text |
| Dis6280.HexList | mednafen/src/pce/dis6280.cpp:981-982 | " %02X" for each byte gives three characters per byte |
| Dis6280.AdvanceIsWrap | mednafen/src/pce/dis6280.cpp:982 | i increments of a uint16 reach the start plus i, modulo 64K |
| Dis6280.WrapGap | mednafen/src/pce/dis6280.cpp:981 | the uint16 distance from start to stop is stop - start, plus 64K when stop is below start |
| Dis6280.WrapDistance | mednafen/src/pce/dis6280.cpp:981-982 | incrementing start that many times reaches stop |
| Dis6280.WrapBefore | mednafen/src/pce/dis6280.cpp:981-982 | fewer increments never reach stop, so the loop lists each byte once |
| Dis6280.ListingStep | mednafen/src/pce/dis6280.cpp:982 | one more turn of the listing loop appends " %02X" of the next byte |
| Dis6280.ListBytes | mednafen/src/pce/dis6280.cpp:981-982 | the trailing loop writes the bytes from start up to the final address |
| Dis6280.ListingOfInstruction | mednafen/src/pce/dis6280.cpp:981-982 | below the vector area the listing holds exactly the opcode followed by the operand bytes fetched |
| Dis6280.OpcodeAndOperands | mednafen/src/pce/dis6280.cpp:737-748 | the bytes from the opcode to the next address are the opcode followed by the operands |
| Dis6280.ValueNoteShown | mednafen/src/pce/dis6280.cpp:968-976 | the " = $nn" note appears exactly when an effective address was formed and the mnemonic reads its operand, and it reads back as the byte at that address |
| Dis6280.Hex2RoundTrip | mednafen/src/pce/dis6280.cpp:975 | "%02X" of a byte reads back as that byte |
| Dis6280.Columns | mednafen/src/pce/dis6280.cpp:978-982 | every line is padded to column 50 and then holds ';' followed by the byte listing, with the text before it kept |
| Dis6280.Disassemble | mednafen/src/pce/dis6280.cpp:710-983 | Disassemble writes exactly the line the specification composes (prefix, name, index digit, operand, annotation, columns, listing) and returns the decoded next address |
| Common.Hex | mednafen/src/pce/dis6280.cpp:717 | "%0*X" of a value prints exactly the requested number of digits |
| Common.HexRoundTrip | mednafen/src/pce/dis6280.cpp:810 | reading back the digits printed by "%0*X" gives the value modulo 16^width |

## Left out

- Drawing, SDL event dispatch beyond the search and cursor arithmetic, and the text prompts of the memory debugger are not modelled. They are user interface. Only the results of the goto and search prompts are modelled.
- The memory debugger's dump, load and hex-dump commands are not modelled. They are file I/O.
- The text search's character-set conversion (iconv) is not modelled. The search is modelled on the bytes it produces.
- `ASpacePos` is taken to be a `uint32`. The header that declares it is not part of this model.
- System-call logging, ROM-font logging and the Shift-JIS conversion in the PC-FX debugger are not modelled. Neither is the BIOS-call logging in the PlayStation handler. They do printf, stdout and iconv I/O. What remains is the `loggingOn` flag that the hook decision reads.
- The register-description tables and the GetRegister/SetRegister dispatchers into other chips are not modelled. They are display plumbing over code this model does not include.
- The CPU's breakpoint check is modelled as a sequence of accesses given to the handler. The VDC's SimulateRead16/SimulateWrite16 are modelled as a function parameter. KING_NotifyOfBPE is not modelled beyond the Aux list sizes it is told.
- The CPU hooks are modelled as two "installed" booleans. The callback is modelled by whether one is set, plus the call it would receive.
- DebugCommon.MemPeek: requires `bsize <= 4`, because a shift of 32 or more bits is undefined in C.
- PsxDebug.Disassemble: the MIPS disassembler is a function parameter. Only the alignment, the "UNALIGNED" text and the 255-character limit are modelled.
- Graphics decoding (`DoGfxDecode`, `SetGraphicsDecode`) in the PlayStation debugger is not modelled. It renders images.
- The PlayStation SPU and GPU halfword memories are total functions from index to halfword, not arrays.
- WSwanEeprom.EepromPorts.constructor: requires the cartridge EEPROM size to be a power of two from 8 to 2048 bytes. A cartridge without EEPROM (`eeprom_size` 0) is not modelled, because the source then shifts by a negative amount.
- WSwan_EEPROMRead's printf for an unknown port is not modelled. The model keeps only its result, 0.
- All StateAction save-state serialisation is left out, except the SoundBox clamps applied after a load.
- The PC Engine input devices (gamepad, mouse, keyboard) and their settings are not modelled. A port read is given as the device's value, or as no device.
- PCEINPUT_Power resets the read index and the SEL/CLR latches but not the MB128. The model does the same.
- The MB128 backing store is a total function from address to byte. The HuC peek/poke routines behind it are not part of this model.
- The SoundBox's bigdiv/smalldiv timing loop is modelled as one decode step per channel, one predictor step and one anti-click decay. The catch-up update at the start of SoundBox_Write and SoundBox_Reset is not modelled.
- SoundBox writes below 0x20 go to the PSG, which is not part of this model. The model keeps its own state unchanged.
- The SoundBox's floating-point output is left out: the volume table and filter, sample synthesis, the resampler and the CD-DA volume calls.
- PcfxSoundBox.SoundBox.GetRegister: does not model the description text the source writes for the control register. Register ids that the source passes on to the PSG are not part of this model, for reads and for writes.
- The `#if 0` code at dis6280.cpp lines 46-473 is dead code and is not modelled.
- The `IsCD` argument of Disassemble is never read by the source, so the model has no such argument.
- The disassembler's character buffer is modelled as the string it ends up holding.
- MemDebugger.RStart: the rest of the model uses the corrected start of the relative search. The as-written start is kept beside it (see Findings).
- MemDebugger.MemDebugger.DoRSearch: scans from the corrected start (see Findings), not from the as-written `(ASpacePos - 1) % zemod`. The two differ only at cursor 0 in a space whose size does not divide 2^32 (MemDebugger.RStartAgrees).
- MemDebugger.MemDebugger.FinishSearch: its relative search goes through DoRSearch, so it also scans from the corrected start (see Findings).

## Findings

| source | as written | input that shows it | evidently intended | confidence | as-written member | corrected member |
|---|---|---|---|---|---|---|
| mednafen/src/drivers/memdebugger.cpp:129 | the relative search starts at `(ASpacePos - 1) % zemod`, computed in `uint32` | cursor 0 in a space of 3 bytes (not a power of two): 0 - 1 wraps to 0xFFFFFFFF, and 0xFFFFFFFF % 3 is 0, so the search starts at cell 0 | the search starts at the cell before the cursor, cell 2 (`zemod - 1`) | not executed | MemDebugger.RStartAsWritten, MemDebugger.RStartAsWrittenSkipsPredecessor | MemDebugger.RStart |
