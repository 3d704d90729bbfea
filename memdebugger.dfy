/** The memory debugger's search and cursor engine.
 *
 *  An address space is seen as a ring of `size` bytes: the accessor is asked
 *  for `n` bytes from offset `a` and answers byte `(a + i) % size` for the
 *  i-th one.  `space[k]` is byte k of the current address space. */
module MemDebugger {
  import opened Common

  /** Searches are refused on spaces larger than this (1 << 24). */
  const SEARCH_LIMIT: nat := 0x100_0000

  /** The size the debugger caches for an address space: the stated
   *  non-power-of-two size when there is one, else 2^totalBits. */
  function SpaceSize(np2Size: nat, totalBits: nat): (size: nat)
    ensures size > 0
    ensures np2Size != 0 ==> size == np2Size
    ensures np2Size == 0 ==> size == Pow2(totalBits)
  {
    if np2Size != 0 then np2Size else Pow2(totalBits)
  }

  /** The n bytes the accessor returns when asked for offset a. */
  function Window(space: seq<bv8>, a: int, n: nat): (w: seq<bv8>)
    requires |space| > 0
    ensures |w| == n
  {
    seq(n, i requires 0 <= i < n => space[(a + i) % |space|])
  }

  /** The bytes read from offset a equal the pattern. */
  predicate ExactAt(space: seq<bv8>, pattern: seq<bv8>, a: int)
    requires |space| > 0
  {
    Window(space, a, |pattern|) == pattern
  }

  /** The n+1 bytes read from offset a step by the given deltas (mod 256). */
  predicate RelativeAt(space: seq<bv8>, deltas: seq<bv8>, a: int)
    requires |space| > 0
  {
    StepsBy(Window(space, a, |deltas| + 1), deltas)
  }

  /** Each byte of w after the first differs from its predecessor by the
   *  corresponding delta (mod 256). */
  predicate StepsBy(w: seq<bv8>, deltas: seq<bv8>)
    requires |w| == |deltas| + 1
  {
    forall i :: 1 <= i <= |deltas| ==> w[i] - w[i - 1] == deltas[i - 1]
  }

  /** How many steps a cyclic scan from `start` takes to reach x. */
  function Ahead(start: int, x: int, n: nat): nat
    requires n > 0
  {
    (x - start) % n
  }

  /** The outcome of a cyclic scan from `start` for cells satisfying `hit`:
   *  either the first hit in scan order, or none anywhere. */
  ghost predicate ScanResult(n: nat, hit: int -> bool, start: nat, found: bool, at: nat)
    requires n > 0
  {
    if found then
      at < n && hit(at) &&
      forall x :: 0 <= x < n && Ahead(start, x, n) < Ahead(start, at, n) ==> !hit(x)
    else
      forall x :: 0 <= x < n ==> !hit(x)
  }

  ghost predicate ExactSearchResult(space: seq<bv8>, pattern: seq<bv8>, start: nat, found: bool, at: nat)
    requires |space| > 0
  {
    ScanResult(|space|, x => ExactAt(space, pattern, x), start, found, at)
  }

  ghost predicate RelativeSearchResult(space: seq<bv8>, deltas: seq<bv8>, start: nat, found: bool, at: nat)
    requires |space| > 0
  {
    ScanResult(|space|, x => RelativeAt(space, deltas, x), start, found, at)
  }

  lemma AheadOfStep(start: nat, k: nat, n: nat)
    requires start < n && k < n
    ensures Ahead(start, (start + k) % n, n) == k
  {
    if start + k < n {
      ModUnique(start + k, 0, start + k, n);
      ModUnique(k, 0, k, n);
    } else {
      ModUnique(start + k, 1, start + k - n, n);
      ModUnique(k - n, -1, k, n);
    }
  }

  lemma NextCell(x: int, n: nat)
    requires n > 0
    ensures (x % n + 1) % n == (x + 1) % n
  {
    var q, r := x / n, x % n;
    if r + 1 < n {
      ModUnique(r + 1, 0, r + 1, n);
      ModUnique(x + 1, q, r + 1, n);
    } else {
      ModUnique(r + 1, 1, 0, n);
      ModUnique(x + 1, q + 1, 0, n);
    }
  }

  lemma WrapsOnlyAtFull(start: nat, k: nat, n: nat)
    requires start < n && 0 < k <= n && (start + k) % n == start
    ensures k == n
  {
    if k < n {
      AheadOfStep(start, k, n);
      ModUnique(0, 0, 0, n);
    }
  }

  /** Two cells the same number of steps from `start` are the same cell. */
  lemma {:induction false} AheadInjective(start: nat, x: nat, y: nat, n: nat)
    requires start < n && x < n && y < n && Ahead(start, x, n) == Ahead(start, y, n)
    ensures x == y
  {
    var k := Ahead(start, x, n);
    CellAhead(start, x, n);
    CellAhead(start, y, n);
  }

  lemma CellAhead(start: nat, x: nat, n: nat)
    requires start < n && x < n
    ensures (start + Ahead(start, x, n)) % n == x
  {
    if start <= x {
      ModUnique(x - start, 0, x - start, n);
      ModUnique(x, 0, x, n);
    } else {
      ModUnique(x - start, -1, x - start + n, n);
      ModUnique(x + n, 1, x, n);
    }
  }

  /** The scan outcome is unique: the specification pins down one answer. */
  lemma ScanResultUnique(n: nat, hit: int -> bool, start: nat, f1: bool, a1: nat, f2: bool, a2: nat)
    requires n > 0 && start < n
    requires ScanResult(n, hit, start, f1, a1) && ScanResult(n, hit, start, f2, a2)
    ensures f1 == f2 && (f1 ==> a1 == a2)
  {
    if f1 && f2 {
      if Ahead(start, a1, n) == Ahead(start, a2, n) {
        AheadInjective(start, a1, a2, n);
      }
    }
  }

  /** The cyclic scan of the exact search: from `start`, one cell at a time,
   *  until the pattern is read back or the scan is back at `start`. */
  method FindExact(space: seq<bv8>, pattern: seq<bv8>, start: nat) returns (found: bool, at: nat)
    requires 0 < |space| <= TWO32 && start < |space|
    ensures ExactSearchResult(space, pattern, start, found, at)
  {
    var n := |space|;
    var a := start;
    ghost var k: nat := 0;
    found, at := false, 0;
    while true
      invariant k < n && a == (start + k) % n
      invariant forall x :: 0 <= x < n && Ahead(start, x, n) < k ==> !ExactAt(space, pattern, x)
      decreases n - k
    {
      AheadOfStep(start, k, n);
      var buffer := Window(space, a, |pattern|);
      if buffer == pattern {
        found, at := true, a;
        return;
      }
      forall x | 0 <= x < n && Ahead(start, x, n) == k
        ensures x == a
      {
        CellAhead(start, x, n);
      }
      NextCell(start + k, n);
      a := (a + 1) % n;
      k := k + 1;
      if a == start {
        WrapsOnlyAtFull(start, k, n);
        break;
      }
      ModUnique(start + n, 1, start, n);
    }
  }

  /** Whether consecutive bytes of `buffer` step by `deltas`, compared
   *  one difference at a time until the first mismatch. */
  method DeltasMatch(buffer: seq<bv8>, deltas: seq<bv8>) returns (matched: bool)
    requires |buffer| == |deltas| + 1
    ensures matched <==> StepsBy(buffer, deltas)
  {
    matched := true;
    var i := 1;
    while i <= |deltas|
      invariant 1 <= i <= |deltas| + 1
      invariant forall j :: 1 <= j < i ==> buffer[j] - buffer[j - 1] == deltas[j - 1]
    {
      if buffer[i] - buffer[i - 1] != deltas[i - 1] {
        matched := false;
        return;
      }
      i := i + 1;
    }
  }

  /** The cyclic scan of the relative search. */
  method FindRelative(space: seq<bv8>, deltas: seq<bv8>, start: nat) returns (found: bool, at: nat)
    requires 0 < |space| <= TWO32 && start < |space|
    ensures RelativeSearchResult(space, deltas, start, found, at)
  {
    var n := |space|;
    var a := start;
    ghost var k: nat := 0;
    found, at := false, 0;
    while true
      invariant k < n && a == (start + k) % n
      invariant forall x :: 0 <= x < n && Ahead(start, x, n) < k ==> !RelativeAt(space, deltas, x)
      decreases n - k
    {
      AheadOfStep(start, k, n);
      var buffer := Window(space, a, |deltas| + 1);
      var matched := DeltasMatch(buffer, deltas);
      assert matched <==> RelativeAt(space, deltas, a);
      if matched {
        found, at := true, a;
        return;
      }
      forall x | 0 <= x < n && Ahead(start, x, n) == k
        ensures x == a
      {
        CellAhead(start, x, n);
      }
      NextCell(start + k, n);
      a := (a + 1) % n;
      k := k + 1;
      if a == start {
        WrapsOnlyAtFull(start, k, n);
        break;
      }
      ModUnique(start + n, 1, start, n);
    }
  }

  /** Where the relative search starts: the cell before the cursor. */
  function RStart(pos: nat, size: nat): (start: nat)
    requires size > 0
    ensures start < size
    ensures (start + 1) % size == pos % size
  {
    NextCell(pos - 1, size);
    (pos - 1) % size
  }

  /** The start as the source computes it: the subtraction is done on a
   *  32-bit unsigned cursor before the reduction. */
  function RStartAsWritten(pos: nat, size: nat): (start: nat)
    requires size > 0 && pos < TWO32
    ensures start < size
  {
    ((pos - 1) % TWO32) % size
  }

  /** At cursor 0 in a 3-byte space the source starts its relative scan at
   *  offset 0, one cell after the cursor's predecessor 2. */
  lemma RStartAsWrittenSkipsPredecessor()
    ensures RStartAsWritten(0, 3) == 0
    ensures RStart(0, 3) == 2
  {
    ModUnique(TWO32 - 1, 0x5555_5555, 0, 3);
    ModUnique(-1, -1, 2, 3);
  }

  /** The two starts agree whenever the cursor is not 0, and at cursor 0
   *  whenever the size divides 2^32 (every power-of-two space). */
  lemma RStartAgrees(pos: nat, size: nat)
    requires size > 0 && pos < TWO32
    requires pos != 0 || TWO32 % size == 0
    ensures RStartAsWritten(pos, size) == RStart(pos, size)
  {
    if pos == 0 {
      var q := TWO32 / size;
      assert TWO32 == q * size;
      ModUnique(TWO32 - 1, q - 1, size - 1, size);
      ModUnique(-1, -1, size - 1, size);
    } else {
      ModUnique(pos - 1, 0, pos - 1, TWO32);
    }
  }

  // ---------------------------------------------------------------------
  // Byte-string text

  datatype DebugError =
    | TooLargeToSearch
    | InvalidCharacter(c: char)
    | OddDigitCount
    | ConversionFailed
    | StringNotFound
    | BytestringNotFound(text: string)

  /** ASCII lower-casing of A-Z only. */
  function Lower(c: char): char
  {
    if 'A' <= c <= 'Z' then (c as int + 32) as char else c
  }

  /** The value of a lower-case hex digit. */
  function NibbleValue(c: char): Option<bv8>
  {
    if '0' <= c <= '9' then Some((c as int - '0' as int) as bv8)
    else if 'a' <= c <= 'f' then Some((c as int - 'a' as int + 10) as bv8)
    else None
  }

  /** The nibbles named by text: its hex digits in order, of either case,
   *  with spaces skipped; the first other character, lower-cased, is the
   *  error. */
  function Nibbles(text: string): Result<seq<bv8>, DebugError>
    decreases |text|
  {
    if text == [] then Ok([])
    else match Nibbles(text[..|text| - 1])
      case Err(e) => Err(e)
      case Ok(ns) =>
        var c := Lower(text[|text| - 1]);
        if c == ' ' then Ok(ns)
        else match NibbleValue(c)
          case None => Err(InvalidCharacter(c))
          case Some(v) => Ok(ns + [v])
  }

  /** A byte from its high and low nibble. */
  function PackPair(hi: bv8, lo: bv8): bv8
  {
    (hi << 4) | lo
  }

  /** Nibble pairs packed high nibble first. */
  function Pack(ns: seq<bv8>): (bs: seq<bv8>)
    ensures |bs| == |ns| / 2
  {
    seq(|ns| / 2, i requires 0 <= i < |ns| / 2 => PackPair(ns[2 * i], ns[2 * i + 1]))
  }

  /** The byte string a text names, or why it names none. */
  function ParseByteString(text: string): Result<seq<bv8>, DebugError>
  {
    match Nibbles(text)
    case Err(e) => Err(e)
    case Ok(ns) => if |ns| % 2 == 1 then Err(OddDigitCount) else Ok(Pack(ns))
  }

  lemma {:induction false} NibblesBounded(text: string)
    ensures Nibbles(text).Ok? ==> |Nibbles(text).value| <= |text|
    ensures Nibbles(text).Ok? ==> forall i :: 0 <= i < |Nibbles(text).value| ==> Nibbles(text).value[i] < 16
    decreases |text|
  {
    if text != [] {
      NibblesBounded(text[..|text| - 1]);
    }
  }

  /** The parser: nibbles are ORed in place into a zeroed buffer of
   *  (length+1)/2 bytes, which is cut to the number of complete pairs. */
  method TextToBS(text: string) returns (r: Result<seq<bv8>, DebugError>)
    ensures r == ParseByteString(text)
  {
    var ret := new bv8[(|text| + 1) / 2](_ => 0);
    var nib := 0;
    ghost var ns: seq<bv8> := [];
    var x := 0;
    while x < |text|
      invariant 0 <= x <= |text| && nib <= x
      invariant Nibbles(text[..x]) == Ok(ns) && nib == |ns|
      invariant forall j :: 0 <= j < ret.Length ==> ret[j] == PackedAt(ns, j)
    {
      var c := Lower(text[x]);
      if c == ' ' {
        NibblesSkip(text, x, ns);
        x := x + 1;
        continue;
      }
      var value := NibbleValue(c);
      if value.None? {
        NibblesRefuse(text, x, ns);
        ErrPersists(text, x + 1);
        return Err(InvalidCharacter(c));
      }
      var v := value.value;
      NibblesTake(text, x, ns, v);
      OrNibble(ret, nib, ns, v);
      ns := ns + [v];
      nib := nib + 1;
      x := x + 1;
    }
    assert text[..x] == text;
    if nib % 2 == 1 {
      return Err(OddDigitCount);
    }
    PackedComplete(ret[..], ns);
    return Ok(ret[..nib / 2]);
  }

  /** Byte j of the buffer after the nibbles ns have been ORed in:
   *  complete pairs, then a half-filled byte if the count is odd, then zeros. */
  function PackedAt(ns: seq<bv8>, j: nat): bv8
  {
    if j < |ns| / 2 then PackPair(ns[2 * j], ns[2 * j + 1])
    else if j == |ns| / 2 && |ns| % 2 == 1 then ns[|ns| - 1] << 4
    else 0
  }

  /** One more nibble ORed into the buffer: into the high half of byte |ns|/2
   *  when the count so far is even, into the low half when it is odd. */
  method OrNibble(ret: array<bv8>, nib: nat, ghost ns: seq<bv8>, v: bv8)
    requires nib == |ns| && nib / 2 < ret.Length
    requires forall j :: 0 <= j < ret.Length ==> ret[j] == PackedAt(ns, j)
    modifies ret
    ensures forall j :: 0 <= j < ret.Length ==> ret[j] == PackedAt(ns + [v], j)
  {
    var i := nib / 2;
    ret[i] := ret[i] | (v << (if nib % 2 == 1 then 0 else 4));
    if nib % 2 == 1 {
      assert ret[i] == PackedAt(ns + [v], i);
    }
  }

  /** With an even count, the complete pairs in the buffer are the packed byte string. */
  lemma PackedComplete(buffer: seq<bv8>, ns: seq<bv8>)
    requires |ns| % 2 == 0 && |ns| / 2 <= |buffer|
    requires forall j :: 0 <= j < |buffer| ==> buffer[j] == PackedAt(ns, j)
    ensures buffer[..|ns| / 2] == Pack(ns)
  {
  }

  lemma NibblesSkip(text: string, x: nat, ns: seq<bv8>)
    requires x < |text| && Nibbles(text[..x]) == Ok(ns) && Lower(text[x]) == ' '
    ensures Nibbles(text[..x + 1]) == Ok(ns)
  {
    assert text[..x + 1][..x] == text[..x];
  }

  lemma NibblesTake(text: string, x: nat, ns: seq<bv8>, v: bv8)
    requires x < |text| && Nibbles(text[..x]) == Ok(ns) && NibbleValue(Lower(text[x])) == Some(v)
    ensures Nibbles(text[..x + 1]) == Ok(ns + [v])
  {
    assert text[..x + 1][..x] == text[..x];
  }

  lemma NibblesRefuse(text: string, x: nat, ns: seq<bv8>)
    requires x < |text| && Nibbles(text[..x]) == Ok(ns)
    requires Lower(text[x]) != ' ' && NibbleValue(Lower(text[x])).None?
    ensures Nibbles(text[..x + 1]) == Err(InvalidCharacter(Lower(text[x])))
  {
    assert text[..x + 1][..x] == text[..x];
  }

  /** Once a prefix is refused, so is every longer text. */
  lemma {:induction false} ErrPersists(text: string, x: nat)
    requires x <= |text| && Nibbles(text[..x]).Err?
    ensures Nibbles(text) == Nibbles(text[..x])
    decreases |text| - x
  {
    if x < |text| {
      assert text[..x + 1][..x] == text[..x];
      ErrPersists(text, x + 1);
    } else {
      assert text[..x] == text;
    }
  }

  /** The text the debugger shows for a byte string: two upper-case hex
   *  digits per byte. */
  function HexText(bs: seq<bv8>): (s: string)
    ensures |s| == 2 * |bs|
  {
    if bs == [] then [] else HexText(bs[..|bs| - 1]) + Hex(bs[|bs| - 1] as nat, 2, true)
  }

  function Unpack(bs: seq<bv8>): (ns: seq<bv8>)
    ensures |ns| == 2 * |bs|
  {
    if bs == [] then [] else Unpack(bs[..|bs| - 1]) + [bs[|bs| - 1] >> 4, bs[|bs| - 1] & 0xF]
  }

  /** The two digits the debugger shows for a byte read back as its two nibbles. */
  lemma ByteDigits(b: bv8) returns (hi: char, lo: char)
    ensures Hex(b as nat, 2, true) == [hi, lo]
    ensures NibbleValue(Lower(hi)) == Some(b >> 4) && NibbleValue(Lower(lo)) == Some(b & 0xF)
  {
    var n := b as nat;
    HighNibbleIsQuotient(b);
    LowNibbleIsRemainder(b);
    ModUnique(n / 16, 0, n / 16, 16);
    hi, lo := HexDigit((b >> 4) as nat, true), HexDigit((b & 0xF) as nat, true);
    NibbleOfHexDigit(b >> 4);
    NibbleOfHexDigit(b & 0xF);
  }

  lemma HighNibbleIsQuotient(b: bv8)
    ensures (b >> 4) as nat == b as nat / 16 && b as nat / 16 < 16
  {
  }

  lemma LowNibbleIsRemainder(b: bv8)
    ensures (b & 0xF) as nat == b as nat % 16
  {
  }

  lemma NibbleOfHexDigit(v: bv8)
    requires v < 16
    ensures NibbleValue(Lower(HexDigit(v as nat, true))) == Some(v)
  {
  }

  /** One more hex digit at the end of the text adds its nibble. */
  lemma NibblesAppend(h: string, c: char, ns: seq<bv8>, v: bv8)
    requires Nibbles(h) == Ok(ns) && NibbleValue(Lower(c)) == Some(v)
    ensures Nibbles(h + [c]) == Ok(ns + [v])
  {
    assert (h + [c])[..|h|] == h;
  }

  lemma {:induction false} NibblesOfHexText(bs: seq<bv8>)
    ensures Nibbles(HexText(bs)) == Ok(Unpack(bs))
  {
    if bs != [] {
      var init, b := bs[..|bs| - 1], bs[|bs| - 1];
      NibblesOfHexText(init);
      var hi, lo := ByteDigits(b);
      var h := HexText(init);
      assert HexText(bs) == h + [hi] + [lo];
      NibblesAppend(h, hi, Unpack(init), b >> 4);
      NibblesAppend(h + [hi], lo, Unpack(init) + [b >> 4], b & 0xF);
      assert Unpack(bs) == Unpack(init) + [b >> 4] + [b & 0xF];
    }
  }

  lemma PackUnpack(bs: seq<bv8>)
    ensures Pack(Unpack(bs)) == bs
  {
    var ns := Unpack(bs);
    forall i | 0 <= i < |bs|
      ensures ns[2 * i] == bs[i] >> 4 && ns[2 * i + 1] == bs[i] & 0xF
    {
      UnpackAt(bs, i);
    }
    forall i | 0 <= i < |bs|
      ensures Pack(ns)[i] == bs[i]
    {
      var b := bs[i];
      assert ((b >> 4) << 4) | (b & 0xF) == b;
    }
  }

  lemma {:induction false} UnpackAt(bs: seq<bv8>, i: nat)
    requires i < |bs|
    ensures Unpack(bs)[2 * i] == bs[i] >> 4 && Unpack(bs)[2 * i + 1] == bs[i] & 0xF
  {
    if i < |bs| - 1 {
      UnpackAt(bs[..|bs| - 1], i);
    }
  }

  /** Whatever byte string the debugger displays is parsed back to itself. */
  lemma ParseHexText(bs: seq<bv8>)
    ensures ParseByteString(HexText(bs)) == Ok(bs)
  {
    NibblesOfHexText(bs);
    PackUnpack(bs);
  }

  // ---------------------------------------------------------------------
  // Digit editing

  /** Digit d, `bits` wide, of the 32-bit word w replaced by tc. */
  function ReplaceDigit(w: bv32, d: bv32, bits: bv32, tc: bv32): bv32
    requires (bits == 3 || bits == 4) && d <= 7
  {
    var mask: bv32 := if bits == 3 then 7 else 0xF;
    (w & !(mask << (d * bits))) | (tc << (d * bits))
  }

  /** Within the word, the edited digit reads back as tc and every bit outside it is kept. */
  lemma ReplaceDigitExact(w: bv32, d: bv32, bits: bv32, tc: bv32)
    requires (bits == 3 || bits == 4) && d <= 7
    requires tc < (if bits == 3 then 8 else 16)
    ensures var r := ReplaceDigit(w, d, bits, tc);
      var mask: bv32 := if bits == 3 then 7 else 0xF;
      (r >> (d * bits)) & mask == tc && r & !(mask << (d * bits)) == w & !(mask << (d * bits))
  {
    var mask: bv32 := if bits == 3 then 7 else 0xF;
    var s := d * bits;
    FieldFits(s, mask, tc);
    KeepOutside(w, mask << s, tc << s);
    FieldReadsBack(w, s, mask, tc);
  }

  lemma FieldFits(s: bv32, mask: bv32, tc: bv32)
    requires s <= 28 && (mask == 7 || mask == 0xF) && tc <= mask
    ensures (tc << s) & !(mask << s) == 0
  {
    assert tc & !mask == 0;
  }

  lemma KeepOutside(w: bv32, m: bv32, t: bv32)
    requires t & !m == 0
    ensures ((w & !m) | t) & !m == w & !m
  {
  }

  lemma FieldReadsBack(w: bv32, s: bv32, mask: bv32, tc: bv32)
    requires s <= 28 && (mask == 7 || mask == 0xF) && tc <= mask
    ensures (((w & !(mask << s)) | (tc << s)) >> s) & mask == tc
  {
  }

  /** The byte edit: computed on a promoted int, stored back as a byte. */
  function EditByte(b: bv8, d: bv32, tc: bv8): bv8
    requires d <= 7
  {
    (ReplaceDigit(b as bv32, d, 4, tc as bv32) & 0xFF) as bv8
  }

  /** A byte edit replaces nibble d and keeps the other one. */
  lemma EditByteNibble(b: bv8, d: bv32, tc: bv8)
    requires d <= 1 && tc < 16
    ensures d == 0 ==> EditByte(b, d, tc) == (b & 0xF0) | tc
    ensures d == 1 ==> EditByte(b, d, tc) == (b & 0x0F) | (tc << 4)
  {
  }

  function Word16(lo: bv8, hi: bv8): bv32
  {
    ((hi as bv32) << 8) | (lo as bv32)
  }

  function LowByte(w: bv32): bv8 { (w & 0xFF) as bv8 }

  function HighByte(w: bv32): bv8 { ((w >> 8) & 0xFF) as bv8 }

  /** The space after an edit at the cursor: two bytes at a and a+1 for a
   *  word or a PC Engine palette entry, one byte otherwise. */
  function EditedSpace(space: seq<bv8>, a: nat, d: bv32, tc: bv8, pcePalette: bool, wordBytes: nat, littleEndian: bool): (s: seq<bv8>)
    requires |space| > 0 && d <= 7
    ensures |s| == |space|
  {
    var n := |space|;
    var b := Window(space, a, 2);
    if pcePalette then
      if tc < 8 then
        var w := ReplaceDigit(Word16(b[0], b[1]), d, 3, tc as bv32);
        space[a % n := LowByte(w)][(a + 1) % n := HighByte(w)]
      else space
    else if wordBytes == 2 then
      var w := if littleEndian then Word16(b[0], b[1]) else Word16(b[1], b[0]);
      var w' := ReplaceDigit(w, d, 4, tc as bv32);
      if littleEndian then space[a % n := LowByte(w')][(a + 1) % n := HighByte(w')]
      else space[a % n := HighByte(w')][(a + 1) % n := LowByte(w')]
    else
      space[a % n := EditByte(space[a % n], d, tc)]
  }

  /** In byte mode the edit touches only the byte at the cursor, and only its nibble d. */
  lemma ByteEditLocal(space: seq<bv8>, a: nat, d: bv32, tc: bv8, littleEndian: bool)
    requires |space| > 0 && d <= 1 && tc < 16
    ensures var s := EditedSpace(space, a, d, tc, false, 1, littleEndian);
      var old_b := space[a % |space|];
      (forall k :: 0 <= k < |space| && k != a % |space| ==> s[k] == space[k]) &&
      (d == 0 ==> s[a % |space|] == (old_b & 0xF0) | tc) &&
      (d == 1 ==> s[a % |space|] == (old_b & 0x0F) | (tc << 4))
  {
    EditByteNibble(space[a % |space|], d, tc);
  }

  /** The cell after the cursor is another cell once the space has two. */
  lemma NeighbourDistinct(a: nat, n: nat)
    requires n >= 2
    ensures (a + 1) % n != a % n
  {
    NextCell(a, n);
    if a % n + 1 < n {
      ModUnique(a % n + 1, 0, a % n + 1, n);
    } else {
      ModUnique(a % n + 1, 1, 0, n);
    }
  }

  /** A little-endian word edit leaves a word that reads back with digit d
   *  replaced and every other digit kept. */
  lemma WordEditReadsBack(space: seq<bv8>, a: nat, d: bv32, tc: bv8)
    requires |space| >= 2 && d <= 3 && tc < 16
    ensures var s := EditedSpace(space, a, d, tc, false, 2, true);
      var old_w := Word16(space[a % |space|], space[(a + 1) % |space|]);
      var new_w := Word16(s[a % |space|], s[(a + 1) % |space|]);
      (new_w >> (4 * d)) & 0xF == tc as bv32 &&
      new_w & !(0xF << (4 * d)) == old_w & !(0xF << (4 * d))
  {
    var n := |space|;
    NeighbourDistinct(a, n);
    var w := Word16(space[a % n], space[(a + 1) % n]);
    var w' := ReplaceDigit(w, d, 4, tc as bv32);
    ReplaceDigitExact(w, d, 4, tc as bv32);
    WordBytesRoundTrip(w, d, tc as bv32);
  }

  /** A 16-bit word with one of its four nibbles replaced still splits into
   *  two bytes that join back to it. */
  lemma WordBytesRoundTrip(w: bv32, d: bv32, tc: bv32)
    requires w <= 0xFFFF && d <= 3 && tc < 16
    ensures var r := ReplaceDigit(w, d, 4, tc); Word16(LowByte(r), HighByte(r)) == r
  {
  }

  // ---------------------------------------------------------------------
  // The debugger's cursor state for the current address space

  datatype SearchKind = ByteStringSearch | RelativeSearch | TextSearch

  datatype Prompt = NoPrompt | GotoPrompt | SearchPrompt(kind: SearchKind)

  /** Whether a search of this kind is refused on the space by its size guard. */
  predicate SearchRefused(kind: SearchKind, size: nat, totalBits: nat)
  {
    if kind == TextSearch then totalBits > 24 else size > SEARCH_LIMIT
  }

  /** On a power-of-two space the two guards agree: a search is refused
   *  exactly when the space is larger than 2^24 bytes. */
  lemma GuardsAgreeOnPowerOfTwo(kind: SearchKind, totalBits: nat)
    ensures SearchRefused(kind, SpaceSize(0, totalBits), totalBits) <==> Pow2(totalBits) > SEARCH_LIMIT
  {
    assert Pow2(24) == SEARCH_LIMIT by { Pow2Value24(); }
    if totalBits > 24 {
      Pow2Monotone(25, totalBits);
      assert Pow2(25) == 2 * Pow2(24);
    } else {
      Pow2Monotone(totalBits, 24);
    }
  }

  lemma Pow2Value24()
    ensures Pow2(24) == 0x100_0000
  {
    assert Pow2(8) == 256;
    assert Pow2(16) == 256 * Pow2(8) by { Pow2Add(8, 8); }
    assert Pow2(24) == 256 * Pow2(16) by { Pow2Add(16, 8); }
  }

  lemma {:induction false} Pow2Add(a: nat, b: nat)
    ensures Pow2(a + b) == Pow2(a) * Pow2(b)
    decreases b
  {
    if b > 0 {
      Pow2Add(a, b - 1);
    }
  }

  lemma AddMultipleMod(x: int, k: nat, n: nat)
    requires n > 0
    ensures (x + k * n) % n == x % n
  {
    ModUnique(x + k * n, x / n + k, x % n, n);
  }

  class MemDebugger {
    /** The cursor (ASpacePos of the current space), a 32-bit offset. */
    var pos: nat
    /** The digit of the cell under the cursor that the next key edits (Digitnum). */
    var digit: nat
    var prompt: Prompt
    var error: Option<DebugError>

    const size: nat
    const totalBits: nat
    const wordBytes: nat
    const maxDigit: nat
    const pcePalette: bool
    const littleEndian: bool

    ghost predicate Valid()
      reads this
    {
      0 < size <= TWO32 && pos < TWO32 && digit <= 7 && maxDigit <= 7 &&
      (wordBytes == 1 || wordBytes == 2)
    }

    constructor (np2Size: nat, totalBits: nat, wordBytes: nat, maxDigit: nat, pcePalette: bool, littleEndian: bool)
      requires totalBits <= 32 && np2Size <= TWO32
      requires (wordBytes == 1 || wordBytes == 2) && maxDigit <= 7
      ensures Valid()
      ensures size == SpaceSize(np2Size, totalBits) && pos == 0 && digit == 1
      ensures prompt == NoPrompt && error == None
    {
      Pow2Monotone(totalBits, 32);
      Pow2Value32();
      this.size := SpaceSize(np2Size, totalBits);
      this.totalBits := totalBits;
      this.wordBytes := wordBytes;
      this.maxDigit := maxDigit;
      this.pcePalette := pcePalette;
      this.littleEndian := littleEndian;
      pos := 0;
      digit := 1;
      prompt := NoPrompt;
      error := None;
    }

    /** Moves the cursor by delta, wrapping around the space, and makes the
     *  next edit start at the most significant digit. */
    method ChangePos(delta: int)
      requires Valid()
      modifies this`pos, this`digit
      ensures Valid()
      ensures pos == (old(pos) + delta) % size && digit == maxDigit
    {
      var newpos := pos + delta;
      ghost var k: nat := 0;
      while newpos < 0
        invariant newpos == old(pos) + delta + k * size
        decreases -newpos
      {
        newpos := newpos + size;
        k := k + 1;
      }
      AddMultipleMod(old(pos) + delta, k, size);
      pos := newpos % size;
      digit := maxDigit;
    }

    /** Clears bit align >> 1 of the cursor, for align the cell width
     *  (the only argument it is given): a word cursor moves back to the even
     *  offset of its word.  Clearing bit 0 is subtracting the parity. */
    method AlignPos(align: nat)
      requires Valid() && align == wordBytes
      modifies this`pos
      ensures Valid()
      ensures align == 1 ==> pos == old(pos)
      ensures align == 2 ==> pos % 2 == 0 && pos <= old(pos) < pos + 2
    {
      if align == 1 {
        return;
      }
      pos := pos - pos % 2;
    }

    /** The cursor step after a digit has been entered or skipped: towards
     *  the least significant digit, then on to the next cell. */
    method AdvanceDigit()
      requires Valid()
      modifies this`pos, this`digit
      ensures Valid()
      ensures old(digit) == 0 ==> pos == (old(pos) + wordBytes) % size && digit == maxDigit
      ensures old(digit) != 0 ==> pos == old(pos) && digit == old(digit) - 1
    {
      if digit == 0 {
        ChangePos(wordBytes);
        digit := maxDigit;
      } else {
        digit := digit - 1;
      }
    }

    /** Backspace in the hex area: one digit back, into the previous cell's
     *  least significant digit after the first. */
    method RetreatDigit()
      requires Valid()
      modifies this`pos, this`digit
      ensures Valid()
      ensures old(digit) + 1 > maxDigit ==> pos == (old(pos) - wordBytes) % size && digit == 0
      ensures old(digit) + 1 <= maxDigit ==> pos == old(pos) && digit == old(digit) + 1
    {
      if digit + 1 > maxDigit {
        ChangePos(-(wordBytes as int));
        digit := 0;
      } else {
        digit := digit + 1;
      }
    }

    /** A hex key typed in edit mode: the digit under the cursor is replaced
     *  in the space and the cursor steps on. */
    method TypeDigit(space: seq<bv8>, tc: bv8) returns (edited: seq<bv8>)
      requires Valid() && |space| == size && tc < 16
      modifies this`pos, this`digit
      ensures Valid()
      ensures edited == EditedSpace(space, old(pos), old(digit) as bv32, tc, pcePalette, wordBytes, littleEndian)
      ensures old(digit) == 0 ==> pos == (old(pos) + wordBytes) % size && digit == maxDigit
      ensures old(digit) != 0 ==> pos == old(pos) && digit == old(digit) - 1
    {
      edited := EditedSpace(space, pos, digit as bv32, tc, pcePalette, wordBytes, littleEndian);
      AdvanceDigit();
    }

    /** The keys that open a search prompt: refused with an error, and no
     *  prompt, on a space too large to search. */
    method RequestSearch(kind: SearchKind)
      requires Valid()
      modifies this`prompt, this`error
      ensures SearchRefused(kind, size, totalBits) ==> error == Some(TooLargeToSearch) && prompt == old(prompt)
      ensures !SearchRefused(kind, size, totalBits) ==> prompt == SearchPrompt(kind) && error == old(error)
    {
      if (kind == TextSearch && totalBits > 24) || (kind != TextSearch && size > SEARCH_LIMIT) {
        error := Some(TooLargeToSearch);
      } else {
        prompt := SearchPrompt(kind);
      }
    }

    /** Exact search from the cursor: on success the cursor is on the match. */
    method DoBSSearch(space: seq<bv8>, pattern: seq<bv8>) returns (found: bool)
      requires Valid() && |space| == size
      modifies this`pos
      ensures Valid()
      ensures found ==> ExactSearchResult(space, pattern, old(pos) % size, true, pos)
      ensures !found ==> ExactSearchResult(space, pattern, old(pos) % size, false, 0) && pos == old(pos)
    {
      var at;
      found, at := FindExact(space, pattern, pos % size);
      if found {
        pos := at;
      } else {
        assert ExactSearchResult(space, pattern, old(pos) % size, false, 0);
      }
    }

    /** Relative search from the cell before the cursor: on success the
     *  cursor is on the second byte of the match. */
    method DoRSearch(space: seq<bv8>, deltas: seq<bv8>) returns (found: bool)
      requires Valid() && |space| == size
      modifies this`pos
      ensures Valid()
      ensures found ==> pos < size && RelativeSearchResult(space, deltas, RStart(old(pos), size), true, RStart(pos, size))
      ensures !found ==> RelativeSearchResult(space, deltas, RStart(old(pos), size), false, 0) && pos == old(pos)
    {
      var at;
      found, at := FindRelative(space, deltas, RStart(pos, size));
      if found {
        pos := (at + 1) % size;
        PredecessorOfNext(at, size);
      } else {
        assert RelativeSearchResult(space, deltas, RStart(old(pos), size), false, 0);
      }
    }

    /** The searches a prompt ends in.  `convert` is the text converter to
     *  the game's encoding: None when there is none, and a converter that
     *  answers None fails. */
    method FinishSearch(kind: SearchKind, text: string, space: seq<bv8>, convert: Option<string -> Option<seq<bv8>>>)
      requires Valid() && |space| == size && prompt == SearchPrompt(kind)
      modifies this`pos, this`prompt, this`error
      ensures Valid() && prompt == NoPrompt
      ensures kind == ByteStringSearch ==>
        match ParseByteString(text)
        case Err(e) => error == Some(e) && pos == old(pos)
        case Ok(bs) =>
          (error == None && ExactSearchResult(space, bs, old(pos) % size, true, pos)) ||
          (error == Some(BytestringNotFound(text)) && pos == old(pos) && ExactSearchResult(space, bs, old(pos) % size, false, 0))
      ensures kind == RelativeSearch ==>
        match ParseByteString(text)
        case Err(e) => error == Some(e) && pos == old(pos)
        case Ok(bs) =>
          (error == None && pos < size && RelativeSearchResult(space, bs, RStart(old(pos), size), true, RStart(pos, size))) ||
          (error == Some(BytestringNotFound(text)) && pos == old(pos) && RelativeSearchResult(space, bs, RStart(old(pos), size), false, 0))
      ensures kind == TextSearch ==>
        var converted := if convert.None? then Some([]) else convert.value(text);
        match converted
        case None => error == Some(ConversionFailed) && pos == old(pos)
        case Some(bs) =>
          (error == None && ExactSearchResult(space, bs, old(pos) % size, true, pos)) ||
          (error == Some(StringNotFound) && pos == old(pos) && ExactSearchResult(space, bs, old(pos) % size, false, 0))
    {
      prompt := NoPrompt;
      error := None;
      match kind
      case TextSearch =>
        var converted := if convert.None? then Some([]) else convert.value(text);
        if converted.None? {
          error := Some(ConversionFailed);
          return;
        }
        var found := DoBSSearch(space, converted.value);
        if !found {
          error := Some(StringNotFound);
        }
      case ByteStringSearch =>
        var bs := TextToBS(text);
        if bs.Err? {
          error := Some(bs.error);
          return;
        }
        var found := DoBSSearch(space, bs.value);
        if !found {
          error := Some(BytestringNotFound(text));
        }
      case RelativeSearch =>
        var bs := TextToBS(text);
        if bs.Err? {
          error := Some(bs.error);
          return;
        }
        var found := DoRSearch(space, bs.value);
        if !found {
          error := Some(BytestringNotFound(text));
        }
    }

    /** The goto prompt: `value` is the number read from its text, if any;
     *  the cursor goes to that cell (in bytes, as a 32-bit offset). */
    method FinishGoto(value: Option<nat>)
      requires Valid() && prompt == GotoPrompt
      modifies this`pos, this`digit, this`prompt, this`error
      ensures Valid() && prompt == NoPrompt && error == None
      ensures value.Some? ==> pos == (value.value * wordBytes) % TWO32 && digit == maxDigit
      ensures value.None? ==> pos == old(pos) && digit == old(digit)
    {
      prompt := NoPrompt;
      error := None;
      if value.Some? {
        pos := (value.value * wordBytes) % TWO32;
        digit := maxDigit;
      }
    }
  }

  lemma Pow2Value32()
    ensures Pow2(32) == TWO32
  {
    Pow2Value24();
    Pow2Add(24, 8);
    assert Pow2(8) == 256;
  }

  lemma PredecessorOfNext(at: nat, size: nat)
    requires at < size
    ensures RStart((at + 1) % size, size) == at
  {
    if at + 1 < size {
      ModUnique(at + 1, 0, at + 1, size);
      ModUnique(at, 0, at, size);
    } else {
      ModUnique(at + 1, 1, 0, size);
      ModUnique(-1, -1, at, size);
    }
  }
}
