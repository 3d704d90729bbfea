/** Small shared vocabulary: optional values, results with an error case,
 *  powers of two and hexadecimal text as printf's %0NX and %0Nx produce it. */
module Common {

  datatype Option<T> = None | Some(value: T)

  datatype Result<T, E> = Ok(value: T) | Err(error: E)

  /** 2^32, the modulus of a C `uint32`. */
  const TWO32: int := 0x1_0000_0000

  function Pow2(k: nat): (p: nat)
    ensures p >= 1
  {
    if k == 0 then 1 else 2 * Pow2(k - 1)
  }

  lemma {:induction false} Pow2Monotone(j: nat, k: nat)
    requires j <= k
    ensures Pow2(j) <= Pow2(k)
  {
    if j < k {
      Pow2Monotone(j, k - 1);
    }
  }

  /** The digit that printf uses for a value below 16. */
  function HexDigit(v: nat, upper: bool): (c: char)
    requires v < 16
    ensures '0' <= c <= '9' || 'a' <= c <= 'f' || 'A' <= c <= 'F'
  {
    if v < 10 then ('0' as int + v) as char
    else if upper then ('A' as int + v - 10) as char
    else ('a' as int + v - 10) as char
  }

  /** The value below 16 that a hex digit of either case stands for. */
  function DigitValue(c: char): Option<nat>
  {
    if '0' <= c <= '9' then Some(c as int - '0' as int)
    else if 'a' <= c <= 'f' then Some(c as int - 'a' as int + 10)
    else if 'A' <= c <= 'F' then Some(c as int - 'A' as int + 10)
    else None
  }

  /** `width` hex digits of v, most significant first (printf "%0*X" of v mod 16^width). */
  function Hex(v: nat, width: nat, upper: bool): (s: string)
    ensures |s| == width
    decreases width
  {
    if width == 0 then [] else Hex(v / 16, width - 1, upper) + [HexDigit(v % 16, upper)]
  }

  /** Reading the digits of Hex back gives the value reduced to `width` digits. */
  function HexValue(s: string): Option<nat>
  {
    if s == [] then Some(0)
    else match (HexValue(s[..|s| - 1]), DigitValue(s[|s| - 1]))
      case (Some(high), Some(low)) => Some(16 * high + low)
      case _ => None
  }

  lemma {:induction false} HexRoundTrip(v: nat, width: nat, upper: bool)
    ensures HexValue(Hex(v, width, upper)) == Some(v % Pow16(width))
  {
    if width > 0 {
      var s := Hex(v, width, upper);
      assert s[..|s| - 1] == Hex(v / 16, width - 1, upper);
      HexRoundTrip(v / 16, width - 1, upper);
      DigitValueOfHexDigit(v % 16, upper);
      DivModPow16(v, width);
    }
  }

  function Pow16(k: nat): (p: nat)
    ensures p >= 1
  {
    if k == 0 then 1 else 16 * Pow16(k - 1)
  }

  lemma DigitValueOfHexDigit(v: nat, upper: bool)
    requires v < 16
    ensures DigitValue(HexDigit(v, upper)) == Some(v)
  {
  }

  lemma DivModPow16(v: nat, width: nat)
    requires width > 0
    ensures 16 * ((v / 16) % Pow16(width - 1)) + v % 16 == v % Pow16(width)
  {
    var p := Pow16(width - 1);
    var q := (v / 16) / p;
    var r := (v / 16) % p;
    assert v / 16 == q * p + r;
    assert v == 16 * (v / 16) + v % 16;
    assert v == q * (16 * p) + (16 * r + v % 16);
    assert 0 <= 16 * r + v % 16 < 16 * p;
    ModUnique(v, q, 16 * r + v % 16, 16 * p);
  }

  /** The remainder is the unique r with x == q*n + r and 0 <= r < n. */
  lemma ModUnique(x: int, q: int, r: int, n: int)
    requires n > 0 && 0 <= r < n && x == q * n + r
    ensures x % n == r && x / n == q
  {
    var q' := x / n;
    var r' := x % n;
    assert x == q' * n + r';
    MulSub(q, q', n);
    assert (q - q') * n == r' - r;
    if q > q' {
      MulAtLeast(q - q', n);
    } else if q < q' {
      MulAtLeast(q' - q, n);
    }
  }

  lemma MulSub(a: int, b: int, n: int)
    ensures (a - b) * n == a * n - b * n
  {
  }

  lemma {:induction false} MulAtLeast(d: int, n: nat)
    requires d >= 1
    ensures d * n >= n
    decreases d
  {
    if d > 1 {
      MulAtLeast(d - 1, n);
      assert d * n == (d - 1) * n + n;
    }
  }
}
