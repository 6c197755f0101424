/** The text conversions behind the trace headers: splitting, trimming, 16-digit hexadecimal with the
    64-bit reinterpretation of signed numbers, and decimal numbers. */
module HeaderText {
  import opened Common

  const TWO_63: int := 0x8000_0000_0000_0000
  const TWO_64: int := 0x1_0000_0000_0000_0000
  const TWO_31: int := 0x8000_0000
  const TWO_32: int := 0x1_0000_0000

  predicate IsInt64(x: int) { -TWO_63 <= x < TWO_63 }

  predicate IsInt32(x: int) { -TWO_31 <= x < TWO_31 }

  /** `uint64(x)` and `int64(u)`. */
  function ToUint64(x: int): int
    requires IsInt64(x)
    ensures 0 <= ToUint64(x) < TWO_64
  {
    if x < 0 then x + TWO_64 else x
  }

  function ToInt64(u: int): int
    requires 0 <= u < TWO_64
    ensures IsInt64(ToInt64(u))
  {
    if u >= TWO_63 then u - TWO_64 else u
  }

  /** `int32(x)`: keep the low 32 bits. */
  function ToInt32(x: int): int
    ensures IsInt32(ToInt32(x))
    ensures IsInt32(x) ==> ToInt32(x) == x
  {
    var low := x % TWO_32;
    if low >= TWO_31 then low - TWO_32 else low
  }

  /** Wrapping now or later makes no difference to a sum. */
  lemma ToInt32Adds(x: int, n: int)
    ensures ToInt32(ToInt32(x) + n) == ToInt32(x + n)
  {
    var low := x % TWO_32;
    assert x == TWO_32 * (x / TWO_32) + low;
    var k := if low >= TWO_31 then x / TWO_32 + 1 else x / TWO_32;
    assert ToInt32(x) + n == x + n - TWO_32 * k;
    ModShift(x + n, -k);
  }

  lemma ModShift(a: int, k: int)
    ensures (a + TWO_32 * k) % TWO_32 == a % TWO_32
  {
    var q, r := a / TWO_32, a % TWO_32;
    assert a + TWO_32 * k == TWO_32 * (q + k) + r;
  }

  // ---------------------------------------------------------------------------------------------
  // Splitting and trimming.

  function Split(s: string, sep: char): (r: seq<string>)
    ensures |r| >= 1
  {
    if s == [] then [[]]
    else
      var r := Split(s[1..], sep);
      if s[0] == sep then [[]] + r else [[s[0]] + r[0]] + r[1..]
  }

  lemma {:induction false} SplitOne(a: string, sep: char)
    requires sep !in a
    ensures Split(a, sep) == [a]
  {
    if a != [] {
      SplitOne(a[1..], sep);
      assert a == [a[0]] + a[1..];
    }
  }

  lemma {:induction false} SplitHead(a: string, sep: char, rest: string)
    requires sep !in a
    ensures Split(a + [sep] + rest, sep) == [a] + Split(rest, sep)
  {
    var s := a + [sep] + rest;
    if a == [] {
      assert s[1..] == rest;
    } else {
      SplitHead(a[1..], sep, rest);
      assert s[1..] == a[1..] + [sep] + rest;
      assert a == [a[0]] + a[1..];
    }
  }

  /** Four fields joined by a separator that none of them contains are found again. */
  lemma SplitFour(a: string, b: string, c: string, d: string, sep: char)
    requires sep !in a && sep !in b && sep !in c && sep !in d
    ensures Split(JoinFour(a, b, c, d, sep), sep) == [a, b, c, d]
  {
    SplitOne(d, sep);
    SplitHead(c, sep, d);
    SplitHead(b, sep, c + [sep] + d);
    SplitHead(a, sep, b + [sep] + (c + [sep] + d));
  }

  lemma SplitTwo(a: string, b: string, sep: char)
    requires sep !in a && sep !in b
    ensures Split(a + [sep] + b, sep) == [a, b]
  {
    SplitOne(b, sep);
    SplitHead(a, sep, b);
  }

  function JoinFour(a: string, b: string, c: string, d: string, sep: char): string {
    a + [sep] + (b + [sep] + (c + [sep] + d))
  }

  predicate IsSpace(c: char) {
    '\t' <= c <= '\r' || c == ' ' || c == '\U{85}' || c == '\U{A0}'
  }

  /** Drops white space from both ends. */
  function Trim(s: string): string
    decreases |s|
  {
    if s == [] then []
    else if IsSpace(s[0]) then Trim(s[1..])
    else if IsSpace(Last(s)) then Trim(Init(s))
    else s
  }

  predicate AllSpace(s: string) { forall c :: c in s ==> IsSpace(c) }

  /** Neither end is white space. */
  predicate Bare(s: string) { s != [] && !IsSpace(s[0]) && !IsSpace(Last(s)) }

  /** Trimming removes exactly the white space around a text. */
  lemma {:induction false} TrimPadded(left: string, s: string, right: string)
    requires AllSpace(left) && AllSpace(right) && Bare(s)
    ensures Trim(left + s + right) == s
    decreases |left| + |right|
  {
    var t := left + s + right;
    if left != [] {
      assert left[0] in left && t[0] == left[0];
      assert t[1..] == left[1..] + s + right;
      TrimPadded(left[1..], s, right);
    } else if right != [] {
      assert Last(right) in right && Last(t) == Last(right);
      assert t[0] == s[0];
      assert Init(t) == left + s + Init(right);
      TrimPadded(left, s, Init(right));
    } else {
      assert t == s;
    }
  }

  // ---------------------------------------------------------------------------------------------
  // Hexadecimal.

  function HexDigit(n: int): char
    requires 0 <= n < 16
  {
    if n < 10 then ('0' as int + n) as char else ('a' as int + n - 10) as char
  }

  predicate IsHex(c: char) { '0' <= c <= '9' || 'a' <= c <= 'f' || 'A' <= c <= 'F' }

  function HexValue(c: char): int
    requires IsHex(c)
    ensures 0 <= HexValue(c) < 16
  {
    if c <= '9' then c as int - '0' as int
    else if c <= 'F' then c as int - 'A' as int + 10
    else c as int - 'a' as int + 10
  }

  predicate AllHex(s: string) { forall c :: c in s ==> IsHex(c) }

  function HexNumber(s: string): nat
    requires AllHex(s)
  {
    if s == [] then 0 else HexNumber(Init(s)) * 16 + HexValue(Last(s))
  }

  /** `ParseUint(s, 16, 64)`: fails on an empty text, on a byte that is no digit and on overflow. */
  function ParseHex(s: string): Option<int>
    ensures ParseHex(s).Some? ==> 0 <= ParseHex(s).value < TWO_64
  {
    if s != [] && AllHex(s) && HexNumber(s) < TWO_64 then Some(HexNumber(s)) else None
  }

  /** `n` in exactly `width` lower-case digits. */
  function HexPadded(n: nat, width: nat): (s: string)
    ensures |s| == width && AllHex(s)
    ensures '-' !in s
  {
    if width == 0 then [] else HexPadded(n / 16, width - 1) + [HexDigit(n % 16)]
  }

  function Pow16(w: nat): nat { if w == 0 then 1 else 16 * Pow16(w - 1) }

  lemma HexNumberSnoc(s: string, c: char)
    requires AllHex(s) && IsHex(c)
    ensures AllHex(s + [c]) && HexNumber(s + [c]) == HexNumber(s) * 16 + HexValue(c)
  {
    assert (s + [c])[..|s|] == s;
  }

  lemma HexDigitValue(n: int)
    requires 0 <= n < 16
    ensures IsHex(HexDigit(n)) && HexValue(HexDigit(n)) == n
  {
  }

  lemma {:induction false} HexRoundTrip(n: nat, width: nat)
    requires n < Pow16(width)
    ensures HexNumber(HexPadded(n, width)) == n
  {
    if width > 0 {
      HexRoundTrip(n / 16, width - 1);
      HexNumberSnoc(HexPadded(n / 16, width - 1), HexDigit(n % 16));
      HexDigitValue(n % 16);
    }
  }

  /** `%016x` of `uint64(x)`. */
  function Hex16(x: int): (s: string)
    requires IsInt64(x)
    ensures |s| == 16 && AllHex(s) && '-' !in s
  {
    HexPadded(ToUint64(x), 16)
  }

  /** The signed number survives printing as unsigned hexadecimal and parsing back. */
  lemma Hex16RoundTrip(x: int)
    requires IsInt64(x)
    ensures ParseHex(Hex16(x)) == Some(ToUint64(x)) && ToInt64(ToUint64(x)) == x
  {
    assert Pow16(4) == 0x1_0000;
    assert Pow16(8) == 0x1_0000_0000;
    assert Pow16(12) == 0x1_0000_0000_0000;
    assert Pow16(16) == TWO_64;
    HexRoundTrip(ToUint64(x), 16);
  }

  // ---------------------------------------------------------------------------------------------
  // Decimal.

  function DecDigit(n: int): char
    requires 0 <= n < 10
  {
    ('0' as int + n) as char
  }

  function DecDigits(n: nat): (s: string)
    ensures s != [] && AllDigits(s)
  {
    if n < 10 then [DecDigit(n)] else DecDigits(n / 10) + [DecDigit(n % 10)]
  }

  function Itoa(n: int): (s: string)
    ensures s != [] && ',' !in s
  {
    if n < 0 then "-" + DecDigits(-n) else DecDigits(n)
  }

  predicate IsDecimal(c: char) { '0' <= c <= '9' }

  predicate AllDigits(s: string) { forall c :: c in s ==> IsDecimal(c) }

  function DecValue(c: char): nat
    requires IsDecimal(c)
  {
    c as int - '0' as int
  }

  function DecNumber(s: string): nat
    requires AllDigits(s)
  {
    if s == [] then 0 else DecNumber(Init(s)) * 10 + DecValue(Last(s))
  }

  /** `Atoi`: an optional sign and digits, within 64 bits. */
  function Atoi(s: string): Option<int> {
    var digits := if s != [] && s[0] in "+-" then s[1..] else s;
    if digits == [] || !AllDigits(digits) then None
    else
      var n: int := if s[0] == '-' then 0 - DecNumber(digits) else DecNumber(digits);
      if IsInt64(n) then Some(n) else None
  }

  lemma {:induction false} DecRoundTrip(n: nat)
    ensures DecNumber(DecDigits(n)) == n
  {
    var s := DecDigits(n);
    if n >= 10 {
      DecRoundTrip(n / 10);
      assert Init(s) == DecDigits(n / 10);
    } else {
      assert s[..0] == [];
    }
  }

  lemma AtoiOfDigits(d: string)
    requires d != [] && AllDigits(d)
    ensures DecNumber(d) < TWO_63 ==> Atoi(d) == Some(DecNumber(d) as int)
    ensures DecNumber(d) <= TWO_63 ==> Atoi(['-'] + d) == Some(0 - DecNumber(d))
  {
    assert IsDecimal(d[0]);
    assert (['-'] + d)[1..] == d;
  }

  lemma AtoiRoundTrip(n: int)
    requires IsInt64(n)
    ensures Atoi(Itoa(n)) == Some(n)
  {
    var k := if n < 0 then -n else n;
    DecRoundTrip(k);
    AtoiOfDigits(DecDigits(k));
  }
}
