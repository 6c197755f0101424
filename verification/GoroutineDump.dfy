/** Reading a dump of all goroutine stacks (agent/agent/active/GoroutineStack.go).  A byte is the `char` of
    the same code. */
module GoroutineDump {
  import opened Common
  import opened HeaderText

  datatype Info = Info(id: int, state: string, stack: string)

  const PREFIX := "goroutine "

  // ---------------------------------------------------------------------------------------------
  // What the parser computes.

  /** The position of the first blank line, -1 if there is none. */
  function BlankLine(buf: string): (r: int)
    ensures r == -1 || (0 <= r < |buf| - 1 && buf[r] == '\n' && buf[r + 1] == '\n')
    ensures forall k :: 0 <= k < |buf| - 1 && (r == -1 || k < r) ==> !(buf[k] == '\n' && buf[k + 1] == '\n')
  {
    if |buf| < 2 then -1
    else if buf[0] == '\n' && buf[1] == '\n' then 0
    else
      var r := BlankLine(buf[1..]);
      assert forall k :: 0 < k < |buf| - 1 ==> buf[k] == buf[1..][k - 1] && buf[k + 1] == buf[1..][k];
      if r == -1 then -1 else r + 1
  }

  function TrimLeft(s: string): string {
    if s != [] && s[0] <= ' ' then TrimLeft(s[1..]) else s
  }

  function TrimRight(s: string): string {
    if s != [] && s[|s| - 1] <= ' ' then TrimRight(s[..|s| - 1]) else s
  }

  /** How many leading digits. */
  function DigitCount(s: string): (n: nat)
    ensures n <= |s| && AllDigits(s[..n]) && (n < |s| ==> !IsDecimal(s[n]))
  {
    if s != [] && IsDecimal(s[0]) then
      var n := 1 + DigitCount(s[1..]);
      assert s[..n] == [s[0]] + s[1..][..n - 1];
      n
    else 0
  }

  /** The text before the first `c`. */
  function Before(s: string, c: char): string { s[..IndexOf(s, c)] }

  /** The text between the first `[` among the next 30 bytes and the following `]`. */
  function StateOf(s: string): string {
    var window := if |s| > 30 then s[..30] else s;
    var start := IndexOf(window, '[');
    if start == |window| then [] else Before(s[start + 1..], ']')
  }

  /** Blanks and control characters. */
  predicate IsBlank(c: char) { c as int <= 32 }

  lemma {:induction false} TrimmedIs(left: string, s: string, right: string)
    requires (forall c :: c in left ==> IsBlank(c)) && (forall c :: c in right ==> IsBlank(c))
    requires s != [] && !IsBlank(s[0]) && !IsBlank(Last(s))
    ensures TrimRight(TrimLeft(left + s + right)) == s
    decreases |left| + |right|
  {
    var t := left + s + right;
    if left != [] {
      assert left[0] in left && t[0] == left[0];
      assert t[1..] == left[1..] + s + right;
      TrimmedIs(left[1..], s, right);
    } else {
      assert t[0] == s[0];
      if right != [] {
        assert Last(right) in right && Last(t) == Last(right);
        assert Init(t) == left + s + Init(right) && Init(t)[0] == s[0];
        TrimmedIs(left, s, Init(right));
      } else {
        assert t == s;
      }
    }
  }

  /** Blanks and control characters around a block mean nothing. */
  lemma PaddedBlock(left: string, block: string, right: string)
    requires (forall c :: c in left ==> IsBlank(c)) && (forall c :: c in right ==> IsBlank(c))
    requires block != [] && !IsBlank(block[0]) && !IsBlank(Last(block))
    ensures ParseBlock(left + block + right) == ParseBlock(block) == ParseTrimmed(block)
  {
    TrimmedIs(left, block, right);
    TrimmedIs([], block, []);
    assert [] + block + [] == block;
  }

  function ParseBlock(raw: string): Option<Info> { ParseTrimmed(TrimRight(TrimLeft(raw))) }

  function ParseTrimmed(block: string): Option<Info> {
    if |block| < 15 || block[..10] != PREFIX then None
    else
      var n := DigitCount(block[10..]);
      if n == 0 then None
      else Some(Info(DecNumber(block[10..][..n]) % TWO_64, StateOf(block[10 + n..]), block))
  }

  /** The dump's first block, and what follows it. */
  function FirstBlock(buf: string): (string, string) {
    var end := BlankLine(buf);
    if end == -1 then (buf, []) else (buf[..end], buf[end + 2..])
  }

  function Found(info: Option<Info>): seq<Info> { if info.Some? then [info.value] else [] }

  function Collect(buf: string): seq<Info>
    decreases |buf|
  {
    if buf == [] then []
    else
      var (raw, rest) := FirstBlock(buf);
      Found(ParseBlock(raw)) + Collect(rest)
  }

  /** Blank lines, not overlapping, plus one. */
  function CountBlocks(buf: string): nat
    decreases |buf|
  {
    if |buf| < 2 then 1
    else if buf[0] == '\n' && buf[1] == '\n' then 1 + CountBlocks(buf[2..])
    else CountBlocks(buf[1..])
  }

  // ---------------------------------------------------------------------------------------------
  // The estimate.

  lemma {:induction false} CountAtBlankLine(buf: string)
    ensures CountBlocks(buf) == if BlankLine(buf) == -1 then 1 else 1 + CountBlocks(buf[BlankLine(buf) + 2..])
    decreases |buf|
  {
    if |buf| >= 2 && !(buf[0] == '\n' && buf[1] == '\n') {
      CountAtBlankLine(buf[1..]);
      var r := BlankLine(buf[1..]);
      if r != -1 {
        assert buf[1..][r + 2..] == buf[r + 3..];
      }
    }
  }

  /** For every buffer the results fit the space reserved for them. */
  lemma {:induction false} AtMostCountBlocks(buf: string)
    ensures |Collect(buf)| <= CountBlocks(buf)
    decreases |buf|
  {
    CountAtBlankLine(buf);
    if buf != [] {
      AtMostCountBlocks(FirstBlock(buf).1);
    }
  }

  // ---------------------------------------------------------------------------------------------
  // The round trip.

  /** A goroutine as the runtime prints it; `frames` are the lines after the header. */
  datatype Goroutine = Goroutine(id: nat, state: string, frames: string)

  function Print(g: Goroutine): string {
    PREFIX + (DecDigits(g.id) + (" [" + (g.state + ("]:" + g.frames))))
  }

  predicate WellFormed(g: Goroutine) {
    && g.id < TWO_64 && ']' !in g.state
    && Print(g)[|Print(g)| - 1] > ' '
    && BlankLine(Print(g)) == -1
  }

  predicate IsEnding(end: string) { end == [] || end == ['\n'] }

  /** The blocks, separated by blank lines; the dump may end in a line feed. */
  function Dump(gs: seq<Goroutine>, end: string): string {
    if gs == [] then [] else if |gs| == 1 then Print(gs[0]) + end else Print(gs[0]) + "\n\n" + Dump(gs[1..], end)
  }

  function InfoOf(g: Goroutine): Info { Info(g.id, g.state, Print(g)) }

  lemma {:induction false} DigitCountOf(d: string, s: string)
    requires AllDigits(d) && s != [] && !IsDecimal(s[0])
    ensures DigitCount(d + s) == |d|
    decreases |d|
  {
    if d == [] {
      assert d + s == s;
    } else {
      assert IsDecimal(d[0]);
      assert (d + s)[1..] == d[1..] + s;
      DigitCountOf(d[1..], s);
    }
  }

  lemma TakeDrop(a: string, b: string)
    ensures (a + b)[..|a|] == a && (a + b)[|a|..] == b
  {
  }

  lemma IndexOfIs(s: string, c: char, n: nat)
    requires n <= |s| && (forall k :: 0 <= k < n ==> s[k] != c) && (n < |s| ==> s[n] == c)
    ensures IndexOf(s, c) == n
    decreases |s|
  {
  }

  lemma StateIsFound(state: string, after: string)
    requires ']' !in state && after != [] && after[0] == ']'
    ensures StateOf(" [" + (state + after)) == state
  {
    var t := state + after;
    var s := " [" + t;
    var window := if |s| > 30 then s[..30] else s;
    assert window[0] == ' ' && window[1] == '[';
    IndexOfIs(window, '[', 1);
    TakeDrop(" [", t);
    TakeDrop(state, after);
    assert forall k :: 0 <= k < |state| ==> t[k] == state[k] && state[k] in state;
    assert t[|state|] == after[0];
    IndexOfIs(t, ']', |state|);
  }

  lemma TrimKeeps(s: string, end: string)
    requires s != [] && s[0] > ' ' && s[|s| - 1] > ' ' && IsEnding(end)
    ensures TrimRight(TrimLeft(s + end)) == s
  {
  }

  /** The header of a block is read as its number and state. */
  lemma HeaderIsParsed(block: string, id: nat, state: string, after: string)
    requires id < TWO_64 && ']' !in state && |after| >= 2 && after[0] == ']'
    requires block == PREFIX + (DecDigits(id) + (" [" + (state + after)))
    ensures ParseTrimmed(block) == Some(Info(id, state, block))
  {
    var d := DecDigits(id);
    var s := " [" + (state + after);
    assert s[0] == ' ' && |s| >= 4;
    BlockParts(block, d, s);
    DigitCountOf(d, s);
    DecRoundTrip(id);
    StateIsFound(state, after);
    PartsAreParsed(block, d, s, id, state);
  }

  lemma PartsAreParsed(block: string, d: string, s: string, id: nat, state: string)
    requires |block| >= 15 && block[..10] == PREFIX && d != [] && AllDigits(d) && 10 + |d| <= |block|
    requires block[10..][..|d|] == d && DigitCount(block[10..]) == |d|
    requires block[10 + |d|..] == s && StateOf(s) == state && DecNumber(d) == id < TWO_64
    ensures ParseTrimmed(block) == Some(Info(id, state, block))
  {
    Unwrapped(id);
    var n := |d|;
    var r := ParseTrimmed(block);
    assert r == Some(Info(DecNumber(block[10..][..n]) % TWO_64, StateOf(block[10 + n..]), block));
  }

  lemma Unwrapped(x: nat)
    requires x < TWO_64
    ensures x % TWO_64 == x
  {
  }

  lemma BlockParts(block: string, d: string, s: string)
    requires block == PREFIX + (d + s)
    ensures |block| == 10 + |d| + |s| && block[..10] == PREFIX && block[10..] == d + s
    ensures block[10..][..|d|] == d && block[10 + |d|..] == s
  {
  }

  /** A printed goroutine, with or without a final line feed, is read back. */
  lemma PrintIsParsed(g: Goroutine, end: string)
    requires WellFormed(g) && IsEnding(end)
    ensures ParseBlock(Print(g) + end) == Some(InfoOf(g))
  {
    assert Print(g)[0] == 'g';
    TrimKeeps(Print(g), end);
    HeaderIsParsed(Print(g), g.id, g.state, "]:" + g.frames);
  }

  lemma {:induction false} BlankLineAfter(a: string, rest: string)
    requires BlankLine(a) == -1 && a != [] && a[|a| - 1] != '\n'
    ensures BlankLine(a + "\n\n" + rest) == |a|
    decreases |a|
  {
    var s := a + "\n\n" + rest;
    if |a| == 1 {
      assert s[1..] == "\n\n" + rest;
    } else {
      assert s[1..] == a[1..] + "\n\n" + rest;
      BlankLineAfter(a[1..], rest);
    }
  }

  lemma NoBlankLineAtEnd(a: string, end: string)
    requires BlankLine(a) == -1 && a != [] && a[|a| - 1] != '\n' && IsEnding(end)
    ensures BlankLine(a + end) == -1
    decreases |a|
  {
  }

  lemma Parts(a: string, b: string, c: string)
    ensures (a + b + c)[..|a|] == a && (a + b + c)[|a| + |b|..] == c
  {
  }

  lemma {:induction false} FirstOfDump(a: string, rest: string)
    requires BlankLine(a) == -1 && a != [] && a[|a| - 1] != '\n'
    ensures FirstBlock(a + "\n\n" + rest) == (a, rest)
  {
    BlankLineAfter(a, rest);
    Parts(a, "\n\n", rest);
  }

  function InfosOf(gs: seq<Goroutine>): seq<Info> {
    if gs == [] then [] else [InfoOf(gs[0])] + InfosOf(gs[1..])
  }

  /** Any list of well-formed goroutines is read back from its dump, in order and in full. */
  lemma {:induction false} DumpIsCollected(gs: seq<Goroutine>, end: string)
    requires (forall g :: g in gs ==> WellFormed(g)) && IsEnding(end)
    ensures Collect(Dump(gs, end)) == InfosOf(gs)
    decreases |gs|
  {
    if |gs| == 1 {
      CollectLast(gs[0], end);
      assert InfosOf(gs[1..]) == [];
    } else if |gs| > 1 {
      DumpIsCollected(gs[1..], end);
      CollectFirst(gs[0], Dump(gs[1..], end));
    }
  }

  lemma CollectLast(g: Goroutine, end: string)
    requires WellFormed(g) && IsEnding(end)
    ensures Collect(Print(g) + end) == [InfoOf(g)]
  {
    var buf := Print(g) + end;
    NoBlankLineAtEnd(Print(g), end);
    PrintIsParsed(g, end);
    assert FirstBlock(buf) == (buf, []);
    CollectUnfolds(buf);
  }

  lemma CollectFirst(g: Goroutine, rest: string)
    requires WellFormed(g)
    ensures Collect(Print(g) + "\n\n" + rest) == [InfoOf(g)] + Collect(rest)
  {
    var buf := Print(g) + "\n\n" + rest;
    FirstOfDump(Print(g), rest);
    assert Print(g) + [] == Print(g);
    PrintIsParsed(g, []);
    CollectUnfolds(buf);
  }

  // ---------------------------------------------------------------------------------------------
  // The imperative parser.

  method FindBlankLine(buf: string) returns (blockEnd: int)
    ensures blockEnd == BlankLine(buf)
  {
    var i := 0;
    while i < |buf| - 1
      invariant 0 <= i
      invariant forall k :: 0 <= k < i && k < |buf| - 1 ==> !(buf[k] == '\n' && buf[k + 1] == '\n')
    {
      if buf[i] == '\n' && buf[i + 1] == '\n' {
        return i;
      }
      i := i + 1;
    }
    return -1;
  }

  method TrimBlock(raw: string) returns (block: string)
    ensures block == TrimRight(TrimLeft(raw))
  {
    block := raw;
    while |block| > 0 && block[0] <= ' '
      invariant TrimLeft(block) == TrimLeft(raw)
      decreases |block|
    {
      block := block[1..];
    }
    while |block| > 0 && block[|block| - 1] <= ' '
      invariant TrimRight(block) == TrimRight(TrimLeft(raw))
      decreases |block|
    {
      block := block[..|block| - 1];
    }
  }

  lemma WrapStep(x: nat, d: nat)
    ensures (x % TWO_64 * 10 + d) % TWO_64 == (x * 10 + d) % TWO_64
  {
    var q, r := x / TWO_64, x % TWO_64;
    assert x * 10 + d == TWO_64 * (q * 10) + (r * 10 + d);
    ModUnique(r * 10 + d, q * 10);
  }

  lemma ModUnique(a: int, k: int)
    ensures (TWO_64 * k + a) % TWO_64 == a % TWO_64
  {
    var q, r := a / TWO_64, a % TWO_64;
    assert TWO_64 * k + a == TWO_64 * (k + q) + r;
  }

  /** Reads the digits from position 10; the number wraps at 64 bits. */
  method ReadId(block: string) returns (id: int, i: nat)
    requires |block| >= 10
    ensures i == 10 + DigitCount(block[10..]) && id == DecNumber(block[10..][..i - 10]) % TWO_64
  {
    ghost var s := block[10..];
    id, i := 0, 10;
    while i < |block| && IsDecimal(block[i])
      invariant 10 <= i <= |block| && AllDigits(s[..i - 10])
      invariant id == DecNumber(s[..i - 10]) % TWO_64
    {
      assert s[..i - 9] == s[..i - 10] + [block[i]];
      assert s[..i - 9][..i - 10] == s[..i - 10];
      WrapStep(DecNumber(s[..i - 10]), DecValue(block[i]));
      id := (id * 10 + DecValue(block[i])) % TWO_64;
      i := i + 1;
    }
    DigitCountIs(s, i - 10);
  }

  lemma DigitCountIs(s: string, n: nat)
    requires n <= |s| && AllDigits(s[..n]) && (n < |s| ==> !IsDecimal(s[n]))
    ensures DigitCount(s) == n
    decreases |s|
  {
  }

  /** `j` is the position of the first `c` from `from` on, or `limit`. */
  predicate FirstAt(block: string, from: nat, limit: nat, c: char, j: nat)
    requires limit <= |block|
  {
    && from <= j <= limit && (j < limit ==> block[j] == c)
    && forall k :: from <= k < j ==> block[k] != c
  }

  method FindByte(block: string, from: nat, limit: nat, c: char) returns (j: nat)
    requires from <= limit <= |block|
    ensures FirstAt(block, from, limit, c, j)
  {
    j := from;
    while j < limit && block[j] != c
      invariant from <= j <= limit
      invariant forall k :: from <= k < j ==> block[k] != c
    {
      j := j + 1;
    }
  }

  lemma BeforeIs(block: string, start: nat, end: nat)
    requires start <= |block| && FirstAt(block, start, |block|, ']', end)
    ensures Before(block[start..], ']') == block[start..end]
  {
    IndexOfIs(block[start..], ']', end - start);
  }

  lemma StateIs(block: string, i: nat, limit: nat, j: nat)
    requires i <= limit <= |block| && limit == (if i + 30 > |block| then |block| else i + 30)
    requires FirstAt(block, i, limit, '[', j)
    ensures StateOf(block[i..]) == if j == limit then [] else Before(block[j + 1..], ']')
  {
    var s := block[i..];
    var window := if |s| > 30 then s[..30] else s;
    assert window == block[i..limit];
    IndexOfIs(window, '[', j - i);
    if j < limit {
      assert s[j - i + 1..] == block[j + 1..];
    }
  }

  method ReadState(block: string, i: nat) returns (state: string)
    requires i <= |block|
    ensures state == StateOf(block[i..])
  {
    var limit := i + 30;
    if limit > |block| {
      limit := |block|;
    }
    var j := FindByte(block, i, limit, '[');
    StateIs(block, i, limit, j);
    if j == limit {
      return [];
    }
    var end := FindByte(block, j + 1, |block|, ']');
    BeforeIs(block, j + 1, end);
    state := block[j + 1..end];
  }

  method ParseNextBlock(buf: string) returns (info: Option<Info>, rest: string)
    ensures info == ParseBlock(FirstBlock(buf).0) && rest == FirstBlock(buf).1
  {
    var blockEnd := FindBlankLine(buf);
    var block;
    if blockEnd == -1 {
      block, rest := buf, [];
    } else {
      block, rest := buf[..blockEnd], buf[blockEnd + 2..];
    }
    block := TrimBlock(block);
    if |block| < 15 || block[..10] != PREFIX {
      return None, rest;
    }
    var id, i := ReadId(block);
    if i == 10 {
      return None, rest;
    }
    var state := ReadState(block, i);
    info := Some(Info(id, state, block));
  }

  lemma CollectUnfolds(buf: string)
    requires buf != []
    ensures Collect(buf) == Found(ParseBlock(FirstBlock(buf).0)) + Collect(FirstBlock(buf).1)
  {
  }

  method CollectStacks(dump: string) returns (result: seq<Info>)
    ensures result == Collect(dump) && |result| <= CountBlocks(dump)
  {
    var buf := dump;
    result := [];
    assert result + Collect(buf) == Collect(buf);
    while |buf| > 0
      invariant Collect(dump) == result + Collect(buf)
      decreases |buf|
    {
      CollectUnfolds(buf);
      var info, rest := ParseNextBlock(buf);
      Assoc(result, Found(info), Collect(rest));
      buf := rest;
      if info.Some? {
        result := result + [info.value];
      } else {
        assert result + [] == result;
      }
    }
    assert result + [] == result;
    AtMostCountBlocks(dump);
  }

  method EstimateBlocks(buf: string) returns (n: nat)
    ensures n == CountBlocks(buf)
  {
    n := 1;
    var i := 0;
    assert buf[0..] == buf;
    while i < |buf| - 1
      invariant 0 <= i <= |buf|
      invariant CountBlocks(buf) + 1 == n + CountBlocks(buf[i..])
    {
      if buf[i] == '\n' && buf[i + 1] == '\n' {
        n := n + 1;
        i := i + 1;
      }
      i := i + 1;
    }
  }
}
