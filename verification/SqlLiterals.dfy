/** Runs of the SQL lexer over one literal.  A quoted literal leaves the substitute in the text and goes to the
    parameters, whatever its content, and so does a numeral. */
module SqlLiterals {
  import opened SqlLexer

  /** A literal is put between single quotes, in PHP also between double quotes. */
  predicate IsMark(cfg: Config, mark: char) { mark == '\'' || (cfg.php && mark == '"') }

  function Open(mark: char): Status { if mark == '\'' then Quotation else DQuotation }

  /** The bytes at the start of `raw` that the lexer reads in one step without leaving the literal: a
      doubled single quote, in PHP a backslash with the byte it escapes, or any other byte; else none. */
  function UnitLength(cfg: Config, mark: char, raw: string): nat
    requires raw != []
  {
    if raw[0] == '\\' && cfg.php then (if Next(raw) != '\0' then 2 else 0)
    else if raw[0] == mark then (if mark == '\'' && Next(raw) == '\'' then 2 else 0)
    else 1
  }

  /** `raw` can stand between two marks. */
  predicate Inside(cfg: Config, mark: char, raw: string)
    decreases |raw|
  {
    raw == [] || (UnitLength(cfg, mark, raw) > 0 && Inside(cfg, mark, raw[UnitLength(cfg, mark, raw)..]))
  }

  /** Any content at all, with its single quotes doubled. */
  function Doubled(content: string): string {
    if content == [] then []
    else (if content[0] == '\'' then "''" else content[..1]) + Doubled(content[1..])
  }

  /** Outside PHP every content can be quoted, and in PHP every one without a backslash. */
  lemma {:induction false} DoubledIsInside(cfg: Config, content: string)
    requires cfg.php ==> '\\' !in content
    ensures Inside(cfg, '\'', Doubled(content))
    decreases |content|
  {
    if content != [] {
      DoubledIsInside(cfg, content[1..]);
      var n := if content[0] == '\'' then 2 else 1;
      assert Doubled(content)[n..] == Doubled(content[1..]);
    }
  }

  predicate IsNumeral(d: string) {
    d != [] && IsDigit(d[0]) && forall c :: c in d ==> IsDigit(c) || c == '.'
  }

  /** A single quote closes a literal only if no other one follows. */
  predicate Closes(mark: char, rest: string) { mark == '\'' ==> rest == [] || rest[0] != '\'' }

  /** What an opening mark leaves in the text and puts aside, and how the lexer goes on: after a letter or a
      digit the mark itself stays in the text. */
  function OpenOut(mark: char, m: Mode): string { if m.status == Normal then [] else [mark] }

  function OpenParam(mark: char, m: Mode): string { if m.status == Normal then Separator(m) + [mark] else [] }

  function Opened(mark: char, m: Mode): Mode {
    m.(status := Open(mark), hasParam := m.hasParam || OpenParam(mark, m) != [])
  }

  /** What a quoted literal leaves in the text when it ends. */
  function Substitute(cfg: Config, mark: char): string {
    if mark == '\'' then "'" + cfg.substitute + "'" else cfg.substitute
  }

  lemma PrefixedTwice(o1: string, p1: string, o2: string, p2: string, f: Final)
    ensures Prefixed(o1, p1, Prefixed(o2, p2, f)) == Prefixed(o1 + o2, p1 + p2, f)
  {
  }

  lemma Regroup(a: string, b: string, c: string, d: string)
    ensures a + b + c + d == a + (b + (c + d))
  {
  }

  lemma DropFromConcat(t: string, rest: string, n: nat)
    requires n <= |t|
    ensures (t + rest)[n..] == t[n..] + rest
  {
  }

  lemma TakeFromConcat(t: string, rest: string, n: nat)
    requires n <= |t|
    ensures (t + rest)[..n] == t[..n]
  {
  }

  lemma RunStep(cfg: Config, s: string, m: Mode)
    requires s != []
    ensures var e := Step(cfg, s, m);
            Run(cfg, s, m) == Prefixed(e.out, e.param, Run(cfg, s[e.consumed..], e.mode))
  {
  }

  /** A step that reads exactly `head`. */
  lemma RunAfterStep(cfg: Config, head: string, tail: string, m: Mode, m': Mode, out: string, param: string)
    requires head != [] && Step(cfg, head + tail, m) == Effect(|head|, m', out, param)
    ensures Run(cfg, head + tail, m) == Prefixed(out, param, Run(cfg, tail, m'))
  {
    RunStep(cfg, head + tail, m);
    assert (head + tail)[|head|..] == tail;
  }

  /** One unit of a quoted literal goes to the parameters. */
  lemma StepInside(cfg: Config, mark: char, raw: string, rest: string, m: Mode)
    requires IsMark(cfg, mark) && m.status == Open(mark) && raw != [] && UnitLength(cfg, mark, raw) > 0
    ensures var n := UnitLength(cfg, mark, raw);
            n <= |raw| && Step(cfg, raw + rest, m) == Effect(n, m.(hasParam := true), [], raw[..n])
  {
    TakeFromConcat(raw, rest, 1);
    if UnitLength(cfg, mark, raw) == 2 {
      assert raw[..2] == [raw[0]] + [raw[1]];
    }
  }

  lemma StepOnClosingMark(cfg: Config, mark: char, rest: string, m: Mode)
    requires IsMark(cfg, mark) && m.status == Open(mark) && Closes(mark, rest)
    ensures Step(cfg, [mark] + rest, m)
            == Effect(1, m.(status := Normal, hasParam := true), Substitute(cfg, mark), [mark])
  {
  }

  lemma StepOnOpeningMark(cfg: Config, mark: char, tail: string, m: Mode)
    requires IsMark(cfg, mark) && m.status in {Normal, Alphabet, Number}
    ensures Step(cfg, [mark] + tail, m) == Effect(1, Opened(mark, m), OpenOut(mark, m), OpenParam(mark, m))
  {
    TakeFromConcat([mark], tail, 1);
  }

  lemma RawUnfolds(raw: string, n: nat, rest: string)
    requires n <= |raw|
    ensures raw + rest == raw[..n] + (raw[n..] + rest)
  {
    assert raw == raw[..n] + raw[n..];
  }

  lemma RunThroughUnit(cfg: Config, mark: char, raw: string, rest: string, m: Mode)
    requires IsMark(cfg, mark) && m.status == Open(mark) && raw != [] && UnitLength(cfg, mark, raw) > 0
    ensures var n := UnitLength(cfg, mark, raw);
            n <= |raw| && Run(cfg, raw + rest, m) == Prefixed([], raw[..n], Run(cfg, raw[n..] + rest, m.(hasParam := true)))
  {
    var n := UnitLength(cfg, mark, raw);
    StepInside(cfg, mark, raw, rest, m);
    RawUnfolds(raw, n, rest);
    RunAfterStep(cfg, raw[..n], raw[n..] + rest, m, m.(hasParam := true), [], raw[..n]);
  }

  /** `raw` put aside in two parts. */
  lemma AsideInParts(raw: string, n: nat, f: Final)
    requires n <= |raw|
    ensures Prefixed([], raw[..n], Prefixed([], raw[n..], f)) == Prefixed([], raw, f)
  {
    RawUnfolds(raw, n, f.param);
  }

  /** Inside a quoted literal everything goes to the parameters. */
  lemma {:induction false} RunThroughRaw(cfg: Config, mark: char, raw: string, rest: string, m: Mode)
    requires IsMark(cfg, mark) && Inside(cfg, mark, raw) && m.status == Open(mark)
    ensures Run(cfg, raw + rest, m)
            == Prefixed([], raw, Run(cfg, rest, m.(hasParam := m.hasParam || raw != [])))
    decreases |raw|
  {
    if raw == [] {
      assert raw + rest == rest;
    } else {
      var n, m' := UnitLength(cfg, mark, raw), m.(hasParam := true);
      RunThroughUnit(cfg, mark, raw, rest, m);
      RunThroughRaw(cfg, mark, raw[n..], rest, m');
      AsideInParts(raw, n, Run(cfg, rest, m'));
    }
  }

  /** From inside a quoted literal to just after its closing mark. */
  lemma RunThroughContent(cfg: Config, mark: char, raw: string, rest: string, m: Mode)
    requires IsMark(cfg, mark) && Inside(cfg, mark, raw) && m.status == Open(mark) && Closes(mark, rest)
    ensures Run(cfg, raw + ([mark] + rest), m)
            == Prefixed(Substitute(cfg, mark), raw + [mark], Run(cfg, rest, m.(status := Normal, hasParam := true)))
  {
    var m1, m2 := m.(hasParam := m.hasParam || raw != []), m.(status := Normal, hasParam := true);
    RunThroughRaw(cfg, mark, raw, [mark] + rest, m);
    StepOnClosingMark(cfg, mark, rest, m1);
    RunAfterStep(cfg, [mark], rest, m1, m2, Substitute(cfg, mark), [mark]);
    PrefixedTwice([], raw, Substitute(cfg, mark), [mark], Run(cfg, rest, m2));
    assert [] + Substitute(cfg, mark) == Substitute(cfg, mark);
  }

  lemma RunThroughOpening(cfg: Config, mark: char, tail: string, m: Mode)
    requires IsMark(cfg, mark) && m.status in {Normal, Alphabet, Number}
    ensures Run(cfg, [mark] + tail, m)
            == Prefixed(OpenOut(mark, m), OpenParam(mark, m), Run(cfg, tail, Opened(mark, m)))
  {
    StepOnOpeningMark(cfg, mark, tail, m);
    RunAfterStep(cfg, [mark], tail, m, Opened(mark, m), OpenOut(mark, m), OpenParam(mark, m));
  }

  lemma RunThroughLiteral(cfg: Config, mark: char, raw: string, rest: string, m: Mode)
    requires m.status in {Normal, Alphabet, Number} && IsMark(cfg, mark) && Inside(cfg, mark, raw) && Closes(mark, rest)
    ensures Run(cfg, [mark] + raw + [mark] + rest, m)
            == Prefixed(OpenOut(mark, m) + Substitute(cfg, mark), OpenParam(mark, m) + (raw + [mark]),
                        Run(cfg, rest, m.(status := Normal, hasParam := true)))
  {
    Regroup([mark], raw, [mark], rest);
    RunThroughOpening(cfg, mark, raw + ([mark] + rest), m);
    RunThroughContent(cfg, mark, raw, rest, Opened(mark, m));
    PrefixedTwice(OpenOut(mark, m), OpenParam(mark, m), Substitute(cfg, mark), raw + [mark],
                  Run(cfg, rest, m.(status := Normal, hasParam := true)));
  }

  /** A literal that is never closed leaves no byte of its content in the text. */
  lemma OpenLiteralIsPutAside(cfg: Config, mark: char, raw: string, m: Mode)
    requires m.status in {Normal, Alphabet, Number} && IsMark(cfg, mark) && Inside(cfg, mark, raw)
    ensures var f := Run(cfg, [mark] + raw, m);
            f.out == OpenOut(mark, m) && f.param == OpenParam(mark, m) + raw && f.mode.status == Open(mark)
  {
    RunThroughOpening(cfg, mark, raw, m);
    RunThroughRaw(cfg, mark, raw, [], Opened(mark, m));
    assert raw + [] == raw;
  }

  lemma {:induction false} RunThroughDigits(cfg: Config, d: string, rest: string, m: Mode)
    requires m.status == Number
    requires forall c :: c in d ==> IsDigit(c) || c == '.'
    ensures Run(cfg, d + rest, m)
            == Prefixed([], d, Run(cfg, rest, m.(hasParam := m.hasParam || d != [])))
    decreases |d|
  {
    if d == [] {
      assert d + rest == rest;
    } else {
      var s := d + rest;
      var m' := m.(hasParam := true);
      assert s[0] in d;
      RunStep(cfg, s, m);
      assert s[..1] == d[..1];
      assert s[1..] == d[1..] + rest;
      RunThroughDigits(cfg, d[1..], rest, m');
      PrefixedTwice([], d[..1], [], d[1..], Run(cfg, rest, m'));
      assert d[..1] + d[1..] == d;
    }
  }

  lemma HeadTail(a: string, d: string, rest: string)
    requires d != []
    ensures d + rest == [d[0]] + (d[1..] + rest)
    ensures a + [d[0]] + d[1..] == a + d
  {
  }

  lemma RunThroughFirstDigit(cfg: Config, c: char, tail: string, m: Mode)
    requires m.status == Normal && IsDigit(c)
    ensures Run(cfg, [c] + tail, m)
            == Prefixed(cfg.substituteNum, Separator(m) + [c], Run(cfg, tail, m.(status := Number, hasParam := true)))
  {
  }

  lemma RunThroughNumeral(cfg: Config, d: string, rest: string, m: Mode)
    requires m.status == Normal && IsNumeral(d)
    ensures Run(cfg, d + rest, m)
            == Prefixed(cfg.substituteNum, Separator(m) + d, Run(cfg, rest, m.(status := Number, hasParam := true)))
  {
    var m' := m.(status := Number, hasParam := true);
    HeadTail([], d, rest);
    HeadTail(Separator(m), d, []);
    RunThroughFirstDigit(cfg, d[0], d[1..] + rest, m);
    RunThroughDigits(cfg, d[1..], rest, m');
    PrefixedTwice(cfg.substituteNum, Separator(m) + [d[0]], [], d[1..], Run(cfg, rest, m'));
    assert cfg.substituteNum + [] == cfg.substituteNum;
  }
}
