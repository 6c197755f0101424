/** agent/logsink/LineBuffer.go: lines that start with a tab are joined to one text, others pass through. */
module LineBuffer {
  import opened Common

  /** What a call hands out: a joined text, of these lines, or a single line. */
  datatype Chunk = Joined(lines: seq<string>) | Single(line: string)

  function Text(lines: seq<string>): string {
    if lines == [] then [] else Text(Init(lines)) + Last(lines) + "\n"
  }

  /** Every line of a text ends with a line feed, and texts add up. */
  lemma {:induction false} TextAddsUp(a: seq<string>, b: seq<string>, line: string)
    ensures Text([line]) == line + "\n"
    ensures Text(a + b) == Text(a) + Text(b)
    decreases |b|
  {
    assert Init([line]) == [];
    if b == [] {
      assert a + b == a;
    } else {
      assert Init(a + b) == a + Init(b);
      TextAddsUp(a, Init(b), line);
    }
  }

  function ChunkText(c: Chunk): string {
    match c
    case Joined(ls) => Text(ls)
    case Single(l) => l
  }

  function LinesOf(cs: seq<Chunk>): seq<string> {
    if cs == [] then []
    else
      var c := Last(cs);
      LinesOf(Init(cs)) + if c.Joined? then c.lines else [c.line]
  }

  datatype State = State(isMulti: bool, lines: seq<string>)

  const NEW := State(false, [])

  function AppendLine(s: State, line: string): (State, seq<Chunk>) {
    if line == [] then
      if s.lines != [] then (s.(lines := []), [Joined(s.lines)]) else (s, [])
    else if line[0] == '\t' then
      if s.lines != [] && !s.isMulti then (State(true, s.lines + [line]), [Joined(s.lines + [line])])
      else (State(true, s.lines + [line]), [])
    else if s.lines != [] then (State(false, []), [Joined(s.lines), Single(line)])
    else (State(false, []), [Single(line)])
  }

  function Flush(s: State): (State, seq<Chunk>) {
    if s.lines != [] then (s.(lines := []), [Joined(s.lines)]) else (s, [])
  }

  datatype Event = Line(line: string) | FlushNow

  function Step(s: State, e: Event): (State, seq<Chunk>) {
    if e.Line? then AppendLine(s, e.line) else Flush(s)
  }

  function Play(es: seq<Event>): (State, seq<Chunk>) {
    if es == [] then (NEW, [])
    else
      var (s, out) := Play(Init(es));
      var (s', out') := Step(s, Last(es));
      (s', out + out')
  }

  /** The nonempty lines that came in. */
  function Inputs(es: seq<Event>): seq<string> {
    if es == [] then []
    else
      var e := Last(es);
      Inputs(Init(es)) + if e.Line? && e.line != [] then [e.line] else []
  }

  lemma LinesOfSnoc(cs: seq<Chunk>, c: Chunk)
    ensures LinesOf(cs + [c]) == LinesOf(cs) + if c.Joined? then c.lines else [c.line]
  {
    assert (cs + [c])[..|cs|] == cs;
  }

  lemma {:induction false} LinesOfConcat(a: seq<Chunk>, b: seq<Chunk>)
    ensures LinesOf(a + b) == LinesOf(a) + LinesOf(b)
    decreases |b|
  {
    if b == [] {
      assert a + b == a;
    } else {
      var c := Last(b);
      assert a + b == a + Init(b) + [c];
      LinesOfSnoc(a + Init(b), c);
      LinesOfConcat(a, Init(b));
      Assoc(LinesOf(a), LinesOf(Init(b)), if c.Joined? then c.lines else [c.line]);
    }
  }

  lemma StepConserves(s: State, e: Event)
    requires s.lines != [] ==> s.isMulti
    ensures var (s', out) := Step(s, e);
            && (s'.lines != [] ==> s'.isMulti)
            && LinesOf(out) + s'.lines == s.lines + if e.Line? && e.line != [] then [e.line] else []
  {
    var (s', out) := Step(s, e);
    if |out| == 2 {
      assert out[..1] == [Joined(s.lines)] && out[..1][..0] == [];
      assert LinesOf(out[..1]) == [] + s.lines;
    } else if |out| == 1 {
      assert out[..0] == [];
    }
  }

  /** Lines are neither lost, duplicated nor reordered: what was handed out followed by what is buffered are
      the nonempty lines that came in.  The branch that hands a text out and keeps it is never reached,
      because a nonempty buffer is always in joining mode. */
  lemma {:induction false} LinesAreConserved(es: seq<Event>)
    ensures var (s, out) := Play(es);
            (s.lines != [] ==> s.isMulti) && LinesOf(out) + s.lines == Inputs(es)
    decreases |es|
  {
    if es != [] {
      LinesAreConserved(Init(es));
      var (s, out) := Play(Init(es));
      StepConserves(s, Last(es));
      LinesOfConcat(out, Step(s, Last(es)).1);
      Assoc(LinesOf(out), LinesOf(Step(s, Last(es)).1), Step(s, Last(es)).0.lines);
      Assoc(LinesOf(out), s.lines, if Last(es).Line? && Last(es).line != [] then [Last(es).line] else []);
    }
  }

  predicate IsTabLine(line: string) { line != [] && line[0] == '\t' }

  predicate TabLines(lines: seq<string>) { forall k :: 0 <= k < |lines| ==> IsTabLine(lines[k]) }

  predicate ChunkOk(c: Chunk) {
    match c
    case Joined(ls) => ls != [] && TabLines(ls)
    case Single(l) => l != [] && !IsTabLine(l)
  }

  predicate ChunksOk(cs: seq<Chunk>) { forall k :: 0 <= k < |cs| ==> ChunkOk(cs[k]) }

  /** An empty line or a flush. */
  predicate Breaks(e: Event) { e.Line? ==> e.line == [] }

  predicate NoBreaks(es: seq<Event>) { forall k :: 0 <= k < |es| ==> !Breaks(es[k]) }

  lemma StepGroups(s: State, e: Event)
    requires TabLines(s.lines) && (s.lines != [] ==> s.isMulti)
    ensures var (s', out) := Step(s, e);
            && ChunksOk(out) && TabLines(s'.lines)
            && (if e.Line? && IsTabLine(e.line) then s'.lines == s.lines + [e.line] && out == [] else s'.lines == [])
            && (!Breaks(e) && !IsTabLine(e.line) ==> out != [] && Last(out) == Single(e.line))
  {
  }

  /** What is joined and what is not: every text handed out joins one or more tab lines, and every line handed
      out by itself is another one; anything but a tab line empties the buffer. */
  lemma {:induction false} TabLinesAreJoined(es: seq<Event>)
    ensures var (s, out) := Play(es);
            && ChunksOk(out) && TabLines(s.lines)
            && (es != [] && !(Last(es).Line? && IsTabLine(Last(es).line)) ==> s.lines == [])
    decreases |es|
  {
    if es != [] {
      TabLinesAreJoined(Init(es));
      LinesAreConserved(Init(es));
      StepGroups(Play(Init(es)).0, Last(es));
    }
  }

  /** Without empty lines and flushes, a text is never cut: it is handed out with the line that ends it. */
  lemma {:induction false} TextsAreWhole(es: seq<Event>)
    requires NoBreaks(es)
    ensures var out := Play(es).1;
            forall k :: 0 <= k < |out| && out[k].Joined? ==> k + 1 < |out| && out[k + 1].Single?
    decreases |es|
  {
    if es != [] {
      TextsAreWhole(Init(es));
      LinesAreConserved(Init(es));
      assert !Breaks(es[|es| - 1]);
    }
  }

  class Buffer {
    var isMulti: bool
    var out: string
    ghost var lines: seq<string>

    ghost predicate Valid()
      reads this
    {
      out == Text(lines)
    }

    ghost function View(): State
      reads this
    {
      State(isMulti, lines)
    }

    constructor ()
      ensures Valid() && View() == NEW
    {
      isMulti, out, lines := false, [], [];
    }

    method Append(line: string) returns (r: seq<string>)
      requires Valid()
      modifies this
      ensures Valid() && View() == AppendLine(old(View()), line).0
      ensures Texts(AppendLine(old(View()), line).1) == r
    {
      TextEmpty(lines);
      if line == [] {
        if |out| > 0 {
          var o := out;
          out, lines := [], [];
          return [o];
        }
        return [];
      }
      if line[0] == '\t' {
        var more := |out| > 0 && !isMulti;
        assert (lines + [line])[..|lines|] == lines;
        out := out + line;
        out := out + "\n";
        lines := lines + [line];
        isMulti := true;
        if more {
          return [out];
        }
        return [];
      }
      isMulti := false;
      if |out| > 0 {
        var o := out;
        out, lines := [], [];
        return [o, line];
      }
      return [line];
    }

    method FlushBuffer() returns (r: string)
      requires Valid()
      modifies this
      ensures Valid() && View() == Flush(old(View())).0
      ensures r == if old(lines) == [] then [] else Text(old(lines))
    {
      TextEmpty(lines);
      r := [];
      if |out| > 0 {
        r := out;
        out, lines := [], [];
      }
    }
  }

  function Texts(cs: seq<Chunk>): seq<string> {
    seq(|cs|, i requires 0 <= i < |cs| => ChunkText(cs[i]))
  }

  lemma TextEmpty(lines: seq<string>)
    ensures Text(lines) == [] <==> lines == []
  {
  }
}
