/** What the SQL lexer keeps: words with their digits, bind variables and blanks are copied as they are, and
    the first word of the statement decides its type for good. */
module SqlText {
  import opened SqlLexer
  import opened SqlLiterals

  /** A letter, then letters and digits. */
  predicate IsWord(w: string) { w != [] && IsProgLetter(w[0]) && IsWordTail(w) }

  predicate IsWordTail(w: string) { forall c :: c in w ==> IsProgLetter(c) || IsDigit(c) }

  /** White space and the punctuation that means nothing to the lexer. */
  predicate IsBlank(c: char) {
    !IsDigit(c) && !IsProgLetter(c) && c !in {':', '.', '-', '/', '*', '\'', '\\', '"'}
  }

  function Decided(m: Mode, c: char): char { if m.sqlType == '\0' then CrudType(c) else m.sqlType }

  lemma StepKeepsType(cfg: Config, s: string, m: Mode)
    requires s != [] && m.sqlType != '\0'
    ensures Step(cfg, s, m).mode.sqlType == m.sqlType
  {
  }

  /** Once decided, the type of a statement never changes. */
  lemma {:induction false} TypeIsFixed(cfg: Config, s: string, m: Mode)
    requires m.sqlType != '\0'
    ensures Run(cfg, s, m).mode.sqlType == m.sqlType
    decreases |s|
  {
    if s != [] {
      RunStep(cfg, s, m);
      StepKeepsType(cfg, s, m);
      TypeIsFixed(cfg, s[Step(cfg, s, m).consumed..], Step(cfg, s, m).mode);
    }
  }

  /** A step that copies one byte and puts nothing aside. */
  lemma {:induction false} CopiesOne(cfg: Config, t: string, rest: string, m: Mode, m': Mode)
    requires t != [] && Step(cfg, t + rest, m) == Effect(1, m', t[..1], [])
    ensures Run(cfg, t + rest, m) == Prefixed(t[..1], [], Run(cfg, t[1..] + rest, m'))
  {
    RunStep(cfg, t + rest, m);
    DropFromConcat(t, rest, 1);
  }

  /** Copying byte by byte copies the text. */
  lemma CopiesAll(t: string, f: Final)
    requires t != []
    ensures Prefixed(t[..1], [], Prefixed(t[1..], [], f)) == Prefixed(t, [], f)
  {
  }

  lemma {:induction false} RunThroughTail(cfg: Config, w: string, rest: string, m: Mode)
    requires m.status == Alphabet && IsWordTail(w)
    ensures Run(cfg, w + rest, m) == Prefixed(w, [], Run(cfg, rest, m))
    decreases |w|
  {
    if w == [] {
      assert w + rest == rest;
    } else {
      assert w[0] in w;
      TakeFromConcat(w, rest, 1);
      CopiesOne(cfg, w, rest, m, m);
      RunThroughTail(cfg, w[1..], rest, m);
      CopiesAll(w, Run(cfg, rest, m));
    }
  }

  /** A word is copied; the digits in it are no literals. */
  lemma {:induction false} WordIsKept(cfg: Config, w: string, rest: string, m: Mode)
    requires m.status in {Normal, Colon} && IsWord(w)
    ensures Run(cfg, w + rest, m)
            == Prefixed(w, [], Run(cfg, rest, m.(status := Alphabet, sqlType := Decided(m, w[0]))))
  {
    var m' := m.(status := Alphabet, sqlType := Decided(m, w[0]));
    TakeFromConcat(w, rest, 1);
    CopiesOne(cfg, w, rest, m, m');
    RunThroughTail(cfg, w[1..], rest, m');
    CopiesAll(w, Run(cfg, rest, m'));
  }

  lemma {:induction false} BlanksAreKept(cfg: Config, t: string, rest: string, m: Mode)
    requires m.status == Normal && forall c :: c in t ==> IsBlank(c)
    ensures Run(cfg, t + rest, m) == Prefixed(t, [], Run(cfg, rest, m))
    decreases |t|
  {
    if t == [] {
      assert t + rest == rest;
    } else {
      assert t[0] in t;
      TakeFromConcat(t, rest, 1);
      CopiesOne(cfg, t, rest, m, m);
      BlanksAreKept(cfg, t[1..], rest, m);
      CopiesAll(t, Run(cfg, rest, m));
    }
  }

  lemma {:induction false} RunThroughNumber(cfg: Config, d: string, rest: string, m: Mode)
    requires m.status == Colon && forall c :: c in d ==> IsDigit(c)
    ensures Run(cfg, d + rest, m) == Prefixed(d, [], Run(cfg, rest, m))
    decreases |d|
  {
    if d == [] {
      assert d + rest == rest;
    } else {
      assert d[0] in d;
      TakeFromConcat(d, rest, 1);
      CopiesOne(cfg, d, rest, m, m);
      RunThroughNumber(cfg, d[1..], rest, m);
      CopiesAll(d, Run(cfg, rest, m));
    }
  }

  /** A numbered bind variable is copied; its number is no literal. */
  lemma BindVariableIsKept(cfg: Config, d: string, rest: string, m: Mode)
    requires m.status in {Normal, Alphabet, Number, Colon} && forall c :: c in d ==> IsDigit(c)
    ensures Run(cfg, ([':'] + d) + rest, m) == Prefixed([':'] + d, [], Run(cfg, rest, m.(status := Colon)))
  {
    var t, m' := [':'] + d, m.(status := Colon);
    TakeFromConcat(t, rest, 1);
    CopiesOne(cfg, t, rest, m, m');
    assert t[1..] == d;
    RunThroughNumber(cfg, d, rest, m');
    CopiesAll(t, Run(cfg, rest, m'));
  }

  /** S, U, D or I in either case, and `*` for any other letter. */
  predicate IsTypeOf(c: char, t: char) {
    && (c in ['S', 'U', 'D', 'I'] ==> t == c)
    && (c in ['s', 'u', 'd', 'i'] ==> t == c - ' ')
    && (c !in ['S', 'U', 'D', 'I', 's', 'u', 'd', 'i'] ==> t == '*')
  }

  lemma TypeLetter(c: char)
    ensures IsTypeOf(c, CrudType(c))
  {
  }

  /** The first letter of the first word is the type of the statement, whatever follows. */
  lemma FirstWordIsTheType(cfg: Config, blanks: string, w: string, rest: string)
    requires IsWord(w) && forall c :: c in blanks ==> IsBlank(c)
    ensures IsTypeOf(w[0], Run(cfg, blanks + (w + rest), START).mode.sqlType)
  {
    TypeLetter(w[0]);
    BlanksAreKept(cfg, blanks, w + rest, START);
    WordIsKept(cfg, w, rest, START);
    TypeIsFixed(cfg, rest, START.(status := Alphabet, sqlType := CrudType(w[0])));
  }
}
