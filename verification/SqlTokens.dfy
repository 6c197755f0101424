/** What the SQL lexer is for: statements that differ only in their literals get the same normalised text and
    type, and the literals all go to the parameter buffer.

    A statement is a list of tokens.  What each token leaves in the text, what it puts aside and how the next one
    is read after it stand here in one table, which does not refer to the lexer.  The theorems say that the lexer
    follows the table on every list of tokens that the statuses allow (`Placed`), and that every statement is
    such a list, but for a last comment or literal without an end. */
module SqlTokens {
  import opened SqlLexer
  import opened SqlLiterals
  import opened SqlText
  import opened SqlComments

  datatype Token =
    | Word(text: string)                       // letters and digits, at first a letter unless a word goes on
    | Digits(text: string)                     // the number of a bind variable
    | Numeral(text: string)                    // digits and dots
    | Quoted(mark: char, raw: string)          // `raw` between two marks
    | EscapedQuoted(mark: char, raw: string)   // the same behind a backslash, in PHP
    | Note(text: string)                       // a comment
    | Escaped(c: char)                         // a backslash and any other byte, in PHP
    | Sign(c: char)                            // any other byte

  /** The ten digits, the 26 letters in both cases and the underscore, by code. */
  lemma DigitsAndLetters(c: char)
    ensures IsDigit(c) <==> c in "0123456789"
    ensures IsProgLetter(c) <==> 65 <= c as int <= 90 || 97 <= c as int <= 122 || c as int == 95
  {
  }

  function RenderToken(t: Token): string {
    match t
    case Word(s) => s
    case Digits(s) => s
    case Numeral(s) => s
    case Quoted(mark, raw) => [mark] + raw + [mark]
    case EscapedQuoted(mark, raw) => ['\\'] + ([mark] + raw + [mark])
    case Note(s) => s
    case Escaped(c) => ['\\', c]
    case Sign(c) => [c]
  }

  function Render(ts: seq<Token>): string {
    if ts == [] then [] else RenderToken(ts[0]) + Render(ts[1..])
  }

  predicate StartsWith(s: string, c: char) { s != [] && s[0] == c }

  /** A byte that begins nothing: behind a numeral also a letter, behind a colon also a quote. */
  predicate IsSign(cfg: Config, c: char, status: Status, rest: string) {
    && !IsDigit(c)
    && (IsProgLetter(c) ==> status == Number)
    && (c == '.' ==> status != Number)
    && (c == '-' ==> !StartsWith(rest, '-'))
    && (c == '/' ==> !StartsWith(rest, '*'))
    && (IsMark(cfg, c) ==> status == Colon)
    && (c == '\\' && cfg.php ==> rest == [] || rest[0] == '\0')
  }

  /** Where each token can stand, in front of `rest`. */
  predicate Allowed(cfg: Config, t: Token, status: Status, rest: string) {
    match t
    case Word(s) => s != [] && IsWordTail(s) && status != Number && (status != Alphabet ==> IsProgLetter(s[0]))
    case Digits(s) => s != [] && status == Colon && forall c :: c in s ==> IsDigit(c)
    case Numeral(s) =>
      && s != [] && status in {Normal, Number} && (forall c :: c in s ==> IsDigit(c) || c == '.')
      && (status == Normal ==> IsDigit(s[0]))
    case Quoted(mark, raw) => status != Colon && IsMark(cfg, mark) && Inside(cfg, mark, raw) && Closes(mark, rest)
    case EscapedQuoted(mark, raw) => cfg.php && IsMark(cfg, mark) && Inside(cfg, mark, raw) && Closes(mark, rest)
    case Note(s) => IsComment(s)
    case Escaped(c) => cfg.php && c !in {'\0', '\'', '"'}
    case Sign(c) => IsSign(cfg, c, status, rest)
  }

  /** A lone slash leaves no trace, nor does a dot or a quote behind a colon, nor, in PHP, a backslash with
      nothing to escape. */
  predicate Dropped(cfg: Config, c: char, status: Status) {
    c == '/' || (status == Colon && (c == '.' || IsMark(cfg, c))) || (c == '\\' && cfg.php)
  }

  /** What a token leaves in the normalised text. */
  function Leaves(cfg: Config, t: Token, status: Status): string {
    match t
    case Word(s) => s
    case Digits(s) => s
    case Numeral(_) => if status == Normal then cfg.substituteNum else []
    case Quoted(mark, _) => (if status == Normal then [] else [mark]) + Substitute(cfg, mark)
    case EscapedQuoted(mark, _) => Substitute(cfg, mark)
    case Note(s) => if cfg.includeComment then s else []
    case Escaped(c) => [c]
    case Sign(c) => if Dropped(cfg, c, status) then [] else [c]
  }

  /** What it puts aside, every literal in full.  The opening quote is missing when the literal follows a letter
      or a digit immediately. */
  function PutsAside(t: Token, status: Status, hasParam: bool): string {
    var comma := if status == Normal && hasParam then "," else [];
    match t
    case Numeral(s) => comma + s
    case Quoted(mark, raw) => comma + (if status == Normal then [mark] else []) + (raw + [mark])
    case EscapedQuoted(mark, raw) => [mark] + (raw + [mark])
    case _ => []
  }

  /** How the lexer reads on. */
  function StatusAfter(cfg: Config, t: Token, status: Status): Status {
    match t
    case Word(_) => Alphabet
    case Numeral(_) => Number
    case Digits(_) | Escaped(_) => status
    case Quoted(_, _) | EscapedQuoted(_, _) | Note(_) => Normal
    case Sign(c) => if Dropped(cfg, c, status) then status else if c == ':' then Colon else Normal
  }

  /** The first word that begins outside another one decides the type. */
  function TypeAfter(t: Token, m: Mode): char {
    if m.sqlType == '\0' && t.Word? && t.text != [] && m.status != Alphabet then CrudType(t.text[0]) else m.sqlType
  }

  function After(cfg: Config, t: Token, m: Mode): Mode {
    Mode(StatusAfter(cfg, t, m.status), TypeAfter(t, m),
         m.hasParam || t.Numeral? || t.Quoted? || t.EscapedQuoted?)
  }

  predicate Placed(cfg: Config, ts: seq<Token>, rest: string, m: Mode)
    decreases |ts|
  {
    ts == [] || (Allowed(cfg, ts[0], m.status, Render(ts[1..]) + rest)
                 && Placed(cfg, ts[1..], rest, After(cfg, ts[0], m)))
  }

  function NormalForm(cfg: Config, ts: seq<Token>, m: Mode): string
    decreases |ts|
  {
    if ts == [] then [] else Leaves(cfg, ts[0], m.status) + NormalForm(cfg, ts[1..], After(cfg, ts[0], m))
  }

  function ParamForm(cfg: Config, ts: seq<Token>, m: Mode): string
    decreases |ts|
  {
    if ts == [] then []
    else PutsAside(ts[0], m.status, m.hasParam) + ParamForm(cfg, ts[1..], After(cfg, ts[0], m))
  }

  function FinalMode(cfg: Config, ts: seq<Token>, m: Mode): Mode
    decreases |ts|
  {
    if ts == [] then m else FinalMode(cfg, ts[1..], After(cfg, ts[0], m))
  }

  // ---------------------------------------------------------------------------------------------
  // One token.

  lemma SignIsRead(cfg: Config, c: char, rest: string, m: Mode)
    requires Outside(m) && IsSign(cfg, c, m.status, rest)
    ensures Run(cfg, [c] + rest, m)
            == Prefixed(Leaves(cfg, Sign(c), m.status), [], Run(cfg, rest, After(cfg, Sign(c), m)))
  {
    var s := [c] + rest;
    assert s[..1] == [c] && (rest != [] ==> s[1] == rest[0]);
    RunAfterStep(cfg, [c], rest, m, After(cfg, Sign(c), m), Leaves(cfg, Sign(c), m.status), []);
  }

  lemma EscapedIsRead(cfg: Config, c: char, rest: string, m: Mode)
    requires Outside(m) && cfg.php && c !in {'\0', '\'', '"'}
    ensures Run(cfg, ['\\', c] + rest, m) == Prefixed([c], [], Run(cfg, rest, m))
  {
    RunAfterStep(cfg, ['\\', c], rest, m, m, [c], []);
  }

  lemma EscapedMark(mark: char, raw: string, rest: string)
    ensures ['\\'] + ([mark] + raw + [mark]) + rest == ['\\', mark] + (raw + ([mark] + rest))
  {
  }

  lemma RunThroughEscapedMark(cfg: Config, mark: char, tail: string, m: Mode)
    requires Outside(m) && cfg.php && IsMark(cfg, mark)
    ensures Run(cfg, ['\\', mark] + tail, m)
            == Prefixed([], [mark], Run(cfg, tail, m.(status := Open(mark), hasParam := true)))
  {
    RunAfterStep(cfg, ['\\', mark], tail, m, m.(status := Open(mark), hasParam := true), [], [mark]);
  }

  lemma EscapedQuotedIsRead(cfg: Config, mark: char, raw: string, rest: string, m: Mode)
    requires Outside(m) && cfg.php && IsMark(cfg, mark) && Inside(cfg, mark, raw) && Closes(mark, rest)
    ensures Run(cfg, ['\\'] + ([mark] + raw + [mark]) + rest, m)
            == Prefixed(Substitute(cfg, mark), [mark] + (raw + [mark]),
                        Run(cfg, rest, m.(status := Normal, hasParam := true)))
  {
    var m' := m.(status := Normal, hasParam := true);
    EscapedMark(mark, raw, rest);
    RunThroughEscapedMark(cfg, mark, raw + ([mark] + rest), m);
    RunThroughContent(cfg, mark, raw, rest, m.(status := Open(mark), hasParam := true));
    PrefixedTwice([], [mark], Substitute(cfg, mark), raw + [mark], Run(cfg, rest, m'));
    assert [] + Substitute(cfg, mark) == Substitute(cfg, mark);
  }

  lemma NumeralIsRead(cfg: Config, d: string, rest: string, m: Mode)
    requires Outside(m) && Allowed(cfg, Numeral(d), m.status, rest)
    ensures Run(cfg, d + rest, m)
            == Prefixed(Leaves(cfg, Numeral(d), m.status), PutsAside(Numeral(d), m.status, m.hasParam),
                        Run(cfg, rest, After(cfg, Numeral(d), m)))
  {
    if m.status == Normal {
      RunThroughNumeral(cfg, d, rest, m);
    } else {
      RunThroughDigits(cfg, d, rest, m);
      assert [] + d == d;
    }
  }

  lemma {:induction false} QuotedIsRead(cfg: Config, mark: char, raw: string, rest: string, m: Mode)
    requires Outside(m) && Allowed(cfg, Quoted(mark, raw), m.status, rest)
    ensures Run(cfg, [mark] + raw + [mark] + rest, m)
            == Prefixed(Leaves(cfg, Quoted(mark, raw), m.status), PutsAside(Quoted(mark, raw), m.status, m.hasParam),
                        Run(cfg, rest, After(cfg, Quoted(mark, raw), m)))
  {
    RunThroughLiteral(cfg, mark, raw, rest, m);
    assert [] + [] + (raw + [mark]) == [] + (raw + [mark]);
  }

  /** The lexer reads a token as the table says. */
  lemma TokenIsRead(cfg: Config, t: Token, rest: string, m: Mode)
    requires Outside(m) && Allowed(cfg, t, m.status, rest)
    ensures Run(cfg, RenderToken(t) + rest, m)
            == Prefixed(Leaves(cfg, t, m.status), PutsAside(t, m.status, m.hasParam), Run(cfg, rest, After(cfg, t, m)))
  {
    match t
    case Word(s) => if m.status == Alphabet { RunThroughTail(cfg, s, rest, m); } else { WordIsKept(cfg, s, rest, m); }
    case Digits(s) => RunThroughNumber(cfg, s, rest, m);
    case Numeral(s) => NumeralIsRead(cfg, s, rest, m);
    case Quoted(mark, raw) => QuotedIsRead(cfg, mark, raw, rest, m);
    case EscapedQuoted(mark, raw) => EscapedQuotedIsRead(cfg, mark, raw, rest, m);
    case Note(s) => CommentIsOneUnit(cfg, s, rest, m);
    case Escaped(c) => EscapedIsRead(cfg, c, rest, m);
    case Sign(c) => SignIsRead(cfg, c, rest, m);
  }

  // ---------------------------------------------------------------------------------------------
  // The whole statement.

  lemma {:induction false} FormsUnfold(cfg: Config, ts: seq<Token>, m: Mode, f: Final)
    requires ts != []
    ensures var m' := After(cfg, ts[0], m);
            Prefixed(NormalForm(cfg, ts, m), ParamForm(cfg, ts, m), f)
            == Prefixed(Leaves(cfg, ts[0], m.status), PutsAside(ts[0], m.status, m.hasParam),
                        Prefixed(NormalForm(cfg, ts[1..], m'), ParamForm(cfg, ts[1..], m'), f))
  {
    var m' := After(cfg, ts[0], m);
    PrefixedTwice(Leaves(cfg, ts[0], m.status), PutsAside(ts[0], m.status, m.hasParam),
                  NormalForm(cfg, ts[1..], m'), ParamForm(cfg, ts[1..], m'), f);
  }

  lemma StaysOutside(cfg: Config, t: Token, m: Mode)
    requires Outside(m)
    ensures Outside(After(cfg, t, m))
  {
  }

  lemma NothingIsRead(cfg: Config, rest: string, m: Mode)
    ensures Render([]) + rest == rest
    ensures Prefixed(NormalForm(cfg, [], m), ParamForm(cfg, [], m), Run(cfg, rest, m)) == Run(cfg, rest, m)
  {
  }

  /** The lexer turns a list of tokens into its normal form, its parameters and its type. */
  lemma {:induction false} NormalisesToNormalForm(cfg: Config, ts: seq<Token>, rest: string, m: Mode)
    requires Outside(m) && Placed(cfg, ts, rest, m)
    ensures Outside(FinalMode(cfg, ts, m))
    ensures Run(cfg, Render(ts) + rest, m)
            == Prefixed(NormalForm(cfg, ts, m), ParamForm(cfg, ts, m), Run(cfg, rest, FinalMode(cfg, ts, m)))
    decreases |ts|
  {
    if ts == [] {
      NothingIsRead(cfg, rest, m);
    } else {
      RenderUnfolds(ts, rest);
      TokenIsRead(cfg, ts[0], Render(ts[1..]) + rest, m);
      StaysOutside(cfg, ts[0], m);
      NormalisesToNormalForm(cfg, ts[1..], rest, After(cfg, ts[0], m));
      FormsUnfold(cfg, ts, m, Run(cfg, rest, FinalMode(cfg, ts, m)));
    }
  }

  /** Two statements with the same text, and literals of the same kinds at the same places.  Comments may differ
      too if they are dropped. */
  predicate SameButLiterals(cfg: Config, ts: seq<Token>, us: seq<Token>) {
    |ts| == |us| && forall i :: 0 <= i < |ts| ==> SameToken(cfg, ts[i], us[i])
  }

  predicate SameToken(cfg: Config, t: Token, u: Token) {
    u == t ||
    match t
    case Numeral(_) => u.Numeral? && IsNumeral(u.text)
    case Quoted(mark, _) => u.Quoted? && u.mark == mark && Inside(cfg, mark, u.raw)
    case EscapedQuoted(mark, _) => u.EscapedQuoted? && u.mark == mark && Inside(cfg, mark, u.raw)
    case Note(s) => !cfg.includeComment && u.Note? && IsComment(s) && IsComment(u.text) && u.text[0] == s[0]
    case _ => false
  }

  /** The lexer's lookahead cannot tell `a` from `b`. */
  predicate LookAlike(a: string, b: string) {
    || (a == [] && b == [])
    || (a != [] && b != [] && (a[0] == b[0] || (IsNumeralByte(a[0]) && IsNumeralByte(b[0]))))
  }

  predicate IsNumeralByte(c: char) { IsDigit(c) || c == '.' }

  lemma AllowedLookAlike(cfg: Config, t: Token, u: Token, status: Status, a: string, b: string)
    requires Allowed(cfg, t, status, a) && SameToken(cfg, t, u) && LookAlike(a, b)
    ensures Allowed(cfg, u, status, b)
    ensures LookAlike(RenderToken(t) + a, RenderToken(u) + b)
  {
    if t.Numeral? {
      assert t.text[0] in t.text && u.text[0] in u.text;
    }
  }

  lemma SameEffect(cfg: Config, t: Token, u: Token, m: Mode)
    requires SameToken(cfg, t, u)
    ensures After(cfg, t, m) == After(cfg, u, m) && Leaves(cfg, t, m.status) == Leaves(cfg, u, m.status)
  {
  }

  lemma RenderUnfolds(ts: seq<Token>, rest: string)
    requires ts != []
    ensures Render(ts) + rest == RenderToken(ts[0]) + (Render(ts[1..]) + rest)
  {
  }

  lemma {:induction false} PlacedLookAlike(cfg: Config, ts: seq<Token>, us: seq<Token>, a: string, b: string, m: Mode)
    requires Placed(cfg, ts, a, m) && SameButLiterals(cfg, ts, us) && LookAlike(a, b)
    ensures Placed(cfg, us, b, m)
    ensures LookAlike(Render(ts) + a, Render(us) + b)
    decreases |ts|
  {
    if ts == [] {
      assert Render(ts) + a == a && Render(us) + b == b;
    } else {
      var a', b' := Render(ts[1..]) + a, Render(us[1..]) + b;
      SameTail(cfg, ts, us);
      SameEffect(cfg, ts[0], us[0], m);
      PlacedLookAlike(cfg, ts[1..], us[1..], a, b, After(cfg, ts[0], m));
      AllowedLookAlike(cfg, ts[0], us[0], m.status, a', b');
      RenderUnfolds(ts, a);
      RenderUnfolds(us, b);
    }
  }

  lemma SameTail(cfg: Config, ts: seq<Token>, us: seq<Token>)
    requires ts != [] && SameButLiterals(cfg, ts, us)
    ensures SameToken(cfg, ts[0], us[0]) && SameButLiterals(cfg, ts[1..], us[1..])
  {
    forall i | 0 <= i < |ts| - 1 ensures SameToken(cfg, ts[1..][i], us[1..][i]) {
      assert SameToken(cfg, ts[i + 1], us[i + 1]);
    }
  }

  /** Changing literals changes neither the normal form nor the final mode. */
  lemma {:induction false} NormalFormForgetsLiterals(cfg: Config, ts: seq<Token>, us: seq<Token>, m: Mode)
    requires SameButLiterals(cfg, ts, us)
    ensures NormalForm(cfg, ts, m) == NormalForm(cfg, us, m)
    ensures FinalMode(cfg, ts, m) == FinalMode(cfg, us, m)
    decreases |ts|
  {
    if ts != [] {
      SameTail(cfg, ts, us);
      SameEffect(cfg, ts[0], us[0], m);
      NormalFormForgetsLiterals(cfg, ts[1..], us[1..], After(cfg, ts[0], m));
    }
  }

  /** Statements that differ only in their literals have the same normalised text and type. */
  lemma LiteralInsensitive(cfg: Config, ts: seq<Token>, us: seq<Token>, rest: string)
    requires Placed(cfg, ts, rest, START) && SameButLiterals(cfg, ts, us)
    ensures Run(cfg, Render(ts) + rest, START).out == Run(cfg, Render(us) + rest, START).out
    ensures Run(cfg, Render(ts) + rest, START).mode == Run(cfg, Render(us) + rest, START).mode
  {
    PlacedLookAlike(cfg, ts, us, rest, rest, START);
    NormalFormForgetsLiterals(cfg, ts, us, START);
    NormalisesToNormalForm(cfg, ts, rest, START);
    NormalisesToNormalForm(cfg, us, rest, START);
  }

  /** With comments excluded, a comment has no influence on the report beyond that it is there, whatever tokens
      come before it and whatever text follows. */
  lemma {:induction false} CommentsAreForgotten(cfg: Config, ts: seq<Token>, one: string, other: string, rest: string)
    requires !cfg.includeComment && IsComment(one) && IsComment(other) && one[0] == other[0]
    requires Placed(cfg, ts, one + rest, START)
    ensures Run(cfg, Render(ts) + (one + rest), START) == Run(cfg, Render(ts) + (other + rest), START)
  {
    PlacedLookAlike(cfg, ts, ts, one + rest, other + rest, START);
    NormalisesToNormalForm(cfg, ts, one + rest, START);
    NormalisesToNormalForm(cfg, ts, other + rest, START);
    CommentIsOneUnit(cfg, one, rest, FinalMode(cfg, ts, START));
    CommentIsOneUnit(cfg, other, rest, FinalMode(cfg, ts, START));
  }

  // ---------------------------------------------------------------------------------------------
  // Statements whose words, literals and comments stand apart.

  /** A token that means the same wherever the lexer meets it behind white space. */
  predicate Plain(cfg: Config, t: Token) {
    match t
    case Word(s) => IsWord(s)
    case Numeral(s) => IsNumeral(s)
    case Quoted(mark, raw) => IsMark(cfg, mark) && Inside(cfg, mark, raw)
    case Note(s) => IsComment(s)
    case Sign(c) => IsBlank(c)
    case _ => false
  }

  /** White space or neutral punctuation follows every word, literal and comment. */
  predicate Spaced(cfg: Config, ts: seq<Token>) {
    && (forall i :: 0 <= i < |ts| ==> Plain(cfg, ts[i]))
    && (forall i :: 0 < i < |ts| ==> ts[i - 1].Sign? || ts[i].Sign?)
  }

  predicate IsLiteral(t: Token) { t.Numeral? || t.Quoted? }

  /** A token on its own, a literal replaced by its substitute. */
  function Alone(cfg: Config, t: Token): string {
    match t
    case Numeral(_) => cfg.substituteNum
    case Quoted(mark, _) => Substitute(cfg, mark)
    case Note(s) => Kept(cfg, s)
    case _ => RenderToken(t)
  }

  function Replaced(cfg: Config, ts: seq<Token>): string {
    if ts == [] then [] else Alone(cfg, ts[0]) + Replaced(cfg, ts[1..])
  }

  function WithComma(comma: bool, s: string): string { if comma then "," + s else s }

  /** The literals, each preceded by a comma, save the first if nothing comes before it. */
  function Literals(ts: seq<Token>, comma: bool): string {
    if ts == [] then []
    else (if IsLiteral(ts[0]) then WithComma(comma, RenderToken(ts[0])) else [])
         + Literals(ts[1..], comma || IsLiteral(ts[0]))
  }

  lemma SpacedTail(cfg: Config, ts: seq<Token>)
    requires ts != [] && Spaced(cfg, ts)
    ensures Plain(cfg, ts[0]) && Spaced(cfg, ts[1..])
    ensures |ts| > 1 ==> ts[0].Sign? || ts[1].Sign?
  {
    var us := ts[1..];
    forall i | 0 < i < |us| ensures us[i - 1].Sign? || us[i].Sign? {
      assert ts[i].Sign? || ts[i + 1].Sign?;
    }
  }

  lemma PlainToken(cfg: Config, t: Token, m: Mode, rest: string)
    requires Plain(cfg, t) && Outside(m) && (m.status == Normal || t.Sign?)
    requires t.Sign? || rest == [] || IsBlank(rest[0])
    ensures Allowed(cfg, t, m.status, rest)
    ensures Leaves(cfg, t, m.status) == Alone(cfg, t)
    ensures PutsAside(t, m.status, m.hasParam) == if IsLiteral(t) then WithComma(m.hasParam, RenderToken(t)) else []
    ensures var m' := After(cfg, t, m);
            Outside(m') && (t.Sign? ==> m'.status == Normal) && m'.hasParam == (m.hasParam || IsLiteral(t))
  {
    if t.Quoted? {
      assert "," + [t.mark] + (t.raw + [t.mark]) == "," + ([t.mark] + t.raw + [t.mark]);
      assert [] + [t.mark] + (t.raw + [t.mark]) == [t.mark] + t.raw + [t.mark];
      assert [] + Substitute(cfg, t.mark) == Substitute(cfg, t.mark);
    }
  }

  lemma FollowedBySign(cfg: Config, ts: seq<Token>)
    requires ts != [] && Spaced(cfg, ts)
    ensures ts[0].Sign? || Render(ts[1..]) + [] == [] || IsBlank((Render(ts[1..]) + [])[0])
  {
    if |ts| > 1 && !ts[0].Sign? {
      SpacedTail(cfg, ts);
      assert Plain(cfg, ts[1]);
    }
  }

  /** Literals that stand apart are placed: the text is the statement with every literal replaced, the
      parameters are the literals. */
  lemma {:induction false} SpacedIsPlaced(cfg: Config, ts: seq<Token>, m: Mode)
    requires Spaced(cfg, ts) && Outside(m) && (m.status == Normal || ts == [] || ts[0].Sign?)
    ensures Placed(cfg, ts, [], m)
    ensures NormalForm(cfg, ts, m) == Replaced(cfg, ts)
    ensures ParamForm(cfg, ts, m) == Literals(ts, m.hasParam)
    decreases |ts|
  {
    if ts != [] {
      SpacedTail(cfg, ts);
      FollowedBySign(cfg, ts);
      PlainToken(cfg, ts[0], m, Render(ts[1..]) + []);
      SpacedIsPlaced(cfg, ts[1..], After(cfg, ts[0], m));
    }
  }

  lemma SpacedStatement(cfg: Config, ts: seq<Token>)
    requires Spaced(cfg, ts)
    ensures Run(cfg, Render(ts), START).out == Replaced(cfg, ts)
    ensures Run(cfg, Render(ts), START).param == Literals(ts, false)
  {
    SpacedIsPlaced(cfg, ts, START);
    NormalisesToNormalForm(cfg, ts, [], START);
    assert Render(ts) + [] == Render(ts);
  }

  // ---------------------------------------------------------------------------------------------
  // Every statement is a list of tokens.

  /** `s` goes on inside a literal to its end, or to a PHP backslash with nothing to escape. */
  predicate Hangs(cfg: Config, mark: char, s: string, n: nat) {
    && n <= |s| && Inside(cfg, mark, s[..n])
    && (n == |s| || (cfg.php && s[n] == '\\' && Next(s[n..]) == '\0'))
  }

  /** `s` starts a comment or a literal that has no end. */
  ghost predicate Unfinished(cfg: Config, s: string, status: Status) {
    || (|s| >= 2 && s[0] == '/' && s[1] == '*' && StaysOpen(s[2..]))
    || (|s| >= 2 && s[0] == '-' && s[1] == '-' && '\n' !in s)
    || (|s| >= 1 && status != Colon && IsMark(cfg, s[0]) && exists n :: Hangs(cfg, s[0], s[1..], n))
    || (|s| >= 2 && cfg.php && s[0] == '\\' && IsMark(cfg, s[1]) && exists n :: Hangs(cfg, s[1], s[2..], n))
  }

  /** Where the literal around `s` ends, if it does. */
  lemma {:induction false} EndOfLiteral(cfg: Config, mark: char, s: string) returns (n: nat)
    ensures n <= |s| && Inside(cfg, mark, s[..n])
    ensures Hangs(cfg, mark, s, n) || (n < |s| && s[n] == mark && Closes(mark, s[n + 1..]))
    decreases |s|
  {
    if s == [] || UnitLength(cfg, mark, s) == 0 {
      n := 0;
      assert s[0..] == s;
    } else {
      var u := UnitLength(cfg, mark, s);
      var k := EndOfLiteral(cfg, mark, s[u..]);
      n := u + k;
      assert s[..n][u..] == s[u..][..k];
      assert s[n..] == s[u..][k..];
    }
  }

  /** Where the block comment around `s` ends, if it does. */
  lemma {:induction false} EndOfComment(s: string) returns (n: nat)
    ensures n <= |s| && StaysOpen(s[..n])
    ensures n == |s| || (n + 2 <= |s| && s[n] == '*' && s[n + 1] == '/')
    decreases |s|
  {
    if s == [] || (|s| >= 2 && s[0] == '*' && s[1] == '/') {
      n := 0;
    } else {
      var k := EndOfComment(s[1..]);
      n := k + 1;
      assert s[..n] == [s[0]] + s[1..][..k];
    }
  }

  /** A literal behind its opening mark, closed if it can be. */
  lemma QuotedOrNot(cfg: Config, mark: char, s: string) returns (raw: string, tail: string)
    ensures (exists n :: Hangs(cfg, mark, s, n))
            || (s == raw + [mark] + tail && Inside(cfg, mark, raw) && Closes(mark, tail))
  {
    var n := EndOfLiteral(cfg, mark, s);
    raw, tail := [], [];
    if !Hangs(cfg, mark, s, n) {
      raw, tail := s[..n], s[n + 1..];
    }
  }

  lemma Opening(mark: char, raw: string, tail: string)
    ensures [mark] + (raw + [mark] + tail) == [mark] + raw + [mark] + tail
    ensures ['\\'] + ([mark] + (raw + [mark] + tail)) == ['\\'] + ([mark] + raw + [mark]) + tail
  {
  }

  /** The comment at the start of `s`. */
  lemma NoteOrNot(cfg: Config, s: string, status: Status) returns (note: string, tail: string)
    requires |s| >= 2 && ((s[0] == '/' && s[1] == '*') || (s[0] == '-' && s[1] == '-'))
    ensures Unfinished(cfg, s, status) || (note != [] && IsComment(note) && s == note + tail)
  {
    note, tail := [], [];
    if s[0] == '/' {
      var n := EndOfComment(s[2..]);
      if n < |s| - 2 {
        note, tail := s[..n + 4], s[n + 4..];
        assert note[2..|note| - 2] == s[2..][..n];
        assert note[..2] == "/*" && note[|note| - 2..] == "*/";
      }
    } else if '\n' in s {
      var n := LineLength(s);
      LineEnds(s);
      note, tail := s[..n], s[n..];
      assert note[..2] == "--" && note[..|note| - 1] == s[..n - 1];
    }
  }

  lemma {:induction false} LineEnds(s: string)
    requires '\n' in s
    ensures var n := LineLength(s); s[n - 1] == '\n' && '\n' !in s[..n - 1]
    decreases |s|
  {
    if s[0] != '\n' {
      LineEnds(s[1..]);
      var n := LineLength(s);
      assert s[..n - 1] == [s[0]] + s[1..][..n - 2];
    }
  }

  predicate Begins(cfg: Config, s: string, status: Status, t: Token, tail: string) {
    RenderToken(t) != [] && s == RenderToken(t) + tail && Allowed(cfg, t, status, tail)
  }

  lemma QuotedToken(cfg: Config, s: string, status: Status) returns (t: Token, tail: string)
    requires s != [] && IsMark(cfg, s[0]) && status != SqlLexer.Colon
    ensures Unfinished(cfg, s, status) || Begins(cfg, s, status, t, tail)
  {
    var raw;
    raw, tail := QuotedOrNot(cfg, s[0], s[1..]);
    t := Quoted(s[0], raw);
    assert s == [s[0]] + s[1..];
    Opening(s[0], raw, tail);
  }

  lemma EscapedToken(cfg: Config, s: string, status: Status) returns (t: Token, tail: string)
    requires |s| >= 2 && cfg.php && s[0] == '\\' && s[1] != '\0'
    ensures Unfinished(cfg, s, status) || Begins(cfg, s, status, t, tail)
  {
    if IsMark(cfg, s[1]) {
      var raw;
      raw, tail := QuotedOrNot(cfg, s[1], s[2..]);
      t := EscapedQuoted(s[1], raw);
      assert s == ['\\'] + ([s[1]] + s[2..]);
      Opening(s[1], raw, tail);
    } else {
      t, tail := Escaped(s[1]), s[2..];
    }
  }

  /** The token at the start of `s`. */
  lemma NextToken(cfg: Config, s: string, status: Status) returns (t: Token, tail: string)
    requires s != [] && status in {Normal, Alphabet, Number, SqlLexer.Colon}
    ensures Unfinished(cfg, s, status) || Begins(cfg, s, status, t, tail)
  {
    var c := s[0];
    t, tail := Sign(c), s[1..];
    assert s == [c] + tail;
    if IsDigit(c) || (c == '.' && status == Number) {
      t := match status case Alphabet => Word([c]) case Colon => Digits([c]) case _ => Numeral([c]);
    } else if IsProgLetter(c) && status != Number {
      t := Word([c]);
    } else if |s| >= 2 && ((c == '/' && s[1] == '*') || (c == '-' && s[1] == '-')) {
      var note;
      note, tail := NoteOrNot(cfg, s, status);
      t := Note(note);
    } else if IsMark(cfg, c) && status != SqlLexer.Colon {
      t, tail := QuotedToken(cfg, s, status);
    } else if c == '\\' && cfg.php && |s| >= 2 && s[1] != '\0' {
      t, tail := EscapedToken(cfg, s, status);
    }
  }

  /** Every statement is a list of tokens, but for a last comment or literal that has no end. */
  lemma {:induction false} EveryStatementIsTokens(cfg: Config, s: string, m: Mode)
    requires Outside(m)
    ensures exists ts, tail ::
              && Placed(cfg, ts, tail, m) && s == Render(ts) + tail
              && (tail == [] || Unfinished(cfg, tail, FinalMode(cfg, ts, m).status))
    decreases |s|
  {
    if s == [] || Unfinished(cfg, s, m.status) {
      assert Placed(cfg, [], s, m) && s == Render([]) + s;
    } else {
      var t, rest := NextToken(cfg, s, m.status);
      var m' := After(cfg, t, m);
      EveryStatementIsTokens(cfg, rest, m');
      var ts, tail :| Placed(cfg, ts, tail, m') && rest == Render(ts) + tail
                      && (tail == [] || Unfinished(cfg, tail, FinalMode(cfg, ts, m').status));
      TokenBefore(cfg, t, ts, tail, m);
      assert Placed(cfg, [t] + ts, tail, m);
    }
  }

  lemma TokenBefore(cfg: Config, t: Token, ts: seq<Token>, tail: string, m: Mode)
    requires Placed(cfg, ts, tail, After(cfg, t, m)) && Allowed(cfg, t, m.status, Render(ts) + tail)
    ensures Placed(cfg, [t] + ts, tail, m) && Render([t] + ts) + tail == RenderToken(t) + (Render(ts) + tail)
    ensures FinalMode(cfg, [t] + ts, m) == FinalMode(cfg, ts, After(cfg, t, m))
  {
    var us := [t] + ts;
    assert us[1..] == ts;
    RenderUnfolds(us, tail);
  }
}
