/** The one-pass lexer that replaces the literals of an SQL statement by a substitute
    (agent/util/sqlutil/EscapeLiteralSQL.go).  A byte of the statement is the `char` of the same
    code; nothing below depends on an upper bound for that code.

    `Step` is one iteration of the lexer's loop, on the text that is still unread; `Run` is the whole
    loop.  The class at the end is the imperative lexer, proved to compute `Run`. */
module SqlLexer {
  datatype Status = Normal | Comment | Alphabet | Number | Quotation | Colon | DQuotation

  /** The lexer's settings.  `php` says that the agent runs inside a PHP application. */
  datatype Config = Config(substitute: string, substituteNum: string, includeComment: bool, php: bool)

  /** What one iteration hands to the next, apart from the unread text: the status, the statement
      type (`'\0'` while it is undecided) and whether the parameter buffer holds anything. */
  datatype Mode = Mode(status: Status, sqlType: char, hasParam: bool)

  /** What one iteration does: bytes read, next mode, and what is appended to the two buffers. */
  datatype Effect = Effect(consumed: nat, mode: Mode, out: string, param: string)

  datatype Final = Final(out: string, param: string, mode: Mode)

  const START := Mode(Normal, '\0', false)

  predicate IsDigit(c: char) { '0' <= c <= '9' }

  predicate IsProgLetter(c: char) { 'A' <= c <= 'Z' || 'a' <= c <= 'z' || c == '_' }

  /** The byte after the current one, 0 when there is none. */
  function Next(s: string): char { if |s| > 1 then s[1] else '\0' }

  function CrudType(c: char): char {
    if c in "sS" then 'S' else if c in "uU" then 'U'
    else if c in "dD" then 'D' else if c in "iI" then 'I' else '*'
  }

  /** The result of reading the first `n` bytes of the unread text. */
  function Read(n: nat, m: Mode, status: Status, out: string, param: string): Effect {
    Effect(n, m.(status := status, hasParam := m.hasParam || param != []), out, param)
  }

  /** A byte of a comment is kept or dropped, as configured. */
  function Kept(cfg: Config, s: string): string { if cfg.includeComment then s else [] }

  /** Literals are separated by commas in the parameter buffer. */
  function Separator(m: Mode): string { if m.hasParam then "," else [] }

  function Others(cfg: Config, s: string, m: Mode): Effect
    requires s != []
  {
    match m.status
    case Comment => Read(1, m, Comment, Kept(cfg, s[..1]), [])
    case Alphabet => Read(1, m, if IsProgLetter(s[0]) then Alphabet else Normal, s[..1], [])
    case Number => Read(1, m, Normal, s[..1], [])
    case Quotation | DQuotation => Read(1, m, m.status, [], s[..1])
    case Normal | Colon =>
      if IsProgLetter(s[0]) then
        Read(1, m.(sqlType := if m.sqlType == '\0' then CrudType(s[0]) else m.sqlType), Alphabet, s[..1], [])
      else
        Read(1, m, Normal, s[..1], [])
  }

  function ColonSign(cfg: Config, s: string, m: Mode): Effect
    requires s != []
  {
    match m.status
    case Comment => Read(1, m, Comment, Kept(cfg, s[..1]), [])
    case Quotation | DQuotation => Read(1, m, m.status, [], s[..1])
    case _ => Read(1, m, Colon, s[..1], [])
  }

  function Quote(cfg: Config, s: string, m: Mode): Effect
    requires s != []
  {
    match m.status
    case Normal => Read(1, m, Quotation, [], Separator(m) + s[..1])
    case Comment => Read(1, m, Comment, Kept(cfg, s[..1]), [])
    case Alphabet | Number => Read(1, m, Quotation, s[..1], [])
    case Quotation =>
      if Next(s) == '\'' then Read(2, m, Quotation, [], "''")
      else Read(1, m, Normal, "'" + cfg.substitute + "'", "'")
    case DQuotation => Read(1, m, DQuotation, [], s[..1])
    case Colon => Read(1, m, Colon, [], [])
  }

  function DQuote(cfg: Config, s: string, m: Mode): Effect
    requires s != []
  {
    match m.status
    case Normal => Read(1, m, DQuotation, [], Separator(m) + s[..1])
    case Comment => Read(1, m, Comment, Kept(cfg, s[..1]), [])
    case Alphabet | Number => Read(1, m, DQuotation, s[..1], [])
    case Quotation => Read(1, m, Quotation, [], s[..1])
    case DQuotation => Read(1, m, Normal, cfg.substitute, "\"")
    case Colon => Read(1, m, Colon, [], [])
  }

  function Astar(cfg: Config, s: string, m: Mode): Effect
    requires s != []
  {
    match m.status
    case Comment =>
      if Next(s) == '/' then Read(2, m, Normal, Kept(cfg, s[..1] + "/"), [])
      else Read(1, m, Comment, Kept(cfg, s[..1]), [])
    case Quotation | DQuotation => Read(1, m, m.status, [], s[..1])
    case _ => Read(1, m, Normal, s[..1], [])
  }

  function Slash(cfg: Config, s: string, m: Mode): Effect
    requires s != []
  {
    match m.status
    case Comment => Read(1, m, Comment, Kept(cfg, s[..1]), [])
    case Quotation | DQuotation => Read(1, m, m.status, [], s[..1])
    case _ =>
      if Next(s) == '*' then Read(2, m, Comment, Kept(cfg, s[..1] + "*"), [])
      else Read(1, m, m.status, [], [])
  }

  function Backslash(cfg: Config, s: string, m: Mode): Effect
    requires s != []
  {
    match m.status
    case Comment => Read(1, m, Comment, Kept(cfg, s[..1]), [])
    case Quotation | DQuotation =>
      if Next(s) != '\0' then Read(2, m, m.status, [], "\\" + [Next(s)])
      else Read(1, m, m.status, [], [])
    case _ =>
      if Next(s) == '\0' then Read(1, m, m.status, [], [])
      else if Next(s) == '\'' then Read(2, m, Quotation, [], "'")
      else if Next(s) == '"' then Read(2, m, DQuotation, [], "\"")
      else Read(2, m, m.status, [Next(s)], [])
  }

  /** Bytes up to and including the first line feed, or all of them. */
  function LineLength(s: string): (n: nat)
    ensures n <= |s|
    ensures s != [] ==> n > 0
  {
    if s == [] then 0 else if s[0] == '\n' then 1 else 1 + LineLength(s[1..])
  }

  lemma {:induction false} LineLengthIs(s: string, n: nat)
    requires n <= |s| && (n < |s| ==> n > 0) && (n == 0 ==> s == [])
    requires n == |s| || s[n - 1] == '\n'
    requires forall k :: 0 <= k < n - 1 ==> s[k] != '\n'
    ensures LineLength(s) == n
    decreases |s|
  {
    if n > 1 {
      LineLengthIs(s[1..], n - 1);
    }
  }

  function Minus(cfg: Config, s: string, m: Mode): Effect
    requires s != []
  {
    match m.status
    case Comment => Read(1, m, Comment, Kept(cfg, s[..1]), [])
    case Quotation | DQuotation => Read(1, m, m.status, [], s[..1])
    case _ =>
      if Next(s) == '-' then Read(LineLength(s), m, Normal, Kept(cfg, s[..LineLength(s)]), [])
      else Read(1, m, Normal, s[..1], [])
  }

  function Dot(cfg: Config, s: string, m: Mode): Effect
    requires s != []
  {
    match m.status
    case Normal | Alphabet => Read(1, m, Normal, s[..1], [])
    case Comment => Read(1, m, Comment, Kept(cfg, s[..1]), [])
    case Number | Quotation | DQuotation => Read(1, m, m.status, [], s[..1])
    case Colon => Read(1, m, Colon, [], [])
  }

  function Digit(cfg: Config, s: string, m: Mode): Effect
    requires s != []
  {
    match m.status
    case Normal => Read(1, m, Number, cfg.substituteNum, Separator(m) + s[..1])
    case Comment => Read(1, m, Comment, Kept(cfg, s[..1]), [])
    case Colon | Alphabet => Read(1, m, m.status, s[..1], [])
    case Number | Quotation | DQuotation => Read(1, m, m.status, [], s[..1])
  }

  /** One iteration of the loop. */
  function Step(cfg: Config, s: string, m: Mode): (e: Effect)
    requires s != []
    ensures 1 <= e.consumed <= |s|
    ensures e.mode.hasParam == (m.hasParam || e.param != [])
  {
    if IsDigit(s[0]) then Digit(cfg, s, m)
    else if s[0] == ':' then ColonSign(cfg, s, m)
    else if s[0] == '.' then Dot(cfg, s, m)
    else if s[0] == '-' then Minus(cfg, s, m)
    else if s[0] == '/' then Slash(cfg, s, m)
    else if s[0] == '*' then Astar(cfg, s, m)
    else if s[0] == '\'' then Quote(cfg, s, m)
    else if s[0] == '\\' && cfg.php then Backslash(cfg, s, m)
    else if s[0] == '"' && cfg.php then DQuote(cfg, s, m)
    else Others(cfg, s, m)
  }

  /** The whole loop. */
  function Run(cfg: Config, s: string, m: Mode): (f: Final)
    decreases |s|
  {
    if s == [] then Final([], [], m)
    else
      var e := Step(cfg, s, m);
      var r := Run(cfg, s[e.consumed..], e.mode);
      Final(e.out + r.out, e.param + r.param, r.mode)
  }

  /** `f` with buffers that already hold `out` and `param`. */
  function Prefixed(out: string, param: string, f: Final): Final {
    Final(out + f.out, param + f.param, f.mode)
  }

  lemma RunUnfolds(cfg: Config, s: string, m: Mode, e: Effect, out: string, param: string)
    requires s != [] && e == Step(cfg, s, m)
    ensures Prefixed(out, param, Run(cfg, s, m))
            == Prefixed(out + e.out, param + e.param, Run(cfg, s[e.consumed..], e.mode))
  {
    var r := Run(cfg, s[e.consumed..], e.mode);
    assert out + (e.out + r.out) == out + e.out + r.out;
    assert param + (e.param + r.param) == param + e.param + r.param;
  }

  /** A literal that is still open owes one byte of output. */
  function Debt(m: Mode): nat { if m.status == Quotation then 1 else 0 }

  lemma StepIsAffordable(cfg: Config, s: string, m: Mode)
    requires s != []
    requires |cfg.substitute| <= 1 && |cfg.substituteNum| <= 1
    ensures var e := Step(cfg, s, m); |e.out| + Debt(e.mode) <= 2 * e.consumed + Debt(m)
  {
  }

  /** With substitutes of at most one byte the normalised text is at most twice as long as the
      statement. */
  lemma {:induction false} OutputAtMostDoubles(cfg: Config, s: string, m: Mode)
    requires |cfg.substitute| <= 1 && |cfg.substituteNum| <= 1
    ensures |Run(cfg, s, m).out| <= 2 * |s| + Debt(m)
    decreases |s|
  {
    if s != [] {
      var e := Step(cfg, s, m);
      StepIsAffordable(cfg, s, m);
      RunUnfolds(cfg, s, m, e, [], []);
      OutputAtMostDoubles(cfg, s[e.consumed..], e.mode);
    }
  }

  // ---------------------------------------------------------------------------------------------
  // The imperative lexer.

  class EscapeLiteralSQL {
    const sql: string
    var cfg: Config
    var substituteStrMode: bool
    var pos: nat
    var status: Status
    var sqlType: char
    var parsedSql: string
    var param: string

    constructor (sql: string, php: bool)
      ensures this.sql == sql && cfg == Config("#", "#", true, php) && !substituteStrMode
      ensures parsedSql == [] && param == [] && sqlType == '\0'
    {
      this.sql, cfg, substituteStrMode := sql, Config("#", "#", true, php), false;
      pos, status, sqlType, parsedSql, param := 0, Normal, '\0', [], [];
    }

    /** What a numeral leaves: the substitute, in string mode between quotes. */
    static function NumberSubstitute(chr: string, strMode: bool): string { if strMode then "'" + chr + "'" else chr }

    method SetSubstitute(chr: string)
      modifies this`cfg
      ensures cfg == old(cfg).(substitute := chr, substituteNum := NumberSubstitute(chr, substituteStrMode))
    {
      cfg := cfg.(substitute := chr);
      if substituteStrMode {
        cfg := cfg.(substituteNum := "'" + chr + "'");
      } else {
        cfg := cfg.(substituteNum := cfg.substitute);
      }
    }

    method SetSubstituteStringMode(b: bool)
      modifies this`cfg, this`substituteStrMode
      ensures substituteStrMode == b
      ensures cfg == if old(substituteStrMode) == b then old(cfg)
                     else old(cfg).(substituteNum := NumberSubstitute(old(cfg).substitute, b))
    {
      if substituteStrMode == b {
        return;
      }
      substituteStrMode := b;
      if b {
        cfg := cfg.(substituteNum := "'" + cfg.substitute + "'");
      } else {
        cfg := cfg.(substituteNum := cfg.substitute);
      }
    }

    method SetIncludeComment(b: bool)
      modifies this`cfg
      ensures cfg == old(cfg).(includeComment := b)
    {
      cfg := cfg.(includeComment := b);
    }

    ghost function GhostMode(): Mode
      reads this
    {
      Mode(status, sqlType, param != [])
    }

    /** The unread text, starting at the current byte. */
    ghost function Unread(): string
      reads this
      requires pos <= |sql|
    {
      sql[pos..]
    }

    /** The handler run at the old position had exactly effect `e`; the loop's own increment of the
        position, which follows, moves past the bytes read. */
    twostate predicate Did(e: Effect)
      reads this
    {
      && parsedSql == old(parsedSql) + e.out
      && param == old(param) + e.param
      && Mode(status, sqlType, param != []) == e.mode
      && (pos + 1 == old(pos) + e.consumed || (pos == |sql| && old(pos) + e.consumed == |sql|))
    }

    function GetNext(x: nat): char
      requires x < |sql|
      ensures GetNext(x) == Next(sql[x..])
    {
      if x < |sql| - 1 then sql[x + 1] else '\0'
    }

    /** Runs the loop over the whole statement. */
    method Process()
      requires parsedSql == [] && param == [] && sqlType == '\0'
      modifies this`pos, this`status, this`sqlType, this`parsedSql, this`param
      ensures parsedSql == Run(cfg, sql, START).out
      ensures param == Run(cfg, sql, START).param
      ensures sqlType == Run(cfg, sql, START).mode.sqlType
    {
      status := Normal;
      pos := 0;
      assert Unread() == sql;
      ghost var whole := Run(cfg, sql, START);
      while pos < |sql|
        invariant var rest := if pos <= |sql| then Unread() else [];
                  whole == Prefixed(parsedSql, param, Run(cfg, rest, GhostMode()))
        decreases |sql| - pos
      {
        ghost var s, m := Unread(), GhostMode();
        ghost var e := Step(cfg, s, m);
        ghost var rest := s[e.consumed..];
        assert rest == sql[pos + e.consumed..];
        RunUnfolds(cfg, s, m, e, parsedSql, param);
        label Before:
        Dispatch();
        assert Did@Before(e);
        pos := pos + 1;
        assert rest == if pos <= |sql| then Unread() else [];
      }
    }

    method Dispatch()
      requires pos < |sql|
      modifies this`pos, this`status, this`sqlType, this`parsedSql, this`param
      ensures Did(Step(cfg, old(Unread()), old(GhostMode())))
    {
      var c := sql[pos];
      assert c == Unread()[0];
      if IsDigit(c) {
        OnDigit();
      } else if c == ':' {
        OnColon();
      } else if c == '.' {
        OnDot();
      } else if c == '-' {
        OnMinus();
      } else if c == '/' {
        OnSlash();
      } else if c == '*' {
        OnAstar();
      } else if c == '\'' {
        OnQuote();
      } else if c == '\\' && cfg.php {
        OnBackslash();
      } else if c == '"' && cfg.php {
        OnDQuote();
      } else {
        OnOthers();
      }
    }

    method OnOthers()
      requires pos < |sql|
      modifies this`pos, this`status, this`sqlType, this`parsedSql, this`param
      ensures Did(Others(cfg, old(Unread()), old(GhostMode())))
    {
      var c := sql[pos];
      assert Unread()[..1] == [c];
      match status
      case Comment =>
        if cfg.includeComment {
          parsedSql := parsedSql + [c];
        }
      case Alphabet =>
        parsedSql := parsedSql + [c];
        if !IsProgLetter(c) {
          status := Normal;
        }
      case Number =>
        parsedSql := parsedSql + [c];
        status := Normal;
      case Quotation | DQuotation =>
        param := param + [c];
      case Normal | Colon =>
        if IsProgLetter(c) {
          status := Alphabet;
          if sqlType == '\0' {
            sqlType := CrudType(c);
          }
        } else {
          status := Normal;
        }
        parsedSql := parsedSql + [c];
    }

    method OnColon()
      requires pos < |sql|
      modifies this`pos, this`status, this`sqlType, this`parsedSql, this`param
      ensures Did(ColonSign(cfg, old(Unread()), old(GhostMode())))
    {
      var c := sql[pos];
      assert Unread()[..1] == [c];
      match status
      case Comment =>
        if cfg.includeComment {
          parsedSql := parsedSql + [c];
        }
      case Quotation | DQuotation =>
        param := param + [c];
      case _ =>
        parsedSql := parsedSql + [c];
        status := Colon;
    }

    method OnQuote()
      requires pos < |sql|
      modifies this`pos, this`status, this`sqlType, this`parsedSql, this`param
      ensures Did(Quote(cfg, old(Unread()), old(GhostMode())))
    {
      var c := sql[pos];
      assert Unread()[..1] == [c];
      match status
      case Normal =>
        if |param| > 0 {
          param := param + ",";
        }
        param := param + [c];
        status := Quotation;
      case Comment =>
        if cfg.includeComment {
          parsedSql := parsedSql + [c];
        }
      case Alphabet | Number =>
        parsedSql := parsedSql + [c];
        status := Quotation;
      case Quotation =>
        if GetNext(pos) == '\'' {
          param := param + "'";
          param := param + "'";
          pos := pos + 1;
          assert param == old(param) + "''";
          return;
        }
        param := param + "'";
        parsedSql := parsedSql + "'";
        parsedSql := parsedSql + cfg.substitute;
        parsedSql := parsedSql + "'";
        status := Normal;
      case DQuotation =>
        param := param + [c];
      case Colon =>
    }

    method OnDQuote()
      requires pos < |sql|
      modifies this`pos, this`status, this`sqlType, this`parsedSql, this`param
      ensures Did(DQuote(cfg, old(Unread()), old(GhostMode())))
    {
      var c := sql[pos];
      assert Unread()[..1] == [c];
      match status
      case Normal =>
        if |param| > 0 {
          param := param + ",";
        }
        param := param + [c];
        status := DQuotation;
      case Comment =>
        if cfg.includeComment {
          parsedSql := parsedSql + [c];
        }
      case Alphabet | Number =>
        parsedSql := parsedSql + [c];
        status := DQuotation;
      case Quotation =>
        param := param + [c];
      case DQuotation =>
        param := param + "\"";
        parsedSql := parsedSql + cfg.substitute;
        status := Normal;
      case Colon =>
    }

    method OnAstar()
      requires pos < |sql|
      modifies this`pos, this`status, this`sqlType, this`parsedSql, this`param
      ensures Did(Astar(cfg, old(Unread()), old(GhostMode())))
    {
      var c := sql[pos];
      assert Unread()[..1] == [c];
      match status
      case Comment =>
        if cfg.includeComment {
          parsedSql := parsedSql + [c];
        }
        if GetNext(pos) == '/' {
          if cfg.includeComment {
            parsedSql := parsedSql + "/";
          }
          pos := pos + 1;
          status := Normal;
        }
      case Quotation | DQuotation =>
        param := param + [c];
      case _ =>
        parsedSql := parsedSql + [c];
        status := Normal;
    }

    method OnSlash()
      requires pos < |sql|
      modifies this`pos, this`status, this`sqlType, this`parsedSql, this`param
      ensures Did(Slash(cfg, old(Unread()), old(GhostMode())))
    {
      var c := sql[pos];
      assert Unread()[..1] == [c];
      match status
      case Comment =>
        if cfg.includeComment {
          parsedSql := parsedSql + [c];
        }
      case Quotation | DQuotation =>
        param := param + [c];
      case _ =>
        if GetNext(pos) == '*' {
          if cfg.includeComment {
            parsedSql := parsedSql + [c];
            parsedSql := parsedSql + "*";
          }
          pos := pos + 1;
          status := Comment;
        }
    }

    method OnBackslash()
      requires pos < |sql|
      modifies this`pos, this`status, this`sqlType, this`parsedSql, this`param
      ensures Did(Backslash(cfg, old(Unread()), old(GhostMode())))
    {
      var c := sql[pos];
      assert Unread()[..1] == [c];
      match status
      case Comment =>
        if cfg.includeComment {
          parsedSql := parsedSql + [c];
        }
      case Quotation | DQuotation =>
        if GetNext(pos) != '\0' {
          pos := pos + 1;
          param := param + "\\";
          param := param + [sql[pos]];
        }
      case _ =>
        if GetNext(pos) != '\0' {
          pos := pos + 1;
          if sql[pos] == '\'' {
            param := param + "'";
            status := Quotation;
          } else if sql[pos] == '"' {
            param := param + "\"";
            status := DQuotation;
          } else {
            parsedSql := parsedSql + [sql[pos]];
          }
        }
    }

    method OnMinus()
      requires pos < |sql|
      modifies this`pos, this`status, this`sqlType, this`parsedSql, this`param
      ensures Did(Minus(cfg, old(Unread()), old(GhostMode())))
    {
      var c := sql[pos];
      assert Unread()[..1] == [c];
      match status
      case Comment =>
        if cfg.includeComment {
          parsedSql := parsedSql + [c];
        }
      case Quotation | DQuotation =>
        param := param + [c];
      case _ =>
        if GetNext(pos) == '-' {
          SkipLine();
        } else {
          parsedSql := parsedSql + [c];
        }
        status := Normal;
    }

    /** The inner loop of a `--` comment: stops on the line feed, or past the last byte. */
    method SkipLine()
      requires pos < |sql|
      modifies this`pos, this`status, this`sqlType, this`parsedSql, this`param
      ensures var n := LineLength(old(Unread()));
              && parsedSql == old(parsedSql) + Kept(cfg, old(Unread())[..n])
              && param == old(param) && sqlType == old(sqlType) && status == old(status)
              && (pos + 1 == old(pos) + n || (pos == |sql| && old(pos) + n == |sql|))
    {
      ghost var s, start := Unread(), pos;
      if cfg.includeComment {
        parsedSql := parsedSql + [sql[pos]];
      }
      while sql[pos] != '\n'
        invariant start <= pos < |sql|
        invariant parsedSql == old(parsedSql) + Kept(cfg, s[..pos - start + 1])
        invariant forall k :: 0 <= k < pos - start ==> s[k] != '\n'
        invariant param == old(param) && sqlType == old(sqlType) && status == old(status)
        decreases |sql| - pos
      {
        pos := pos + 1;
        if pos < |sql| {
          assert s[..pos - start + 1] == s[..pos - start] + [sql[pos]];
          if cfg.includeComment {
            parsedSql := parsedSql + [sql[pos]];
          }
        } else {
          assert s[..|s|] == s;
          LineLengthIs(s, |s|);
          return;
        }
      }
      LineLengthIs(s, pos - start + 1);
    }

    method OnDot()
      requires pos < |sql|
      modifies this`pos, this`status, this`sqlType, this`parsedSql, this`param
      ensures Did(Dot(cfg, old(Unread()), old(GhostMode())))
    {
      var c := sql[pos];
      assert Unread()[..1] == [c];
      match status
      case Normal =>
        parsedSql := parsedSql + [c];
      case Comment =>
        if cfg.includeComment {
          parsedSql := parsedSql + [c];
        }
      case Alphabet =>
        parsedSql := parsedSql + [c];
        status := Normal;
      case Number | Quotation | DQuotation =>
        param := param + [c];
      case Colon =>
    }

    method OnDigit()
      requires pos < |sql|
      modifies this`pos, this`status, this`sqlType, this`parsedSql, this`param
      ensures Did(Digit(cfg, old(Unread()), old(GhostMode())))
    {
      var c := sql[pos];
      assert Unread()[..1] == [c];
      match status
      case Normal =>
        if |param| > 0 {
          param := param + ",";
        }
        param := param + [c];
        parsedSql := parsedSql + cfg.substituteNum;
        status := Number;
      case Comment =>
        if cfg.includeComment {
          parsedSql := parsedSql + [c];
        }
      case Colon | Alphabet =>
        parsedSql := parsedSql + [c];
      case Number | Quotation | DQuotation =>
        param := param + [c];
    }
  }
}
