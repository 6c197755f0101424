/** What the SQL lexer does with comments: a comment is one unit, kept byte for byte or dropped whole
    as configured, whatever quotes and digits are in it. */
module SqlComments {
  import opened SqlLexer
  import opened SqlLiterals

  /** The statuses in which a comment can start. */
  predicate Outside(m: Mode) { m.status in {Normal, Alphabet, Number, Colon} }

  /** `body` does not end a block comment early. */
  predicate StaysOpen(body: string) {
    forall i :: 0 <= i < |body| - 1 ==> !(body[i] == '*' && body[i + 1] == '/')
  }

  /** A comment with its delimiters. */
  predicate IsComment(s: string) {
    || (|s| >= 4 && s[..2] == "/*" && s[|s| - 2..] == "*/" && StaysOpen(s[2..|s| - 2]))
    || (|s| >= 3 && s[..2] == "--" && s[|s| - 1] == '\n' && '\n' !in s[..|s| - 1])
  }

  lemma KeptConcat(cfg: Config, a: string, b: string)
    ensures Kept(cfg, a) + Kept(cfg, b) == Kept(cfg, a + b)
  {
  }

  lemma StepInComment(cfg: Config, s: string, m: Mode)
    requires s != [] && m.status == Comment && !(s[0] == '*' && Next(s) == '/')
    ensures Step(cfg, s, m) == Effect(1, m, Kept(cfg, s[..1]), [])
  {
  }

  /** From inside a block comment to just after its end. */
  lemma {:induction false} RunThroughBody(cfg: Config, body: string, rest: string, m: Mode)
    requires m.status == Comment && StaysOpen(body)
    ensures Run(cfg, body + ("*/" + rest), m)
            == Prefixed(Kept(cfg, body + "*/"), [], Run(cfg, rest, m.(status := Normal)))
    decreases |body|
  {
    if body == [] {
      assert body + ("*/" + rest) == "*/" + rest && body + "*/" == "*/";
      BodyEnd(cfg, rest, m);
    } else {
      BodyByte(cfg, body, rest, m);
      assert StaysOpen(body[1..]);
      RunThroughBody(cfg, body[1..], rest, m);
      PrefixedTwice(Kept(cfg, body[..1]), [], Kept(cfg, body[1..] + "*/"), [], Run(cfg, rest, m.(status := Normal)));
      KeptConcat(cfg, body[..1], body[1..] + "*/");
      assert body[..1] + (body[1..] + "*/") == body + "*/";
    }
  }

  lemma BodyEnd(cfg: Config, rest: string, m: Mode)
    requires m.status == Comment
    ensures Run(cfg, "*/" + rest, m) == Prefixed(Kept(cfg, "*/"), [], Run(cfg, rest, m.(status := Normal)))
  {
    var s := "*/" + rest;
    assert s[..1] + "/" == "*/";
    RunAfterStep(cfg, "*/", rest, m, m.(status := Normal), Kept(cfg, "*/"), []);
  }

  lemma {:induction false} BodyByte(cfg: Config, body: string, rest: string, m: Mode)
    requires body != [] && m.status == Comment && StaysOpen(body)
    ensures Run(cfg, body + ("*/" + rest), m)
            == Prefixed(Kept(cfg, body[..1]), [], Run(cfg, body[1..] + ("*/" + rest), m))
  {
    var s, tail := body + ("*/" + rest), body[1..] + ("*/" + rest);
    assert s == body[..1] + tail;
    assert s[..1] == body[..1];
    assert |body| == 1 ==> Next(s) == '*';
    StepInComment(cfg, s, m);
    RunAfterStep(cfg, body[..1], tail, m, m, Kept(cfg, body[..1]), []);
  }

  lemma RunThroughBlockComment(cfg: Config, body: string, rest: string, m: Mode)
    requires Outside(m) && StaysOpen(body)
    ensures Run(cfg, "/*" + (body + ("*/" + rest)), m)
            == Prefixed(Kept(cfg, "/*" + (body + "*/")), [], Run(cfg, rest, m.(status := Normal)))
  {
    var tail := body + ("*/" + rest);
    RunAfterStep(cfg, "/*", tail, m, m.(status := Comment), Kept(cfg, "/*"), []) by {
      var s := "/*" + tail;
      assert s[..1] + "*" == "/*";
    }
    RunThroughBody(cfg, body, rest, m.(status := Comment));
    PrefixedTwice(Kept(cfg, "/*"), [], Kept(cfg, body + "*/"), [], Run(cfg, rest, m.(status := Normal)));
    KeptConcat(cfg, "/*", body + "*/");
  }

  lemma {:induction false} RunThroughLineComment(cfg: Config, line: string, rest: string, m: Mode)
    requires Outside(m) && |line| >= 3 && line[..2] == "--" && line[|line| - 1] == '\n' && '\n' !in line[..|line| - 1]
    ensures Run(cfg, line + rest, m) == Prefixed(Kept(cfg, line), [], Run(cfg, rest, m.(status := Normal)))
  {
    var s := line + rest;
    assert line[0] == line[..2][0] && line[1] == line[..2][1];
    forall k | 0 <= k < |line| - 1 ensures s[k] != '\n' {
      assert line[k] in line[..|line| - 1];
    }
    LineLengthIs(s, |line|);
    TakeFromConcat(line, rest, |line|);
    RunAfterStep(cfg, line, rest, m, m.(status := Normal), Kept(cfg, line), []);
  }

  /** A comment met outside literals is kept or dropped as a whole and ends the word before it. */
  lemma {:induction false} CommentIsOneUnit(cfg: Config, comment: string, rest: string, m: Mode)
    requires Outside(m) && IsComment(comment)
    ensures Run(cfg, comment + rest, m) == Prefixed(Kept(cfg, comment), [], Run(cfg, rest, m.(status := Normal)))
  {
    if comment[..2] == "--" {
      RunThroughLineComment(cfg, comment, rest, m);
    } else {
      var body := comment[2..|comment| - 2];
      assert comment == "/*" + (body + "*/");
      assert comment + rest == "/*" + (body + ("*/" + rest));
      RunThroughBlockComment(cfg, body, rest, m);
    }
  }
}
