/** The cache in front of the SQL lexer (agent/agent/trace/ParsedSql.go): answers are kept under the
    hash code of the statement in two bounded maps, which may evict at any time and are cleared on
    request.  The two hash functions belong to a library that is not part of this model. */
module SqlCache {
  import opened SqlLexer
  import opened SqlTokens

  datatype ParsedSql = ParsedSql(sqlType: char, sql: int, param: string)

  /** `code` keys the cache, `text` identifies a normalised text to the server. */
  datatype Hashes = Hashes(code: string -> int, text: string -> int)

  const MAX_NORMALIZE_LENGTH := 32 * 1024

  /** The answer without any cache.  `normalize` is a setting that can change between calls. */
  function Fresh(h: Hashes, cfg: Config, normalize: bool, sql: string): ParsedSql {
    if !normalize then ParsedSql('*', h.text(sql), [])
    else if |sql| > MAX_NORMALIZE_LENGTH then ParsedSql('*', h.text(sql[..MAX_NORMALIZE_LENGTH]), [])
    else
      var f := Run(cfg, sql, START);
      ParsedSql(f.mode.sqlType, h.text(f.out), if h.text(f.out) == h.code(sql) then [] else f.param)
  }

  datatype Cache = Cache(nonLite: map<int, ParsedSql>, checked: map<int, ParsedSql>)

  const EMPTY := Cache(map[], map[])

  function Lookup(h: Hashes, cfg: Config, c: Cache, normalize: bool, sql: string): (Cache, ParsedSql) {
    var key := h.code(sql);
    if !normalize || |sql| > MAX_NORMALIZE_LENGTH then (c, Fresh(h, cfg, normalize, sql))
    else if key in c.nonLite then (c, c.nonLite[key])
    else if key in c.checked then (c, c.checked[key])
    else
      var p := Fresh(h, cfg, true, sql);
      if p.sql == key then (c.(nonLite := c.nonLite[key := p]), p)
      else (c.(checked := c.checked[key := p]), p)
  }

  /** The texts that one lookup hands to the text dictionary: whatever it has hashed, nothing on a hit. */
  function Handed(h: Hashes, cfg: Config, c: Cache, normalize: bool, sql: string): seq<string> {
    if !normalize then [sql]
    else if |sql| > MAX_NORMALIZE_LENGTH then [sql[..MAX_NORMALIZE_LENGTH]]
    else if h.code(sql) in c.nonLite || h.code(sql) in c.checked then []
    else [Run(cfg, sql, START).out]
  }

  /** The two maps hold apart what is its own normalised text and what is not. */
  predicate Sorted(c: Cache) {
    && (forall k :: k in c.nonLite ==> c.nonLite[k].sql == k && c.nonLite[k].param == [])
    && (forall k :: k in c.checked ==> c.checked[k].sql != k)
  }

  /** A lookup leaves its answer in the cache: the next one with the same hash code gets it, and hands the
      dictionary nothing. */
  lemma SecondLookupHits(h: Hashes, cfg: Config, c: Cache, sql: string, again: string)
    requires Short(sql) && Short(again) && h.code(sql) == h.code(again)
    ensures var (c', p) := Lookup(h, cfg, c, true, sql);
            && Lookup(h, cfg, c', true, again) == (c', p) && Handed(h, cfg, c', true, again) == []
            && (Sorted(c) ==> Sorted(c'))
  {
  }

  /** One thing that happens to the cache; an eviction removes any keys from either map. */
  datatype Event = Escape(normalize: bool, sql: string) | Evict(nonLite: set<int>, checked: set<int>) | Reset

  datatype Answer = Answer(normalize: bool, sql: string, parsed: ParsedSql)

  /** What a run of events returns, one answer for each `Escape`. */
  function Answers(h: Hashes, cfg: Config, c: Cache, es: seq<Event>): seq<Answer>
    decreases |es|
  {
    if es == [] then []
    else
      match es[0]
      case Escape(normalize, sql) =>
        var (c', p) := Lookup(h, cfg, c, normalize, sql);
        [Answer(normalize, sql, p)] + Answers(h, cfg, c', es[1..])
      case Evict(n, k) => Answers(h, cfg, Cache(c.nonLite - n, c.checked - k), es[1..])
      case Reset => Answers(h, cfg, EMPTY, es[1..])
  }

  /** Statements among `used` that share a hash code have the same answer. */
  predicate Harmless(h: Hashes, cfg: Config, used: set<string>) {
    forall a, b :: a in used && b in used && Short(a) && Short(b) && h.code(a) == h.code(b) ==>
      Fresh(h, cfg, true, a) == Fresh(h, cfg, true, b)
  }

  predicate Short(sql: string) { |sql| <= MAX_NORMALIZE_LENGTH }

  /** Every cached answer is the fresh answer of the statements of `used` with that hash code. */
  predicate Coherent(h: Hashes, cfg: Config, c: Cache, used: set<string>) {
    forall s :: s in used && Short(s) ==>
      && (h.code(s) in c.nonLite ==> c.nonLite[h.code(s)] == Fresh(h, cfg, true, s))
      && (h.code(s) in c.checked ==> c.checked[h.code(s)] == Fresh(h, cfg, true, s))
  }

  predicate Uses(es: seq<Event>, used: set<string>) {
    forall e :: e in es && e.Escape? ==> e.sql in used
  }

  /** What the same run returns when every answer is computed afresh. */
  function Uncached(h: Hashes, cfg: Config, es: seq<Event>): seq<Answer> {
    if es == [] then []
    else if es[0].Escape? then
      [Answer(es[0].normalize, es[0].sql, Fresh(h, cfg, es[0].normalize, es[0].sql))] + Uncached(h, cfg, es[1..])
    else Uncached(h, cfg, es[1..])
  }

  lemma LookupIsFresh(h: Hashes, cfg: Config, c: Cache, normalize: bool, sql: string, used: set<string>)
    requires Harmless(h, cfg, used) && Coherent(h, cfg, c, used) && sql in used
    ensures var (c', p) := Lookup(h, cfg, c, normalize, sql);
            p == Fresh(h, cfg, normalize, sql) && Coherent(h, cfg, c', used)
  {
  }

  /** The cache cannot be told from the bare lexer, whatever is looked up, evicted or cleared. */
  lemma {:induction false} CacheIsTransparent(h: Hashes, cfg: Config, c: Cache, es: seq<Event>, used: set<string>)
    requires Harmless(h, cfg, used) && Coherent(h, cfg, c, used) && Uses(es, used)
    ensures Answers(h, cfg, c, es) == Uncached(h, cfg, es)
    decreases |es|
  {
    if es != [] {
      assert es[0] in es;
      match es[0]
      case Escape(on, sql) =>
        LookupIsFresh(h, cfg, c, on, sql, used);
        CacheIsTransparent(h, cfg, Lookup(h, cfg, c, on, sql).0, es[1..], used);
      case Evict(n, k) => CacheIsTransparent(h, cfg, Cache(c.nonLite - n, c.checked - k), es[1..], used);
      case Reset => CacheIsTransparent(h, cfg, EMPTY, es[1..], used);
    }
  }

  lemma {:induction false} UncachedIsFresh(h: Hashes, cfg: Config, es: seq<Event>, a: Answer)
    requires a in Uncached(h, cfg, es)
    ensures a.parsed == Fresh(h, cfg, a.normalize, a.sql)
    decreases |es|
  {
    if a in Uncached(h, cfg, es[1..]) {
      UncachedIsFresh(h, cfg, es[1..], a);
    }
  }

  /** The literals travel in the answer unless the statement is its own normalised text, by the hashes. */
  lemma {:induction false} FreshAnswer(h: Hashes, cfg: Config, ts: seq<Token>, rest: string)
    requires Placed(cfg, ts, rest, START) && Short(Render(ts) + rest)
    ensures var p, f := Fresh(h, cfg, true, Render(ts) + rest), Run(cfg, rest, FinalMode(cfg, ts, START));
            && p.sql == h.text(NormalForm(cfg, ts, START) + f.out)
            && p.param == (if p.sql == h.code(Render(ts) + rest) then [] else ParamForm(cfg, ts, START) + f.param)
            && p.sqlType == f.mode.sqlType
  {
    NormalisesToNormalForm(cfg, ts, rest, START);
  }

  /** A statement that is not normalised is reported as it is, one that is too long by its first 32 KiB alone;
      neither has a type or parameters. */
  lemma NotNormalised(h: Hashes, cfg: Config, c: Cache, normalize: bool, sql: string)
    requires !normalize || !Short(sql)
    ensures var used := if normalize then sql[..32768] else sql;
            Lookup(h, cfg, c, normalize, sql) == (c, ParsedSql('*', h.text(used), []))
            && Handed(h, cfg, c, normalize, sql) == [used]
  {
  }

  /** End to end: in any run of the cache from empty, two statements that differ only in their
      literals are reported under the same hash and type, each with its own literals. */
  lemma SameReportForAnyLiterals(h: Hashes, cfg: Config, es: seq<Event>, used: set<string>,
                                 ts: seq<Token>, us: seq<Token>, a: ParsedSql, b: ParsedSql)
    requires Harmless(h, cfg, used) && Uses(es, used)
    requires Placed(cfg, ts, [], START) && SameButLiterals(cfg, ts, us)
    requires Short(Render(ts)) && Short(Render(us))
    requires Answer(true, Render(ts), a) in Answers(h, cfg, EMPTY, es)
    requires Answer(true, Render(us), b) in Answers(h, cfg, EMPTY, es)
    ensures a.sql == b.sql == h.text(NormalForm(cfg, ts, START))
    ensures a.sqlType == b.sqlType == FinalMode(cfg, ts, START).sqlType
    ensures a.param == if a.sql == h.code(Render(ts)) then [] else ParamForm(cfg, ts, START)
    ensures b.param == if b.sql == h.code(Render(us)) then [] else ParamForm(cfg, us, START)
  {
    CacheIsTransparent(h, cfg, EMPTY, es, used);
    PlacedLookAlike(cfg, ts, us, [], [], START);
    NormalFormForgetsLiterals(cfg, ts, us, START);
    UncachedIsFresh(h, cfg, es, Answer(true, Render(ts), a));
    UncachedIsFresh(h, cfg, es, Answer(true, Render(us), b));
    FreshOfTokens(h, cfg, ts);
    FreshOfTokens(h, cfg, us);
  }

  lemma FreshOfTokens(h: Hashes, cfg: Config, ts: seq<Token>)
    requires Placed(cfg, ts, [], START) && Short(Render(ts))
    ensures var p := Fresh(h, cfg, true, Render(ts));
            && p.sql == h.text(NormalForm(cfg, ts, START))
            && p.param == (if p.sql == h.code(Render(ts)) then [] else ParamForm(cfg, ts, START))
            && p.sqlType == FinalMode(cfg, ts, START).sqlType
  {
    FreshAnswer(h, cfg, ts, []);
    assert Render(ts) + [] == Render(ts);
    assert NormalForm(cfg, ts, START) + [] == NormalForm(cfg, ts, START);
    assert ParamForm(cfg, ts, START) + [] == ParamForm(cfg, ts, START);
  }

  /** After a collision the second statement gets the answer of the first, which is wrong exactly when their
      answers differ. */
  lemma CollisionGivesWrongAnswer(h: Hashes, cfg: Config, a: string, b: string)
    requires Short(a) && Short(b) && h.code(a) == h.code(b)
    ensures var es := [Escape(true, a), Escape(true, b)];
            && Answers(h, cfg, EMPTY, es) == [Answer(true, a, Fresh(h, cfg, true, a)), Answer(true, b, Fresh(h, cfg, true, a))]
            && (Answers(h, cfg, EMPTY, es) == Uncached(h, cfg, es) <==> Fresh(h, cfg, true, a) == Fresh(h, cfg, true, b))
  {
    var es, second := [Escape(true, a), Escape(true, b)], [Escape(true, b)];
    var c := Lookup(h, cfg, EMPTY, true, a).0;
    assert es[1..] == second && second[1..] == [];
    assert Answers(h, cfg, c, second) == [Answer(true, b, Fresh(h, cfg, true, a))];
    assert Uncached(h, cfg, second) == [Answer(true, b, Fresh(h, cfg, true, b))];
    assert Answers(h, cfg, EMPTY, es)[1] == Answer(true, b, Fresh(h, cfg, true, a));
    assert Uncached(h, cfg, es)[1] == Answer(true, b, Fresh(h, cfg, true, b));
  }

  /** The exact condition: the cache cannot be told from the bare lexer on any run over `used` if and only
      if statements that share a hash code have the same answer. */
  lemma TransparentExactlyIfHarmless(h: Hashes, cfg: Config, used: set<string>)
    ensures Harmless(h, cfg, used) <==>
            forall es :: Uses(es, used) ==> Answers(h, cfg, EMPTY, es) == Uncached(h, cfg, es)
  {
    if Harmless(h, cfg, used) {
      forall es | Uses(es, used) ensures Answers(h, cfg, EMPTY, es) == Uncached(h, cfg, es) {
        CacheIsTransparent(h, cfg, EMPTY, es, used);
      }
    } else {
      var a, b :| a in used && b in used && Short(a) && Short(b) && h.code(a) == h.code(b)
                  && Fresh(h, cfg, true, a) != Fresh(h, cfg, true, b);
      CollisionGivesWrongAnswer(h, cfg, a, b);
      assert Uses([Escape(true, a), Escape(true, b)], used);
    }
  }

  /** The hashes of all texts handed to the dictionary in a run. */
  function KnownHashes(h: Hashes, cfg: Config, c: Cache, es: seq<Event>): set<int>
    decreases |es|
  {
    if es == [] then {}
    else
      match es[0]
      case Escape(normalize, sql) =>
        var texts := Handed(h, cfg, c, normalize, sql);
        (if texts == [] then {} else {h.text(texts[0])})
        + KnownHashes(h, cfg, Lookup(h, cfg, c, normalize, sql).0, es[1..])
      case Evict(n, k) => KnownHashes(h, cfg, Cache(c.nonLite - n, c.checked - k), es[1..])
      case Reset => KnownHashes(h, cfg, EMPTY, es[1..])
  }

  /** Every cached answer names a text in `known`. */
  predicate Resolved(c: Cache, known: set<int>) {
    && (forall k :: k in c.nonLite ==> c.nonLite[k].sql in known)
    && (forall k :: k in c.checked ==> c.checked[k].sql in known)
  }

  lemma LookupResolves(h: Hashes, cfg: Config, c: Cache, normalize: bool, sql: string, known: set<int>)
    requires Resolved(c, known)
    ensures var (c', p) := Lookup(h, cfg, c, normalize, sql);
            var texts := Handed(h, cfg, c, normalize, sql);
            var known' := known + if texts == [] then {} else {h.text(texts[0])};
            Resolved(c', known') && p.sql in known'
  {
  }

  /** The server can resolve every hash: over any run, collisions or not, each answer names a text that was
      handed to the dictionary in that run. */
  lemma {:induction false} HashesResolve(h: Hashes, cfg: Config, c: Cache, es: seq<Event>, known: set<int>)
    requires Resolved(c, known)
    ensures forall i :: 0 <= i < |Answers(h, cfg, c, es)| ==>
              Answers(h, cfg, c, es)[i].parsed.sql in known + KnownHashes(h, cfg, c, es)
    decreases |es|
  {
    if es != [] {
      match es[0]
      case Escape(on, sql) =>
        LookupResolves(h, cfg, c, on, sql, known);
        var texts := Handed(h, cfg, c, on, sql);
        var known' := known + if texts == [] then {} else {h.text(texts[0])};
        HashesResolve(h, cfg, Lookup(h, cfg, c, on, sql).0, es[1..], known');
      case Evict(n, k) => HashesResolve(h, cfg, Cache(c.nonLite - n, c.checked - k), es[1..], known);
      case Reset => HashesResolve(h, cfg, EMPTY, es[1..], known);
    }
  }

  class SqlTextCache {
    const h: Hashes
    const includeComment: bool
    const php: bool
    var nonLiteSql: map<int, ParsedSql>
    var checkedSql: map<int, ParsedSql>
    var handed: seq<string>   // what the text dictionary was given

    constructor (h: Hashes, includeComment: bool, php: bool)
      ensures this.h == h && Cfg() == Config("#", "#", includeComment, php) && View() == EMPTY && handed == []
    {
      this.h, this.includeComment, this.php := h, includeComment, php;
      nonLiteSql, checkedSql, handed := map[], map[], [];
    }

    function Cfg(): Config { Config("#", "#", includeComment, php) }

    function View(): Cache
      reads this
    {
      Cache(nonLiteSql, checkedSql)
    }

    method ResetSqlText()
      modifies this`nonLiteSql, this`checkedSql
      ensures View() == EMPTY
    {
      nonLiteSql, checkedSql := map[], map[];
    }

    method EscapeLiteral(normalize: bool, sql: string) returns (p: ParsedSql)
      modifies this
      ensures (View(), p) == Lookup(h, Cfg(), old(View()), normalize, sql)
      ensures handed == old(handed) + Handed(h, Cfg(), old(View()), normalize, sql)
    {
      if !normalize {
        handed := handed + [sql];
        return ParsedSql('*', h.text(sql), []);
      }
      if |sql| > MAX_NORMALIZE_LENGTH {
        var truncated := sql[..MAX_NORMALIZE_LENGTH];
        handed := handed + [truncated];
        return ParsedSql('*', h.text(truncated), []);
      }
      var sqlHash := h.code(sql);
      if sqlHash in nonLiteSql {
        return nonLiteSql[sqlHash];
      }
      if sqlHash in checkedSql {
        return checkedSql[sqlHash];
      }
      var els := new EscapeLiteralSQL(sql, php);
      els.SetIncludeComment(includeComment);
      els.Process();
      var hash := h.text(els.parsedSql);
      handed := handed + [els.parsedSql];
      if hash == sqlHash {
        p := ParsedSql(els.sqlType, hash, []);
        nonLiteSql := nonLiteSql[sqlHash := p];
      } else {
        p := ParsedSql(els.sqlType, hash, els.param);
        checkedSql := checkedSql[sqlHash := p];
      }
    }
  }
}
