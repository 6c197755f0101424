/** Naming a URL by its configured prefix, with two caches (agent/agent/appctx/PathPrefix.go).  The hash of a
    URL and of the configuration text come from a library that is not part of this model. */
module PathPrefix {
  import opened Common
  import opened HeaderText

  datatype Item = Item(name: string, url: string)

  datatype Hashes = Hashes(url: string -> int, conf: string -> int)

  /** `name@url`, or a URL that is its own name; white space around either does not count. */
  function ParseItem(text: string): Option<Item> {
    var t := Trim(text);
    var at := IndexOf(t, '@');
    if t == [] then None
    else if at == |t| then Some(Item(t, t))
    else
      var name, url := Trim(t[..at]), Trim(t[at + 1..]);
      if name != [] && url != [] then Some(Item(name, url)) else None
  }

  function ParseItems(texts: seq<string>): seq<Item> {
    if texts == [] then []
    else
      var item := ParseItem(texts[0]);
      (if item.Some? then [item.value] else []) + ParseItems(texts[1..])
  }

  function ParseList(conf: string): seq<Item> { ParseItems(Split(Trim(conf), ',')) }

  /** A text with white space around it. */
  function Padded(left: string, s: string, right: string): string { left + s + right }

  lemma NotPadded(s: string)
    ensures Padded([], s, []) == s
  {
  }

  lemma AtSign(a: string, b: string)
    requires '@' !in a
    ensures var t := a + ['@'] + b; IndexOf(t, '@') == |a| < |t| && t[..|a|] == a && t[|a| + 1..] == b
  {
    var t := a + ['@'] + b;
    assert t[|a|] == '@' && t[..|a|] == a;
    assert IndexOf(t, '@') >= |a|;
  }

  lemma BareParts(name: string, url: string, before: string, after: string)
    requires Bare(name) && Bare(url)
    ensures Bare(Padded([], name, before) + ['@'] + Padded(after, url, []))
  {
  }

  /** `name@url`, with white space anywhere around the parts: the name comes first. */
  lemma NamedItem(name: string, url: string, before: string, after: string, left: string, right: string)
    requires Bare(name) && Bare(url) && '@' !in name
    requires AllSpace(before) && AllSpace(after) && AllSpace(left) && AllSpace(right)
    ensures ParseItem(Padded(left, Padded([], name, before) + ['@'] + Padded(after, url, []), right)) == Some(Item(name, url))
  {
    var a, b := Padded([], name, before), Padded(after, url, []);
    BareParts(name, url, before, after);
    TrimPadded(left, a + ['@'] + b, right);
    assert '@' !in a by {
      assert forall c :: c in before ==> IsSpace(c);
    }
    AtSign(a, b);
    TrimPadded([], name, before);
    TrimPadded(after, url, []);
  }

  /** Without `@` the URL is its own name; a part that is missing makes the item void. */
  lemma OtherItems(url: string, left: string, right: string)
    requires Bare(url) && '@' !in url && AllSpace(left) && AllSpace(right)
    ensures ParseItem(Padded(left, url, right)) == Some(Item(url, url))
    ensures ParseItem(['@'] + url) == ParseItem(url + ['@']) == ParseItem([]) == None
  {
    TrimPadded(left, url, right);
    TrimPadded([], ['@'] + url, []);
    TrimPadded([], url + ['@'], []);
    assert [] + (['@'] + url) + [] == ['@'] + url && [] + (url + ['@']) + [] == url + ['@'];
    AtSign([], url);
    AtSign(url, []);
    assert [] + ['@'] + url == ['@'] + url && url + ['@'] + [] == url + ['@'];
  }

  predicate HasPrefix(s: string, p: string) { p <= s }

  /** The name of the first item whose URL is a prefix, or the empty text. */
  function FirstMatch(items: seq<Item>, url: string): string {
    if items == [] then []
    else if HasPrefix(url, items[0].url) then items[0].name
    else FirstMatch(items[1..], url)
  }

  datatype State = State(items: seq<Item>, confHash: int, noNeed: set<int>, parsed: map<int, string>)

  const NEW := State([], 0, {}, map[])

  function Parse(h: Hashes, s: State, url: string): (State, string) {
    var key := h.url(url);
    if key in s.noNeed then (s, [])
    else if key in s.parsed then (s, s.parsed[key])
    else if exists i :: 0 <= i < |s.items| && HasPrefix(url, s.items[i].url) then
      (s.(parsed := s.parsed[key := FirstMatch(s.items, url)]), FirstMatch(s.items, url))
    else (s.(noNeed := s.noNeed + {key}), [])
  }

  /** Takes over a configuration text, unless its hash says it is the one already in use. */
  function Update(h: Hashes, s: State, conf: string): State {
    if s.confHash == h.conf(Trim(conf)) then s else State(ParseList(conf), h.conf(Trim(conf)), {}, map[])
  }

  datatype Event = Lookup(url: string) | Configure(conf: string) | Evict(noNeed: set<int>, parsed: set<int>)

  function Step(h: Hashes, s: State, e: Event): State {
    match e
    case Lookup(url) => Parse(h, s, url).0
    case Configure(conf) => Update(h, s, conf)
    case Evict(n, p) => s.(noNeed := s.noNeed - n, parsed := s.parsed - p)
  }

  function Play(h: Hashes, es: seq<Event>): State {
    if es == [] then NEW else Step(h, Play(h, Init(es)), Last(es))
  }

  /** The configuration in force: the last one taken over. */
  function Current(es: seq<Event>): string {
    if es == [] then []
    else if Last(es).Configure? then Trim(Last(es).conf)
    else Current(Init(es))
  }

  /** The name of a URL under a configuration. */
  function NameUnder(conf: string, url: string): string { FirstMatch(ParseList(conf), url) }

  /** URLs that share a hash have the same first match. */
  predicate UrlsOk(h: Hashes, items: seq<Item>, urls: set<string>) {
    forall a, b :: a in urls && b in urls && h.url(a) == h.url(b) ==> FirstMatch(items, a) == FirstMatch(items, b)
  }

  predicate SameNames(items: seq<Item>, other: seq<Item>, urls: set<string>) {
    forall u :: u in urls ==> FirstMatch(items, u) == FirstMatch(other, u)
  }

  /** Under each text, URLs that share a hash have the same first match; texts that share a hash name all URLs
      alike; and a text whose hash is the initial 0 names none. */
  predicate Harmless(h: Hashes, urls: set<string>, confs: set<string>) {
    && (forall c :: c in confs ==> UrlsOk(h, ParseList(c), urls))
    && (forall c, d :: c in confs && d in confs && h.conf(c) == h.conf(d) ==> SameNames(ParseList(c), ParseList(d), urls))
    && (forall c :: c in confs && h.conf(c) == 0 ==> SameNames(ParseList(c), [], urls))
  }

  predicate Uses(es: seq<Event>, urls: set<string>, confs: set<string>) {
    forall k :: 0 <= k < |es| ==>
      && (es[k].Lookup? ==> es[k].url in urls)
      && (es[k].Configure? ==> Trim(es[k].conf) in confs)
  }

  /** What the caches say about a URL is what the list says. */
  predicate Coherent(h: Hashes, s: State, urls: set<string>) {
    forall url :: url in urls ==>
      && (h.url(url) in s.noNeed ==> FirstMatch(s.items, url) == [])
      && (h.url(url) in s.parsed ==> s.parsed[h.url(url)] == FirstMatch(s.items, url))
  }

  lemma {:induction false} NoMatch(items: seq<Item>, url: string)
    requires forall i :: 0 <= i < |items| ==> !HasPrefix(url, items[i].url)
    ensures FirstMatch(items, url) == []
  {
    if items != [] {
      forall i | 0 <= i < |items| - 1 ensures !HasPrefix(url, items[1..][i].url) {
        assert items[1..][i] == items[i + 1];
      }
      NoMatch(items[1..], url);
    }
  }

  /** The first item whose URL is a prefix gives the name. */
  lemma {:induction false} FirstMatchIs(items: seq<Item>, url: string, k: nat)
    requires k < |items| && HasPrefix(url, items[k].url)
    requires forall j :: 0 <= j < k ==> !HasPrefix(url, items[j].url)
    ensures FirstMatch(items, url) == items[k].name
    decreases k
  {
    if k > 0 {
      assert !HasPrefix(url, items[0].url);
      forall j | 0 <= j < k - 1 ensures !HasPrefix(url, items[1..][j].url) {
        assert items[1..][j] == items[j + 1];
      }
      FirstMatchIs(items[1..], url, k - 1);
    }
  }

  /** A configuration text is read item by item: a URL that begins with the first item's goes by its name, any
      other one by what the rest says; a void item says nothing. */
  lemma {:induction false} FirstItemWins(first: string, rest: string, url: string)
    requires ',' !in first && Bare(first + [','] + rest)
    ensures var item, others := ParseItem(first), FirstMatch(ParseItems(Split(rest, ',')), url);
            NameUnder(first + [','] + rest, url)
            == if item.Some? && HasPrefix(url, item.value.url) then item.value.name else others
  {
    var conf := first + [','] + rest;
    TrimPadded([], conf, []);
    assert [] + conf + [] == conf;
    SplitHead(first, ',', rest);
    ItemBefore(first, Split(rest, ','), url);
  }

  lemma PlainItem(name: string, prefix: string)
    requires Bare(name) && Bare(prefix) && '@' !in name
    ensures ParseItem(name + ['@'] + prefix) == Some(Item(name, prefix))
  {
    NamedItem(name, prefix, [], [], [], []);
    NotPadded(name);
    NotPadded(prefix);
    NotPadded(name + ['@'] + prefix);
  }

  lemma BareJoin(first: string, rest: string)
    requires Bare(first) && Bare(rest)
    ensures Bare(first + [','] + rest)
  {
  }

  lemma Extends(prefix: string, more: string)
    ensures HasPrefix(prefix + more, prefix)
  {
  }

  /** Every URL that continues a configured one goes by its name. */
  lemma UrlsBelowPrefix(name: string, prefix: string, rest: string, more: string)
    requires Bare(name) && Bare(prefix) && Bare(rest) && '@' !in name && ',' !in name + ['@'] + prefix
    ensures NameUnder(name + ['@'] + prefix + [','] + rest, prefix + more) == name
  {
    PlainItem(name, prefix);
    BareParts(name, prefix, [], []);
    NotPadded(name);
    NotPadded(prefix);
    BareJoin(name + ['@'] + prefix, rest);
    FirstItemWins(name + ['@'] + prefix, rest, prefix + more);
    Extends(prefix, more);
  }

  lemma ItemBefore(text: string, texts: seq<string>, url: string)
    ensures var item, others := ParseItem(text), FirstMatch(ParseItems(texts), url);
            FirstMatch(ParseItems([text] + texts), url)
            == if item.Some? && HasPrefix(url, item.value.url) then item.value.name else others
  {
    assert ([text] + texts)[1..] == texts;
    var item := ParseItem(text);
    if item.Some? {
      assert ([item.value] + ParseItems(texts))[1..] == ParseItems(texts);
    } else {
      assert [] + ParseItems(texts) == ParseItems(texts);
    }
  }

  lemma LookupIsCoherent(h: Hashes, s: State, urls: set<string>, url: string)
    requires UrlsOk(h, s.items, urls) && Coherent(h, s, urls) && url in urls
    ensures Coherent(h, Parse(h, s, url).0, urls) && Parse(h, s, url).1 == FirstMatch(s.items, url)
    ensures Parse(h, s, url).0.items == s.items && Parse(h, s, url).0.confHash == s.confHash
  {
    if forall i :: 0 <= i < |s.items| ==> !HasPrefix(url, s.items[i].url) {
      NoMatch(s.items, url);
    }
  }

  lemma EmptyList()
    ensures ParseList([]) == []
  {
  }

  /** The text whose list is loaded; not the current one if the hashes of the two collide. */
  function Loaded(h: Hashes, es: seq<Event>): Option<string> {
    if es == [] then None
    else if Last(es).Configure? && Play(h, Init(es)).confHash != h.conf(Trim(Last(es).conf)) then Some(Trim(Last(es).conf))
    else Loaded(h, Init(es))
  }

  /** The list in use is that of the loaded text, which names every URL as the current text does; and the
      caches agree with it. */
  predicate ListOk(h: Hashes, s: State, loaded: Option<string>, current: string, urls: set<string>, confs: set<string>) {
    && (if loaded.None? then s.items == [] && s.confHash == 0
        else loaded.value in confs && s.items == ParseList(loaded.value) && s.confHash == h.conf(loaded.value))
    && SameNames(s.items, ParseList(current), urls) && Coherent(h, s, urls)
  }

  lemma LoadedUrlsOk(h: Hashes, s: State, loaded: Option<string>, current: string, urls: set<string>, confs: set<string>)
    requires Harmless(h, urls, confs) && ListOk(h, s, loaded, current, urls, confs)
    ensures UrlsOk(h, s.items, urls)
  {
  }

  lemma ConfigureKeepsList(h: Hashes, s: State, loaded: Option<string>, current: string, conf: string,
                           urls: set<string>, confs: set<string>)
    requires Harmless(h, urls, confs) && ListOk(h, s, loaded, current, urls, confs) && Trim(conf) in confs
    ensures ListOk(h, Update(h, s, conf), if s.confHash != h.conf(Trim(conf)) then Some(Trim(conf)) else loaded,
                   Trim(conf), urls, confs)
  {
    var c := Trim(conf);
    if s.confHash == h.conf(c) {
      if loaded.Some? {
        assert SameNames(ParseList(loaded.value), ParseList(c), urls);
      } else {
        assert SameNames(ParseList(c), [], urls);
      }
    }
  }

  lemma LookupKeepsList(h: Hashes, s: State, loaded: Option<string>, current: string, url: string,
                        urls: set<string>, confs: set<string>)
    requires Harmless(h, urls, confs) && ListOk(h, s, loaded, current, urls, confs) && url in urls
    ensures ListOk(h, Parse(h, s, url).0, loaded, current, urls, confs)
    ensures Parse(h, s, url).1 == NameUnder(current, url)
  {
    LoadedUrlsOk(h, s, loaded, current, urls, confs);
    LookupIsCoherent(h, s, urls, url);
  }

  /** Over any interleaving of lookups, reconfigurations and evictions the list in use names the URLs as the
      one configured last, and the caches agree with it. */
  lemma {:induction false} CachesAgree(h: Hashes, es: seq<Event>, urls: set<string>, confs: set<string>)
    requires Harmless(h, urls, confs) && Uses(es, urls, confs)
    ensures ListOk(h, Play(h, es), Loaded(h, es), Current(es), urls, confs)
    decreases |es|
  {
    if es == [] {
      EmptyList();
    } else {
      var before, e := Init(es), Last(es);
      assert Uses(before, urls, confs) && e == es[|es| - 1];
      CachesAgree(h, before, urls, confs);
      match e
      case Lookup(url) => LookupKeepsList(h, Play(h, before), Loaded(h, before), Current(before), url, urls, confs);
      case Configure(conf) => ConfigureKeepsList(h, Play(h, before), Loaded(h, before), Current(before), conf, urls, confs);
      case Evict(_, _) =>
    }
  }

  /** So every lookup answers as if there were no cache. */
  lemma {:induction false} LookupsAreUncached(h: Hashes, es: seq<Event>, urls: set<string>, confs: set<string>, url: string)
    requires Harmless(h, urls, confs) && Uses(es, urls, confs) && url in urls
    ensures Answer(h, es, url) == NameUnder(Current(es), url)
  {
    CachesAgree(h, es, urls, confs);
    LookupKeepsList(h, Play(h, es), Loaded(h, es), Current(es), url, urls, confs);
  }

  lemma PlaySnoc(h: Hashes, es: seq<Event>, e: Event)
    ensures Play(h, es + [e]) == Step(h, Play(h, es), e)
    ensures Current(es + [e]) == if e.Configure? then Trim(e.conf) else Current(es)
  {
    assert Init(es + [e]) == es;
  }

  /** The name that a run gives to a URL in the end. */
  function Answer(h: Hashes, es: seq<Event>, url: string): string { Parse(h, Play(h, es), url).1 }

  lemma ParsedFresh(h: Hashes, s: State, url: string)
    requires s.noNeed == {} && s.parsed == map[]
    ensures Parse(h, s, url).1 == FirstMatch(s.items, url)
  {
    LookupIsCoherent(h, s, {url}, url);
  }

  lemma ConfiguredOnce(h: Hashes, c: string, u: string)
    requires Trim(c) == c
    ensures var es := [] + [Configure(c)];
            Current(es) == c && Answer(h, es, u) == if h.conf(c) == 0 then [] else NameUnder(c, u)
    ensures h.conf(c) != 0 ==> Play(h, [] + [Configure(c)]) == State(ParseList(c), h.conf(c), {}, map[])
  {
    PlaySnoc(h, [], Configure(c));
    ParsedFresh(h, Play(h, [] + [Configure(c)]), u);
  }

  /** A second text with the hash of the first is ignored. */
  lemma ConfiguredTwice(h: Hashes, c: string, d: string, u: string)
    requires Trim(c) == c && Trim(d) == d && h.conf(c) == h.conf(d) != 0
    ensures var es := [] + [Configure(c)] + [Configure(d)];
            Current(es) == d && Answer(h, es, u) == NameUnder(c, u)
  {
    ConfiguredOnce(h, c, u);
    PlaySnoc(h, [] + [Configure(c)], Configure(d));
  }

  /** A second URL with the hash of the first gets its name. */
  lemma LookedUpTwice(h: Hashes, c: string, a: string, b: string)
    requires Trim(c) == c && h.conf(c) != 0 && h.url(a) == h.url(b)
    ensures var es := [] + [Configure(c)] + [Lookup(a)];
            Current(es) == c && Answer(h, es, b) == NameUnder(c, a)
  {
    var e1 := [] + [Configure(c)];
    ConfiguredOnce(h, c, a);
    PlaySnoc(h, e1, Lookup(a));
    LookupIsCoherent(h, Play(h, e1), {a}, a);
    var s := Play(h, e1 + [Lookup(a)]);
    assert h.url(b) in s.noNeed || h.url(b) in s.parsed;
    assert h.url(b) in s.noNeed ==> NameUnder(c, a) == [];
  }

  /** Every run over these URLs and texts names the URLs by the current text. */
  ghost predicate Transparent(h: Hashes, urls: set<string>, confs: set<string>) {
    forall es, u :: Uses(es, urls, confs) && u in urls ==> Answer(h, es, u) == NameUnder(Current(es), u)
  }

  /** The exact condition for the caches to be transparent. */
  lemma TransparentExactlyIfHarmless(h: Hashes, urls: set<string>, confs: set<string>)
    requires forall c :: c in confs ==> Trim(c) == c
    ensures Transparent(h, urls, confs) <==> Harmless(h, urls, confs)
  {
    if Harmless(h, urls, confs) {
      forall es, u | Uses(es, urls, confs) && u in urls ensures Answer(h, es, u) == NameUnder(Current(es), u) {
        LookupsAreUncached(h, es, urls, confs, u);
      }
    }
    if Transparent(h, urls, confs) {
      HarmfulIsSeen(h, urls, confs);
    }
  }

  lemma UsesThese(c: string, d: string, a: string, urls: set<string>, confs: set<string>)
    requires c in confs && d in confs && a in urls && Trim(c) == c && Trim(d) == d
    ensures Uses([] + [Configure(c)], urls, confs)
    ensures Uses([] + [Configure(c)] + [Configure(d)], urls, confs)
    ensures Uses([] + [Configure(c)] + [Lookup(a)], urls, confs)
  {
  }

  lemma ZeroIsSeen(h: Hashes, urls: set<string>, confs: set<string>, c: string)
    requires Transparent(h, urls, confs) && c in confs && Trim(c) == c && h.conf(c) == 0
    ensures SameNames(ParseList(c), [], urls)
  {
    forall u | u in urls ensures NameUnder(c, u) == [] {
      ConfiguredOnce(h, c, u);
      UsesThese(c, c, u, urls, confs);
    }
  }

  lemma SameHashIsSeen(h: Hashes, urls: set<string>, confs: set<string>, c: string, d: string)
    requires Transparent(h, urls, confs) && c in confs && d in confs && Trim(c) == c && Trim(d) == d
    requires h.conf(c) == h.conf(d)
    ensures SameNames(ParseList(c), ParseList(d), urls)
  {
    if h.conf(c) == 0 {
      ZeroIsSeen(h, urls, confs, c);
      ZeroIsSeen(h, urls, confs, d);
    } else {
      forall u | u in urls ensures NameUnder(c, u) == NameUnder(d, u) {
        ConfiguredTwice(h, c, d, u);
        UsesThese(c, d, u, urls, confs);
      }
    }
  }

  lemma NamelessUrlsOk(h: Hashes, items: seq<Item>, urls: set<string>)
    requires SameNames(items, [], urls)
    ensures UrlsOk(h, items, urls)
  {
  }

  lemma PairIsSeen(h: Hashes, urls: set<string>, confs: set<string>, c: string, a: string, b: string)
    requires Transparent(h, urls, confs) && c in confs && Trim(c) == c && h.conf(c) != 0
    requires a in urls && b in urls && h.url(a) == h.url(b)
    ensures FirstMatch(ParseList(c), a) == FirstMatch(ParseList(c), b)
  {
    var es := [] + [Configure(c)] + [Lookup(a)];
    LookedUpTwice(h, c, a, b);
    UsesThese(c, c, a, urls, confs);
    assert Answer(h, es, b) == NameUnder(Current(es), b);
  }

  lemma UrlsAreSeen(h: Hashes, urls: set<string>, confs: set<string>, c: string)
    requires Transparent(h, urls, confs) && c in confs && Trim(c) == c
    ensures UrlsOk(h, ParseList(c), urls)
  {
    if h.conf(c) == 0 {
      ZeroIsSeen(h, urls, confs, c);
      NamelessUrlsOk(h, ParseList(c), urls);
    } else {
      forall a, b | a in urls && b in urls && h.url(a) == h.url(b)
        ensures FirstMatch(ParseList(c), a) == FirstMatch(ParseList(c), b)
      {
        PairIsSeen(h, urls, confs, c, a, b);
      }
    }
  }

  lemma HarmfulIsSeen(h: Hashes, urls: set<string>, confs: set<string>)
    requires (forall c :: c in confs ==> Trim(c) == c) && Transparent(h, urls, confs)
    ensures Harmless(h, urls, confs)
  {
    forall c | c in confs ensures UrlsOk(h, ParseList(c), urls) {
      UrlsAreSeen(h, urls, confs, c);
    }
    forall c, d | c in confs && d in confs && h.conf(c) == h.conf(d) ensures SameNames(ParseList(c), ParseList(d), urls) {
      SameHashIsSeen(h, urls, confs, c, d);
    }
    forall c | c in confs && h.conf(c) == 0 ensures SameNames(ParseList(c), [], urls) {
      ZeroIsSeen(h, urls, confs, c);
    }
  }

  lemma ItemsUnfold(done: seq<Item>, texts: seq<string>, i: nat)
    requires i < |texts|
    ensures var item := ParseItem(texts[i]);
            done + ParseItems(texts[i..])
            == (if item.Some? then done + [item.value] else done) + ParseItems(texts[i + 1..])
  {
  }

  method ReadItems(texts: seq<string>) returns (items: seq<Item>)
    ensures items == ParseItems(texts)
  {
    items := [];
    assert texts[0..] == texts && items + ParseItems(texts) == ParseItems(texts);
    for i := 0 to |texts|
      invariant items + ParseItems(texts[i..]) == ParseItems(texts)
    {
      ItemsUnfold(items, texts, i);
      var item := ParseItem(texts[i]);
      if item.Some? {
        items := items + [item.value];
      }
    }
    assert items + [] == items;
  }

  class PathPrefixParser {
    const h: Hashes
    var items: seq<Item>
    var confHash: int
    var noNeedSet: set<int>
    var parsedSet: map<int, string>

    ghost function View(): State
      reads this
    {
      State(items, confHash, noNeedSet, parsedSet)
    }

    constructor (h: Hashes)
      ensures this.h == h && View() == NEW
    {
      this.h := h;
      items, confHash, noNeedSet, parsedSet := [], 0, {}, map[];
    }

    method ParseUrl(url: string) returns (name: string)
      modifies this
      ensures (View(), name) == Parse(h, old(View()), url)
    {
      var key := h.url(url);
      if key in noNeedSet {
        return [];
      }
      if key in parsedSet {
        return parsedSet[key];
      }
      var i := 0;
      while i < |items|
        invariant i <= |items| && View() == old(View())
        invariant FirstMatch(items, url) == FirstMatch(items[i..], url)
        invariant forall k :: 0 <= k < i ==> !HasPrefix(url, items[k].url)
      {
        if HasPrefix(url, items[i].url) {
          parsedSet := parsedSet[key := items[i].name];
          return items[i].name;
        }
        assert items[i..][1..] == items[i + 1..];
        i := i + 1;
      }
      noNeedSet := noNeedSet + {key};
      name := [];
    }

    method Reconfigure(conf: string)
      modifies this
      ensures View() == Update(h, old(View()), conf)
    {
      var val := Trim(conf);
      var newHash := h.conf(val);
      if confHash != newHash {
        confHash := newHash;
        items := ReadItems(Split(val, ','));
        noNeedSet, parsedSet := {}, map[];
      }
    }
  }
}
