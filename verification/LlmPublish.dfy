/** Publishing LLM calls (agent/agent/llm/state.go, handler.go, pack.go): a call is published once, by the
    end of its HTTP call or, if the user opened it by hand, by the end of the user's step; publishing counts
    it in the meter and adds it to the totals of its transaction. */
module LlmPublish {
  import opened Common
  import opened LlmGauge
  import Accounting = LlmAccounting

  datatype TokenField =
    | Input | Output | Total | Cached | Reasoning | AudioInput | AudioOutput
    | AcceptedPrediction | RejectedPrediction | CacheCreationInput | CacheReadInput | EmbeddingCount
    | Dimensions

  /** The fields that a transaction sums; `Dimensions` is not one of them. */
  const SUMMARY_FIELDS: seq<TokenField> :=
    [Input, Output, Total, Cached, Reasoning, AudioInput, AudioOutput, AcceptedPrediction,
     RejectedPrediction, CacheCreationInput, CacheReadInput, EmbeddingCount]

  /** They are all the others, each once. */
  lemma TwelveFields()
    ensures NoDuplicates(SUMMARY_FIELDS) && |SUMMARY_FIELDS| == 12
    ensures forall f :: f in SUMMARY_FIELDS <==> f != Dimensions
  {
    forall f ensures f in SUMMARY_FIELDS <==> f != Dimensions {
      assert SUMMARY_FIELDS[0] == Input && SUMMARY_FIELDS[1] == Output && SUMMARY_FIELDS[2] == Total;
      assert SUMMARY_FIELDS[3] == Cached && SUMMARY_FIELDS[4] == Reasoning && SUMMARY_FIELDS[5] == AudioInput;
      assert SUMMARY_FIELDS[6] == AudioOutput && SUMMARY_FIELDS[7] == AcceptedPrediction;
      assert SUMMARY_FIELDS[8] == RejectedPrediction && SUMMARY_FIELDS[9] == CacheCreationInput;
      assert SUMMARY_FIELDS[10] == CacheReadInput && SUMMARY_FIELDS[11] == EmbeddingCount;
    }
  }

  const API_ERROR := "api_error"

  /** What is known of one call.  `tokens` lacks the fields that were never set; `slot` is the transaction
      that the last end of the HTTP call named. */
  datatype Info = Info(
    startMs: int, firstTokenMs: int, stream: bool, statusCode: int, slot: Option<int>,
    tokens: map<TokenField, int>, error: string, errorType: string, terminalErr: bool,
    latency: Option<int>, ttft: Option<int>, txid: int, stepId: int, key: Key, costs: Costs)

  /** Costs in dollars; what is not set is zero. */
  datatype Costs = Costs(total: real, input: real, output: real)

  const FREE := Costs(0.0, 0.0, 0.0)

  /** A disabled call is the stand-in handed out when the feature is off. */
  datatype Call = Call(disabled: bool, manual: bool, published: bool, info: Info)

  predicate Success(c: Info) { c.error == [] }

  const UNKNOWN := "unknown"

  /** What follows the first `://`, or everything. */
  function AfterScheme(url: string): (s: string)
    ensures |s| <= |url| && s == url[|url| - |s|..]
  {
    if |url| < 3 then url
    else if url[..3] == "://" then url[3..]
    else
      var rest := AfterScheme(url[1..]);
      if rest == url[1..] then url else rest
  }

  /** Host and path: what comes before the first slash, and the rest. */
  function AtSlash(s: string): (r: (string, string))
    ensures r.0 + r.1 == s && '/' !in r.0 && (r.1 == [] || r.1[0] == '/')
  {
    (s[..IndexOf(s, '/')], s[IndexOf(s, '/')..])
  }

  function InferProviderURL(url: string): (string, string) { AtSlash(AfterScheme(url)) }

  lemma {:induction false} AfterSchemeIs(scheme: string, rest: string)
    requires ':' !in scheme
    ensures AfterScheme(scheme + "://" + rest) == rest
    decreases |scheme|
  {
    var url := scheme + "://" + rest;
    if scheme == [] {
      assert url[..3] == "://" && url[3..] == rest;
    } else {
      assert url[0] in scheme;
      assert url[1..] == scheme[1..] + "://" + rest;
      AfterSchemeIs(scheme[1..], rest);
    }
  }

  lemma {:induction false} NoScheme(url: string)
    requires ':' !in url
    ensures AfterScheme(url) == url
  {
    if |url| >= 3 {
      assert url[..3] != "://" by { assert url[0] in url; }
      NoScheme(url[1..]);
    }
  }

  lemma SlashAt(host: string, path: string)
    requires '/' !in host && (path == [] || path[0] == '/')
    ensures AtSlash(host + path) == (host, path)
  {
    var s := host + path;
    var n := IndexOf(s, '/');
    assert n >= |host|;
    assert path != [] ==> s[|host|] == '/';
    assert s[..n] == host && s[n..] == path;
  }

  /** Scheme, host and path of a URL are told apart, with a scheme and without. */
  lemma UrlParts(scheme: string, host: string, path: string)
    requires ':' !in scheme && '/' !in host && (path == [] || path[0] == '/')
    ensures InferProviderURL(scheme + "://" + (host + path)) == (host, path)
    ensures ':' !in host && ':' !in path ==> InferProviderURL(host + path) == (host, path)
  {
    AfterSchemeIs(scheme, host + path);
    SlashAt(host, path);
    if ':' !in host && ':' !in path {
      NoScheme(host + path);
    }
  }

  /** A new call: what the configuration does not say is inferred from the URL. */
  function NewInfo(startMs: int, cfg: Key): Info {
    Info(startMs, 0, false, 0, None, map[], [], [], false, None, None, 0, 0, NewKey(cfg), FREE)
  }

  function NewKey(cfg: Key): Key {
    var operation := if cfg.operation != [] then cfg.operation else UNKNOWN;
    if cfg.provider == [] && cfg.url != [] then
      Key(InferProviderURL(cfg.url).0, cfg.model, operation, InferProviderURL(cfg.url).1)
    else cfg.(operation := operation)
  }

  method FillKey(cfg: Key) returns (key: Key)
    ensures key == NewKey(cfg)
  {
    key := cfg;
    if cfg.operation == [] {
      key := key.(operation := UNKNOWN);
    }
    if key.provider == [] && cfg.url != [] {
      var r := InferProviderURL(cfg.url);
      key := key.(provider := r.0, url := r.1);
    }
  }

  /** The user's changes to a call.  Setting an error overwrites; the first token is recorded once. */
  datatype Change =
    | SetTokens(tokens: map<TokenField, int>)
    | SetError(msg: string, kind: string)
    | MarkStream
    | RecordFirstToken(now: int)
    | SetStatusCode(code: int)
    | SetCost(costs: Costs)
    | SetUrl(url: string, operation: string)   // the operation that the URL is known for, if any

  function Changed(c: Info, ch: Change): Info {
    match ch
    case SetTokens(t) => c.(tokens := c.tokens + t)
    case SetError(msg, kind) => c.(error := msg, errorType := kind, terminalErr := true)
    case MarkStream => c.(stream := true)
    case RecordFirstToken(now) => if c.firstTokenMs != 0 then c else c.(firstTokenMs := now)
    case SetStatusCode(code) => c.(statusCode := code)
    case SetCost(costs) =>
      c.(costs := Costs(if costs.total != 0.0 then costs.total else c.costs.total,
                        if costs.input != 0.0 then costs.input else c.costs.input,
                        if costs.output != 0.0 then costs.output else c.costs.output))
    case SetUrl(url, operation) => if url == [] then c else c.(key := Located(c.key, url, operation))
  }

  /** The key once the real URL is known; what the user has set stays. */
  function Located(k: Key, url: string, operation: string): Key {
    var (host, path) := InferProviderURL(url);
    Key(if k.provider == [] then host else k.provider, k.model,
        if k.operation in {[], UNKNOWN} && operation != [] then operation else k.operation,
        if k.url == [] || k.url == url then path else k.url)
  }

  /** The end of the HTTP call: its facts are noted; explicit status and error win. */
  datatype HttpEnd = HttpEnd(txid: int, slot: Option<int>, stepId: int, elapsed: int, status: int, err: Option<string>)

  function Noted(c: Info, h: HttpEnd): Info { NotedPlace(NotedOutcome(c, h), h) }

  function NotedOutcome(c: Info, h: HttpEnd): Info {
    var c1 := NotedTimes(c, h);
    if h.err.Some? && !c1.terminalErr then Changed(c1, SetError(h.err.value, API_ERROR)) else c1
  }

  function NotedTimes(c: Info, h: HttpEnd): Info {
    var c1 := if h.elapsed >= 0 then c.(latency := Some(h.elapsed)) else c;
    var c2 := if c1.firstTokenMs != 0 then c1.(ttft := Some(c1.firstTokenMs - c1.startMs)) else c1;
    if c2.statusCode == 0 then c2.(statusCode := h.status) else c2
  }

  function NotedPlace(c: Info, h: HttpEnd): Info {
    var c1 := if h.stepId != 0 then c.(stepId := h.stepId) else c;
    var c2 := if h.txid != 0 then c1.(txid := h.txid) else c1;
    c2.(slot := h.slot)
  }

  /** The last touches of a publication: the time to the first token, and for a stream a latency that is
      not shorter than it. */
  function Finalized(c: Info, now: int): Info {
    var c1 := if c.firstTokenMs != 0 && c.ttft.None? then c.(ttft := Some(c.firstTokenMs - c.startMs)) else c;
    var stale := c1.stream && c1.ttft.Some? && (c1.latency.None? || c1.latency.value <= c1.ttft.value);
    if stale then c1.(latency := Some(now - c1.startMs)) else c1
  }

  /** The key of a call to `url`, which is known from the start (`created`) or only when the call is sent
      (`sent`): it names host and path, but what the user has set stays. */
  predicate KeysFor(cfg: Key, url: string, host: string, path: string, operation: string, created: Key, sent: Key) {
    && created.provider == sent.provider == (if cfg.provider != [] then cfg.provider else host)
    && created.model == sent.model == cfg.model
    && created.operation == (if cfg.operation != [] then cfg.operation else UNKNOWN)
    && sent.operation == (if cfg.operation !in {[], UNKNOWN} || operation == [] then created.operation else operation)
    && sent.url == path && created.url == if cfg.provider == [] then path else url
  }

  lemma CreatedKey(cfg: Key, url: string, host: string, path: string)
    requires url != [] && InferProviderURL(url) == (host, path)
    ensures var k := NewKey(cfg.(url := url));
            && k.provider == (if cfg.provider != [] then cfg.provider else host) && k.model == cfg.model
            && k.operation == (if cfg.operation != [] then cfg.operation else UNKNOWN)
            && k.url == if cfg.provider == [] then path else url
    ensures NewKey(cfg.(url := [])) == cfg.(url := [], operation := if cfg.operation != [] then cfg.operation else UNKNOWN)
  {
  }

  lemma ChangedKey(c: Info, url: string, operation: string)
    requires url != []
    ensures Changed(c, SetUrl(url, operation)).key == Located(c.key, url, operation)
  {
  }

  lemma KeyFromParts(cfg: Key, startMs: int, url: string, host: string, path: string, operation: string)
    requires url != [] && InferProviderURL(url) == (host, path)
    ensures KeysFor(cfg, url, host, path, operation, NewInfo(startMs, cfg.(url := url)).key,
                    Changed(NewInfo(startMs, cfg.(url := [])), SetUrl(url, operation)).key)
  {
    CreatedKey(cfg, url, host, path);
    ChangedKey(NewInfo(startMs, cfg.(url := [])), url, operation);
    LocatedIs(NewKey(cfg.(url := [])), url, host, path, operation);
  }

  lemma LocatedIs(k: Key, url: string, host: string, path: string, operation: string)
    requires InferProviderURL(url) == (host, path) && k.url == []
    ensures var l := Located(k, url, operation);
            && l.provider == (if k.provider != [] then k.provider else host) && l.model == k.model && l.url == path
            && l.operation == if k.operation !in {[], UNKNOWN} || operation == [] then k.operation else operation
  {
  }

  /** Once the URL or its path is there, the URL given again leaves the path and touches nothing but the key; an
      empty URL changes nothing. */
  lemma UrlAgain(c: Info, url: string, host: string, path: string, operation: string)
    requires url != [] && InferProviderURL(url) == (host, path) && c.key.url in {path, url}
    ensures Changed(c, SetUrl(url, operation)).key.url == path && Changed(c, SetUrl([], operation)) == c
    ensures Changed(c, SetUrl(url, operation)) == c.(key := Changed(c, SetUrl(url, operation)).key)
  {
  }

  lemma KeyFromUrl(cfg: Key, startMs: int, scheme: string, host: string, path: string, operation: string)
    requires ':' !in scheme && '/' !in host && (path == [] || path[0] == '/')
    ensures var url := scheme + "://" + (host + path);
            KeysFor(cfg, url, host, path, operation, NewInfo(startMs, cfg.(url := url)).key,
                    Changed(NewInfo(startMs, cfg.(url := [])), SetUrl(url, operation)).key)
  {
    UrlParts(scheme, host, path);
    KeyFromParts(cfg, startMs, scheme + "://" + (host + path), host, path, operation);
  }

  /** What the user has said before the end of the HTTP call wins over what the end says. */
  lemma UsersErrorWins(c: Info, h: HttpEnd, msg: string, kind: string)
    ensures var n := Noted(Changed(c, SetError(msg, kind)), h); n.error == msg && n.errorType == kind
  {
    var c1 := Changed(c, SetError(msg, kind));
    var c2 := NotedTimes(c1, h);
    assert c2.terminalErr && c2.error == msg && c2.errorType == kind;
  }

  lemma UsersStatusWins(c: Info, h: HttpEnd, code: int)
    requires code != 0
    ensures Noted(Changed(c, SetStatusCode(code)), h).statusCode == code
  {
    assert NotedTimes(Changed(c, SetStatusCode(code)), h).statusCode == code;
  }

  /** Only the first token counts, the last of several token counts and costs, and a cost of zero says nothing. */
  lemma ChangesAddUp(c: Info, first: int, again: int, t: map<TokenField, int>, u: map<TokenField, int>, f: TokenField,
                     costs: Costs)
    ensures Changed(Changed(c.(firstTokenMs := 0), RecordFirstToken(first)), RecordFirstToken(again)).firstTokenMs
            == if first != 0 then first else again
    ensures Get(Changed(Changed(c, SetTokens(t)), SetTokens(u)).tokens, f)
            == if f in u then u[f] else if f in t then t[f] else Get(c.tokens, f)
    ensures var k := Changed(c, SetCost(costs)).costs;
            && k.total == (if costs.total == 0.0 then c.costs.total else costs.total)
            && k.input == (if costs.input == 0.0 then c.costs.input else costs.input)
            && k.output == (if costs.output == 0.0 then c.costs.output else costs.output)
  {
  }

  /** The times of a publication: the time to the first token is known if there was one; a stream's latency is
      longer than it or reaches to the moment of publication; and nothing else changes. */
  lemma FinalTimes(c: Info, now: int)
    ensures var f := Finalized(c, now);
            && f == c.(ttft := f.ttft, latency := f.latency)
            && f.ttft == (if c.ttft.Some? then c.ttft
                          else if c.firstTokenMs != 0 then Some(c.firstTokenMs - c.startMs) else None)
            && (c.stream && f.ttft.Some? ==>
                  f.latency.Some? && (f.latency.value > f.ttft.value || f.latency.value == now - c.startMs))
            && (!c.stream || f.ttft.None? || (c.latency.Some? && c.latency.value > f.ttft.value) ==> f.latency == c.latency)
  {
  }

  // ---------------------------------------------------------------------------------------------
  // Transactions.

  /** The names seen in a transaction. */
  datatype Names = Names(providers: set<string>, models: set<string>, operations: set<string>)

  datatype Tx = Tx(callCount: int, errorCount: int, sums: map<TokenField, int>, latency: int,
                   txid: int, firstStep: int, lastStep: int, costs: Costs, names: Names)

  const NEW_TX := Tx(0, 0, map[], 0, 0, 0, 0, FREE, Names({}, {}, {}))

  function Plus(a: Costs, b: Costs): Costs { Costs(a.total + b.total, a.input + b.input, a.output + b.output) }

  function Named(s: string, unless: set<string>): set<string> { if s in unless then {} else {s} }

  function AddNames(n: Names, k: Key): Names {
    Names(n.providers + Named(k.provider, {[]}), n.models + Named(k.model, {[]}),
          n.operations + Named(k.operation, {[], UNKNOWN}))
  }

  function Get(m: map<TokenField, int>, f: TokenField): int { if f in m then m[f] else 0 }

  function AddTokens(sums: map<TokenField, int>, tokens: map<TokenField, int>, fields: seq<TokenField>): map<TokenField, int> {
    if fields == [] then sums
    else
      var f, rest := Last(fields), AddTokens(sums, tokens, Init(fields));
      if f in tokens then rest[f := Get(rest, f) + tokens[f]] else rest
  }

  function Accumulated(t: Tx, c: Info): Tx {
    Tx(t.callCount + 1, t.errorCount + (if Success(c) then 0 else 1),
       AddTokens(t.sums, c.tokens, SUMMARY_FIELDS), t.latency + (if c.latency.Some? then c.latency.value else 0),
       if t.txid == 0 then c.txid else t.txid,
       if c.stepId != 0 && t.firstStep == 0 then c.stepId else t.firstStep,
       if c.stepId != 0 then c.stepId else t.lastStep,
       Plus(t.costs, c.costs), AddNames(t.names, c.key))
  }

  lemma {:induction false} AddTokensAt(sums: map<TokenField, int>, tokens: map<TokenField, int>, fields: seq<TokenField>, f: TokenField)
    requires NoDuplicates(fields)
    ensures Get(AddTokens(sums, tokens, fields), f) == Get(sums, f) + if f in fields then Get(tokens, f) else 0
  {
    if fields != [] {
      var init, last := Init(fields), Last(fields);
      AddTokensAt(sums, tokens, init, f);
      AddTokensAt(sums, tokens, init, last);
      assert fields == init + [last];
    }
  }

  // ---------------------------------------------------------------------------------------------
  // Runs.

  /** `victim` is the entry that the gauge drops if it is full. */
  datatype Event =
    | HttpcEnd(id: int, end: HttpEnd, llmMode: bool, now: int, victim: Key)
    | StepEnd(id: int, now: int, victim: Key)
    | Modify(id: int, change: Change)
    | Finish(id: int)   // a publish, which may run beside others, has done its last step

  /** A publication: which call, at which event, and the call as it was then. */
  datatype Publication = Publication(id: int, at: nat, call: Info)

  /** `running` are the publishes in progress, each with the key under which the gauge counts it. */
  datatype World = World(calls: map<int, Call>, txs: map<int, Tx>, meterCount: int, meterError: int, log: seq<Publication>,
                         gauge: Gauge, running: map<int, Key>)

  function Publish(w: World, id: int, at: nat, now: int, victim: Key): World
    requires id in w.calls
  {
    var c := w.calls[id];
    if c.disabled || c.published then w
    else
      var info := Finalized(c.info, now);
      var w1 := w.(calls := w.calls[id := c.(published := true, info := info)],
                   log := w.log + [Publication(id, at, info)],
                   gauge := OnStartBounded(w.gauge, info.key, victim), running := w.running[id := info.key],
                   meterCount := w.meterCount + 1, meterError := w.meterError + if Success(info) then 0 else 1);
      if info.slot.None? then w1
      else
        var s := info.slot.value;
        w1.(txs := w.txs[s := Accumulated(if s in w.txs then w.txs[s] else NEW_TX, info)])
  }

  function WithInfo(w: World, id: int, info: Info): World
    requires id in w.calls
  {
    w.(calls := w.calls[id := w.calls[id].(info := info)])
  }

  /** One event; a disabled call and an unknown one ignore everything. */
  function Step(w: World, e: Event, at: nat): World {
    if e.id !in w.calls || w.calls[e.id].disabled then w
    else
      var c := w.calls[e.id];
      match e
      case Modify(id, ch) => WithInfo(w, id, Changed(c.info, ch))
      case StepEnd(id, now, victim) => Publish(w, id, at, now, victim)
      case HttpcEnd(id, end, llmMode, now, victim) =>
        if !llmMode then w
        else
          var w1 := WithInfo(w, id, Noted(c.info, end));
          if c.manual then w1 else Publish(w1, id, at, now, victim)
      case Finish(id) =>
        if id in w.running then w.(gauge := OnEnd(w.gauge, w.running[id]), running := w.running - {id}) else w
  }

  function Play(calls: map<int, Call>, es: seq<Event>): World {
    if es == [] then World(calls, map[], 0, 0, [], map[], map[])
    else Step(Play(calls, Init(es)), Last(es), |es| - 1)
  }

  /** The event that publishes call `id`: the end of the HTTP call unless it was opened by hand, or the end
      of the user's step. */
  predicate Triggers(calls: map<int, Call>, id: int, e: Event) {
    && id in calls && !calls[id].disabled && e.id == id
    && (e.StepEnd? || (e.HttpcEnd? && e.llmMode && !calls[id].manual))
  }

  /** The first triggering event, -1 if there is none. */
  function FirstTrigger(calls: map<int, Call>, id: int, es: seq<Event>): int {
    if es == [] then -1
    else
      var before := FirstTrigger(calls, id, Init(es));
      if before >= 0 then before else if Triggers(calls, id, Last(es)) then |es| - 1 else -1
  }

  /** How often the log publishes call `id`. */
  function Publications(log: seq<Publication>, id: int): nat {
    if log == [] then 0
    else Publications(Init(log), id) + if Last(log).id == id then 1 else 0
  }

  /** A call keeps its kind; it is in the log once if some event has triggered it, dated at the first such
      event, and otherwise not at all. */
  predicate CallOk(calls: map<int, Call>, w: World, es: seq<Event>, id: int)
    requires id in calls
  {
    var first := FirstTrigger(calls, id, es);
    && id in w.calls
    && w.calls[id].disabled == calls[id].disabled && w.calls[id].manual == calls[id].manual
    && w.calls[id].published == (first >= 0)
    && Publications(w.log, id) == (if first >= 0 then 1 else 0)
    && forall k :: 0 <= k < |w.log| && w.log[k].id == id ==> w.log[k].at == first
  }

  /** A step that does not publish `id`. */
  lemma QuietStep(calls: map<int, Call>, w: World, w': World, es: seq<Event>, e: Event, id: int)
    requires id in calls && CallOk(calls, w, es, id)
    requires Triggers(calls, id, e) ==> w.calls[id].published
    requires id in w'.calls && SameKind(w.calls[id], w'.calls[id])
    requires w'.log == w.log || (|w'.log| == |w.log| + 1 && w'.log[..|w.log|] == w.log && w'.log[|w.log|].id != id)
    ensures CallOk(calls, w', es + [e], id)
  {
  }

  predicate SameKind(c: Call, d: Call) {
    c.disabled == d.disabled && c.manual == d.manual && c.published == d.published
  }

  /** A step that publishes `id`. */
  lemma LoudStep(calls: map<int, Call>, w: World, w': World, es: seq<Event>, e: Event, id: int, c: Info)
    requires id in calls && CallOk(calls, w, es, id) && !w.calls[id].published
    requires Triggers(calls, id, e)
    requires id in w'.calls && w'.calls[id].published
    requires w'.calls[id].disabled == calls[id].disabled && w'.calls[id].manual == calls[id].manual
    requires w'.log == w.log + [Publication(id, |es|, c)]
    ensures CallOk(calls, w', es + [e], id)
  {
  }

  /** `w'` differs from `w` in call `id` alone, which keeps its kind and is published or not. */
  predicate OnlyCall(w: World, w': World, id: int, at: nat, publishes: bool)
    requires id in w.calls
  {
    && w'.calls.Keys == w.calls.Keys
    && (forall x :: x in w.calls && x != id ==> w'.calls[x] == w.calls[x])
    && var c, c' := w.calls[id], w'.calls[id];
       && c'.disabled == c.disabled && c'.manual == c.manual
       && c'.published == (c.published || publishes)
       && w'.log == if publishes then w.log + [Publication(id, at, c'.info)] else w.log
  }

  lemma PublishLog(w: World, id: int, at: nat, now: int, victim: Key)
    requires id in w.calls
    ensures OnlyCall(w, Publish(w, id, at, now, victim), id, at, !w.calls[id].disabled && !w.calls[id].published)
  {
  }

  /** What one event does to the log. */
  lemma StepLog(w: World, e: Event, at: nat)
    requires e.id in w.calls
    ensures var c := w.calls[e.id];
            OnlyCall(w, Step(w, e, at), e.id, at,
                     !c.disabled && !c.published && (e.StepEnd? || (e.HttpcEnd? && e.llmMode && !c.manual)))
  {
    var c := w.calls[e.id];
    match e
    case Modify(_, _) =>
    case StepEnd(id, now, victim) => PublishLog(w, id, at, now, victim);
    case HttpcEnd(id, end, _, now, victim) => PublishLog(WithInfo(w, id, Noted(c.info, end)), id, at, now, victim);
    case Finish(_) =>
  }

  lemma StepKeepsCall(calls: map<int, Call>, w: World, es: seq<Event>, e: Event, id: int)
    requires id in calls && CallOk(calls, w, es, id)
    ensures CallOk(calls, Step(w, e, |es|), es + [e], id)
  {
    var w' := Step(w, e, |es|);
    if e.id in w.calls {
      StepLog(w, e, |es|);
    }
    if w.calls[id].published || !Triggers(calls, id, e) {
      QuietStep(calls, w, w', es, e, id);
    } else {
      LoudStep(calls, w, w', es, e, id, w'.calls[id].info);
    }
  }

  /** Exactly once: over any interleaving of HTTP ends, step ends and changes, each call is published
      exactly once if some event triggers it, at the first such event, and otherwise never. */
  lemma {:induction false} PublishedExactlyOnce(calls: map<int, Call>, es: seq<Event>, id: int)
    requires id in calls && !calls[id].published
    ensures CallOk(calls, Play(calls, es), es, id)
    decreases |es|
  {
    if es != [] {
      var before := Init(es);
      PublishedExactlyOnce(calls, before, id);
      StepKeepsCall(calls, Play(calls, before), before, Last(es), id);
      assert es == before + [Last(es)];
    }
  }

  // ---------------------------------------------------------------------------------------------
  // The totals.

  function CountIn(log: seq<Publication>, s: Option<int>): nat {
    if log == [] then 0
    else CountIn(Init(log), s) + if Last(log).call.slot == s then 1 else 0
  }

  function ErrorsIn(log: seq<Publication>, s: Option<int>): nat {
    if log == [] then 0
    else
      var p := Last(log);
      ErrorsIn(Init(log), s) + if p.call.slot == s && p.call.error != [] then 1 else 0
  }

  function TokensIn(log: seq<Publication>, s: Option<int>, f: TokenField): int {
    if log == [] then 0
    else
      var p := Last(log);
      TokensIn(Init(log), s, f) + if p.call.slot == s then Get(p.call.tokens, f) else 0
  }

  function LatencyIn(log: seq<Publication>, s: Option<int>): int {
    if log == [] then 0
    else
      var p := Last(log);
      LatencyIn(Init(log), s) + if p.call.slot == s && p.call.latency.Some? then p.call.latency.value else 0
  }

  /** The three costs, the three names and the two ids that a call brings. */
  datatype Part = TotalCost | InputCost | OutputCost

  function CostOf(c: Costs, part: Part): real {
    match part
    case TotalCost => c.total
    case InputCost => c.input
    case OutputCost => c.output
  }

  function CostIn(log: seq<Publication>, s: Option<int>, part: Part): real {
    if log == [] then 0.0
    else
      var p := Last(log);
      CostIn(Init(log), s, part) + if p.call.slot == s then CostOf(p.call.costs, part) else 0.0
  }

  datatype NamePart = Provider | Model | Operation

  function NameOf(k: Key, part: NamePart): string {
    match part
    case Provider => k.provider
    case Model => k.model
    case Operation => k.operation
  }

  /** The names that occur in the calls published into a slot. */
  function SeenIn(log: seq<Publication>, s: Option<int>, part: NamePart): set<string> {
    set i | 0 <= i < |log| && log[i].call.slot == s :: NameOf(log[i].call.key, part)
  }

  /** The ids that were set in the calls published into a slot, in order. */
  function IdsIn(log: seq<Publication>, s: Option<int>, step: bool): seq<int> {
    if log == [] then []
    else
      var p := Last(log);
      var id := if step then p.call.stepId else p.call.txid;
      IdsIn(Init(log), s, step) + if p.call.slot == s && id != 0 then [id] else []
  }

  function Errors(log: seq<Publication>): nat {
    if log == [] then 0 else Errors(Init(log)) + if Last(log).call.error == [] then 0 else 1
  }

  /** A transaction's totals are the sums over the calls published into its slot. */
  ghost predicate TotalsOk(txs: map<int, Tx>, log: seq<Publication>) {
    && (forall s :: s in txs ==> TotalOk(txs[s], log, s))
    && (forall s :: s !in txs ==> CountIn(log, Some(s)) == 0)
  }

  ghost predicate TotalOk(t: Tx, log: seq<Publication>, s: int) {
    && t.callCount == CountIn(log, Some(s)) && t.errorCount == ErrorsIn(log, Some(s)) && t.latency == LatencyIn(log, Some(s))
    && TokensOk(t.sums, log, Some(s)) && CostsOk(t.costs, log, Some(s)) && NamesOk(t.names, log, Some(s))
    && IdsOk(t, log, Some(s))
  }

  /** Every field is summed but the dimensions. */
  ghost predicate TokensOk(sums: map<TokenField, int>, log: seq<Publication>, s: Option<int>) {
    forall f :: Get(sums, f) == if f.Dimensions? then 0 else TokensIn(log, s, f)
  }

  predicate CostsOk(c: Costs, log: seq<Publication>, s: Option<int>) {
    && c.total == CostIn(log, s, TotalCost) && c.input == CostIn(log, s, InputCost)
    && c.output == CostIn(log, s, OutputCost)
  }

  predicate NamesOk(n: Names, log: seq<Publication>, s: Option<int>) {
    && n.providers == SeenIn(log, s, Provider) - {[]} && n.models == SeenIn(log, s, Model) - {[]}
    && n.operations == SeenIn(log, s, Operation) - {[], UNKNOWN}
  }

  /** The first transaction id and the first and the last step. */
  predicate IdsOk(t: Tx, log: seq<Publication>, s: Option<int>) {
    var txids, steps := IdsIn(log, s, false), IdsIn(log, s, true);
    && t.txid == (if txids == [] then 0 else txids[0])
    && t.firstStep == (if steps == [] then 0 else steps[0])
    && t.lastStep == (if steps == [] then 0 else Last(steps))
    && 0 !in txids && 0 !in steps
  }

  lemma {:induction false} EmptySlot(log: seq<Publication>, s: Option<int>)
    requires CountIn(log, s) == 0
    ensures ErrorsIn(log, s) == 0 && LatencyIn(log, s) == 0 && IdsIn(log, s, false) == IdsIn(log, s, true) == []
    ensures forall f :: TokensIn(log, s, f) == 0
    ensures forall part :: CostIn(log, s, part) == 0.0
    ensures forall i :: 0 <= i < |log| ==> log[i].call.slot != s
  {
    if log != [] {
      EmptySlot(Init(log), s);
      assert log == Init(log) + [Last(log)];
    }
  }

  lemma NewTotals(log: seq<Publication>, s: int)
    requires CountIn(log, Some(s)) == 0
    ensures TotalOk(NEW_TX, log, s)
  {
    EmptySlot(log, Some(s));
    forall part ensures SeenIn(log, Some(s), part) == {} {
    }
  }

  lemma SeenSnoc(log: seq<Publication>, p: Publication, s: Option<int>, part: NamePart)
    ensures SeenIn(log + [p], s, part) == SeenIn(log, s, part) + if p.call.slot == s then {NameOf(p.call.key, part)} else {}
  {
    var log', seen' := log + [p], SeenIn(log + [p], s, part);
    assert log'[|log|] == p;
    forall x | x in SeenIn(log, s, part) ensures x in seen' {
      var i :| 0 <= i < |log| && log[i].call.slot == s && NameOf(log[i].call.key, part) == x;
      assert log'[i] == log[i];
    }
  }

  lemma AddTokensKeeps(sums: map<TokenField, int>, log: seq<Publication>, p: Publication, s: Option<int>)
    requires TokensOk(sums, log, s) && p.call.slot == s
    ensures TokensOk(AddTokens(sums, p.call.tokens, SUMMARY_FIELDS), log + [p], s)
  {
    var log' := log + [p];
    assert Init(log') == log;
    TwelveFields();
    forall f ensures Get(AddTokens(sums, p.call.tokens, SUMMARY_FIELDS), f)
                     == if f.Dimensions? then 0 else TokensIn(log', s, f) {
      AddTokensAt(sums, p.call.tokens, SUMMARY_FIELDS, f);
    }
  }

  lemma AddNamesKeeps(n: Names, log: seq<Publication>, p: Publication, s: Option<int>)
    requires NamesOk(n, log, s) && p.call.slot == s
    ensures NamesOk(AddNames(n, p.call.key), log + [p], s)
  {
    SeenSnoc(log, p, s, Provider);
    SeenSnoc(log, p, s, Model);
    SeenSnoc(log, p, s, Operation);
  }

  lemma IdsSnoc(log: seq<Publication>, p: Publication, s: Option<int>, step: bool)
    ensures var id := if step then p.call.stepId else p.call.txid;
            IdsIn(log + [p], s, step) == IdsIn(log, s, step) + if p.call.slot == s && id != 0 then [id] else []
  {
    assert Init(log + [p]) == log;
  }

  lemma AddIdsKeeps(t: Tx, log: seq<Publication>, p: Publication, s: Option<int>)
    requires IdsOk(t, log, s) && p.call.slot == s
    ensures IdsOk(Accumulated(t, p.call), log + [p], s)
  {
    IdsSnoc(log, p, s, false);
    IdsSnoc(log, p, s, true);
  }

  lemma AccumulateTotals(t: Tx, log: seq<Publication>, p: Publication, s: int)
    requires TotalOk(t, log, s) && p.call.slot == Some(s)
    ensures TotalOk(Accumulated(t, p.call), log + [p], s)
  {
    assert Init(log + [p]) == log;
    AddTokensKeeps(t.sums, log, p, Some(s));
    AddNamesKeeps(t.names, log, p, Some(s));
    AddIdsKeeps(t, log, p, Some(s));
  }

  lemma OtherTotals(t: Tx, log: seq<Publication>, p: Publication, s: int)
    requires p.call.slot != Some(s)
    ensures CountIn(log + [p], Some(s)) == CountIn(log, Some(s))
    ensures TotalOk(t, log, s) ==> TotalOk(t, log + [p], s)
  {
    assert Init(log + [p]) == log;
    SeenSnoc(log, p, Some(s), Provider);
    SeenSnoc(log, p, Some(s), Model);
    SeenSnoc(log, p, Some(s), Operation);
    IdsSnoc(log, p, Some(s), false);
    IdsSnoc(log, p, Some(s), true);
  }

  lemma PublishKeepsTotals(w: World, id: int, at: nat, now: int, victim: Key)
    requires id in w.calls && TotalsOk(w.txs, w.log)
    ensures var w' := Publish(w, id, at, now, victim); TotalsOk(w'.txs, w'.log)
  {
    var c := w.calls[id];
    if !c.disabled && !c.published {
      var p := Publication(id, at, Finalized(c.info, now));
      var w' := Publish(w, id, at, now, victim);
      forall s ensures if s in w'.txs then TotalOk(w'.txs[s], w'.log, s) else CountIn(w'.log, Some(s)) == 0 {
        if p.call.slot == Some(s) {
          var t := if s in w.txs then w.txs[s] else NEW_TX;
          if s !in w.txs {
            NewTotals(w.log, s);
          }
          AccumulateTotals(t, w.log, p, s);
        } else {
          OtherTotals(if s in w.txs then w.txs[s] else NEW_TX, w.log, p, s);
        }
      }
    }
  }

  lemma PublishCounts(w: World, id: int, at: nat, now: int, victim: Key)
    requires id in w.calls && w.meterCount == |w.log| && w.meterError == Errors(w.log)
    ensures var w' := Publish(w, id, at, now, victim); w'.meterCount == |w'.log| && w'.meterError == Errors(w'.log)
  {
  }

  ghost predicate BooksOk(w: World) {
    TotalsOk(w.txs, w.log) && w.meterCount == |w.log| && w.meterError == Errors(w.log)
  }

  lemma StepKeepsBooks(w: World, e: Event, at: nat)
    requires BooksOk(w)
    ensures BooksOk(Step(w, e, at))
  {
    if e.id in w.calls && (e.HttpcEnd? || e.StepEnd?) {
      var w1 := if e.HttpcEnd? then WithInfo(w, e.id, Noted(w.calls[e.id].info, e.end)) else w;
      PublishKeepsTotals(w1, e.id, at, e.now, e.victim);
      PublishCounts(w1, e.id, at, e.now, e.victim);
    }
  }

  /** Over any interleaving: every transaction's totals are the sums over the calls published into it, and
      the meter counts every publication and every failed one. */
  lemma {:induction false} TotalsAreSums(calls: map<int, Call>, es: seq<Event>)
    ensures BooksOk(Play(calls, es))
    decreases |es|
  {
    if es != [] {
      TotalsAreSums(calls, Init(es));
      StepKeepsBooks(Play(calls, Init(es)), Last(es), |es| - 1);
    }
  }

  /** What the end of an automatic call publishes: the slot, the elapsed time as latency, unless a stream took
      longer, the status and the error, unless the user has set them, and the ids it knows. */
  predicate PublishedAs(c: Info, h: HttpEnd, p: Info) {
    && p.slot == h.slot
    && p.txid == (if h.txid != 0 then h.txid else c.txid) && p.stepId == (if h.stepId != 0 then h.stepId else c.stepId)
    && p.statusCode == (if c.statusCode != 0 then c.statusCode else h.status)
    && (if c.terminalErr || h.err.None? then p.error == c.error && p.errorType == c.errorType
        else p.error == h.err.value && p.errorType == "api_error")
    && (!c.stream && h.elapsed >= 0 ==> p.latency == Some(h.elapsed))
    && (c.firstTokenMs != 0 ==> p.ttft == Some(c.firstTokenMs - c.startMs))
    && p.tokens == c.tokens && p.costs == c.costs && p.key == c.key && p.stream == c.stream
  }

  lemma NotedAs(c: Info, h: HttpEnd)
    ensures PublishedAs(c, h, Noted(c, h)) && (c.firstTokenMs == 0 ==> Noted(c, h).ttft == c.ttft)
    ensures Noted(c, h).firstTokenMs == c.firstTokenMs && Noted(c, h).startMs == c.startMs
  {
    var c1 := NotedTimes(c, h);
    assert c1 == c.(latency := c1.latency, ttft := c1.ttft, statusCode := c1.statusCode);
    var c2 := NotedOutcome(c, h);
    assert c2 == c1.(error := c2.error, errorType := c2.errorType, terminalErr := c2.terminalErr);
  }

  lemma FinalizedAs(c: Info, h: HttpEnd, p: Info, now: int)
    requires PublishedAs(c, h, p) && p.firstTokenMs == c.firstTokenMs && p.startMs == c.startMs
    ensures PublishedAs(c, h, Finalized(p, now))
  {
    FinalTimes(p, now);
  }

  lemma EndIsPublished(calls: map<int, Call>, es: seq<Event>)
    requires es != [] && Last(es).HttpcEnd? && Last(es).id in Play(calls, Init(es)).calls && Last(es).llmMode
    requires var c := Play(calls, Init(es)).calls[Last(es).id]; !c.disabled && !c.manual && !c.published
    ensures var w, log := Play(calls, Init(es)), Play(calls, es).log;
            && log != [] && Init(log) == w.log && Last(log).id == Last(es).id && Last(log).at == |es| - 1
            && PublishedAs(w.calls[Last(es).id].info, Last(es).end, Last(log).call)
  {
    var w, e := Play(calls, Init(es)), Last(es);
    var c := w.calls[e.id].info;
    NotedAs(c, e.end);
    FinalizedAs(c, e.end, Noted(c, e.end), e.now);
    PublishLogged(WithInfo(w, e.id, Noted(c, e.end)), e.id, |es| - 1, e.now, e.victim);
  }

  /** A new call of which the user says nothing is published as the end of its HTTP call describes it. */
  lemma PlainCall(startMs: int, cfg: Key, h: HttpEnd, now: int)
    requires h.elapsed >= 0
    ensures var p := Finalized(Noted(NewInfo(startMs, cfg), h), now);
            && p.slot == h.slot && p.txid == h.txid && p.stepId == h.stepId && p.statusCode == h.status
            && p.error == (if h.err.Some? then h.err.value else [])
            && p.latency == Some(h.elapsed) && p.ttft.None? && p.tokens == map[] && p.costs == Costs(0.0, 0.0, 0.0)
  {
    var c := NewInfo(startMs, cfg);
    NotedAs(c, h);
    FinalTimes(Noted(c, h), now);
    assert !c.stream && c.firstTokenMs == 0 && c.statusCode == 0 && !c.terminalErr && c.txid == c.stepId == 0;
  }

  /** A stream whose HTTP call has ended before the first token came takes until it is published. */
  lemma StreamLatency(c: Info, h: HttpEnd, now: int)
    requires c.firstTokenMs != 0 && h.elapsed >= 0
    ensures Finalized(Noted(Changed(c, MarkStream), h), now).latency
            == Some(if h.elapsed <= c.firstTokenMs - c.startMs then now - c.startMs else h.elapsed)
  {
    var s := Changed(c, MarkStream);
    var n := NotedTimes(s, h);
    assert n == s.(latency := Some(h.elapsed), ttft := Some(c.firstTokenMs - c.startMs), statusCode := n.statusCode);
    var d := NotedOutcome(s, h);
    assert d.latency == n.latency && d.ttft == n.ttft && d.stream && d.startMs == c.startMs && d.firstTokenMs == c.firstTokenMs;
  }

  lemma PublishLogged(w: World, id: int, at: nat, now: int, victim: Key)
    requires id in w.calls && !w.calls[id].disabled && !w.calls[id].published
    ensures Publish(w, id, at, now, victim).log == w.log + [Publication(id, at, Finalized(w.calls[id].info, now))]
  {
  }

  // ---------------------------------------------------------------------------------------------
  // The gauge.

  /** Only published calls are in progress, and the gauge shows them. */
  ghost predicate GaugeOk(w: World) {
    Shows(w.gauge, w.running) && forall id :: id in w.running ==> id in w.calls && w.calls[id].published
  }

  lemma PublishKeepsGauge(w: World, id: int, at: nat, now: int, victim: Key)
    requires id in w.calls && GaugeOk(w) && |w.running| < KEY_MAX
    ensures GaugeOk(Publish(w, id, at, now, victim))
  {
    var c := w.calls[id];
    if !c.disabled && !c.published {
      var key := Finalized(c.info, now).key;
      NothingIsEvicted(w.gauge, w.running, key, victim);
      StartShows(w.gauge, w.running, id, key);
    }
  }

  /** Never more than 1024 publishes at a time. */
  predicate Few(calls: map<int, Call>, es: seq<Event>) {
    es == [] || (Few(calls, Init(es)) && |Play(calls, Init(es)).running| < KEY_MAX)
  }

  /** Over any interleaving of publishes, each with its start and its end, and never more than 1024 at a time:
      the bounded gauge shows for each key how many publishes are in progress, and when all have finished it is
      empty as at first. */
  lemma {:induction false} GaugeShowsPublishes(calls: map<int, Call>, es: seq<Event>)
    requires Few(calls, es)
    ensures var w := Play(calls, es); GaugeOk(w) && (w.running == map[] ==> w.gauge == map[])
    decreases |es|
  {
    if es == [] {
      assert forall k :: With(map[], k) == {};
    } else {
      GaugeShowsPublishes(calls, Init(es));
      var w, e := Play(calls, Init(es)), Last(es);
      if e.id in w.calls {
        GaugeStep(w, e, |es| - 1);
      }
      if Play(calls, es).running == map[] {
        NoneRunning(Play(calls, es).gauge);
      }
    }
  }

  lemma GaugeStep(w: World, e: Event, at: nat)
    requires GaugeOk(w) && e.id in w.calls && |w.running| < KEY_MAX
    ensures GaugeOk(Step(w, e, at))
  {
    match e
    case Modify(_, _) =>
    case StepEnd(id, now, victim) => PublishKeepsGauge(w, id, at, now, victim);
    case HttpcEnd(id, end, _, now, victim) => PublishKeepsGauge(WithInfo(w, id, Noted(w.calls[id].info, end)), id, at, now, victim);
    case Finish(id) => if id in w.running { EndShows(w.gauge, w.running, id); }
  }

  // ---------------------------------------------------------------------------------------------
  // The imperative form.

  class LlmTxStatus {
    var callCount: int
    var errorCount: int
    var tokenSums: map<TokenField, int>
    var latency: int
    var txid: int
    var firstStepId: int
    var lastStepId: int
    var cost: Costs
    var names: Names

    ghost function View(): Tx
      reads this
    {
      Tx(callCount, errorCount, tokenSums, latency, txid, firstStepId, lastStepId, cost, names)
    }

    constructor ()
      ensures View() == NEW_TX
    {
      callCount, errorCount, tokenSums, latency, txid, firstStepId, lastStepId := 0, 0, map[], 0, 0, 0, 0;
      cost, names := FREE, Names({}, {}, {});
    }

    /** Adds one call; the transaction id is set by the caller. */
    method Accumulate(pk: Info)
      modifies this
      ensures View() == Accumulated(old(View()), pk).(txid := old(txid))
    {
      callCount := callCount + 1;
      if !Success(pk) {
        errorCount := errorCount + 1;
      }
      SumTokens(pk.tokens);
      if pk.latency.Some? {
        latency := latency + pk.latency.value;
      }
      if pk.stepId != 0 {
        if firstStepId == 0 {
          firstStepId := pk.stepId;
        }
        lastStepId := pk.stepId;
      }
      cost := Costs(cost.total + pk.costs.total, cost.input + pk.costs.input, cost.output + pk.costs.output);
      NoteNames(pk.key);
    }

    method NoteNames(key: Key)
      modifies this`names
      ensures names == AddNames(old(names), key)
    {
      if key.provider != [] {
        names := names.(providers := names.providers + {key.provider});
      }
      if key.model != [] {
        names := names.(models := names.models + {key.model});
      }
      if key.operation != [] && key.operation != UNKNOWN {
        names := names.(operations := names.operations + {key.operation});
      }
    }

    method SumTokens(tokens: map<TokenField, int>)
      modifies this`tokenSums
      ensures tokenSums == AddTokens(old(tokenSums), tokens, SUMMARY_FIELDS)
    {
      var i := 0;
      while i < |SUMMARY_FIELDS|
        invariant i <= |SUMMARY_FIELDS|
        invariant tokenSums == AddTokens(old(tokenSums), tokens, SUMMARY_FIELDS[..i])
      {
        var f := SUMMARY_FIELDS[i];
        assert SUMMARY_FIELDS[..i + 1][..i] == SUMMARY_FIELDS[..i];
        if f in tokens {
          tokenSums := tokenSums[f := Get(tokenSums, f) + tokens[f]];
        }
        i := i + 1;
      }
      assert SUMMARY_FIELDS[..i] == SUMMARY_FIELDS;
    }
  }

  /** The place in a trace where its LLM totals are kept, empty at first. */
  class TxSlot {
    const id: int
    var tx: LlmTxStatus?

    constructor (id: int)
      ensures this.id == id && tx == null
    {
      this.id := id;
      tx := null;
    }

    ghost function Totals(): Tx
      reads this, tx
    {
      if tx == null then NEW_TX else tx.View()
    }
  }

  class LLMState {
    const disabled: bool
    var manualPublish: bool
    var endOnce: bool
    var info: Info
    var txSlot: TxSlot?

    constructor (disabled: bool, startMs: int, cfg: Key)
      ensures View() == Call(disabled, false, false, NewInfo(startMs, cfg))
      ensures Valid()
    {
      this.disabled := disabled;
      manualPublish, endOnce, txSlot := false, false, null;
      var key := FillKey(cfg);
      info := Info(startMs, 0, false, 0, None, map[], [], [], false, None, None, 0, 0, key, FREE);
    }

    ghost predicate Valid()
      reads this
    {
      info.slot == if txSlot == null then None else Some(txSlot.id)
    }

    ghost function View(): Call
      reads this
    {
      Call(disabled, manualPublish, endOnce, info)
    }

    /** What publishing through this call may change. */
    ghost function Reach(): set<object>
      reads this, txSlot
    {
      if txSlot == null then {} else if txSlot.tx == null then {txSlot} else {txSlot, txSlot.tx}
    }

    method MarkManualPublish()
      requires Valid()
      modifies this
      ensures Valid() && View() == old(View()).(manual := old(manualPublish) || !disabled)
    {
      if disabled {
        return;
      }
      manualPublish := true;
    }

    method SetErrorOf(msg: string, kind: string)
      requires Valid()
      modifies this
      ensures Valid() && txSlot == old(txSlot)
      ensures View() == if disabled then old(View()) else old(View()).(info := Changed(old(info), SetError(msg, kind)))
    {
      if disabled {
        return;
      }
      info := info.(error := msg, errorType := kind, terminalErr := true);
    }

    /** Publishes the call unless that has been done. */
    method Publish(meter: Accounting.MeterLLM, now: int, victim: Key)
      requires Valid()
      modifies this, meter, Reach()
      ensures Valid() && txSlot == old(txSlot)
      ensures disabled || old(endOnce) ==>
                && View() == old(View()) && unchanged(meter)
                && (txSlot != null ==> txSlot.tx == old(txSlot.tx) && txSlot.Totals() == old(txSlot.Totals()))
      ensures !disabled && !old(endOnce) ==>
                && View() == old(View()).(published := true, info := Finalized(old(info), now))
                && meter.activeStat == AfterPublish(old(meter.activeStat), info.key, victim)
                && meter.meterCount == old(meter.meterCount) + 1
                && meter.meterError == old(meter.meterError) + (if Success(info) then 0 else 1)
                && (txSlot != null ==> txSlot.tx != null && txSlot.Totals() == Accumulated(old(txSlot.Totals()), info))
    {
      if disabled || endOnce {
        return;
      }
      endOnce := true;
      FinishTimes(now);
      Dispatch(meter, victim);
    }

    /** What is done only once. */
    method Dispatch(meter: Accounting.MeterLLM, victim: Key)
      requires Valid()
      modifies meter, Reach()
      ensures meter.activeStat == AfterPublish(old(meter.activeStat), info.key, victim)
      ensures meter.meterCount == old(meter.meterCount) + 1
      ensures meter.meterError == old(meter.meterError) + if Success(info) then 0 else 1
      ensures txSlot != null ==> txSlot.tx != null && txSlot.Totals() == Accumulated(old(txSlot.Totals()), info)
    {
      assert meter !in Reach();
      PublishMeters(meter, victim);
      AddIfPlaced();
    }

    method AddIfPlaced()
      modifies Reach()
      ensures txSlot != null ==> txSlot.tx != null && txSlot.Totals() == Accumulated(old(txSlot.Totals()), info)
    {
      if txSlot != null {
        AddToTransaction(txSlot, info);
      }
    }

    /** The gauge goes up and down again around the counting. */
    method PublishMeters(meter: Accounting.MeterLLM, victim: Key)
      modifies meter
      ensures meter.activeStat == AfterPublish(old(meter.activeStat), info.key, victim)
      ensures meter.meterCount == old(meter.meterCount) + 1
      ensures meter.meterError == old(meter.meterError) + if Success(info) then 0 else 1
    {
      meter.OnStart(info.key, victim);
      meter.IncrementMeter();
      if !Success(info) {
        meter.IncrementMeterError();
      }
      meter.OnEnd(info.key);
    }

    method FinishTimes(now: int)
      requires Valid()
      modifies this`info
      ensures Valid() && info == Finalized(old(info), now)
    {
      if info.firstTokenMs != 0 && info.ttft.None? {
        info := info.(ttft := Some(info.firstTokenMs - info.startMs));
      }
      if info.stream && info.ttft.Some? {
        if info.latency.None? || info.latency.value <= info.ttft.value {
          info := info.(latency := Some(now - info.startMs));
        }
      }
    }

    static method AddToTransaction(slot: TxSlot, pk: Info)
      modifies slot, if slot.tx == null then {} else {slot.tx}
      ensures slot.tx != null && slot.Totals() == Accumulated(old(slot.Totals()), pk)
    {
      if slot.tx == null {
        slot.tx := new LlmTxStatus();
      }
      var tx := slot.tx;
      if tx.txid == 0 {
        tx.txid := pk.txid;
      }
      tx.Accumulate(pk);
    }

    /** The end of the HTTP call that carries this LLM call. */
    method HandleHttpcEnd(meter: Accounting.MeterLLM, txid: int, slot: TxSlot?, stepId: int, elapsed: int,
                          status: int, err: Option<string>, llmMode: bool, now: int, victim: Key)
      requires Valid()
      modifies this, meter, slot, if slot != null && slot.tx != null then {slot.tx} else {}
      ensures Valid()
      ensures var end := HttpEnd(txid, if slot == null then None else Some(slot.id), stepId, elapsed, status, err);
              var noted := Noted(old(info), end);
              var publishes := !disabled && llmMode && !manualPublish && !old(endOnce);
              if disabled || !llmMode then View() == old(View())
              else
                && txSlot == slot
                && View() == old(View()).(published := old(endOnce) || !manualPublish,
                                          info := if publishes then Finalized(noted, now) else noted)
      ensures var publishes := !disabled && llmMode && !manualPublish && !old(endOnce);
              && meter.meterCount == old(meter.meterCount) + (if publishes then 1 else 0)
              && meter.meterError == old(meter.meterError) + (if publishes && !Success(info) then 1 else 0)
              && meter.activeStat == (if publishes then AfterPublish(old(meter.activeStat), info.key, victim)
                                      else old(meter.activeStat))
              && (slot != null ==>
                    slot.Totals() == if publishes then Accumulated(old(slot.Totals()), info) else old(slot.Totals()))
    {
      if disabled {
        return;
      }
      if !llmMode {
        return;
      }
      NoteEnd(txid, slot, stepId, elapsed, status, err);
      if !manualPublish {
        Publish(meter, now, victim);
      }
    }

    method NoteEnd(txid: int, slot: TxSlot?, stepId: int, elapsed: int, status: int, err: Option<string>)
      requires Valid() && !disabled
      modifies this
      ensures Valid() && txSlot == slot
      ensures var end := HttpEnd(txid, if slot == null then None else Some(slot.id), stepId, elapsed, status, err);
              View() == old(View()).(info := Noted(old(info), end))
    {
      ghost var end := HttpEnd(txid, if slot == null then None else Some(slot.id), stepId, elapsed, status, err);
      NoteOutcome(elapsed, status, err, end);
      if stepId != 0 {
        info := info.(stepId := stepId);
      }
      if txid != 0 {
        info := info.(txid := txid);
      }
      txSlot := slot;
      info := info.(slot := if slot == null then None else Some(slot.id));
    }

    method NoteOutcome(elapsed: int, status: int, err: Option<string>, ghost end: HttpEnd)
      requires Valid() && !disabled && end.elapsed == elapsed && end.status == status && end.err == err
      modifies this
      ensures Valid() && txSlot == old(txSlot)
      ensures View() == old(View()).(info := NotedOutcome(old(info), end))
    {
      NoteTimes(elapsed, status, end);
      if err.Some? && !info.terminalErr {
        SetErrorOf(err.value, API_ERROR);
      }
    }

    method NoteTimes(elapsed: int, status: int, ghost end: HttpEnd)
      requires Valid() && end.elapsed == elapsed && end.status == status
      modifies this`info
      ensures Valid() && info == NotedTimes(old(info), end)
    {
      if elapsed >= 0 {
        info := info.(latency := Some(elapsed));
      }
      if info.firstTokenMs != 0 {
        info := info.(ttft := Some(info.firstTokenMs - info.startMs));
      }
      if info.statusCode == 0 {
        info := info.(statusCode := status);
      }
    }
  }
}
