/** The text dictionary (agent/agent/data/DataText.go): each text is sent once under its hash, as far as the
    cache of its type remembers.  The caches may evict; the queue may refuse. */
module TextDictionary {
  import opened Common

  /** The type of a text.  Each named type has a cache of its own; all others share one. */
  datatype Div =
    | DbUrl | Method | HttpcUrl | HttpcHost | Error | Service | Sql | StackElements | Message | UserAgent
    | Referer | Login | SqlParam | HttpDomain | MtraceSpec | MtraceCallerUrl | Other(code: int)

  datatype Rec = Rec(div: Div, hash: int, text: string)

  /** A cached hash, with the cache that holds it. */
  type Key = (Div, int)

  function KeyOf(r: Rec): Key { (if r.div.Other? then Other(0) else r.div, r.hash) }

  const BUFFERED_MAX := 100 * 1024

  /** `offers` are the texts that threads are offering: in the cache and not yet in the queue.  `buffered` is
      the length of the buffered texts.  The last two are history: the texts accepted by the queue, and how
      many of them before the last reset. */
  datatype State = State(cache: set<Key>, offers: map<int, Rec>, queue: seq<Rec>, buffer: seq<Rec>, buffered: nat,
                         sent: seq<seq<Rec>>, accepted: seq<Rec>, atReset: nat)

  const NEW := State({}, map[], [], [], 0, [], [], 0)

  /** A thread offers a text, in two steps that others may come between: a hash not yet cached is cached. */
  function Begin(s: State, thread: int, r: Rec): State {
    if thread in s.offers || KeyOf(r) in s.cache then s
    else s.(cache := s.cache + {KeyOf(r)}, offers := s.offers[thread := r])
  }

  /** Then the queue takes the text or not; a refused text leaves the cache again. */
  function Settle(s: State, thread: int, room: bool): State {
    if thread !in s.offers then s
    else
      var r := s.offers[thread];
      var s1 := s.(offers := s.offers - {thread});
      if room then s1.(queue := s.queue + [r], accepted := s.accepted + [r]) else s1.(cache := s.cache - {KeyOf(r)})
  }

  function Send(s: State): State { s.(sent := s.sent + [s.buffer], buffer := [], buffered := 0) }

  /** Sends what is buffered, if anything. */
  function SendIf(s: State, when: bool): State { if when && s.buffered > 0 then Send(s) else s }

  /** Moves one text from the queue to the buffer, and sends a full buffer. */
  function Take(s: State): State {
    if s.queue == [] then s
    else
      var s1 := s.(queue := s.queue[1..], buffer := s.buffer + [s.queue[0]], buffered := s.buffered + |s.queue[0].text|);
      if s1.buffered >= BUFFERED_MAX then Send(s1) else s1
  }

  function Reset(s: State): State { s.(cache := {}, atReset := |s.accepted|) }

  /** One round of the sending thread: `due` when connected and five seconds have passed, `resetDue` when the
      caches are to start again. */
  function Process(s: State, due: bool, resetDue: bool): State {
    var s1 := SendIf(Take(s), due);
    if resetDue then Reset(SendIf(s1, true)) else s1
  }

  datatype Event = Offer(thread: int, rec: Rec) | Answer(thread: int, room: bool) | Round(due: bool, resetDue: bool) | Evict(keys: set<Key>) | ResetHash

  function Step(s: State, e: Event): State {
    match e
    case Offer(thread, r) => Begin(s, thread, r)
    case Answer(thread, room) => Settle(s, thread, room)
    case Round(due, resetDue) => Process(s, due, resetDue)
    case Evict(keys) => s.(cache := s.cache - keys)
    case ResetHash => Reset(s)
  }

  function Play(es: seq<Event>): State {
    if es == [] then NEW else Step(Play(Init(es)), Last(es))
  }

  /** The texts in the pipeline, oldest first. */
  function InPipeline(s: State): seq<Rec> { Flatten(s.sent) + s.buffer + s.queue }

  predicate AcceptedSince(s: State, key: Key) {
    exists k :: s.atReset <= k < |s.accepted| && 0 <= k && KeyOf(s.accepted[k]) == key
  }

  ghost predicate BeingOffered(s: State, key: Key) {
    exists thread :: thread in s.offers && KeyOf(s.offers[thread]) == key
  }

  /** Cached means accepted since the last reset, or just being offered; a refused text is therefore offered
      again. */
  ghost predicate CacheOk(s: State) {
    s.atReset <= |s.accepted| && forall key :: key in s.cache ==> AcceptedSince(s, key) || BeingOffered(s, key)
  }

  /** Nothing enters or leaves the pipeline. */
  predicate Conserves(s: State, s': State) {
    InPipeline(s') == InPipeline(s) && s'.accepted == s.accepted && s'.offers == s.offers
  }

  lemma SendConserves(s: State)
    ensures Conserves(s, Send(s))
  {
    assert Init(s.sent + [s.buffer]) == s.sent;
    assert Flatten(s.sent) + s.buffer + [] + s.queue == Flatten(s.sent) + s.buffer + s.queue;
  }

  lemma SendIfConserves(s: State, when: bool)
    ensures Conserves(s, SendIf(s, when))
  {
    SendConserves(s);
  }

  lemma TakeConserves(s: State)
    ensures Conserves(s, Take(s))
  {
    if s.queue != [] {
      var s1 := s.(queue := s.queue[1..], buffer := s.buffer + [s.queue[0]], buffered := s.buffered + |s.queue[0].text|);
      MoveOne(Flatten(s.sent), s.buffer, s.queue);
      SendConserves(s1);
    }
  }

  lemma RoundConserves(s: State, due: bool, resetDue: bool)
    ensures Conserves(s, Process(s, due, resetDue))
  {
    TakeConserves(s);
    SendIfConserves(Take(s), due);
    SendIfConserves(SendIf(Take(s), due), true);
    ResetConserves(SendIf(SendIf(Take(s), due), true));
  }

  lemma ResetConserves(s: State)
    ensures Conserves(s, Reset(s))
  {
  }

  lemma BeginKeeps(s: State, thread: int, r: Rec)
    requires CacheOk(s)
    ensures CacheOk(Begin(s, thread, r))
  {
    var s' := Begin(s, thread, r);
    if s' != s {
      forall key | key in s'.cache ensures AcceptedSince(s', key) || BeingOffered(s', key) {
        if key == KeyOf(r) {
          assert thread in s'.offers && KeyOf(s'.offers[thread]) == key;
        } else if BeingOffered(s, key) {
          var t :| t in s.offers && KeyOf(s.offers[t]) == key;
          assert t in s'.offers && KeyOf(s'.offers[t]) == key;
        } else {
          var k :| s.atReset <= k < |s.accepted| && 0 <= k && KeyOf(s.accepted[k]) == key;
          assert s'.accepted[k] == s.accepted[k];
        }
      }
    }
  }

  lemma SettleKeeps(s: State, thread: int, room: bool)
    requires CacheOk(s) && thread in s.offers
    ensures CacheOk(Settle(s, thread, room))
  {
    var s', r := Settle(s, thread, room), s.offers[thread];
    forall key | key in s'.cache ensures AcceptedSince(s', key) || BeingOffered(s', key) {
      if key == KeyOf(r) && room {
        assert KeyOf(s'.accepted[|s.accepted|]) == key;
      } else if BeingOffered(s, key) {
        var t :| t in s.offers && KeyOf(s.offers[t]) == key;
        assert t in s'.offers && KeyOf(s'.offers[t]) == key;
      } else {
        var k :| s.atReset <= k < |s.accepted| && 0 <= k && KeyOf(s.accepted[k]) == key;
        assert s'.accepted[k] == s.accepted[k];
      }
    }
  }

  lemma QuietKeeps(s: State, s': State)
    requires CacheOk(s) && s'.cache <= s.cache && s'.offers == s.offers && s'.accepted == s.accepted && s'.atReset == s.atReset
    ensures CacheOk(s')
  {
    forall key | key in s'.cache ensures AcceptedSince(s', key) || BeingOffered(s', key) {
      if BeingOffered(s, key) {
        var t :| t in s.offers && KeyOf(s.offers[t]) == key;
        assert t in s'.offers;
      } else {
        var k :| s.atReset <= k < |s.accepted| && 0 <= k && KeyOf(s.accepted[k]) == key;
        assert s'.accepted[k] == s.accepted[k];
      }
    }
  }

  lemma StepKeepsCache(s: State, e: Event)
    requires CacheOk(s)
    ensures CacheOk(Step(s, e))
  {
    match e
    case Offer(thread, r) => BeginKeeps(s, thread, r);
    case Answer(thread, room) => if thread in s.offers { SettleKeeps(s, thread, room); }
    case Round(due, resetDue) =>
      RoundConserves(s, due, resetDue);
      if !resetDue {
        QuietKeeps(s, Step(s, e));
      }
    case Evict(_) => QuietKeeps(s, Step(s, e));
    case ResetHash =>
  }

  /** Over any interleaving of offers, rounds, evictions and resets: the accepted texts are exactly those sent,
      buffered and queued, in order; and a text is held back only if it has been accepted since the last
      reset or another thread is just offering it. */
  lemma {:induction false} TextsAreConserved(es: seq<Event>)
    ensures var s := Play(es); s.accepted == InPipeline(s) && CacheOk(s)
    decreases |es|
  {
    if es != [] {
      var s, e := Play(Init(es)), Last(es);
      TextsAreConserved(Init(es));
      StepKeepsCache(s, e);
      match e
      case Answer(thread, room) =>
        if thread in s.offers && room {
          assert InPipeline(Step(s, e)) == InPipeline(s) + [s.offers[thread]];
        }
      case Round(due, resetDue) => RoundConserves(s, due, resetDue);
      case _ =>
    }
  }

  /** The event may start the caches again. */
  predicate Resets(e: Event) { e.ResetHash? || (e.Round? && e.resetDue) }

  /** No evictions, and no reset while a text is being offered. */
  predicate Calm(es: seq<Event>) {
    es == [] ||
    (Calm(Init(es)) && !Last(es).Evict? && (Resets(Last(es)) ==> Play(Init(es)).offers == map[]))
  }

  /** What is cached is exactly what was accepted since the last reset and what is being offered, each once. */
  ghost predicate Once(s: State) {
    && s.atReset <= |s.accepted|
    && (forall k :: s.atReset <= k < |s.accepted| ==> KeyOf(s.accepted[k]) in s.cache)
    && (forall j, k :: s.atReset <= j < k < |s.accepted| ==> KeyOf(s.accepted[j]) != KeyOf(s.accepted[k]))
    && (forall t :: t in s.offers ==> KeyOf(s.offers[t]) in s.cache)
    && (forall t, k :: t in s.offers && s.atReset <= k < |s.accepted| ==> KeyOf(s.accepted[k]) != KeyOf(s.offers[t]))
    && (forall t, u :: t in s.offers && u in s.offers && t != u ==> KeyOf(s.offers[t]) != KeyOf(s.offers[u]))
  }

  lemma SettleKeepsOnce(s: State, thread: int, room: bool)
    requires Once(s) && thread in s.offers
    ensures Once(Settle(s, thread, room))
  {
  }

  /** Without evictions and without a reset during an offer, no text is accepted twice between resets. */
  lemma {:induction false} AcceptedOnce(es: seq<Event>)
    requires Calm(es)
    ensures Once(Play(es))
    decreases |es|
  {
    if es != [] {
      var s, e := Play(Init(es)), Last(es);
      AcceptedOnce(Init(es));
      match e
      case Offer(_, _) =>
      case Answer(thread, room) => if thread in s.offers { SettleKeepsOnce(s, thread, room); }
      case Round(due, resetDue) => RoundConserves(s, due, resetDue);
      case Evict(_) =>
      case ResetHash =>
    }
  }

  lemma PlaySnoc(es: seq<Event>, e: Event)
    ensures Play(es + [e]) == Step(Play(es), e)
  {
    assert (es + [e])[..|es|] == es;
  }

  /** A reset during an offer lets a text in twice. */
  lemma ResetDuringOfferDuplicates(r: Rec)
    ensures var s := Play([] + [Offer(1, r)] + [ResetHash] + [Offer(2, r)] + [Answer(2, true)] + [Answer(1, true)]);
            s.atReset == 0 && s.accepted == [r, r]
  {
    var e1 := [] + [Offer(1, r)];
    var e2 := e1 + [ResetHash];
    var e3 := e2 + [Offer(2, r)];
    var e4 := e3 + [Answer(2, true)];
    PlaySnoc([], Offer(1, r));
    PlaySnoc(e1, ResetHash);
    PlaySnoc(e2, Offer(2, r));
    PlaySnoc(e3, Answer(2, true));
    PlaySnoc(e4, Answer(1, true));
  }

  /** An eviction lets a text in twice. */
  lemma EvictionDuplicates(r: Rec)
    ensures var s := Play([] + [Offer(1, r)] + [Answer(1, true)] + [Evict({KeyOf(r)})] + [Offer(2, r)] + [Answer(2, true)]);
            s.atReset == 0 && s.accepted == [r, r]
  {
    var e1 := [] + [Offer(1, r)];
    var e2 := e1 + [Answer(1, true)];
    var e3 := e2 + [Evict({KeyOf(r)})];
    var e4 := e3 + [Offer(2, r)];
    PlaySnoc([], Offer(1, r));
    PlaySnoc(e1, Answer(1, true));
    PlaySnoc(e2, Evict({KeyOf(r)}));
    PlaySnoc(e3, Offer(2, r));
    PlaySnoc(e4, Answer(2, true));
  }

  /** No text has been accepted twice since the last reset. */
  predicate DistinctSince(s: State) {
    s.atReset <= |s.accepted|
    && forall j, k :: s.atReset <= j < k < |s.accepted| ==> KeyOf(s.accepted[j]) != KeyOf(s.accepted[k])
  }

  /** The queue takes a text that it has accepted before since the last reset. */
  predicate Repeats(s: State, e: Event) {
    e.Answer? && e.room && e.thread in s.offers && AcceptedSince(s, KeyOf(s.offers[e.thread]))
  }

  /** No such answer since the last reset. */
  predicate Clean(es: seq<Event>) {
    es == [] || Resets(Last(es)) || (Clean(Init(es)) && !Repeats(Play(Init(es)), Last(es)))
  }

  lemma AcceptOne(s: State, thread: int)
    requires thread in s.offers && s.atReset <= |s.accepted|
    ensures DistinctSince(Settle(s, thread, true)) <==>
            DistinctSince(s) && !AcceptedSince(s, KeyOf(s.offers[thread]))
  {
    var s', r := Settle(s, thread, true), s.offers[thread];
    assert s'.accepted[|s.accepted|] == r;
    assert forall k :: 0 <= k < |s.accepted| ==> s'.accepted[k] == s.accepted[k];
  }

  /** The exact condition, over any run: texts are accepted twice if and only if, since the last reset, the
      queue has taken one that it had already accepted. */
  lemma {:induction false} DistinctExactlyIfClean(es: seq<Event>)
    ensures Play(es).atReset <= |Play(es).accepted|
    ensures DistinctSince(Play(es)) <==> Clean(es)
    decreases |es|
  {
    if es != [] {
      var s, e := Play(Init(es)), Last(es);
      DistinctExactlyIfClean(Init(es));
      match e
      case Answer(thread, room) => if room && thread in s.offers { AcceptOne(s, thread); }
      case Round(due, resetDue) => RoundConserves(s, due, resetDue);
      case _ =>
    }
  }

  /** The fate of an offer that nothing comes between: a text whose key is cached is dropped; any other one is
      taken and cached, or refused and forgotten. */
  lemma OfferedText(s: State, thread: int, r: Rec, room: bool)
    requires thread !in s.offers
    ensures var s' := Settle(Begin(s, thread, r), thread, room);
            && (KeyOf(r) in s.cache ==> s' == s)
            && (KeyOf(r) !in s.cache && room ==>
                  s' == s.(cache := s.cache + {KeyOf(r)}, queue := s.queue + [r], accepted := s.accepted + [r]))
            && (KeyOf(r) !in s.cache && !room ==> s' == s)
  {
    if KeyOf(r) !in s.cache {
      assert s.offers[thread := r] - {thread} == s.offers;
      assert s.cache + {KeyOf(r)} - {KeyOf(r)} == s.cache;
    }
  }

  /** Two texts count as the same if they have the same hash and the same type, or both an unnamed one. */
  lemma SameKey(a: Rec, b: Rec)
    ensures KeyOf(a) == KeyOf(b) <==> a.hash == b.hash && (a.div == b.div || (a.div.Other? && b.div.Other?))
  {
  }

  function Length(rs: seq<Rec>): nat { if rs == [] then 0 else Length(Init(rs)) + |Last(rs).text| }

  /** The buffer is below its limit, and nothing was sent that holds no text. */
  predicate BufferOk(s: State) {
    s.buffered == Length(s.buffer) < BUFFERED_MAX && forall k :: 0 <= k < |s.sent| ==> Length(s.sent[k]) > 0
  }

  lemma BufferedMore(s: State)
    requires BufferOk(s) && s.queue != []
    ensures Length(s.buffer + [s.queue[0]]) == s.buffered + |s.queue[0].text|
  {
    assert Init(s.buffer + [s.queue[0]]) == s.buffer;
  }

  lemma SendKeepsBuffer(s: State)
    requires s.buffered == Length(s.buffer) > 0 && forall k :: 0 <= k < |s.sent| ==> Length(s.sent[k]) > 0
    ensures BufferOk(Send(s)) && Send(s).buffered == 0
  {
    assert Length([]) == 0;
  }

  lemma TakeKeepsBuffer(s: State)
    requires BufferOk(s)
    ensures BufferOk(Take(s))
  {
    if s.queue != [] {
      BufferedMore(s);
      var s1 := s.(queue := s.queue[1..], buffer := s.buffer + [s.queue[0]], buffered := s.buffered + |s.queue[0].text|);
      if s1.buffered >= BUFFERED_MAX {
        SendKeepsBuffer(s1);
      }
    }
  }

  lemma SendIfKeepsBuffer(s: State, when: bool)
    requires BufferOk(s)
    ensures BufferOk(SendIf(s, when)) && (when ==> SendIf(s, when).buffered == 0)
  {
    if when && s.buffered > 0 {
      SendKeepsBuffer(s);
    }
  }

  lemma RoundKeepsBuffer(s: State, due: bool, resetDue: bool)
    requires BufferOk(s)
    ensures var s' := Process(s, due, resetDue); BufferOk(s') && (due || resetDue ==> s'.buffered == 0)
  {
    TakeKeepsBuffer(s);
    SendIfKeepsBuffer(Take(s), due);
    SendIfKeepsBuffer(SendIf(Take(s), due), true);
  }

  /** Over any run. */
  lemma {:induction false} BufferStaysBelow(es: seq<Event>)
    ensures BufferOk(Play(es))
    decreases |es|
  {
    if es == [] {
      assert Length([]) == 0;
    } else {
      BufferStaysBelow(Init(es));
      if Last(es).Round? {
        RoundKeepsBuffer(Play(Init(es)), Last(es).due, Last(es).resetDue);
      }
    }
  }

  /** One round moves one text on.  When it is due, or a reset is, nothing waits behind it but empty texts; and a
      reset forgets what was cached. */
  lemma RoundMovesOn(s: State, due: bool, resetDue: bool)
    requires BufferOk(s)
    ensures var s' := Process(s, due, resetDue);
            && s'.queue == (if s.queue == [] then [] else s.queue[1..])
            && (due || resetDue ==> s'.buffered == 0 && Length(s'.buffer) == 0)
            && (resetDue ==> s'.cache == {} && s'.atReset == |s'.accepted|)
            && (!resetDue ==> s'.cache == s.cache && s'.atReset == s.atReset)
            && (!due && !resetDue && s.queue == [] ==> s' == s)
  {
    RoundKeepsBuffer(s, due, resetDue);
  }

  function Rounds(n: nat): seq<Event> { if n == 0 then [] else Rounds(n - 1) + [Round(true, false)] }

  /** Every text is sent in the end: so many due rounds as there are texts in the queue empty it, and whatever is
      not sent then is empty. */
  lemma {:induction false} QueueDrains(es: seq<Event>, n: nat)
    requires n <= |Play(es).queue|
    ensures var s, s' := Play(es), Play(es + Rounds(n));
            s'.queue == s.queue[n..] && s'.accepted == s.accepted && (n > 0 ==> Length(s'.buffer) == 0)
  {
    if n == 0 {
      assert es + Rounds(0) == es;
    } else {
      QueueDrains(es, n - 1);
      var before := es + Rounds(n - 1);
      assert es + Rounds(n) == before + [Round(true, false)];
      PlaySnoc(before, Round(true, false));
      BufferStaysBelow(before);
      RoundMovesOn(Play(before), true, false);
      RoundConserves(Play(before), true, false);
    }
  }

  class DataText {
    var caches: set<Key>
    var textQueue: seq<Rec>
    var bufferPack: seq<Rec>
    var bufferedLength: nat
    var packs: seq<seq<Rec>>
    ghost var offers: map<int, Rec>
    ghost var accepted: seq<Rec>
    ghost var atReset: nat

    ghost function View(): State
      reads this
    {
      State(caches, offers, textQueue, bufferPack, bufferedLength, packs, accepted, atReset)
    }

    constructor ()
      ensures View() == NEW
    {
      caches, textQueue, bufferPack, bufferedLength, packs := {}, [], [], 0, [];
      offers, accepted, atReset := map[], [], 0;
    }

    method AddHashText(r: Rec, room: bool) returns (ok: bool)
      modifies this`textQueue, this`accepted
      ensures ok == room
      ensures textQueue == old(textQueue) + (if room then [r] else []) && accepted == old(accepted) + (if room then [r] else [])
    {
      if room {
        textQueue, accepted := textQueue + [r], accepted + [r];
      }
      ok := room;
    }

    /** One thread offers a text with nothing in between. */
    method OfferText(ghost thread: int, r: Rec, room: bool)
      requires thread !in offers
      modifies this`caches, this`textQueue, this`accepted
      ensures View() == Settle(Begin(old(View()), thread, r), thread, room)
    {
      var key := KeyOf(r);
      if key in caches {
        return;
      }
      caches := caches + {key};
      var ok := AddHashText(r, room);
      if !ok {
        caches := caches - {key};
      }
      assert offers[thread := r] - {thread} == offers;
    }

    method SendPack()
      modifies this
      ensures View() == Send(old(View()))
    {
      packs := packs + [bufferPack];
      bufferPack := [];
      bufferedLength := 0;
    }

    method ResetCaches()
      modifies this
      ensures View() == Reset(old(View()))
    {
      caches := {};
      atReset := |accepted|;
    }

    method ProcessOnce(due: bool, resetDue: bool)
      modifies this
      ensures View() == Process(old(View()), due, resetDue)
    {
      TakeOne();
      if due && bufferedLength > 0 {
        SendPack();
      }
      if resetDue {
        if bufferedLength > 0 {
          SendPack();
        }
        ResetCaches();
      }
    }

    method TakeOne()
      modifies this
      ensures View() == Take(old(View()))
    {
      if textQueue != [] {
        var r := textQueue[0];
        textQueue := textQueue[1..];
        bufferPack := bufferPack + [r];
        bufferedLength := bufferedLength + |r.text|;
        if bufferedLength >= BUFFERED_MAX {
          SendPack();
        }
      }
    }
  }
}

/** Zip batching (agent/agent/data/ZipPackThread.go): packs are collected and handed on as one, when there are
    enough bytes, when the oldest has waited long enough, or when nothing more comes. */
module ZipBatching {
  import opened Common

  /** A pack with the size of its serialised form, which is never empty. */
  datatype Pack = Pack(id: int, time: int, size: nat)

  datatype Conf = Conf(maxBufferSize: nat, maxWaitTime: int)

  /** A batch as it is handed on: the record count and the packs whose bytes it holds. */
  datatype Batch = Batch(recordCount: int, packs: seq<Pack>)

  /** `taken` is history: the packs that the queue accepted. */
  datatype State = State(queue: seq<Pack>, buffer: seq<Pack>, packCount: int, firstTime: int,
                         batches: seq<Batch>, direct: seq<Pack>, taken: seq<Pack>)

  const NEW := State([], [], 0, 0, [], [], [])

  function Bytes(ps: seq<Pack>): nat { if ps == [] then 0 else Bytes(Init(ps)) + Last(ps).size }

  /** A full queue makes a pack go out by itself. */
  function Add(s: State, p: Pack, room: bool): State {
    if room then s.(queue := s.queue + [p], taken := s.taken + [p]) else s.(direct := s.direct + [p])
  }

  function SendAndClear(s: State): State {
    if Bytes(s.buffer) == 0 then s
    else s.(batches := s.batches + [Batch(s.packCount, s.buffer)], buffer := [], packCount := 0, firstTime := 0)
  }

  function Append(conf: Conf, s: State, p: Pack): State {
    var s1 := s.(buffer := s.buffer + [p], packCount := s.packCount + 1);
    if s.firstTime == 0 then
      var s2 := s1.(firstTime := p.time);
      if Bytes(s2.buffer) >= conf.maxBufferSize then SendAndClear(s2) else s2
    else if Bytes(s1.buffer) >= conf.maxBufferSize || p.time - s1.firstTime >= conf.maxWaitTime then SendAndClear(s1)
    else s1
  }

  /** One round of the thread: the next pack, or, after a quiet time, whatever is there. */
  function Round(conf: Conf, s: State): State {
    if s.queue == [] then SendAndClear(s) else Append(conf, s.(queue := s.queue[1..]), s.queue[0])
  }

  datatype Event = Offer(pack: Pack, room: bool) | Tick

  function Step(conf: Conf, s: State, e: Event): State {
    if e.Offer? then Add(s, e.pack, e.room) else Round(conf, s)
  }

  function Play(conf: Conf, es: seq<Event>): State {
    if es == [] then NEW else Step(conf, Play(conf, Init(es)), Last(es))
  }

  function Offered(es: seq<Event>): seq<Pack> {
    if es == [] then []
    else
      var e := Last(es);
      Offered(Init(es)) + if e.Offer? then [e.pack] else []
  }

  function Unpacked(bs: seq<Batch>): seq<Pack> {
    if bs == [] then [] else Unpacked(Init(bs)) + Last(bs).packs
  }

  predicate SizesOk(ps: seq<Pack>) { forall k :: 0 <= k < |ps| ==> ps[k].size > 0 }

  lemma BytesPositive(ps: seq<Pack>)
    requires SizesOk(ps)
    ensures Bytes(ps) == 0 <==> ps == []
  {
  }

  /** What every step keeps. */
  predicate Inv(conf: Conf, s: State) {
    Conserved(s) && (s.buffer != [] ==> Bytes(s.buffer) < conf.maxBufferSize)
  }

  predicate Conserved(s: State) {
    && s.taken == Unpacked(s.batches) + (s.buffer + s.queue)
    && s.packCount == |s.buffer|
    && (forall k :: 0 <= k < |s.batches| ==> s.batches[k].recordCount == |s.batches[k].packs| > 0)
    && SizesOk(s.buffer) && SizesOk(s.queue)
  }

  lemma ClearKeeps(conf: Conf, s: State)
    requires Conserved(s)
    ensures Inv(conf, SendAndClear(s))
  {
    BytesPositive(s.buffer);
    var b := Batch(s.packCount, s.buffer);
    assert (s.batches + [b])[..|s.batches|] == s.batches;
    assert Unpacked(s.batches) + s.buffer + ([] + s.queue) == Unpacked(s.batches) + (s.buffer + s.queue);
  }

  /** The state with the next pack moved from the queue to the buffer. */
  function Moved(s: State): State
    requires s.queue != []
  {
    s.(queue := s.queue[1..], buffer := s.buffer + [s.queue[0]], packCount := s.packCount + 1)
  }

  lemma MoveKeeps(conf: Conf, s: State)
    requires Inv(conf, s) && s.queue != []
    ensures Conserved(Moved(s))
  {
    assert s.buffer + [s.queue[0]] + s.queue[1..] == s.buffer + s.queue;
  }

  lemma RoundKeeps(conf: Conf, s: State)
    requires Inv(conf, s)
    ensures Inv(conf, Round(conf, s))
  {
    if s.queue == [] {
      ClearKeeps(conf, s);
    } else {
      var p := s.queue[0];
      var s1 := if s.firstTime == 0 then Moved(s).(firstTime := p.time) else Moved(s);
      MoveKeeps(conf, s);
      var full := Bytes(s1.buffer) >= conf.maxBufferSize
                  || (s.firstTime != 0 && p.time - s.firstTime >= conf.maxWaitTime);
      if full {
        ClearKeeps(conf, s1);
        assert Round(conf, s) == SendAndClear(s1);
      } else {
        assert Round(conf, s) == s1;
      }
    }
  }

  lemma OfferKeeps(conf: Conf, s: State, p: Pack, room: bool)
    requires Inv(conf, s) && p.size > 0
    ensures Inv(conf, Add(s, p, room))
  {
    assert Unpacked(s.batches) + (s.buffer + (s.queue + [p])) == Unpacked(s.batches) + (s.buffer + s.queue) + [p];
  }

  lemma RoundHistory(conf: Conf, s: State)
    ensures Round(conf, s).taken == s.taken && Round(conf, s).direct == s.direct
  {
  }

  /** Over any run: the packs that the queue took are, in order, those in the batches, the buffer and the
      queue; every batch counts its records; and the buffer stays below its maximum. */
  lemma {:induction false} PacksAreConserved(conf: Conf, es: seq<Event>)
    requires forall k :: 0 <= k < |es| && es[k].Offer? ==> es[k].pack.size > 0
    ensures Inv(conf, Play(conf, es))
    decreases |es|
  {
    if es != [] {
      var s, e := Play(conf, Init(es)), Last(es);
      PacksAreConserved(conf, Init(es));
      if e.Offer? {
        OfferKeeps(conf, s, e.pack, e.room);
      } else {
        RoundKeeps(conf, s);
      }
    }
  }

  /** The packs that found room in the queue, or those that did not. */
  function Admitted(es: seq<Event>, room: bool): seq<Pack> {
    if es == [] then []
    else
      var e := Last(es);
      Admitted(Init(es), room) + if e.Offer? && e.room == room then [e.pack] else []
  }

  /** A pack is taken if and only if there is room, and goes out by itself otherwise; nothing is missing and
      nothing is there twice. */
  lemma {:induction false} EveryPackIsSomewhere(conf: Conf, es: seq<Event>)
    ensures var s := Play(conf, es);
            && s.taken == Admitted(es, true) && s.direct == Admitted(es, false)
            && multiset(s.taken) + multiset(s.direct) == multiset(Offered(es))
    decreases |es|
  {
    if es != [] {
      EveryPackIsSomewhere(conf, Init(es));
      RoundHistory(conf, Play(conf, Init(es)));
    }
  }

  predicate Dated(ps: seq<Pack>) { forall k :: 0 <= k < |ps| ==> ps[k].time != 0 }

  /** The waiting time counts from the oldest pack in the buffer, and none in it has waited too long. */
  predicate Waits(conf: Conf, s: State) {
    && Dated(s.buffer) && Dated(s.queue)
    && s.firstTime == (if s.buffer == [] then 0 else s.buffer[0].time)
    && forall k :: 1 <= k < |s.buffer| ==> s.buffer[k].time - s.buffer[0].time < conf.maxWaitTime
  }

  /** The pack makes the batch complete: enough bytes, or the first has waited long enough. */
  predicate Completes(conf: Conf, buffer: seq<Pack>, p: Pack) {
    || Bytes(buffer + [p]) >= conf.maxBufferSize
    || (buffer != [] && p.time - buffer[0].time >= conf.maxWaitTime)
  }

  /** A batch is handed on exactly when the next pack completes it or when none has come. */
  lemma RoundHandsOn(conf: Conf, s: State)
    requires Inv(conf, s) && Waits(conf, s)
    ensures var s' := Round(conf, s);
            && Waits(conf, s')
            && if s.queue == [] then s'.buffer == [] && s'.queue == [] && (s.buffer == [] ==> s' == s)
               else
                 && s'.queue == s.queue[1..]
                 && s'.buffer == (if Completes(conf, s.buffer, s.queue[0]) then [] else s.buffer + [s.queue[0]])
  {
    BytesPositive(s.buffer);
    if s.queue != [] {
      var more := s.buffer + [s.queue[0]];
      assert Init(more) == s.buffer && Last(more) == s.queue[0];
    }
  }

  /** Over any run of packs with sizes and dates. */
  lemma {:induction false} NoneWaitsTooLong(conf: Conf, es: seq<Event>)
    requires forall k :: 0 <= k < |es| && es[k].Offer? ==> es[k].pack.size > 0 && es[k].pack.time != 0
    ensures Waits(conf, Play(conf, es))
    decreases |es|
  {
    if es != [] {
      NoneWaitsTooLong(conf, Init(es));
      PacksAreConserved(conf, Init(es));
      if Last(es).Tick? {
        RoundHandsOn(conf, Play(conf, Init(es)));
      } else {
        assert es[|es| - 1].pack.time != 0;
      }
    }
  }

  class ZipPackThread {
    const conf: Conf
    var queue: seq<Pack>
    var buffer: seq<Pack>     // stands for the serialised bytes of these packs
    var packCount: int
    var firstTime: int
    var sent: seq<Batch>
    var direct: seq<Pack>
    ghost var taken: seq<Pack>

    ghost function View(): State
      reads this
    {
      State(queue, buffer, packCount, firstTime, sent, direct, taken)
    }

    constructor (conf: Conf)
      ensures this.conf == conf && View() == NEW
    {
      this.conf := conf;
      queue, buffer, packCount, firstTime, sent, direct, taken := [], [], 0, 0, [], [], [];
    }

    method AddPack(p: Pack, room: bool)
      modifies this
      ensures View() == Add(old(View()), p, room)
    {
      if room {
        queue, taken := queue + [p], taken + [p];
      } else {
        direct := direct + [p];
      }
    }

    method SendBuffer()
      modifies this
      ensures View() == SendAndClear(old(View()))
    {
      if Bytes(buffer) == 0 {
        return;
      }
      sent := sent + [Batch(packCount, buffer)];
      buffer := [];
      firstTime := 0;
      packCount := 0;
    }

    method AppendPack(p: Pack)
      modifies this
      ensures View() == Append(conf, old(View()), p)
    {
      buffer := buffer + [p];
      packCount := packCount + 1;
      if firstTime == 0 {
        firstTime := p.time;
        if Bytes(buffer) >= conf.maxBufferSize {
          SendBuffer();
        }
      } else {
        if Bytes(buffer) >= conf.maxBufferSize || p.time - firstTime >= conf.maxWaitTime {
          SendBuffer();
        }
      }
    }

    method RunOnce()
      modifies this
      ensures View() == Round(conf, old(View()))
    {
      if queue != [] {
        var p := queue[0];
        queue := queue[1..];
        AppendPack(p);
      } else {
        SendBuffer();
      }
    }
  }
}
