/** The TCP sender with failover (agent/net/Sender.go, agent/net/TcpSession.go) as a protocol of steps.

    A pack is taken from the send queue, put into its wire form under the session's key, remembered in the
    bounded retry queue, written to a buffered writer and flushed now or later; a flush empties the retry
    queue.  The connection may die at any point, and opening a new one agrees on a new key and replays the
    retry queue.  What the network does is part of each event.  `Open` and `Send` are atomic steps;
    everything between them may interleave. */
module Failover {
  import opened Common

  const RETRY_CAPACITY := 256

  datatype Pack = Pack(id: int, flag: nat, flush: bool)

  /** The bytes of a pack on the wire, in clear or under a session key. */
  datatype Payload = Plain(pack: Pack) | Hidden(pack: Pack, key: int) | Encrypted(pack: Pack, key: int) | Empty

  datatype Frame = TimeSync | Data(flag: nat, payload: Payload)

  /** The two low bits of the flag: 1 hides, 2 encrypts. */
  function SecureMask(flag: nat): nat { flag % 4 }

  /** The payload of a first transmission. */
  function FirstPayload(level: nat, key: Option<int>, p: Pack): Payload {
    if level == 0 || key.None? then Plain(p)
    else if SecureMask(p.flag) == 1 then Hidden(p, key.value)
    else if SecureMask(p.flag) == 2 then Encrypted(p, key.value)
    else Plain(p)
  }

  /** The payload of a replay.  With encryption on and neither bit alone set, the source assigns the
      bytes to a variable that goes out of scope, and replays nothing. */
  function ReplayPayload(level: nat, key: Option<int>, p: Pack): Payload {
    if level == 0 then Plain(p)
    else if SecureMask(p.flag) == 1 then (if key.Some? then Hidden(p, key.value) else Plain(p))
    else if SecureMask(p.flag) == 2 then (if key.Some? then Encrypted(p, key.value) else Plain(p))
    else Empty
  }

  predicate Replayable(level: nat, p: Pack) { level == 0 || SecureMask(p.flag) in {1, 2} }

  /** The other end, which goes by the flag that came with the payload, reads the pack out of it: under a key it
      takes bit 1 alone for hiding and bit 2 alone for encryption, and everything else for plain bytes. */
  predicate Carries(level: nat, key: Option<int>, flag: nat, b: Payload, p: Pack) {
    var low, high := flag % 2 == 1, flag / 2 % 2 == 1;
    if level > 0 && key.Some? && low && !high then b == Hidden(p, key.value)
    else if level > 0 && key.Some? && high && !low then b == Encrypted(p, key.value)
    else b == Plain(p)
  }

  /** A replay carries the pack exactly for these flags, and then carries what was first sent. */
  lemma ReplayCarriesPack(level: nat, key: Option<int>, p: Pack)
    ensures Replayable(level, p) <==> Carries(level, key, p.flag, ReplayPayload(level, key, p), p)
    ensures Replayable(level, p) <==> ReplayPayload(level, key, p) == FirstPayload(level, key, p)
    ensures Carries(level, key, p.flag, FirstPayload(level, key, p), p)
  {
  }

  /** What the other end reads out of one frame. */
  function Content(level: nat, key: Option<int>, f: Frame): seq<Pack> {
    if f.Data? && !f.payload.Empty? && Carries(level, key, f.flag, f.payload, f.payload.pack) then [f.payload.pack] else []
  }

  /** The packs that a stream of frames delivers on a connection with this key. */
  function Carried(level: nat, key: Option<int>, fs: seq<Frame>): seq<Pack> {
    if fs == [] then [] else Carried(level, key, Init(fs)) + Content(level, key, Last(fs))
  }

  lemma CarriedSnoc(level: nat, key: Option<int>, fs: seq<Frame>, f: Frame)
    ensures Carried(level, key, fs + [f]) == Carried(level, key, fs) + Content(level, key, f)
  {
    assert Init(fs + [f]) == fs;
  }

  /** The network's part in one `Send`. */
  datatype SendOutcome = DeadlineFails | WriteFails | FlushFails | Sent

  datatype Event =
    | Dequeue(pack: Pack)
    | SendTimeSync(outcome: SendOutcome)
    | LevelChanged
    | Encode
    | Remember
    | Transmit(outcome: SendOutcome)
    | Disconnect
    | Open(key: Option<int>, written: nat, flushed: bool)  // how many replayed frames were written

  datatype Phase = Idle | Taken(pack: Pack) | Encoded(pack: Pack, payload: Payload) | Remembered(pack: Pack, payload: Payload)

  /** A client exists or not; a broken writer has failed, and fails from then on; the key was agreed on by
      the last opening; the frames wait for a flush; and setting the write deadline has failed on this
      connection or not. */
  datatype Net = Net(connected: bool, broken: bool, key: Option<int>, buffered: seq<Frame>, deadlineFailed: bool)

  /** History: the packs read out of flushed streams, all packs that left the retry queue by being emptied,
      and those remembered since it was last emptied. */
  datatype Hist = Hist(delivered: seq<Pack>, done: seq<Pack>, since: seq<Pack>)

  datatype State = State(net: Net, retry: seq<Pack>, phase: Phase, hist: Hist)

  const INIT := State(Net(false, false, None, [], false), [], Idle, Hist([], [], []))

  function PutForce(q: seq<Pack>, p: Pack): seq<Pack> {
    (if |q| >= RETRY_CAPACITY then q[|q| - RETRY_CAPACITY + 1..] else q) + [p]
  }

  function Close(n: Net): Net { n.(connected := false) }

  /** The retry queue is emptied, `more` having been delivered just before. */
  function Emptied(h: Hist, more: seq<Pack>): Hist { Hist(h.delivered + more, h.done + h.since, []) }

  /** Everything buffered has reached the other end; the retry queue is emptied. */
  function Flushed(level: nat, s: State): State {
    State(s.net.(buffered := []), [], s.phase, Emptied(s.hist, Carried(level, s.net.key, s.net.buffered)))
  }

  /** The state after a frame has been written to the buffer. */
  function Wrote(s: State, f: Frame): State { s.(net := s.net.(buffered := s.net.buffered + [f])) }

  function Send(level: nat, s: State, f: Frame, flush: bool, o: SendOutcome): State {
    if !s.net.connected then s
    else if o == DeadlineFails then s.(net := s.net.(deadlineFailed := true))
    else if s.net.broken || o == WriteFails then s.(net := Close(s.net.(broken := true)))
    else if !flush then Wrote(s, f)
    else if o == FlushFails then Wrote(s, f).(net := Close(Wrote(s, f).net.(broken := true)))
    else Flushed(level, Wrote(s, f))
  }

  function ReplayFrames(level: nat, key: Option<int>, q: seq<Pack>): (fs: seq<Frame>)
    ensures |fs| == |q|
  {
    if q == [] then []
    else ReplayFrames(level, key, Init(q)) + [Data(Last(q).flag, ReplayPayload(level, key, Last(q)))]
  }

  /** Opens a connection: a new key, a new writer, a replay of the retry queue whose failure is ignored, and
      an empty retry queue. */
  function Opened(level: nat, s: State, key: Option<int>, written: nat, flushOk: bool): State {
    if s.net.connected then s
    else
      var frames := ReplayFrames(level, key, s.retry);
      if s.retry == [] then State(Net(true, false, key, [], false), [], s.phase, Emptied(s.hist, []))
      else if written >= |frames| && flushOk then
        State(Net(true, false, key, [], false), [], s.phase, Emptied(s.hist, Carried(level, key, frames)))
      else
        var wr := if written < |frames| then frames[..written] else frames;
        State(Net(true, true, key, wr, false), [], s.phase, Emptied(s.hist, []))
  }

  /** One event.  An event that the sender's phase does not allow changes nothing. */
  function Next(level: nat, s: State, e: Event): State {
    match e
    case Dequeue(p) => if s.phase == Idle then s.(phase := Taken(p)) else s
    case SendTimeSync(o) => if s.phase.Taken? then Send(level, s, TimeSync, true, o) else s
    case LevelChanged => if s.phase.Taken? then s.(phase := Idle, net := Close(s.net)) else s
    case Encode =>
      if s.phase.Taken? then s.(phase := Encoded(s.phase.pack, FirstPayload(level, s.net.key, s.phase.pack))) else s
    case Remember =>
      if s.phase.Encoded? then
        s.(phase := Remembered(s.phase.pack, s.phase.payload), retry := PutForce(s.retry, s.phase.pack),
           hist := s.hist.(since := s.hist.since + [s.phase.pack]))
      else s
    case Transmit(o) =>
      if s.phase.Remembered? then
        Send(level, s.(phase := Idle), Data(s.phase.pack.flag, s.phase.payload), s.phase.pack.flush, o)
      else s
    case Disconnect => s.(net := Close(s.net))
    case Open(key, written, flushOk) => Opened(level, s, key, written, flushOk)
  }

  /** A run from the start: where it ends, the packs it took from the send queue, and whether everything
      assumed below held all along. */
  datatype Outcome = Outcome(state: State, dequeued: seq<Pack>, assumed: bool)

  function Then(level: nat, o: Outcome, e: Event): Outcome {
    Outcome(Next(level, o.state, e), o.dequeued + Taking(o.state, e), o.assumed && Assumed(level, o.state, e))
  }

  function Taking(s: State, e: Event): seq<Pack> { if e.Dequeue? && s.phase == Idle then [e.pack] else [] }

  function Play(level: nat, es: seq<Event>): Outcome {
    if es == [] then Outcome(INIT, [], true) else Then(level, Play(level, Init(es)), Last(es))
  }

  lemma PlaySnoc(level: nat, es: seq<Event>, e: Event)
    ensures Play(level, es + [e]) == Then(level, Play(level, es), e)
  {
    assert Init(es + [e]) == es;
  }

  // ---------------------------------------------------------------------------------------------
  // The retry queue.

  lemma PutForceKeepsTheLast(q: seq<Pack>, p: Pack)
    ensures PutForce(LastOf(q, RETRY_CAPACITY), p) == LastOf(q + [p], RETRY_CAPACITY)
  {
  }

  lemma StepKeepsTheLast(level: nat, s: State, e: Event)
    requires s.retry == LastOf(s.hist.since, RETRY_CAPACITY)
    ensures var s' := Next(level, s, e); s'.retry == LastOf(s'.hist.since, RETRY_CAPACITY)
  {
    if e.Remember? && s.phase.Encoded? {
      PutForceKeepsTheLast(s.hist.since, s.phase.pack);
    }
  }

  /** The retry queue always holds the last 256 packs remembered since it was emptied, in any run at all. */
  lemma {:induction false} RetryHoldsTheLast(level: nat, es: seq<Event>)
    ensures var s := Play(level, es).state; s.retry == LastOf(s.hist.since, RETRY_CAPACITY)
    decreases |es|
  {
    if es != [] {
      RetryHoldsTheLast(level, Init(es));
      StepKeepsTheLast(level, Play(level, Init(es)).state, Last(es));
    }
  }

  // ---------------------------------------------------------------------------------------------
  // At least once.

  /** `a` can be read off `b` by leaving out elements. */
  predicate Sub<T(==)>(a: seq<T>, b: seq<T>)
    decreases |b|
  {
    if a == [] then true
    else if b == [] then false
    else if Last(a) == Last(b) then Sub(Init(a), Init(b))
    else Sub(a, Init(b))
  }

  lemma {:induction false} SubInit<T>(a: seq<T>, b: seq<T>)
    requires Sub(a, b) && a != []
    ensures Sub(Init(a), b)
    decreases |b|
  {
    if Last(a) == Last(b) {
      SubInits(Init(a), b);
    } else {
      SubInit(a, Init(b));
      SubInits(Init(a), b);
    }
  }

  lemma {:induction false} SubInits<T>(a: seq<T>, b: seq<T>)
    requires b != [] && Sub(a, Init(b))
    ensures Sub(a, b)
    decreases |b|, 1
  {
    if a != [] && Last(a) == Last(b) {
      SubInit(a, Init(b));
    }
  }

  lemma SubSnoc<T>(a: seq<T>, b: seq<T>, x: T)
    requires Sub(a, b)
    ensures Sub(a, b + [x]) && Sub(a + [x], b + [x])
  {
    assert Init(a + [x]) == a && Init(b + [x]) == b;
    SubInits(a, b + [x]);
  }

  lemma {:induction false} SubConcat<T>(a: seq<T>, b: seq<T>, c: seq<T>, d: seq<T>)
    requires Sub(a, b) && Sub(c, d)
    ensures Sub(a + c, b + d)
    decreases |d|
  {
    if d == [] {
      assert a + c == a && b + d == b;
    } else {
      var x := Last(d);
      assert b + d == b + Init(d) + [x];
      if c == [] || Last(c) != x {
        SubConcat(a, b, c, Init(d));
        SubSnoc(a + c, b + Init(d), x);
      } else {
        SubConcat(a, b, Init(c), Init(d));
        SubSnoc(a + Init(c), b + Init(d), x);
        assert a + c == a + Init(c) + [x];
      }
    }
  }

  lemma {:induction false} SubRefl<T>(a: seq<T>)
    ensures Sub(a, a)
  {
    if a != [] {
      SubRefl(Init(a));
    }
  }

  lemma {:induction false} SubMember<T>(a: seq<T>, b: seq<T>, x: T)
    requires Sub(a, b) && x in a
    ensures x in b
    decreases |b|
  {
    if Last(a) != Last(b) {
      SubMember(a, Init(b), x);
    } else if x != Last(a) {
      SubMember(Init(a), Init(b), x);
    }
  }

  lemma {:induction false} SubPrefix<T>(a: seq<T>, b: seq<T>, n: nat)
    requires Sub(a, b) && n <= |a|
    ensures Sub(a[..n], b)
    decreases |a|
  {
    if n == |a| {
      assert a[..n] == a;
    } else {
      SubInit(a, b);
      SubPrefix(Init(a), b, n);
      assert Init(a)[..n] == a[..n];
    }
  }

  lemma ReplayedOne(level: nat, key: Option<int>, p: Pack)
    requires Replayable(level, p)
    ensures Content(level, key, Data(p.flag, ReplayPayload(level, key, p))) == [p]
  {
    ReplayCarriesPack(level, key, p);
  }

  lemma {:induction false} ReplayCarriesQueue(level: nat, key: Option<int>, q: seq<Pack>)
    requires forall i :: 0 <= i < |q| ==> Replayable(level, q[i])
    ensures Carried(level, key, ReplayFrames(level, key, q)) == q
  {
    if q == [] {
      assert Carried(level, key, []) == [];
    } else {
      var before, p := Init(q), q[|q| - 1];
      ReplayCarriesQueue(level, key, before);
      ReplayedOne(level, key, p);
      CarriedSnoc(level, key, ReplayFrames(level, key, before), Data(p.flag, ReplayPayload(level, key, p)));
      assert q == before + [p];
    }
  }

  /** What the guarantee asks of the network and the configuration in one event: the cypher level does
      not change, a connection whose write deadline could not be set delivers no later flush, a replay
      goes through, no more than 256 packs wait for it, and no opening changes the key of a pack that has
      its wire form but is not yet remembered. */
  predicate Assumed(level: nat, s: State, e: Event) {
    match e
    case LevelChanged => !s.phase.Taken?
    case Dequeue(p) => Replayable(level, p)
    case SendTimeSync(o) => s.net.deadlineFailed ==> o != Sent
    case Transmit(o) => s.net.deadlineFailed ==> o != Sent
    case Open(key, written, flushOk) =>
      !s.net.connected ==>
        && |s.hist.since| <= RETRY_CAPACITY && written >= |s.retry| && flushOk
        && (s.phase.Encoded? ==> Carries(level, key, s.phase.pack.flag, s.phase.payload, s.phase.pack))
    case _ => true
  }

  /** The packs still waiting for a flush that have already been handed to the writer. */
  function Waiting(s: State): seq<Pack> {
    if s.phase.Remembered? && s.hist.since != [] then Init(s.hist.since) else s.hist.since
  }

  predicate Working(s: State) { s.net.connected && !s.net.broken && !s.net.deadlineFailed }

  /** The pack in the sender's hand has a wire form that the connection can carry. */
  predicate HandOk(level: nat, s: State) {
    match s.phase
    case Idle => true
    case Taken(p) => Replayable(level, p)
    case Encoded(p, b) => Replayable(level, p) && Carries(level, s.net.key, p.flag, b, p)
    case Remembered(p, b) => s.hist.since != [] ==> Last(s.hist.since) == p && Carries(level, s.net.key, p.flag, b, p)
  }

  /** The protocol's invariant: everything emptied from the retry queue was delivered, in order; and on a
      working connection everything remembered is in the writer, except the pack being sent. */
  predicate Inv(level: nat, s: State) {
    && s.retry == LastOf(s.hist.since, RETRY_CAPACITY)
    && Sub(s.hist.done, s.hist.delivered)
    && (forall i :: 0 <= i < |s.hist.since| ==> Replayable(level, s.hist.since[i]))
    && HandOk(level, s)
    && (Working(s) ==> Sub(Waiting(s), Carried(level, s.net.key, s.net.buffered)))
  }

  lemma FlushIsSafe(level: nat, s: State)
    requires Inv(level, s) && Sub(s.hist.since, Carried(level, s.net.key, s.net.buffered)) && !s.phase.Remembered?
    ensures Inv(level, Flushed(level, s))
  {
    SubConcat(s.hist.done, s.hist.delivered, s.hist.since, Carried(level, s.net.key, s.net.buffered));
  }

  lemma TimeSyncCarriesNothing(level: nat, key: Option<int>, fs: seq<Frame>)
    ensures Carried(level, key, fs + [TimeSync]) == Carried(level, key, fs)
  {
    CarriedSnoc(level, key, fs, TimeSync);
    assert Carried(level, key, fs) + [] == Carried(level, key, fs);
  }

  lemma SubWithLast<T>(a: seq<T>, b: seq<T>)
    requires a != [] && Sub(Init(a), b)
    ensures Sub(a, b + [Last(a)])
  {
    var b' := b + [Last(a)];
    assert Init(b') == b && Last(b') == Last(a);
  }

  /** A frame that carries the last pack remembered covers it. */
  lemma WrittenIsCovered(level: nat, since: seq<Pack>, key: Option<int>, fs: seq<Frame>, f: Frame)
    requires since != [] && Sub(Init(since), Carried(level, key, fs)) && Content(level, key, f) == [Last(since)]
    ensures Sub(since, Carried(level, key, fs + [f]))
  {
    CarriedSnoc(level, key, fs, f);
    SubWithLast(since, Carried(level, key, fs));
  }

  /** A send of a frame that covers whatever of `since` is not yet in the writer. */
  lemma {:induction false} SendIsSafe(level: nat, s: State, f: Frame, flush: bool, o: SendOutcome)
    requires Inv(level, s.(net := Close(s.net))) && !s.phase.Remembered? && (s.net.deadlineFailed ==> o != Sent)
    requires Working(s) ==> Sub(s.hist.since, Carried(level, s.net.key, s.net.buffered + [f]))
    requires s.net.connected
    ensures Inv(level, Send(level, s, f, flush, o))
  {
    var s1 := Wrote(s, f);
    if o != DeadlineFails && !s.net.broken && o != WriteFails {
      assert Inv(level, s1);
      if flush && o != FlushFails {
        FlushIsSafe(level, s1);
      }
    }
  }

  lemma TimeSyncIsSafe(level: nat, s: State, o: SendOutcome)
    requires Inv(level, s) && s.phase.Taken? && (s.net.deadlineFailed ==> o != Sent)
    ensures Inv(level, Send(level, s, TimeSync, true, o))
  {
    TimeSyncCarriesNothing(level, s.net.key, s.net.buffered);
    if s.net.connected {
      SendIsSafe(level, s, TimeSync, true, o);
    }
  }

  lemma TransmitIsSafe(level: nat, s: State, o: SendOutcome)
    requires Inv(level, s) && s.phase.Remembered? && (s.net.deadlineFailed ==> o != Sent)
    ensures Inv(level, Next(level, s, Transmit(o)))
  {
    var f := Data(s.phase.pack.flag, s.phase.payload);
    var s1 := s.(phase := Idle);
    if Working(s) && s.hist.since != [] {
      WrittenIsCovered(level, s.hist.since, s.net.key, s.net.buffered, f);
    }
    assert Inv(level, s1.(net := Close(s1.net)));
    if s.net.connected {
      SendIsSafe(level, s1, f, s.phase.pack.flush, o);
    }
  }

  /** A replay that goes through delivers the whole retry queue, in order. */
  lemma ReplayedInFull(level: nat, s: State, key: Option<int>, written: nat)
    requires !s.net.connected && written >= |s.retry|
    requires forall i :: 0 <= i < |s.retry| ==> Replayable(level, s.retry[i])
    ensures Opened(level, s, key, written, true)
            == State(Net(true, false, key, [], false), [], s.phase, Emptied(s.hist, s.retry))
  {
    ReplayCarriesQueue(level, key, s.retry);
  }

  /** A replay that fails is ignored: nothing of it is delivered, the retry queue is empty all the same, and the
      connection stays up with a writer that has failed and holds what was written, so that the next send
      closes it. */
  lemma FailedReplayIsIgnored(level: nat, s: State, key: Option<int>, written: nat, flushOk: bool, f: Frame, o: SendOutcome)
    requires !s.net.connected && s.retry != [] && (written < |s.retry| || !flushOk) && o != DeadlineFails
    ensures var s1 := Opened(level, s, key, written, flushOk);
            && s1.net == Net(true, true, key, s1.net.buffered, false)
            && |s1.net.buffered| == (if written < |s.retry| then written else |s.retry|)
            && s1.retry == [] && s1.hist == Hist(s.hist.delivered, s.hist.done + s.hist.since, []) && s1.phase == s.phase
            && Send(level, s1, f, true, o) == s1.(net := Close(s1.net))
  {
  }

  lemma EmptiedIsCovered(h: Hist)
    requires Sub(h.done, h.delivered)
    ensures var h' := Emptied(h, h.since); Sub(h'.done, h'.delivered) && h'.since == []
  {
    SubRefl(h.since);
    SubConcat(h.done, h.delivered, h.since, h.since);
  }

  lemma OpenIsSafe(level: nat, s: State, e: Event)
    requires Inv(level, s) && e.Open? && Assumed(level, s, e)
    ensures Inv(level, Next(level, s, e))
  {
    if !s.net.connected {
      assert s.retry == s.hist.since;
      ReplayedInFull(level, s, e.key, e.written);
      EmptiedIsCovered(s.hist);
    }
  }

  lemma RememberIsSafe(level: nat, s: State)
    requires Inv(level, s) && s.phase.Encoded?
    ensures Inv(level, Next(level, s, Remember))
  {
    PutForceKeepsTheLast(s.hist.since, s.phase.pack);
    assert Init(s.hist.since + [s.phase.pack]) == s.hist.since;
  }

  lemma EncodeIsSafe(level: nat, s: State)
    requires Inv(level, s) && s.phase.Taken?
    ensures Inv(level, Next(level, s, Encode))
  {
    ReplayCarriesPack(level, s.net.key, s.phase.pack);
  }

  /** Every step keeps the invariant. */
  lemma StepKeepsInv(level: nat, s: State, e: Event)
    requires Inv(level, s) && Assumed(level, s, e)
    ensures Inv(level, Next(level, s, e))
  {
    match e
    case Dequeue(_) =>
    case SendTimeSync(o) => if s.phase.Taken? { TimeSyncIsSafe(level, s, o); }
    case LevelChanged =>
    case Encode => if s.phase.Taken? { EncodeIsSafe(level, s); }
    case Remember => if s.phase.Encoded? { RememberIsSafe(level, s); }
    case Transmit(o) => if s.phase.Remembered? { TransmitIsSafe(level, s, o); }
    case Disconnect =>
    case Open(_, _, _) => OpenIsSafe(level, s, e);
  }

  /** The pack taken and not yet remembered. */
  function Hand(s: State): seq<Pack> { if s.phase.Taken? || s.phase.Encoded? then [s.phase.pack] else [] }

  /** Dequeued packs are, in order: those emptied from the retry queue, those remembered since, and the one
      in hand. */
  predicate Accounted(s: State, dequeued: seq<Pack>) { dequeued == s.hist.done + s.hist.since + Hand(s) }

  lemma StepAccounts(level: nat, s: State, e: Event, dequeued: seq<Pack>)
    requires Accounted(s, dequeued) && Assumed(level, s, e)
    ensures Accounted(Next(level, s, e), dequeued + Taking(s, e))
  {
    assert dequeued + [] == dequeued;
    assert s.hist.done + s.hist.since + [] == s.hist.done + s.hist.since;
  }

  lemma {:induction false} RunKeepsInv(level: nat, es: seq<Event>)
    requires Play(level, es).assumed
    ensures Inv(level, Play(level, es).state) && Accounted(Play(level, es).state, Play(level, es).dequeued)
    decreases |es|
  {
    if es != [] {
      var o := Play(level, Init(es));
      RunKeepsInv(level, Init(es));
      StepKeepsInv(level, o.state, Last(es));
      StepAccounts(level, o.state, Last(es), o.dequeued);
    }
  }

  /** The pack has been delivered, waits in the retry queue, or is in the sender's hand. */
  predicate Safe(s: State, p: Pack) { p in s.hist.delivered || p in s.retry || p in Hand(s) }

  /** The guarantee over the real queue: the dequeued packs are, in order, those emptied from the retry
      queue, which were all delivered in order, those in the retry queue, and the one in hand. */
  predicate NoneLost(o: Outcome) {
    && o.dequeued == o.state.hist.done + o.state.retry + Hand(o.state)
    && Sub(o.state.hist.done, o.state.hist.delivered)
    && forall i :: 0 <= i < |o.dequeued| ==> Safe(o.state, o.dequeued[i])
  }

  /** At least once: after any run in which no more than 256 packs have been remembered since the retry
      queue was last emptied, every dequeued pack has been delivered, waits in the retry queue or is in
      hand. */
  lemma {:induction false} AtLeastOnce(level: nat, es: seq<Event>)
    requires Play(level, es).assumed && |Play(level, es).state.hist.since| <= RETRY_CAPACITY
    ensures NoneLost(Play(level, es))
  {
    RunKeepsInv(level, es);
    NoneIsLost(level, Play(level, es));
  }

  lemma NoneIsLost(level: nat, o: Outcome)
    requires Inv(level, o.state) && Accounted(o.state, o.dequeued) && |o.state.hist.since| <= RETRY_CAPACITY
    ensures NoneLost(o)
  {
    var s := o.state;
    forall i | 0 <= i < |o.dequeued| ensures Safe(s, o.dequeued[i]) {
      var p := o.dequeued[i];
      if p in s.hist.done {
        SubMember(s.hist.done, s.hist.delivered, p);
      }
    }
  }

  lemma SplitWaiting(done: seq<Pack>, since: seq<Pack>, hand: seq<Pack>, n: nat)
    requires n <= |since|
    ensures done + since + hand == done + since[..n] + since[n..] + hand
  {
    assert since == since[..n] + since[n..];
  }

  // ---------------------------------------------------------------------------------------------
  // The bound is exact.

  predicate Within(a: seq<Pack>, b: seq<Pack>) { forall i :: 0 <= i < |a| ==> a[i] in b }

  /** Packs that are or were in the retry queue. */
  function Ever(h: Hist): seq<Pack> { h.done + h.since }

  predicate Holds(b: Payload, p: Pack) { b.Empty? || b.pack == p }

  /** Where packs can have come to, whatever the network does: only packs that have left the retry queue are
      delivered, and only packs that are or were in it are written. */
  predicate Traceable(level: nat, s: State) {
    && Within(s.hist.delivered, s.hist.done)
    && Within(Carried(level, s.net.key, s.net.buffered), Ever(s.hist))
    && Within(s.retry, s.hist.since)
    && match s.phase
       case Encoded(p, b) => Holds(b, p)
       case Remembered(p, b) => Holds(b, p) && p in Ever(s.hist)
       case _ => true
  }

  lemma WithinMore(a: seq<Pack>, b: seq<Pack>, c: seq<Pack>)
    requires Within(a, b) && Within(b, c)
    ensures Within(a, c)
  {
  }

  lemma WithinConcat(a: seq<Pack>, b: seq<Pack>, c: seq<Pack>)
    requires Within(a, c) && Within(b, c)
    ensures Within(a + b, c)
  {
  }

  lemma WriteStaysTraceable(level: nat, s: State, f: Frame)
    requires Traceable(level, s) && (f.Data? && !f.payload.Empty? ==> f.payload.pack in Ever(s.hist))
    ensures Traceable(level, Wrote(s, f))
  {
    CarriedSnoc(level, s.net.key, s.net.buffered, f);
    WithinConcat(Carried(level, s.net.key, s.net.buffered), Content(level, s.net.key, f), Ever(s.hist));
  }

  /** Emptying the retry queue, `more` having been delivered, loses sight of nothing. */
  lemma EmptiedIsWithin(h: Hist, more: seq<Pack>)
    requires Within(h.delivered, h.done) && Within(more, Ever(h))
    ensures var h' := Emptied(h, more);
            Within(h'.delivered, h'.done) && Ever(h') == Ever(h)
  {
    WithinMore(h.delivered, h.done, Ever(h));
    WithinConcat(h.delivered, more, Ever(h));
    assert Ever(h) + [] == Ever(h);
  }

  lemma FlushStaysTraceable(level: nat, s: State)
    requires Traceable(level, s)
    ensures Traceable(level, Flushed(level, s))
  {
    EmptiedIsWithin(s.hist, Carried(level, s.net.key, s.net.buffered));
  }

  lemma SendStaysTraceable(level: nat, s: State, f: Frame, flush: bool, o: SendOutcome)
    requires Traceable(level, s) && (f.Data? && !f.payload.Empty? ==> f.payload.pack in Ever(s.hist))
    ensures Traceable(level, Send(level, s, f, flush, o))
  {
    WriteStaysTraceable(level, s, f);
    FlushStaysTraceable(level, Wrote(s, f));
  }

  lemma WithinSelf(a: seq<Pack>)
    ensures Within(a, a)
  {
  }

  lemma {:induction false} CarriedPrefix(level: nat, key: Option<int>, fs: seq<Frame>, n: nat)
    requires n <= |fs|
    ensures Within(Carried(level, key, fs[..n]), Carried(level, key, fs))
    decreases |fs|
  {
    if n == |fs| {
      assert fs[..n] == fs;
      WithinSelf(Carried(level, key, fs));
    } else {
      assert fs[..n] == Init(fs)[..n];
      CarriedPrefix(level, key, Init(fs), n);
      assert Within(Carried(level, key, Init(fs)), Carried(level, key, fs));
    }
  }

  /** A replay carries nothing but packs of the queue. */
  lemma {:induction false} ReplayWithin(level: nat, key: Option<int>, q: seq<Pack>)
    ensures Within(Carried(level, key, ReplayFrames(level, key, q)), q)
  {
    if q != [] {
      var p := Last(q);
      var f := Data(p.flag, ReplayPayload(level, key, p));
      ReplayWithin(level, key, Init(q));
      CarriedSnoc(level, key, ReplayFrames(level, key, Init(q)), f);
      WithinMore(Carried(level, key, ReplayFrames(level, key, Init(q))), Init(q), q);
      WithinConcat(Carried(level, key, ReplayFrames(level, key, Init(q))), Content(level, key, f), q);
    }
  }

  lemma OpenStaysTraceable(level: nat, s: State, key: Option<int>, written: nat, flushOk: bool)
    requires Traceable(level, s)
    ensures Traceable(level, Opened(level, s, key, written, flushOk))
  {
    if !s.net.connected {
      var frames := ReplayFrames(level, key, s.retry);
      var n := if written < |frames| then written else |frames|;
      ReplayWithin(level, key, s.retry);
      CarriedPrefix(level, key, frames, n);
      WithinMore(Carried(level, key, frames), s.retry, Ever(s.hist));
      WithinMore(Carried(level, key, frames[..n]), Carried(level, key, frames), Ever(s.hist));
      EmptiedIsWithin(s.hist, []);
      EmptiedIsWithin(s.hist, Carried(level, key, frames));
    }
  }

  lemma RememberStaysTraceable(level: nat, s: State)
    requires Traceable(level, s) && s.phase.Encoded?
    ensures Traceable(level, Next(level, s, Remember))
  {
    var s' := Next(level, s, Remember);
    assert Within(Ever(s.hist), Ever(s'.hist));
    WithinMore(Carried(level, s.net.key, s.net.buffered), Ever(s.hist), Ever(s'.hist));
  }

  lemma StepStaysTraceable(level: nat, s: State, e: Event)
    requires Traceable(level, s)
    ensures Traceable(level, Next(level, s, e))
  {
    match e
    case SendTimeSync(o) => if s.phase.Taken? { SendStaysTraceable(level, s, TimeSync, true, o); }
    case Remember => if s.phase.Encoded? { RememberStaysTraceable(level, s); }
    case Transmit(o) =>
      if s.phase.Remembered? {
        SendStaysTraceable(level, s.(phase := Idle), Data(s.phase.pack.flag, s.phase.payload), s.phase.pack.flush, o);
      }
    case Open(key, written, flushOk) => OpenStaysTraceable(level, s, key, written, flushOk);
    case _ =>
  }

  /** In any run at all. */
  lemma {:induction false} RunIsTraceable(level: nat, es: seq<Event>)
    ensures Traceable(level, Play(level, es).state)
    decreases |es|
  {
    if es != [] {
      RunIsTraceable(level, Init(es));
      StepStaysTraceable(level, Play(level, Init(es)).state, Last(es));
    }
  }

  /** Above 256: the oldest packs are in the writer, in order, as long as the connection works, and nowhere
      else: not delivered, not in the retry queue, not in hand. */
  predicate OldestOnlyInWriter(level: nat, s: State, dequeued: seq<Pack>)
    requires |s.hist.since| > RETRY_CAPACITY
  {
    var n := |s.hist.since| - RETRY_CAPACITY;
    && dequeued == s.hist.done + s.hist.since[..n] + s.retry + Hand(s)
    && Sub(s.hist.done, s.hist.delivered)
    && (Working(s) ==> Sub(s.hist.since[..n], Carried(level, s.net.key, s.net.buffered)))
    && (NoDuplicates(dequeued) ==> forall i :: 0 <= i < n ==> !Safe(s, s.hist.since[i]))
  }

  lemma AboveCapacity(level: nat, es: seq<Event>)
    requires Play(level, es).assumed && |Play(level, es).state.hist.since| > RETRY_CAPACITY
    ensures OldestOnlyInWriter(level, Play(level, es).state, Play(level, es).dequeued)
  {
    RunKeepsInv(level, es);
    RunIsTraceable(level, es);
    OldestAreThere(level, Play(level, es).state, Play(level, es).dequeued);
  }

  lemma OldestAreThere(level: nat, s: State, dequeued: seq<Pack>)
    requires Inv(level, s) && Accounted(s, dequeued) && Traceable(level, s) && |s.hist.since| > RETRY_CAPACITY
    ensures OldestOnlyInWriter(level, s, dequeued)
  {
    OldestAreWritten(level, s, dequeued);
    if NoDuplicates(dequeued) {
      forall i | 0 <= i < |s.hist.since| - RETRY_CAPACITY ensures !Safe(s, s.hist.since[i]) {
        OldestIsUnsafe(level, s, dequeued, i);
      }
    }
  }

  lemma OldestAreWritten(level: nat, s: State, dequeued: seq<Pack>)
    requires Inv(level, s) && Accounted(s, dequeued) && |s.hist.since| > RETRY_CAPACITY
    ensures var n := |s.hist.since| - RETRY_CAPACITY;
            && dequeued == s.hist.done + s.hist.since[..n] + s.retry + Hand(s)
            && (Working(s) ==> Sub(s.hist.since[..n], Carried(level, s.net.key, s.net.buffered)))
  {
    var n := |s.hist.since| - RETRY_CAPACITY;
    SplitWaiting(s.hist.done, s.hist.since, Hand(s), n);
    if Working(s) {
      SubPrefix(Waiting(s), Carried(level, s.net.key, s.net.buffered), n);
      assert Waiting(s)[..n] == s.hist.since[..n];
    }
  }

  /** One of several parts of a sequence without duplicates shares nothing with the others. */
  lemma Apart(done: seq<Pack>, since: seq<Pack>, hand: seq<Pack>, i: nat, n: nat)
    requires NoDuplicates(done + since + hand) && i < n <= |since|
    ensures since[i] !in done && since[i] !in since[n..] && since[i] !in hand
  {
    var all := done + since + hand;
    assert all[|done| + i] == since[i];
    forall j | 0 <= j < |done| ensures done[j] != since[i] {
      assert all[j] == done[j];
    }
    forall j | 0 <= j < |since| - n ensures since[n..][j] != since[i] {
      assert all[|done| + n + j] == since[n..][j];
    }
    forall j | 0 <= j < |hand| ensures hand[j] != since[i] {
      assert all[|done| + |since| + j] == hand[j];
    }
  }

  lemma OldestIsUnsafe(level: nat, s: State, dequeued: seq<Pack>, i: nat)
    requires Accounted(s, dequeued) && NoDuplicates(dequeued) && Traceable(level, s)
    requires s.retry == LastOf(s.hist.since, RETRY_CAPACITY) && i < |s.hist.since| - RETRY_CAPACITY
    ensures !Safe(s, s.hist.since[i])
  {
    Apart(s.hist.done, s.hist.since, Hand(s), i, |s.hist.since| - RETRY_CAPACITY);
  }

  /** The exact bound: among runs that meet the assumptions and take no pack twice, nothing is lost if and only
      if no more than 256 packs have been remembered since the retry queue was last emptied. */
  lemma AtLeastOnceExactly(level: nat, es: seq<Event>)
    requires Play(level, es).assumed && NoDuplicates(Play(level, es).dequeued)
    ensures NoneLost(Play(level, es)) <==> |Play(level, es).state.hist.since| <= RETRY_CAPACITY
  {
    var o := Play(level, es);
    if |o.state.hist.since| <= RETRY_CAPACITY {
      AtLeastOnce(level, es);
    } else {
      RunKeepsInv(level, es);
      RunIsTraceable(level, es);
      OldestIsUnsafe(level, o.state, o.dequeued, 0);
      assert o.dequeued[|o.state.hist.done|] == o.state.hist.since[0];
    }
  }

  /** Recovery: a send whose write or flush fails, or that meets a broken writer, closes the connection and
      leaves the retry queue alone, so that the next opening delivers all of it, in order. */
  lemma FailedSendIsReplayed(level: nat, s: State, o: SendOutcome, key: Option<int>)
    requires s.phase.Remembered? && s.net.connected && o != DeadlineFails
    requires s.net.broken || o == WriteFails || (s.phase.pack.flush && o == FlushFails)
    requires forall i :: 0 <= i < |s.retry| ==> Replayable(level, s.retry[i])
    ensures var s1 := Next(level, s, Transmit(o));
            var s2 := Next(level, s1, Open(key, |s.retry|, true));
            && !s1.net.connected && s1.retry == s.retry && s1.hist == s.hist && s1.phase == Idle
            && s2.hist.delivered == s.hist.delivered + s.retry && s2.retry == [] && Working(s2) && s2.net.key == key
  {
    ReplayedInFull(level, Next(level, s, Transmit(o)), key, |s.retry|);
  }

  // ---------------------------------------------------------------------------------------------
  // Exactly once while nothing fails.

  predicate Smooth(e: Event) {
    match e
    case SendTimeSync(o) => o == Sent
    case Transmit(o) => o == Sent
    case LevelChanged | Disconnect => false
    case _ => true
  }

  /** One connection, on which nothing fails. */
  predicate SmoothRun(es: seq<Event>) {
    es != [] && es[0].Open? && forall k :: 1 <= k < |es| ==> Smooth(es[k])
  }

  /** The pack taken and not yet written. */
  function Unwritten(s: State): seq<Pack> { if s.phase.Idle? then [] else [s.phase.pack] }

  /** Every pack taken has been delivered, waits in the writer or is in hand, once and in order. */
  predicate EachOnce(level: nat, s: State, dequeued: seq<Pack>) {
    && Working(s)
    && dequeued == s.hist.delivered + Carried(level, s.net.key, s.net.buffered) + Unwritten(s)
    && match s.phase
       case Encoded(p, b) => Carries(level, s.net.key, p.flag, b, p)
       case Remembered(p, b) => Carries(level, s.net.key, p.flag, b, p)
       case _ => true
  }

  lemma FlushKeepsEachOnce(level: nat, s: State, dequeued: seq<Pack>)
    requires EachOnce(level, s, dequeued)
    ensures EachOnce(level, Flushed(level, s), dequeued)
  {
    assert Carried(level, s.net.key, []) == [];
    assert s.hist.delivered + Carried(level, s.net.key, s.net.buffered) + [] + Unwritten(s) == dequeued;
  }

  lemma WriteKeepsEachOnce(level: nat, s: State, dequeued: seq<Pack>, f: Frame)
    requires EachOnce(level, s, dequeued)
    requires f == (if s.phase.Remembered? then Data(s.phase.pack.flag, s.phase.payload) else TimeSync)
    ensures EachOnce(level, Wrote(if s.phase.Remembered? then s.(phase := Idle) else s, f), dequeued)
  {
    var carried := Carried(level, s.net.key, s.net.buffered);
    CarriedSnoc(level, s.net.key, s.net.buffered, f);
    assert carried + [] == carried;
    Assoc(s.hist.delivered, carried, Unwritten(s));
    assert s.hist.delivered + (carried + Unwritten(s)) + [] == dequeued;
  }

  lemma SmoothSync(level: nat, s: State, dequeued: seq<Pack>)
    requires EachOnce(level, s, dequeued) && s.phase.Taken?
    ensures EachOnce(level, Send(level, s, TimeSync, true, Sent), dequeued)
  {
    WriteKeepsEachOnce(level, s, dequeued, TimeSync);
    FlushKeepsEachOnce(level, Wrote(s, TimeSync), dequeued);
  }

  lemma SmoothTransmit(level: nat, s: State, dequeued: seq<Pack>)
    requires EachOnce(level, s, dequeued) && s.phase.Remembered?
    ensures EachOnce(level, Next(level, s, Transmit(Sent)), dequeued)
  {
    var f := Data(s.phase.pack.flag, s.phase.payload);
    WriteKeepsEachOnce(level, s, dequeued, f);
    FlushKeepsEachOnce(level, Wrote(s.(phase := Idle), f), dequeued);
  }

  lemma SmoothDequeue(level: nat, s: State, dequeued: seq<Pack>, p: Pack)
    requires EachOnce(level, s, dequeued) && s.phase.Idle?
    ensures EachOnce(level, s.(phase := Taken(p)), dequeued + [p])
  {
    var written := s.hist.delivered + Carried(level, s.net.key, s.net.buffered);
    assert written + [] == written;
  }

  lemma SmoothStep(level: nat, s: State, dequeued: seq<Pack>, e: Event)
    requires EachOnce(level, s, dequeued) && Smooth(e)
    ensures EachOnce(level, Next(level, s, e), dequeued + Taking(s, e))
  {
    assert dequeued + [] == dequeued;
    match e
    case Dequeue(p) => if s.phase.Idle? { SmoothDequeue(level, s, dequeued, p); }
    case SendTimeSync(_) => if s.phase.Taken? { SmoothSync(level, s, dequeued); }
    case Encode => if s.phase.Taken? { ReplayCarriesPack(level, s.net.key, s.phase.pack); }
    case Transmit(_) => if s.phase.Remembered? { SmoothTransmit(level, s, dequeued); }
    case _ =>
  }

  /** While one connection lasts and nothing fails, packs are delivered exactly once, in order. */
  lemma {:induction false} ExactlyOnceWhileSmooth(level: nat, es: seq<Event>)
    requires SmoothRun(es)
    ensures EachOnce(level, Play(level, es).state, Play(level, es).dequeued)
    decreases |es|
  {
    if |es| == 1 {
      assert es == [] + [es[0]];
      PlaySnoc(level, [], es[0]);
    } else {
      var o := Play(level, Init(es));
      ExactlyOnceWhileSmooth(level, Init(es));
      SmoothStep(level, o.state, o.dequeued, Last(es));
    }
  }

  // ---------------------------------------------------------------------------------------------
  // The assumptions are needed: a run from the start without each of them.

  /** The events of one pack, with nothing in between. */
  function Handling(p: Pack, o: SendOutcome): seq<Event> { [Dequeue(p), Encode, Remember, Transmit(o)] }

  function Handled(level: nat, o: Outcome, p: Pack, net: SendOutcome): Outcome {
    Then(level, Then(level, Then(level, Then(level, o, Dequeue(p)), Encode), Remember), Transmit(net))
  }

  lemma PlayHandling(level: nat, es: seq<Event>, p: Pack, net: SendOutcome)
    ensures Play(level, es + Handling(p, net)) == Handled(level, Play(level, es), p, net)
  {
    var e1 := es + [Dequeue(p)];
    var e2 := e1 + [Encode];
    var e3 := e2 + [Remember];
    PlaySnoc(level, es, Dequeue(p));
    PlaySnoc(level, e1, Encode);
    PlaySnoc(level, e2, Remember);
    PlaySnoc(level, e3, Transmit(net));
    assert es + Handling(p, net) == e3 + [Transmit(net)];
  }

  /** The pack has been remembered. */
  function Kept(s: State, p: Pack): State {
    s.(hist := s.hist.(since := s.hist.since + [p]), retry := PutForce(s.retry, p))
  }

  /** Handling a pack is remembering it and sending what was made of it. */
  lemma HandledIs(level: nat, o: Outcome, p: Pack, net: SendOutcome)
    requires o.state.phase == Idle
    ensures var b := FirstPayload(level, o.state.net.key, p);
            var o' := Handled(level, o, p, net);
            && o'.state == Send(level, Kept(o.state, p), Data(p.flag, b), p.flush, net)
            && o'.dequeued == o.dequeued + [p]
            && o'.assumed == (o.assumed && Replayable(level, p) && (o.state.net.deadlineFailed ==> net != Sent))
  {
    assert o.dequeued + [p] + [] + [] + [] == o.dequeued + [p];
  }

  const START := [Open(None, 0, true)]

  const STARTED := Outcome(INIT.(net := INIT.net.(connected := true)), [], true)

  lemma PlayStart(level: nat)
    ensures Play(level, START) == STARTED
  {
    PlaySnoc(level, [], START[0]);
    assert [] + [START[0]] == START;
  }

  /** One pack that is flushed at once from an empty writer. */
  lemma FlushedAtOnce(level: nat, s: State, p: Pack)
    requires s.phase == Idle && s.net.connected && !s.net.broken && p.flush && s.net.buffered == []
    ensures var s' := Send(level, Kept(s, p), Data(p.flag, FirstPayload(level, s.net.key, p)), true, Sent);
            s'.hist.delivered == s.hist.delivered + [p] && s'.retry == [] && s'.phase == Idle
  {
    CarriedSnoc(level, s.net.key, [], Data(p.flag, FirstPayload(level, s.net.key, p)));
    ReplayCarriesPack(level, s.net.key, p);
  }

  lemma FlushForgets(level: nat, o: Outcome, p: Pack, q: Pack)
    requires o.state.phase == Idle && o.state.net.connected && !o.state.net.broken && o.state.net.buffered == []
    requires o.state.hist.delivered == [] && p != q && q.flush
    ensures var o' := Handled(level, o, q, Sent);
            o'.dequeued == o.dequeued + [q] && !Safe(o'.state, p) && o'.state.hist.delivered == [q]
  {
    HandledIs(level, o, q, Sent);
    FlushedAtOnce(level, o.state, q);
  }

  /** A pack whose write deadline could not be set is never written; when the connection then turns out
      to work, the next flush empties the retry queue and the pack is gone. */
  lemma RecoveredDeadlineLosesPack(level: nat, p: Pack, q: Pack)
    requires p != q && q.flush
    ensures var o := Play(level, START + Handling(p, DeadlineFails) + Handling(q, Sent));
            o.dequeued == [p, q] && !Safe(o.state, p) && o.state.hist.delivered == [q]
  {
    var es := START + Handling(p, DeadlineFails);
    PlayStart(level);
    PlayHandling(level, START, p, DeadlineFails);
    HandledIs(level, STARTED, p, DeadlineFails);
    PlayHandling(level, es, q, Sent);
    FlushForgets(level, Play(level, es), p, q);
  }

  /** After a pack that was remembered while there was no connection. */
  lemma HandledOffline(level: nat, p: Pack)
    ensures var o := Play(level, Handling(p, Sent));
            o.dequeued == [p] && o.state == INIT.(retry := [p], hist := Hist([], [], [p]))
  {
    PlayHandling(level, [], p, Sent);
    HandledIs(level, Play(level, []), p, Sent);
    assert [] + Handling(p, Sent) == Handling(p, Sent);
  }

  /** A failed replay is ignored and its packs are gone. */
  lemma FailedReplayLosesPack(level: nat, p: Pack)
    ensures var o := Play(level, Handling(p, Sent) + [Open(None, 0, false)]);
            o.dequeued == [p] && !Safe(o.state, p)
  {
    HandledOffline(level, p);
    PlaySnoc(level, Handling(p, Sent), Open(None, 0, false));
  }

  /** A pack with another flag is replayed without its payload, and is gone although all went well. */
  lemma UnreplayableIsLost(level: nat, p: Pack)
    requires !Replayable(level, p)
    ensures var o := Play(level, Handling(p, Sent) + [Open(None, 1, true)]);
            o.dequeued == [p] && !Safe(o.state, p)
  {
    HandledOffline(level, p);
    PlaySnoc(level, Handling(p, Sent), Open(None, 1, true));
    var f := Data(p.flag, Empty);
    assert ReplayFrames(level, None, [p]) == [] + [f];
    CarriedSnoc(level, None, [], f);
  }

  /** A pack taken when the cypher level has changed is dropped, and the connection is closed. */
  lemma LevelChangeLosesPack(level: nat, p: Pack)
    ensures var o := Play(level, START + [Dequeue(p)] + [LevelChanged]);
            o.dequeued == [p] && !Safe(o.state, p) && o.state.phase == Idle && !o.state.net.connected
  {
    PlayStart(level);
    PlaySnoc(level, START, Dequeue(p));
    PlaySnoc(level, START + [Dequeue(p)], LevelChanged);
  }

  /** The pack gets its wire form under one key and is sent under another. */
  lemma SentUnderOtherKey(level: nat, o: Outcome, p: Pack, key1: int, key2: int)
    requires level > 0 && SecureMask(p.flag) in {1, 2} && p.flush && key1 != key2
    requires o == Outcome(State(Net(true, false, Some(key1), [], false), [], Taken(p), Hist([], [], [])), [p], true)
    ensures var o3 := Then(level, Then(level, Then(level, o, Encode), Disconnect), Open(Some(key2), 0, true));
            var o5 := Then(level, Then(level, o3, Remember), Transmit(Sent));
            o5.dequeued == [p] && !Safe(o5.state, p)
  {
    CarriedSnoc(level, Some(key2), [], Data(p.flag, FirstPayload(level, Some(key1), p)));
  }

  /** A pack that has its wire form when another opening changes the key is sent under the old key; the
      flush empties the retry queue and the pack is gone. */
  lemma KeyChangeLosesPack(level: nat, p: Pack, key1: int, key2: int)
    requires level > 0 && SecureMask(p.flag) in {1, 2} && p.flush && key1 != key2
    ensures var o := Play(level, [] + [Open(Some(key1), 0, true)] + [Dequeue(p)] + [Encode] + [Disconnect]
                                 + [Open(Some(key2), 0, true)] + [Remember] + [Transmit(Sent)]);
            o.dequeued == [p] && !Safe(o.state, p)
  {
    var e1 := [] + [Open(Some(key1), 0, true)];
    var e2 := e1 + [Dequeue(p)];
    PlaySnoc(level, [], Open(Some(key1), 0, true));
    PlaySnoc(level, e1, Dequeue(p));
    SentUnderOtherKey(level, Play(level, e2), p, key1, key2);
    PlayRest(level, e2, key2);
  }

  lemma PlayRest(level: nat, es: seq<Event>, key2: int)
    ensures Play(level, es + [Encode] + [Disconnect] + [Open(Some(key2), 0, true)] + [Remember] + [Transmit(Sent)])
            == var o3 := Then(level, Then(level, Then(level, Play(level, es), Encode), Disconnect), Open(Some(key2), 0, true));
               Then(level, Then(level, o3, Remember), Transmit(Sent))
  {
    var e1 := es + [Encode];
    var e2 := e1 + [Disconnect];
    var e3 := e2 + [Open(Some(key2), 0, true)];
    PlaySnoc(level, es, Encode);
    PlaySnoc(level, e1, Disconnect);
    PlaySnoc(level, e2, Open(Some(key2), 0, true));
    PlaySnoc(level, e3, Remember);
    PlaySnoc(level, e3 + [Remember], Transmit(Sent));
  }

  /** Handling these packs one after the other. */
  function Sends(ps: seq<Pack>): seq<Event> {
    if ps == [] then [] else Sends(Init(ps)) + Handling(Last(ps), Sent)
  }

  lemma SendsSnoc(ps: seq<Pack>)
    requires ps != []
    ensures START + Sends(ps) == START + Sends(Init(ps)) + Handling(Last(ps), Sent)
  {
  }

  /** The packs `ps` have been taken, remembered and written, and nothing has been flushed. */
  predicate Buffering(o: Outcome, ps: seq<Pack>) {
    && o.state.phase == Idle && Working(o.state) && o.state.hist == Hist([], [], ps)
    && o.dequeued == ps && o.assumed
  }

  lemma BufferOne(level: nat, o: Outcome, ps: seq<Pack>, p: Pack)
    requires Buffering(o, ps) && !p.flush && Replayable(level, p)
    ensures Buffering(Handled(level, o, p, Sent), ps + [p])
  {
    HandledIs(level, o, p, Sent);
  }

  lemma SendOne(level: nat, es: seq<Event>, ps: seq<Pack>, p: Pack)
    requires Buffering(Play(level, es), ps) && !p.flush && Replayable(level, p)
    ensures Buffering(Play(level, es + Handling(p, Sent)), ps + [p])
  {
    PlayHandling(level, es, p, Sent);
    BufferOne(level, Play(level, es), ps, p);
  }

  lemma {:induction false} SendsRun(level: nat, ps: seq<Pack>) returns (es: seq<Event>)
    requires forall i :: 0 <= i < |ps| ==> !ps[i].flush && Replayable(level, ps[i])
    ensures es == START + Sends(ps) && Buffering(Play(level, es), ps)
    decreases |ps|
  {
    if ps == [] {
      PlayStart(level);
      es := START;
    } else {
      var before := SendsRun(level, Init(ps));
      SendOne(level, before, Init(ps), Last(ps));
      SendsSnoc(ps);
      es := before + Handling(Last(ps), Sent);
      assert ps == Init(ps) + [Last(ps)];
    }
  }

  lemma {:induction false} ReplayCarriesOnly(level: nat, key: Option<int>, q: seq<Pack>, p: Pack)
    requires p !in q
    ensures p !in Carried(level, key, ReplayFrames(level, key, q))
  {
    if q != [] {
      ReplayCarriesOnly(level, key, Init(q), p);
      CarriedSnoc(level, key, ReplayFrames(level, key, Init(q)), Data(Last(q).flag, ReplayPayload(level, key, Last(q))));
    }
  }

  lemma OldestIsNotReplayed(level: nat, o: Outcome, ps: seq<Pack>, key: Option<int>)
    requires Buffering(o, ps) && o.state.retry == LastOf(ps, RETRY_CAPACITY)
    requires |ps| > RETRY_CAPACITY && ps[0] !in ps[1..]
    ensures var o' := Then(level, o, Disconnect);
            && o'.dequeued == ps && o'.assumed && !Safe(o'.state, ps[0])
            && !Safe(Then(level, o', Open(key, RETRY_CAPACITY, true)).state, ps[0])
  {
    assert o.state.retry == ps[1..][|ps| - 1 - RETRY_CAPACITY..];
    ReplayCarriesOnly(level, key, o.state.retry, ps[0]);
    assert ps + [] == ps;
  }

  /** With more than 256 packs that ask for no flush, everything assumed of the network holds and yet the
      oldest pack is gone when the connection closes, and stays gone when the next one replays in full. */
  lemma OverflowLosesPack(level: nat, ps: seq<Pack>, key: Option<int>) returns (es: seq<Event>)
    requires |ps| > RETRY_CAPACITY && ps[0] !in ps[1..]
    requires forall i :: 0 <= i < |ps| ==> !ps[i].flush && Replayable(level, ps[i])
    ensures es == START + Sends(ps) + [Disconnect]
    ensures var o := Play(level, es); o.assumed && o.dequeued == ps && !Safe(o.state, ps[0])
    ensures !Safe(Play(level, es + [Open(key, RETRY_CAPACITY, true)]).state, ps[0])
  {
    var before := SendsRun(level, ps);
    RetryHoldsTheLast(level, before);
    es := before + [Disconnect];
    PlaySnoc(level, before, Disconnect);
    PlaySnoc(level, es, Open(key, RETRY_CAPACITY, true));
    OldestIsNotReplayed(level, Play(level, before), ps, key);
  }

  // ---------------------------------------------------------------------------------------------
  // The imperative sender.  Fields marked ghost are history.

  class TcpSender {
    const level: nat
    var connected: bool
    var broken: bool
    var key: Option<int>
    var wr: seq<Frame>
    var retryQueue: seq<Pack>
    ghost var phase: Phase
    ghost var delivered: seq<Pack>
    ghost var done: seq<Pack>
    ghost var since: seq<Pack>
    ghost var deadlineFailed: bool

    ghost function View(): State
      reads this
    {
      State(Net(connected, broken, key, wr, deadlineFailed), retryQueue, phase, Hist(delivered, done, since))
    }

    constructor (level: nat)
      ensures this.level == level && View() == INIT
    {
      this.level := level;
      connected, broken, key, wr, retryQueue := false, false, None, [], [];
      phase, delivered, done, since, deadlineFailed := Idle, [], [], [], false;
    }

    method CloseSession()
      modifies this
      ensures View() == old(View()).(net := Close(old(View()).net))
    {
      connected := false;
    }

    method ClearRetryQueue()
      modifies this`retryQueue, this`done, this`since
      ensures retryQueue == [] && since == [] && done == old(done + since)
    {
      retryQueue := [];
      done, since := done + since, [];
    }

    /** Sends one frame; `ret` is the result the caller may ignore. */
    method SendFrame(f: Frame, flush: bool, o: SendOutcome) returns (ret: bool)
      modifies this
      ensures View() == Send(level, old(View()), f, flush, o)
      ensures ret <==> old(connected) && !old(broken) && (o == Sent || (o == FlushFails && !flush))
    {
      if !connected {
        return false;
      }
      if o == DeadlineFails {
        deadlineFailed := true;
        return false;
      }
      if broken || o == WriteFails {
        broken := true;
        CloseSession();
        return false;
      }
      wr := wr + [f];
      if flush {
        if o == FlushFails {
          broken := true;
          CloseSession();
          return false;
        }
        delivered, wr := delivered + Carried(level, key, wr), [];
        ClearRetryQueue();
      }
      return true;
    }

    /** Replays the retry queue, oldest first; write number `written` fails. */
    method SendFailover(written: nat, flushOk: bool) returns (ret: bool)
      requires wr == [] && !broken
      modifies this`wr, this`broken, this`retryQueue, this`delivered
      ensures var frames := ReplayFrames(level, key, old(retryQueue));
              if old(retryQueue) == [] then
                ret && wr == [] && !broken && delivered == old(delivered)
              else if written >= |frames| && flushOk then
                ret && wr == [] && !broken && delivered == old(delivered) + Carried(level, key, frames)
              else
                && !ret && broken && delivered == old(delivered)
                && wr == if written < |frames| then frames[..written] else frames
    {
      var sz := |retryQueue|;
      ghost var q, frames := retryQueue, ReplayFrames(level, key, retryQueue);
      if sz > 0 {
        var i := 0;
        while i < sz
          invariant i <= sz && i <= written
          invariant retryQueue == q[i..] && !broken && delivered == old(delivered)
          invariant wr == frames[..i]
        {
          var p := retryQueue[0];
          retryQueue := retryQueue[1..];
          ReplayAt(level, key, q, i);
          assert frames[..i + 1] == frames[..i] + [frames[i]];
          if i == written {
            broken := true;
            return false;
          }
          wr := wr + [Data(p.flag, ReplayPayload(level, key, p))];
          i := i + 1;
        }
        assert frames[..sz] == frames;
        if !flushOk {
          broken := true;
          return false;
        }
        delivered, wr := delivered + Carried(level, key, wr), [];
      }
      return true;
    }

    /** Opens a session if there is none; the result of the replay is ignored. */
    method OpenSession(key: Option<int>, written: nat, flushOk: bool)
      modifies this
      ensures View() == Opened(level, old(View()), key, written, flushOk)
    {
      if connected {
        return;
      }
      this.key := key;
      wr, broken, deadlineFailed := [], false, false;
      var _ := SendFailover(written, flushOk);
      ClearRetryQueue();
      connected := true;
    }

    method EncodePack(p: Pack) returns (b: Payload)
      requires phase == Taken(p)
      modifies this`phase
      ensures View() == Next(level, old(View()), Encode) && phase == Encoded(p, b)
    {
      b := FirstPayload(level, key, p);
      phase := Encoded(p, b);
    }

    method RememberPack(p: Pack, b: Payload)
      requires phase == Encoded(p, b)
      modifies this
      ensures View() == Next(level, old(View()), Remember) && phase == Remembered(p, b)
    {
      retryQueue := PutForce(retryQueue, p);
      since, phase := since + [p], Remembered(p, b);
    }

    method TransmitPack(p: Pack, b: Payload, outcome: SendOutcome)
      requires phase == Remembered(p, b)
      modifies this
      ensures View() == Next(level, old(View()), Transmit(outcome))
    {
      phase := Idle;
      var _ := SendFrame(Data(p.flag, b), p.flush, outcome);
    }

    /** One iteration of the send loop, with nothing in between. */
    method Iterate(p: Pack, levelChanged: bool, syncDue: bool, syncOutcome: SendOutcome, outcome: SendOutcome)
      requires phase == Idle
      modifies this
      ensures var s0 := Next(level, old(View()), Dequeue(p));
              var s1 := if syncDue then Next(level, s0, SendTimeSync(syncOutcome)) else s0;
              View() == if levelChanged then Next(level, s0, LevelChanged)
                        else Next(level, Next(level, Next(level, s1, Encode), Remember), Transmit(outcome))
    {
      phase := Taken(p);
      if levelChanged {
        phase := Idle;
        CloseSession();
        return;
      }
      if syncDue {
        var _ := SendFrame(TimeSync, true, syncOutcome);
      }
      assert phase == Taken(p);
      var b := EncodePack(p);
      RememberPack(p, b);
      TransmitPack(p, b, outcome);
    }
  }

  lemma {:induction false} ReplayAt(level: nat, key: Option<int>, q: seq<Pack>, i: nat)
    requires i < |q|
    ensures ReplayFrames(level, key, q)[i] == Data(q[i].flag, ReplayPayload(level, key, q[i]))
    decreases |q|
  {
    if i < |q| - 1 {
      ReplayAt(level, key, Init(q), i);
    }
  }
}
