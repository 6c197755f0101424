/** Distributed trace headers of one node (trace/Trace.go): reading the W3C `traceparent` and the
    agent's own headers from a request, and writing them on outgoing calls.

    Not part of this model and therefore parameters: the `hexa32` codec, the key generator (each key
    drawn is an argument), and the formatted values of the two descriptive headers. */
module TraceContext {
  import opened Common
  import opened HeaderText

  datatype Hexa32 = Hexa32(enc: int -> string, dec: string -> int)

  /** What the codec promises: it inverts, and its text can stand in a comma-separated header. */
  ghost predicate Lawful(h: Hexa32) {
    && (forall x {:trigger h.enc(x)} :: IsInt64(x) ==>
          && h.dec(h.enc(x)) == x
          && h.enc(x) != [] && ',' !in h.enc(x)
          && !IsSpace(h.enc(x)[0]) && !IsSpace(h.enc(x)[|h.enc(x)| - 1]))
    && (forall s {:trigger h.dec(s)} :: IsInt64(h.dec(s)))
  }

  datatype Conf = Conf(hexa: Hexa32, mtraceEnabled: bool, mtraceRate: int, specText: string, poidText: string)

  /** The headers of a request; an absent header reads as the empty text. */
  datatype Headers = Headers(traceparent: string, caller: string, spec: string, poid: string)

  /** What the caller says about itself. */
  datatype Description = Description(spec: string, url: string, poidKey: string)

  datatype Ctx = Ctx(
    txid: int, mTid: int, mDepth: int, mStepId: int,
    mCallerTxid: int, mCallerStepId: int, mCallerTraceId: string,
    caller: Description, values: Headers)

  function NewCtx(txid: int): Ctx {
    Ctx(txid, 0, 0, 0, 0, 0, [], Description([], [], []), Headers([], [], [], []))
  }

  predicate WellTyped(c: Ctx) {
    && IsInt64(c.txid) && IsInt64(c.mTid) && IsInt64(c.mStepId)
    && IsInt64(c.mCallerTxid) && IsInt64(c.mCallerStepId) && IsInt32(c.mDepth)
  }

  const SIXTEEN_ZEROS := "0000000000000000"

  /** The trace-id written on outgoing calls: the one received, else one made from the trace number. */
  function TraceId(c: Ctx): string
    requires WellTyped(c)
  {
    if c.mCallerTraceId != [] then c.mCallerTraceId else SIXTEEN_ZEROS + Hex16(c.mTid)
  }

  function TraceparentText(traceId: string, parent: int): string
    requires IsInt64(parent)
  {
    JoinFour("00", traceId, Hex16(parent), "01", '-')
  }

  function CallerText(conf: Conf, c: Ctx): string {
    JoinFour(conf.hexa.enc(c.mTid), Itoa(c.mDepth + 1), conf.hexa.enc(c.txid), conf.hexa.enc(c.mStepId), ',')
  }

  function HexOrZero(s: string): int
    ensures IsInt64(HexOrZero(s))
  {
    match ParseHex(s)
    case Some(v) => ToInt64(v)
    case None => 0
  }

  /** Reads `traceparent`.  `None` is the run-time panic on a trace-id shorter than 16 bytes. */
  function ReadTraceparent(c: Ctx, h: Headers): (r: Option<Ctx>)
    ensures WellTyped(c) && r.Some? ==> WellTyped(r.value) && r.value.txid == c.txid
  {
    var arr := Split(Trim(h.traceparent), '-');
    if h.traceparent == [] || |arr| < 4 then Some(c)
    else if |arr[1]| < 16 then None
    else Some(c.(mCallerTraceId := arr[1],
                 mTid := HexOrZero(arr[1][16..]),
                 mCallerStepId := HexOrZero(arr[2])))
  }

  /** Reads the agent's caller header.  The flag says whether the agent's other headers count: not
      when the step in it is not the parent in `traceparent`, because then a node in between has
      forwarded the header unchanged. */
  function ReadCaller(conf: Conf, c: Ctx, h: Headers): (r: (Ctx, bool))
    ensures Lawful(conf.hexa) && WellTyped(c) ==> WellTyped(r.0) && r.0.txid == c.txid
  {
    if h.caller == [] then (c, true)
    else
      var arr := Split(Trim(h.caller), ',');
      var depth := if |arr| >= 3 then Atoi(arr[1]) else None;
      var c1 := if depth.Some? then c.(mDepth := ToInt32(depth.value)) else c;
      var mtid := if |arr| >= 3 then conf.hexa.dec(arr[0]) else 0;
      var callerTxid := if |arr| >= 3 then conf.hexa.dec(arr[2]) else 0;
      var stepId := if |arr| >= 4 then conf.hexa.dec(arr[3]) else 0;
      if h.traceparent == [] then (c1.(mTid := mtid, mCallerTxid := callerTxid, mCallerStepId := stepId), true)
      else if c1.mCallerStepId == stepId then (c1.(mCallerTxid := callerTxid), true)
      else (c1, false)
  }

  function ReadDescription(d: Description, h: Headers): Description {
    var arr := Split(Trim(h.spec), ',');
    var d1 := if h.spec != [] && |arr| >= 2 then d.(spec := arr[0], url := arr[1]) else d;
    if h.poid != [] then d1.(poidKey := Trim(h.poid)) else d1
  }

  predicate Sampled(conf: Conf, key: int) {
    (if key < 0 then -key else key) / 100 % 100 < conf.mtraceRate
  }

  /** From a rate of 100 on every key is sampled, at 0 or less none; a larger rate drops no key, and the sign
      of a key means nothing. */
  lemma SamplingLimits(conf: Conf, other: Conf, key: int)
    ensures conf.mtraceRate >= 100 ==> Sampled(conf, key)
    ensures conf.mtraceRate <= 0 ==> !Sampled(conf, key)
    ensures conf.mtraceRate <= other.mtraceRate && Sampled(conf, key) ==> Sampled(other, key)
    ensures Sampled(conf, key) == Sampled(conf, -key)
  {
  }

  /** How many of the `n` keys from `first` on are sampled. */
  function SampledAmong(conf: Conf, first: nat, n: nat): nat {
    if n == 0 then 0 else SampledAmong(conf, first, n - 1) + if Sampled(conf, first + n - 1) then 1 else 0
  }

  /** A hundred keys with the same leading digits share their fate. */
  lemma {:induction false} SampledInHundred(conf: Conf, hundred: nat, n: nat)
    requires n <= 100
    ensures SampledAmong(conf, 100 * hundred, n) == if hundred % 100 < conf.mtraceRate then n else 0
  {
    if n > 0 {
      SampledInHundred(conf, hundred, n - 1);
      assert (100 * hundred + n - 1) / 100 == hundred;
    }
  }

  lemma {:induction false} SampledAdds(conf: Conf, first: nat, n: nat, k: nat)
    ensures SampledAmong(conf, first, n + k) == SampledAmong(conf, first, n) + SampledAmong(conf, first + n, k)
  {
    if k > 0 {
      SampledAdds(conf, first, n, k - 1);
    }
  }

  lemma SampledNextHundred(conf: Conf, first: nat, n: nat, hundred: nat)
    requires first + n == 100 * hundred
    ensures SampledAmong(conf, first, n + 100)
            == SampledAmong(conf, first, n) + if hundred % 100 < conf.mtraceRate then 100 else 0
  {
    SampledAdds(conf, first, n, 100);
    SampledInHundred(conf, hundred, 100);
  }

  lemma ModOf(block: nat, n: nat)
    requires n < 100
    ensures (100 * block + n) % 100 == n
  {
  }

  lemma {:induction false} SampledInHundreds(conf: Conf, block: nat, n: nat)
    requires n <= 100 && 0 <= conf.mtraceRate <= 100
    ensures SampledAmong(conf, 10000 * block, 100 * n) == 100 * if n < conf.mtraceRate then n else conf.mtraceRate
  {
    if n > 0 {
      SampledInHundreds(conf, block, n - 1);
      SampledNextHundred(conf, 10000 * block, 100 * (n - 1), 100 * block + (n - 1));
      ModOf(block, n - 1);
    }
  }

  /** The rate is a percentage: of every ten thousand successive keys it is met exactly. */
  lemma SampledExactly(conf: Conf, block: nat)
    requires 0 <= conf.mtraceRate <= 100
    ensures SampledAmong(conf, 10000 * block, 10000) == 100 * conf.mtraceRate
  {
    SampledInHundreds(conf, block, 100);
  }

  function Sample(conf: Conf, c: Ctx, key: int): Ctx {
    if c.mTid == 0 && Sampled(conf, key) then c.(mTid := key) else c
  }

  /** Prepares the header values for one outgoing call, under a new step id. */
  function Announce(conf: Conf, c: Ctx, stepKey: int): Ctx
    requires WellTyped(c) && IsInt64(stepKey)
  {
    var c1 := c.(mStepId := stepKey);
    c1.(values := c1.values.(traceparent := TraceparentText(TraceId(c1), stepKey), caller := CallerText(conf, c1)))
  }

  /** Everything that the request's headers tell. */
  function ReadHeaders(conf: Conf, c: Ctx, h: Headers): (r: Option<Ctx>)
    ensures Lawful(conf.hexa) && WellTyped(c) && r.Some? ==> WellTyped(r.value) && r.value.txid == c.txid
  {
    match ReadTraceparent(c, h)
    case None => None
    case Some(c1) =>
      var (c2, useWhatap) := ReadCaller(conf, c1, h);
      Some(if useWhatap then c2.(caller := ReadDescription(c2.caller, h)) else c2)
  }

  function Accept(conf: Conf, c: Ctx, h: Headers, sampleKey: int, stepKey: int): (r: Option<Ctx>)
    requires Lawful(conf.hexa) && WellTyped(c) && IsInt64(sampleKey) && IsInt64(stepKey)
    ensures r.Some? ==> WellTyped(r.value) && r.value.txid == c.txid
  {
    if !conf.mtraceEnabled then Some(c)
    else
      match ReadHeaders(conf, c, h)
      case None => None
      case Some(c1) =>
        var c2 := Announce(conf, Sample(conf, c1, sampleKey), stepKey);
        Some(c2.(values := c2.values.(spec := conf.specText, poid := conf.poidText)))
  }

  /** With tracing off the headers mean nothing; with it on the node announces its own description. */
  lemma Announces(conf: Conf, c: Ctx, h: Headers, sampleKey: int, stepKey: int)
    requires Lawful(conf.hexa) && WellTyped(c) && IsInt64(sampleKey) && IsInt64(stepKey)
    ensures var r := Accept(conf, c, h, sampleKey, stepKey);
            && (!conf.mtraceEnabled ==> r == Some(c))
            && (conf.mtraceEnabled && r.Some? ==>
                  && r.value.values.spec == conf.specText && r.value.values.poid == conf.poidText
                  && r.value.mStepId == stepKey)
  {
  }

  /** The headers for one outgoing call. */
  function Call(conf: Conf, c: Ctx, stepKey: int): (r: (Ctx, Headers))
    requires WellTyped(c) && IsInt64(stepKey)
    ensures WellTyped(r.0)
  {
    var c1 := Announce(conf, c, stepKey);
    (c1, c1.values)
  }

  class TraceCtx {
    var txid: int
    var mTid: int
    var mDepth: int
    var mStepId: int
    var mCallerTxid: int
    var mCallerStepId: int
    var mCallerTraceId: string
    var mCallerSpec: string
    var mCallerUrl: string
    var mCallerPoidKey: string
    var traceparentValue: string
    var callerValue: string
    var specValue: string
    var poidValue: string

    ghost function View(): Ctx
      reads this
    {
      Ctx(txid, mTid, mDepth, mStepId, mCallerTxid, mCallerStepId, mCallerTraceId,
          Description(mCallerSpec, mCallerUrl, mCallerPoidKey),
          Headers(traceparentValue, callerValue, specValue, poidValue))
    }

    constructor (txid: int)
      ensures View() == NewCtx(txid)
    {
      this.txid := txid;
      mTid, mDepth, mStepId, mCallerTxid, mCallerStepId := 0, 0, 0, 0, 0;
      mCallerTraceId, mCallerSpec, mCallerUrl, mCallerPoidKey := [], [], [], [];
      traceparentValue, callerValue, specValue, poidValue := [], [], [], [];
    }

    /** `ok` is false when the node panics. */
    method UpdateMtrace(conf: Conf, h: Headers, sampleKey: int, stepKey: int) returns (ok: bool)
      requires Lawful(conf.hexa) && WellTyped(View()) && IsInt64(sampleKey) && IsInt64(stepKey)
      modifies this
      ensures ok == Accept(conf, old(View()), h, sampleKey, stepKey).Some?
      ensures ok ==> View() == Accept(conf, old(View()), h, sampleKey, stepKey).value
    {
      if !conf.mtraceEnabled {
        return true;
      }
      ok := TakeHeaders(conf, h);
      if !ok {
        return;
      }
      if mTid == 0 && Sampled(conf, sampleKey) {
        mTid := sampleKey;
      }
      Prepare(conf, stepKey);
      specValue := conf.specText;
      poidValue := conf.poidText;
    }

    method TakeHeaders(conf: Conf, h: Headers) returns (ok: bool)
      modifies this
      ensures ok == ReadHeaders(conf, old(View()), h).Some?
      ensures ok ==> View() == ReadHeaders(conf, old(View()), h).value
    {
      ok := TakeTraceparent(h);
      if !ok {
        return;
      }
      var useWhatap := TakeCaller(conf, h);
      if useWhatap {
        TakeDescription(h);
      }
    }

    method TakeTraceparent(h: Headers) returns (ok: bool)
      modifies this
      ensures ok == ReadTraceparent(old(View()), h).Some?
      ensures ok ==> View() == ReadTraceparent(old(View()), h).value
    {
      if h.traceparent != [] {
        var arr := Split(Trim(h.traceparent), '-');
        if |arr| >= 4 {
          mCallerTraceId := arr[1];
          if |mCallerTraceId| < 16 {
            return false;
          }
          mTid := HexOrZero(mCallerTraceId[16..]);
          mCallerStepId := HexOrZero(arr[2]);
        }
      }
      return true;
    }

    method TakeCaller(conf: Conf, h: Headers) returns (useWhatap: bool)
      modifies this
      ensures (View(), useWhatap) == ReadCaller(conf, old(View()), h)
    {
      useWhatap := true;
      if h.caller != [] {
        var arr := Split(Trim(h.caller), ',');
        var mtid, stepId, callerTxid := 0, 0, 0;
        if |arr| >= 3 {
          mtid := conf.hexa.dec(arr[0]);
          var depth := Atoi(arr[1]);
          if depth.Some? {
            mDepth := ToInt32(depth.value);
          }
          callerTxid := conf.hexa.dec(arr[2]);
        }
        if |arr| >= 4 {
          stepId := conf.hexa.dec(arr[3]);
        }
        if h.traceparent != [] {
          if mCallerStepId == stepId {
            mCallerTxid := callerTxid;
          } else {
            useWhatap := false;
          }
        } else {
          mTid := mtid;
          mCallerTxid := callerTxid;
          mCallerStepId := stepId;
        }
      }
    }

    method TakeDescription(h: Headers)
      modifies this
      ensures View() == old(View()).(caller := ReadDescription(old(View()).caller, h))
    {
      if h.spec != [] {
        var arr := Split(Trim(h.spec), ',');
        if |arr| >= 2 {
          mCallerSpec := arr[0];
          mCallerUrl := arr[1];
        }
      }
      if h.poid != [] {
        mCallerPoidKey := Trim(h.poid);
      }
    }

    method Prepare(conf: Conf, stepKey: int)
      requires WellTyped(View()) && IsInt64(stepKey)
      modifies this
      ensures View() == Announce(conf, old(View()), stepKey)
    {
      mStepId := stepKey;
      if mCallerTraceId != [] {
        traceparentValue := TraceparentText(mCallerTraceId, mStepId);
      } else {
        traceparentValue := TraceparentText(SIXTEEN_ZEROS + Hex16(mTid), mStepId);
      }
      callerValue := JoinFour(conf.hexa.enc(mTid), Itoa(mDepth + 1), conf.hexa.enc(txid), conf.hexa.enc(mStepId), ',');
    }

    method GetMTrace(conf: Conf, stepKey: int) returns (rt: Headers)
      requires WellTyped(View()) && IsInt64(stepKey)
      modifies this
      ensures (View(), rt) == Call(conf, old(View()), stepKey)
    {
      Prepare(conf, stepKey);
      rt := Headers(traceparentValue, callerValue, specValue, poidValue);
    }

    /** The step id that the profile records for an outgoing call which starts now. */
    method StartHttpc() returns (stepId: int)
      ensures stepId == View().mStepId
    {
      stepId := mStepId;
    }
  }
}

/** Traces across nodes.  A trace visits nodes that run the agent and nodes that only know W3C Trace
    Context; those keep the trace-id, put their own parent-id into `traceparent` (sections 3.2.2.3 and
    3.2.2.4 of W3C Trace Context) and forward the other headers untouched. */
module TraceChain {
  import opened Common
  import opened HeaderText
  import opened TraceContext

  datatype Hop =
    | Agent(txid: int, sampleKey: int, stepKey: int, calls: seq<int>)  // the last call continues the path
    | Proxy(parentId: int)

  datatype Visit = Node(ctx: Ctx) | Passed(parentId: int) | Panicked

  predicate ValidHop(hop: Hop) {
    match hop
    case Agent(txid, sampleKey, stepKey, calls) =>
      && IsInt64(txid) && IsInt64(sampleKey) && IsInt64(stepKey)
      && calls != [] && forall k :: k in calls ==> IsInt64(k)
    case Proxy(parentId) => IsInt64(parentId)
  }

  /** The node makes its outgoing calls, one after the other. */
  function Calls(conf: Conf, c: Ctx, keys: seq<int>): (Ctx, Headers)
    requires WellTyped(c) && keys != [] && forall k :: k in keys ==> IsInt64(k)
    decreases |keys|
  {
    var r := Call(conf, c, keys[0]);
    if |keys| == 1 then r else Calls(conf, r.0, keys[1..])
  }

  function Forward(h: Headers, parentId: int): Headers
    requires IsInt64(parentId)
  {
    var arr := Split(h.traceparent, '-');
    if |arr| == 4 then h.(traceparent := JoinFour(arr[0], arr[1], Hex16(parentId), arr[3], '-')) else h
  }

  /** What happens at each hop of the path that the headers `h` take. */
  ghost function Walk(conf: Conf, h: Headers, hops: seq<Hop>): (vs: seq<Visit>)
    requires Lawful(conf.hexa) && forall x :: x in hops ==> ValidHop(x)
    decreases |hops|
  {
    if hops == [] then []
    else
      assert ValidHop(hops[0]);
      match hops[0]
      case Proxy(parentId) => [Passed(parentId)] + Walk(conf, Forward(h, parentId), hops[1..])
      case Agent(txid, sampleKey, stepKey, calls) =>
        match Accept(conf, NewCtx(txid), h, sampleKey, stepKey)
        case None => [Panicked]
        case Some(c) =>
          var (c', h') := Calls(conf, c, calls);
          [Node(c')] + Walk(conf, h', hops[1..])
  }

  /** A node with a nonzero trace number, which is the low half of its 32-digit trace-id. */
  predicate Traced(c: Ctx) {
    && WellTyped(c) && c.mTid != 0
    && var id := TraceId(c);
       |id| == 32 && AllHex(id) && ParseHex(id[16..]) == Some(ToUint64(c.mTid))
  }

  /** `h` was sent by `last`, and its `traceparent` now names `parent`. */
  predicate InFlight(conf: Conf, h: Headers, last: Ctx, parent: int) {
    && Traced(last) && IsInt64(parent)
    && h.traceparent == TraceparentText(TraceId(last), parent)
    && h.caller == CallerText(conf, last)
  }

  lemma HexHasNoDash(s: string)
    requires AllHex(s)
    ensures '-' !in s
  {
  }

  lemma JoinTrimmed(a: string, b: string, c: string, d: string, sep: char)
    requires a != [] && d != [] && !IsSpace(a[0]) && !IsSpace(d[|d| - 1])
    ensures var s := JoinFour(a, b, c, d, sep); s != [] && Trim(s) == s
  {
  }

  lemma TraceparentFields(traceId: string, parent: int)
    requires AllHex(traceId) && IsInt64(parent)
    ensures var s := TraceparentText(traceId, parent);
            && s != [] && Trim(s) == s
            && Split(s, '-') == ["00", traceId, Hex16(parent), "01"]
  {
    HexHasNoDash(traceId);
    SplitFour("00", traceId, Hex16(parent), "01", '-');
    JoinTrimmed("00", traceId, Hex16(parent), "01", '-');
  }

  lemma CallerFields(conf: Conf, c: Ctx)
    requires Lawful(conf.hexa) && WellTyped(c)
    ensures var s := CallerText(conf, c);
            && s != [] && Trim(s) == s
            && Split(s, ',')
               == [conf.hexa.enc(c.mTid), Itoa(c.mDepth + 1), conf.hexa.enc(c.txid), conf.hexa.enc(c.mStepId)]
  {
    var a, b, d, e := conf.hexa.enc(c.mTid), Itoa(c.mDepth + 1), conf.hexa.enc(c.txid), conf.hexa.enc(c.mStepId);
    SplitFour(a, b, d, e, ',');
    JoinTrimmed(a, b, d, e, ',');
  }

  /** The trace number and depth continue those of the nearest agent node before; the caller's step is the
      parent named last; and that node is taken for the caller exactly when the step is its own. */
  predicate Learned(c: Ctx, last: Ctx, parent: int) {
    && c.mTid == last.mTid && c.mDepth == ToInt32(last.mDepth + 1)
    && c.mCallerStepId == parent
    && c.mCallerTxid == if parent == last.mStepId then last.txid else 0
  }

  /** What a node learns from headers in flight, including the case of equal step ids that a proxy
      produces by chance. */
  lemma Receive(conf: Conf, h: Headers, last: Ctx, parent: int, txid: int, sampleKey: int, stepKey: int)
    requires Lawful(conf.hexa) && conf.mtraceEnabled && InFlight(conf, h, last, parent)
    requires IsInt64(txid) && IsInt64(sampleKey) && IsInt64(stepKey)
    ensures var r := Accept(conf, NewCtx(txid), h, sampleKey, stepKey);
            && r.Some? && Traced(r.value) && r.value.mCallerTraceId == TraceId(last)
            && r.value.txid == txid && Learned(r.value, last, parent)
  {
    var id := TraceId(last);
    TraceparentFields(id, parent);
    CallerFields(conf, last);
    Hex16RoundTrip(parent);
    Hex16RoundTrip(last.mTid);
    AtoiRoundTrip(last.mDepth + 1);
    var c1 := ReadTraceparent(NewCtx(txid), h).value;
    assert c1 == NewCtx(txid).(mCallerTraceId := id, mTid := last.mTid, mCallerStepId := parent);
    assert conf.hexa.dec(conf.hexa.enc(last.mStepId)) == last.mStepId;
    assert conf.hexa.dec(conf.hexa.enc(last.txid)) == last.txid;
  }

  /** Without `traceparent` the agent's own caller header says it all. */
  lemma ReceiveCallerAlone(conf: Conf, h: Headers, last: Ctx, txid: int, sampleKey: int, stepKey: int)
    requires Lawful(conf.hexa) && conf.mtraceEnabled && WellTyped(last) && last.mTid != 0
    requires h.traceparent == [] && h.caller == CallerText(conf, last)
    requires IsInt64(txid) && IsInt64(sampleKey) && IsInt64(stepKey)
    ensures var r := Accept(conf, NewCtx(txid), h, sampleKey, stepKey);
            && r.Some? && Traced(r.value) && r.value.mCallerTraceId == []
            && r.value.txid == txid && Learned(r.value, last, last.mStepId)
  {
    CallerFields(conf, last);
    AtoiRoundTrip(last.mDepth + 1);
    assert conf.hexa.dec(conf.hexa.enc(last.mTid)) == last.mTid;
    assert conf.hexa.dec(conf.hexa.enc(last.mStepId)) == last.mStepId;
    assert conf.hexa.dec(conf.hexa.enc(last.txid)) == last.txid;
    OwnTraceId(Accept(conf, NewCtx(txid), h, sampleKey, stepKey).value);
  }

  /** An older caller header names no step, and one with fewer fields says nothing: trace number 0, to be drawn. */
  lemma ReceiveShortCaller(conf: Conf, h: Headers, a: string, b: string, d: string, n: nat, txid: int, sampleKey: int, stepKey: int)
    requires Lawful(conf.hexa) && conf.mtraceEnabled && h.traceparent == [] && h.caller != [] && Trim(h.caller) == h.caller
    requires ',' !in a && ',' !in b && ',' !in d && n <= 2
    requires h.caller == (if n == 2 then a + [','] + (b + [','] + d) else if n == 1 then a + [','] + b else a)
    requires IsInt64(txid) && IsInt64(sampleKey) && IsInt64(stepKey)
    ensures var r := ReadHeaders(conf, NewCtx(txid), h);
            && r.Some? && r.value.mCallerStepId == 0
            && (if n == 2 then
                  && r.value.mTid == conf.hexa.dec(a) && r.value.mCallerTxid == conf.hexa.dec(d)
                  && r.value.mDepth == (if Atoi(b).Some? then ToInt32(Atoi(b).value) else 0)
                else r.value.mTid == 0 && r.value.mCallerTxid == 0 && r.value.mDepth == 0)
  {
    if n == 2 {
      SplitHead(a, ',', b + [','] + d);
      SplitTwo(b, d, ',');
      assert a + [','] + (b + [','] + d) == h.caller;
    } else if n == 1 {
      SplitTwo(a, b, ',');
    } else {
      SplitOne(a, ',');
    }
  }

  /** A trace-id whose low half is no number, or a parent that is none, reads as 0. */
  lemma ReceiveBadNumbers(conf: Conf, h: Headers, traceId: string, parent: string, txid: int)
    requires h.traceparent == JoinFour("00", traceId, parent, "01", '-') && h.caller == []
    requires '-' !in traceId && '-' !in parent && |traceId| >= 16
    ensures var r := ReadHeaders(conf, NewCtx(txid), h);
            && r.Some? && r.value.mCallerTraceId == traceId
            && (ParseHex(traceId[16..]).None? ==> r.value.mTid == 0)
            && (ParseHex(parent).None? ==> r.value.mCallerStepId == 0)
  {
    SplitFour("00", traceId, parent, "01", '-');
    JoinTrimmed("00", traceId, parent, "01", '-');
  }

  lemma OwnTraceId(c: Ctx)
    requires WellTyped(c) && c.mCallerTraceId == []
    ensures Traced(c) <==> c.mTid != 0
  {
    Hex16RoundTrip(c.mTid);
    assert TraceId(c) == SIXTEEN_ZEROS + Hex16(c.mTid);
    assert TraceId(c)[16..] == Hex16(c.mTid);
    assert AllHex(SIXTEEN_ZEROS);
  }

  /** The caller's description is taken over if and only if its header counts. */
  lemma ReceiveDescription(conf: Conf, h: Headers, last: Ctx, parent: int, spec: string, url: string,
                           txid: int, sampleKey: int, stepKey: int)
    requires Lawful(conf.hexa) && conf.mtraceEnabled && InFlight(conf, h, last, parent)
    requires h.spec == spec + [','] + url && Trim(h.spec) == h.spec && ',' !in spec && ',' !in url
    requires IsInt64(txid) && IsInt64(sampleKey) && IsInt64(stepKey)
    ensures var r := Accept(conf, NewCtx(txid), h, sampleKey, stepKey);
            r.Some? && r.value.caller
                       == if parent == last.mStepId then Description(spec, url, Trim(h.poid)) else Description([], [], [])
  {
    TraceparentFields(TraceId(last), parent);
    CallerFields(conf, last);
    Hex16RoundTrip(parent);
    SplitTwo(spec, url, ',');
    assert conf.hexa.dec(conf.hexa.enc(last.mStepId)) == last.mStepId;
  }

  /** Without `traceparent` or without a caller header there is nothing to contradict, and the description counts;
      a text of one field describes nothing. */
  lemma ReceiveDescriptionAlone(conf: Conf, h: Headers, spec: string, url: string, commas: bool, txid: int)
    requires h.caller == [] || h.traceparent == []
    requires h.spec == (if commas then spec + [','] + url else spec) && Trim(h.spec) == h.spec && ',' !in spec && ',' !in url
    ensures var r := ReadHeaders(conf, NewCtx(txid), h);
            r.Some? ==> r.value.caller == if commas then Description(spec, url, Trim(h.poid)) else Description([], [], Trim(h.poid))
  {
    SplitTwo(spec, url, ',');
    SplitOne(spec, ',');
  }

  /** A trace-id of less than 16 bytes makes the node panic. */
  lemma ShortTraceIdPanics(conf: Conf, c: Ctx, h: Headers, traceId: string, parent: int, sampleKey: int, stepKey: int)
    requires Lawful(conf.hexa) && conf.mtraceEnabled && WellTyped(c) && IsInt64(sampleKey) && IsInt64(stepKey)
    requires IsInt64(parent) && AllHex(traceId) && h.traceparent == TraceparentText(traceId, parent)
    ensures Accept(conf, c, h, sampleKey, stepKey).None? <==> |traceId| < 16
  {
    TraceparentFields(traceId, parent);
  }

  /** The two contexts differ only in the step of the last call and the header values made for it. */
  predicate SameButStep(c: Ctx, d: Ctx) {
    && d.txid == c.txid && d.mTid == c.mTid && d.mDepth == c.mDepth
    && d.mCallerTxid == c.mCallerTxid && d.mCallerStepId == c.mCallerStepId && d.mCallerTraceId == c.mCallerTraceId
    && d.caller == c.caller && d.values.spec == c.values.spec && d.values.poid == c.values.poid
  }

  /** An outgoing call changes nothing but the step, and is in flight from its node. */
  lemma {:induction false} Send(conf: Conf, c: Ctx, keys: seq<int>)
    requires Traced(c) && keys != [] && forall k :: k in keys ==> IsInt64(k)
    ensures var (c', h) := Calls(conf, c, keys);
            && InFlight(conf, h, c', c'.mStepId)
            && c'.mStepId == keys[|keys| - 1]
            && SameButStep(c, c')
    decreases |keys|
  {
    var r := Call(conf, c, keys[0]);
    assert TraceId(r.0) == TraceId(c);
    if |keys| > 1 {
      Send(conf, r.0, keys[1..]);
    }
  }

  lemma Relay(conf: Conf, h: Headers, last: Ctx, parent: int, parentId: int)
    requires InFlight(conf, h, last, parent) && IsInt64(parentId)
    ensures InFlight(conf, Forward(h, parentId), last, parentId)
  {
    TraceparentFields(TraceId(last), parent);
  }

  /** The visits, link by link: `last` is the nearest agent node before them, and `proxy` the id that a
      proxy directly before them has put in, if any. */
  predicate Linked(last: Ctx, proxy: Option<int>, vs: seq<Visit>)
    decreases |vs|
  {
    vs == [] ||
    match vs[0]
    case Panicked => false
    case Passed(id) => Linked(last, Some(id), vs[1..])
    case Node(c) =>
      && Learned(c, last, if proxy.Some? then proxy.value else last.mStepId)
      && Linked(c, None, vs[1..])
  }

  predicate SameKind(hop: Hop, v: Visit) {
    match hop
    case Proxy(id) => v == Passed(id)
    case Agent(txid, _, _, calls) =>
      v.Node? && v.ctx.txid == txid && calls != [] && v.ctx.mStepId == calls[|calls| - 1]
  }

  predicate SameKinds(hops: seq<Hop>, vs: seq<Visit>) {
    |vs| == |hops| && forall i :: 0 <= i < |hops| ==> SameKind(hops[i], vs[i])
  }

  lemma LinkFirst(hops: seq<Hop>, vs: seq<Visit>, v: Visit, rest: seq<Visit>)
    requires hops != [] && vs == [v] + rest && SameKinds(hops[1..], rest) && SameKind(hops[0], v)
    ensures SameKinds(hops, vs) && vs[1..] == rest
  {
  }

  /** Along every path, no node panics and every node is linked to the one before it. */
  lemma {:induction false} PathIsLinked(conf: Conf, h: Headers, last: Ctx, proxy: Option<int>, hops: seq<Hop>)
    requires Lawful(conf.hexa) && conf.mtraceEnabled && forall x :: x in hops ==> ValidHop(x)
    requires InFlight(conf, h, last, if proxy.Some? then proxy.value else last.mStepId)
    ensures var vs := Walk(conf, h, hops); SameKinds(hops, vs) && Linked(last, proxy, vs)
    decreases |hops|, 1
  {
    if hops != [] {
      assert ValidHop(hops[0]);
      if hops[0].Agent? {
        PathFromAgent(conf, h, last, proxy, hops);
      } else {
        var id := hops[0].parentId;
        Relay(conf, h, last, if proxy.Some? then proxy.value else last.mStepId, id);
        PathIsLinked(conf, Forward(h, id), last, Some(id), hops[1..]);
        LinkFirst(hops, Walk(conf, h, hops), Passed(id), Walk(conf, Forward(h, id), hops[1..]));
      }
    }
  }

  lemma WalkAgent(conf: Conf, h: Headers, hops: seq<Hop>, c: Ctx)
    requires Lawful(conf.hexa) && forall x :: x in hops ==> ValidHop(x)
    requires hops != [] && hops[0].Agent? && ValidHop(hops[0])
    requires Accept(conf, NewCtx(hops[0].txid), h, hops[0].sampleKey, hops[0].stepKey) == Some(c)
    ensures var (c', h') := Calls(conf, c, hops[0].calls);
            Walk(conf, h, hops) == [Node(c')] + Walk(conf, h', hops[1..])
  {
  }

  lemma LearnedIsKept(received: Ctx, c: Ctx, last: Ctx, parent: int)
    requires Learned(received, last, parent) && SameButStep(received, c)
    ensures Learned(c, last, parent) && c.txid == received.txid
  {
  }

  /** What a node that has learned from its caller sends on. */
  lemma SendFrom(conf: Conf, received: Ctx, last: Ctx, parent: int, hop: Hop)
    requires Traced(received) && hop.Agent? && ValidHop(hop)
    requires Learned(received, last, parent) && received.txid == hop.txid
    ensures var (c, h') := Calls(conf, received, hop.calls);
            InFlight(conf, h', c, c.mStepId) && SameKind(hop, Node(c)) && Learned(c, last, parent)
  {
    Send(conf, received, hop.calls);
    LearnedIsKept(received, Calls(conf, received, hop.calls).0, last, parent);
  }

  /** One agent node of a path: what it learns, and what it sends on. */
  lemma AgentHop(conf: Conf, h: Headers, last: Ctx, parent: int, hops: seq<Hop>) returns (c: Ctx, h': Headers)
    requires Lawful(conf.hexa) && conf.mtraceEnabled && forall x :: x in hops ==> ValidHop(x)
    requires hops != [] && hops[0].Agent? && ValidHop(hops[0]) && InFlight(conf, h, last, parent)
    ensures Walk(conf, h, hops) == [Node(c)] + Walk(conf, h', hops[1..])
    ensures InFlight(conf, h', c, c.mStepId) && SameKind(hops[0], Node(c))
    ensures Learned(c, last, parent)
  {
    var hop := hops[0];
    Receive(conf, h, last, parent, hop.txid, hop.sampleKey, hop.stepKey);
    var received := Accept(conf, NewCtx(hop.txid), h, hop.sampleKey, hop.stepKey).value;
    SendFrom(conf, received, last, parent, hop);
    WalkAgent(conf, h, hops, received);
    var sent := Calls(conf, received, hops[0].calls);
    c, h' := sent.0, sent.1;
  }

  lemma {:induction false} PathFromAgent(conf: Conf, h: Headers, last: Ctx, proxy: Option<int>, hops: seq<Hop>)
    requires Lawful(conf.hexa) && conf.mtraceEnabled && forall x :: x in hops ==> ValidHop(x)
    requires InFlight(conf, h, last, if proxy.Some? then proxy.value else last.mStepId)
    requires hops != [] && hops[0].Agent? && ValidHop(hops[0])
    ensures var vs := Walk(conf, h, hops); SameKinds(hops, vs) && Linked(last, proxy, vs)
    decreases |hops|, 0
  {
    var c, h' := AgentHop(conf, h, last, if proxy.Some? then proxy.value else last.mStepId, hops);
    PathIsLinked(conf, h', c, None, hops[1..]);
    LinkFirst(hops, Walk(conf, h, hops), Node(c), Walk(conf, h', hops[1..]));
  }

  /** How many agent nodes a path visits. */
  function NodeCount(vs: seq<Visit>): nat {
    if vs == [] then 0 else (if vs[0].Node? then 1 else 0) + NodeCount(vs[1..])
  }

  lemma {:induction false} LinkedKeepsTrace(last: Ctx, proxy: Option<int>, vs: seq<Visit>, i: nat)
    requires Linked(last, proxy, vs) && i < |vs| && vs[i].Node?
    ensures vs[i].ctx.mTid == last.mTid
    ensures vs[i].ctx.mDepth == ToInt32(last.mDepth + NodeCount(vs[..i + 1]))
    decreases i
  {
    var next := if vs[0].Node? then vs[0].ctx else last;
    if i == 0 {
      assert vs[..1][1..] == [];
    } else {
      LinkedKeepsTrace(next, if vs[0].Node? then None else Some(vs[0].parentId), vs[1..], i - 1);
      assert vs[..i + 1][1..] == vs[1..][..i];
      ToInt32Adds(last.mDepth + 1, NodeCount(vs[..i + 1]) - 1);
    }
  }

  /** One trace number everywhere, and a depth that counts the agent nodes. */
  predicate OneTrace(root: Ctx, vs: seq<Visit>) {
    forall i :: 0 <= i < |vs| && vs[i].Node? ==>
      vs[i].ctx.mTid == root.mTid && vs[i].ctx.mDepth == ToInt32(root.mDepth + NodeCount(vs[..i + 1]))
  }

  /** Between adjacent agent nodes the callee knows its caller's transaction and the step of the very
      call that reached it. */
  predicate CallersKnown(vs: seq<Visit>) {
    forall i :: 0 <= i < |vs| - 1 && vs[i].Node? && vs[i + 1].Node? ==> CallerKnown(vs[i].ctx, vs[i + 1].ctx)
  }

  predicate CallerKnown(caller: Ctx, callee: Ctx) {
    && callee.mCallerTxid == caller.txid
    && callee.mCallerStepId == caller.mStepId
    && callee.mDepth == ToInt32(caller.mDepth + 1)
  }

  /** The trace-chain invariant, from a traced root along any path. */
  lemma TraceIsOneChain(conf: Conf, root: Ctx, h: Headers, hops: seq<Hop>)
    requires Lawful(conf.hexa) && conf.mtraceEnabled && forall x :: x in hops ==> ValidHop(x)
    requires InFlight(conf, h, root, root.mStepId)
    ensures var vs := Walk(conf, h, hops);
            SameKinds(hops, vs) && OneTrace(root, vs) && CallersKnown([Node(root)] + vs)
  {
    PathIsLinked(conf, h, root, None, hops);
    ChainFromLinks(root, Walk(conf, h, hops));
  }

  lemma ChainFromLinks(root: Ctx, vs: seq<Visit>)
    requires Linked(root, None, vs)
    ensures OneTrace(root, vs) && CallersKnown([Node(root)] + vs)
  {
    forall i | 0 <= i < |vs| && vs[i].Node?
      ensures vs[i].ctx.mTid == root.mTid && vs[i].ctx.mDepth == ToInt32(root.mDepth + NodeCount(vs[..i + 1]))
    {
      LinkedKeepsTrace(root, None, vs, i);
    }
    var ws := [Node(root)] + vs;
    forall i | 0 <= i < |ws| - 1 && ws[i].Node? && ws[i + 1].Node? ensures CallerKnown(ws[i].ctx, ws[i + 1].ctx) {
      if i > 0 {
        AdjacentNodes(root, None, vs, i - 1);
      }
    }
  }

  lemma {:induction false} AdjacentNodes(last: Ctx, proxy: Option<int>, vs: seq<Visit>, i: nat)
    requires Linked(last, proxy, vs) && i + 1 < |vs| && vs[i].Node? && vs[i + 1].Node?
    ensures CallerKnown(vs[i].ctx, vs[i + 1].ctx)
    decreases i
  {
    if i > 0 {
      AdjacentNodes(if vs[0].Node? then vs[0].ctx else last,
                    if vs[0].Node? then None else Some(vs[0].parentId), vs[1..], i - 1);
    } else {
      assert vs[1..][0] == vs[1];
    }
  }

  /** Behind a proxy whose id is fresh, no caller is claimed. */
  lemma {:induction false} CallerIsNeverADistantNode(last: Ctx, proxy: Option<int>, vs: seq<Visit>, i: nat, id: int)
    requires Linked(last, proxy, vs) && i + 1 < |vs| && vs[i] == Passed(id) && vs[i + 1].Node?
    requires last.mStepId != id && forall c :: Node(c) in vs ==> c.mStepId != id
    ensures vs[i + 1].ctx.mCallerTxid == 0 && vs[i + 1].ctx.mCallerStepId == id
    decreases i
  {
    if i > 0 {
      if vs[0].Node? {
        assert Node(vs[0].ctx) in vs;
      }
      assert forall c :: Node(c) in vs[1..] ==> Node(c) in vs;
      CallerIsNeverADistantNode(if vs[0].Node? then vs[0].ctx else last,
                                if vs[0].Node? then None else Some(vs[0].parentId), vs[1..], i - 1, id);
    } else {
      assert vs[1..][0] == vs[1];
    }
  }

  /** No id that a proxy puts in is the step of an agent's outgoing call. */
  predicate ProxyIdsAreFresh(root: Ctx, hops: seq<Hop>) {
    forall i :: 0 <= i < |hops| && hops[i].Proxy? ==>
      && hops[i].parentId != root.mStepId
      && forall j :: 0 <= j < |hops| && hops[j].Agent? ==> hops[i].parentId !in hops[j].calls
  }

  /** A node behind a proxy knows the proxy's id and claims no caller. */
  predicate NoDistantCaller(vs: seq<Visit>) {
    forall i :: 0 <= i < |vs| - 1 && vs[i].Passed? && vs[i + 1].Node? ==>
      vs[i + 1].ctx.mCallerTxid == 0 && vs[i + 1].ctx.mCallerStepId == vs[i].parentId
  }

  /** With fresh ids on the way, a caller that is claimed is always the immediate predecessor. */
  lemma CallerIsAdjacentOrUnknown(conf: Conf, root: Ctx, h: Headers, hops: seq<Hop>)
    requires Lawful(conf.hexa) && conf.mtraceEnabled && forall x :: x in hops ==> ValidHop(x)
    requires InFlight(conf, h, root, root.mStepId) && ProxyIdsAreFresh(root, hops)
    ensures NoDistantCaller(Walk(conf, h, hops))
  {
    PathIsLinked(conf, h, root, None, hops);
    NoDistantCallers(root, hops, Walk(conf, h, hops));
  }

  lemma NoDistantCallers(root: Ctx, hops: seq<Hop>, vs: seq<Visit>)
    requires SameKinds(hops, vs) && Linked(root, None, vs) && ProxyIdsAreFresh(root, hops)
    ensures NoDistantCaller(vs)
  {
    forall i | 0 <= i < |vs| - 1 && vs[i].Passed? && vs[i + 1].Node?
      ensures vs[i + 1].ctx.mCallerTxid == 0 && vs[i + 1].ctx.mCallerStepId == vs[i].parentId
    {
      var id := vs[i].parentId;
      assert SameKind(hops[i], vs[i]);
      forall c | Node(c) in vs ensures c.mStepId != id {
        var j :| 0 <= j < |vs| && vs[j] == Node(c);
        assert SameKind(hops[j], vs[j]);
      }
      CallerIsNeverADistantNode(root, None, vs, i, id);
    }
  }

  /** An instrumented request: the headers are made first and the profile step is started after them, so
      the step that the profile records is the one that the callee is told. */
  method RoundTrip(node: TraceCtx, conf: Conf, stepKey: int) returns (h: Headers, recorded: int)
    requires Traced(node.View()) && IsInt64(stepKey)
    modifies node
    ensures recorded == stepKey && InFlight(conf, h, node.View(), recorded)
    ensures SameButStep(old(node.View()), node.View())
  {
    h := node.GetMTrace(conf, stepKey);
    recorded := node.StartHttpc();
    assert TraceId(node.View()) == TraceId(old(node.View()));
  }

  /** A request without trace headers starts a traced path exactly when its key is sampled and nonzero: at full
      sampling always, save for the key 0, and with sampling off never. */
  lemma RootWithoutHeaders(conf: Conf, txid: int, sampleKey: int, stepKey: int)
    requires Lawful(conf.hexa) && conf.mtraceEnabled
    requires IsInt64(txid) && IsInt64(sampleKey) && IsInt64(stepKey)
    ensures var c := Accept(conf, NewCtx(txid), Headers([], [], [], []), sampleKey, stepKey);
            && c.Some? && (Traced(c.value) <==> Sampled(conf, sampleKey) && sampleKey != 0)
            && (Traced(c.value) ==> c.value.mTid == sampleKey)
            && c.value.mDepth == 0 && c.value.mCallerTxid == 0 && c.value.mCallerStepId == 0 && c.value.mCallerTraceId == []
            && (conf.mtraceRate >= 100 ==> (Traced(c.value) <==> sampleKey != 0))
            && (conf.mtraceRate <= 0 ==> !Traced(c.value))
  {
    OwnTraceId(Accept(conf, NewCtx(txid), Headers([], [], [], []), sampleKey, stepKey).value);
    SamplingLimits(conf, conf, sampleKey);
  }

  /** A request with a W3C trace-id: the low half decides.  Nonzero, it is the trace number of every node
      on the path; zero, each node draws its own. */
  lemma RootWithTraceparent(conf: Conf, txid: int, traceId: string, parent: int, sampleKey: int, stepKey: int)
    requires Lawful(conf.hexa) && conf.mtraceEnabled && |traceId| == 32 && AllHex(traceId) && IsInt64(parent)
    requires IsInt64(txid) && IsInt64(sampleKey) && IsInt64(stepKey)
    ensures var c := Accept(conf, NewCtx(txid), Headers(TraceparentText(traceId, parent), [], [], []), sampleKey, stepKey);
            && c.Some? && c.value.mCallerTraceId == traceId && c.value.mCallerStepId == parent
            && (HexOrZero(traceId[16..]) != 0 ==> c.value.mTid == HexOrZero(traceId[16..]))
            && (HexOrZero(traceId[16..]) == 0 ==> c.value.mTid == if Sampled(conf, sampleKey) then sampleKey else 0)
            && (Traced(c.value) <==> HexOrZero(traceId[16..]) != 0)
  {
    TraceparentFields(traceId, parent);
    Hex16RoundTrip(parent);
    LowHalfParses(traceId);
  }

  lemma {:induction false} HexNumberBound(s: string)
    requires AllHex(s)
    ensures HexNumber(s) < Pow16(|s|)
  {
    if s != [] {
      HexNumberBound(s[..|s| - 1]);
    }
  }

  lemma LowHalfParses(traceId: string)
    requires |traceId| == 32 && AllHex(traceId)
    ensures ParseHex(traceId[16..]).Some?
    ensures ToUint64(HexOrZero(traceId[16..])) == ParseHex(traceId[16..]).value
  {
    HexNumberBound(traceId[16..]);
    assert Pow16(4) == 0x1_0000;
    assert Pow16(8) == 0x1_0000_0000;
    assert Pow16(12) == 0x1_0000_0000_0000;
  }
}
