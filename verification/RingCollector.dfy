/** agent/agent/trace/ProfileCircularCollector.go: a ring that keeps the latest steps. */
module CircularCollector {
  import opened Common
  import opened StepTree

  datatype Ring = Ring(buffer: seq<Step>, loops: nat, position: nat, thisIndex: int, parentIndex: int)

  function Store(r: Ring, st: Step): Ring
    requires 0 < |r.buffer| && r.position <= |r.buffer|
  {
    var r1 := if r.position >= |r.buffer| then r.(loops := r.loops + 1, position := 0) else r;
    r1.(buffer := r1.buffer[r1.position := st], position := r1.position + 1, thisIndex := r1.thisIndex + 1)
  }

  function Marked(r: Ring, st: Step): Step { st.(index := r.thisIndex, parent := r.parentIndex) }

  function Pushed(r: Ring, st: Step): Ring
    requires 0 < |r.buffer| && r.position <= |r.buffer|
  {
    Store(r, Marked(r, st)).(parentIndex := r.thisIndex)
  }

  function Steps(r: Ring): seq<Step>
    requires r.position <= |r.buffer|
  {
    if r.loops == 0 then r.buffer[..r.position] else r.buffer[r.position..] + r.buffer[..r.position]
  }

  /** The ring represents the history `h` of everything ever stored. */
  predicate Holds(r: Ring, h: seq<Step>) { Represents(r.buffer, r.loops, r.position, h) }

  predicate Represents(buffer: seq<Step>, loops: nat, position: nat, h: seq<Step>) {
    var len := |buffer|;
    && (len == 0 ==> h == [] && loops == 0) && position <= len && position <= |h|
    && var base := |h| - position;
       && (loops == 0 <==> base == 0) && (loops > 0 ==> base >= len)
       && (forall i :: 0 <= i < position ==> buffer[i] == h[base + i])
       && (loops > 0 ==> forall i :: position <= i < len ==> buffer[i] == h[base - len + i])
  }

  lemma StoreHolds(r: Ring, h: seq<Step>, st: Step)
    requires Holds(r, h) && 0 < |r.buffer|
    ensures Holds(Store(r, st), h + [st])
  {
  }

  /** The ring shows the latest steps in order, across any number of wraparounds. */
  lemma RingShowsLatest(r: Ring, h: seq<Step>)
    requires Holds(r, h)
    ensures Steps(r) == LastOf(h, |r.buffer|)
  {
  }

  function NewRing(len: nat): Ring { Ring(seq(len, _ => Step(0, Plain, 0, 0, 0, 0)), 0, 0, 0, -1) }

  function RunOps(len: nat, ops: seq<Op>): (s: (Ring, seq<Step>))
    requires len > 0
    ensures |s.0.buffer| == len && s.0.position <= len
  {
    if ops == [] then (NewRing(len), [])
    else
      var (r, open) := RunOps(len, Init(ops));
      match Last(ops)
      case Push(st) => (Pushed(r, st), open + [Marked(r, st)])
      case Add(st) => (Store(r, Marked(r, st)), open)
      case Pop => if open == [] then (r, open) else (r.(parentIndex := Last(open).parent), Init(open))
  }

  /** The counters of the ring are the nesting. */
  lemma {:induction false} RingCounters(len: nat, ops: seq<Op>)
    requires len > 0 && WellNested(ops)
    ensures var (r, open) := RunOps(len, ops); Tree(r.thisIndex, r.parentIndex, open) == TreeRun(ops)
    decreases |ops|
  {
    if ops != [] {
      RingCounters(len, Init(ops));
    }
  }

  lemma RingStep(len: nat, ops: seq<Op>, h: seq<Step>)
    requires len > 0 && WellNested(ops) && ops != [] && Holds(RunOps(len, Init(ops)).0, h)
    ensures Holds(RunOps(len, ops).0, h + RecordedNow(true, ops))
  {
    RingCounters(len, Init(ops));
    var (r, open) := RunOps(len, Init(ops));
    match Last(ops)
    case Push(st) => StoreHolds(r, h, Marked(r, st));
    case Add(st) => StoreHolds(r, h, Marked(r, st));
    case Pop => assert h + [] == h;
  }

  /** After any well-nested run the ring represents the history of all started steps, numbered and nested
      as they were started. */
  lemma {:induction false} RingFollowsRun(len: nat, ops: seq<Op>)
    requires len > 0 && WellNested(ops)
    ensures Holds(RunOps(len, ops).0, Recorded(true, ops))
    decreases |ops|
  {
    if ops != [] {
      RingFollowsRun(len, Init(ops));
      RecordedSnoc(true, ops);
      RingStep(len, ops, Recorded(true, Init(ops)));
    }
  }

  /** What the ring shows after any well-nested run. */
  lemma RingShowsLatestOfRun(len: nat, ops: seq<Op>)
    requires len > 0 && WellNested(ops)
    ensures Steps(RunOps(len, ops).0) == LastOf(Recorded(true, ops), len)
  {
    RingFollowsRun(len, ops);
    RingShowsLatest(RunOps(len, ops).0, Recorded(true, ops));
  }

  /** The length counts every step ever started, across wraparounds, and so does the next index. */
  lemma {:induction false} LengthCountsStarts(len: nat, ops: seq<Op>)
    requires len > 0
    ensures var r := RunOps(len, ops).0; r.loops * len + r.position == r.thisIndex == Starts(ops)
    decreases |ops|
  {
    if ops != [] {
      LengthCountsStarts(len, Init(ops));
      var r := RunOps(len, Init(ops)).0;
      assert (r.loops + 1) * len == r.loops * len + len;
    }
  }

  class ProfileCircularCollector {
    const bufferLen: nat
    var buffer: array<Step>
    var loops: nat
    var position: nat
    var thisIndex: int
    var parentIndex: int

    ghost predicate Valid()
      reads this, buffer
    {
      bufferLen == buffer.Length && position <= bufferLen
    }

    ghost function View(): Ring
      reads this, buffer
    {
      Ring(buffer[..], loops, position, thisIndex, parentIndex)
    }

    constructor (len: nat)
      ensures Valid() && fresh(buffer) && View() == NewRing(len)
    {
      bufferLen := len;
      buffer := new Step[len](_ => Step(0, Plain, 0, 0, 0, 0));
      loops, position, thisIndex, parentIndex := 0, 0, 0, -1;
      new;
      assert buffer[..] == seq(len, _ => Step(0, Plain, 0, 0, 0, 0));
    }

    method PushStep(st: Step) returns (st': Step)
      requires Valid() && bufferLen > 0
      modifies this, buffer
      ensures Valid() && buffer == old(buffer)
      ensures st' == Marked(old(View()), st) && View() == Pushed(old(View()), st)
    {
      if position >= bufferLen {
        loops := loops + 1;
        position := 0;
      }
      st' := st.(index := thisIndex, parent := parentIndex);
      parentIndex := thisIndex;
      buffer[position] := st';
      position := position + 1;
      thisIndex := thisIndex + 1;
    }

    method AddStep(st: Step) returns (st': Step)
      requires Valid() && bufferLen > 0
      modifies this, buffer
      ensures Valid() && buffer == old(buffer)
      ensures st' == Marked(old(View()), st) && View() == Store(old(View()), st')
    {
      if position >= bufferLen {
        loops := loops + 1;
        position := 0;
      }
      st' := st.(index := thisIndex, parent := parentIndex);
      buffer[position] := st';
      position := position + 1;
      thisIndex := thisIndex + 1;
    }

    method PopStep(st: Step)
      requires Valid()
      modifies this
      ensures Valid() && buffer == old(buffer) && View() == old(View()).(parentIndex := st.parent)
    {
      parentIndex := st.parent;
    }

    method GetSteps(ghost h: seq<Step>) returns (r: seq<Step>)
      requires Valid() && Holds(View(), h)
      ensures r == LastOf(h, bufferLen)
    {
      RingShowsLatest(View(), h);
      if loops == 0 {
        if position >= buffer.Length {
          return buffer[..];
        }
        return buffer[..position];
      }
      if position == 0 {
        return buffer[..];
      }
      r := buffer[position..position + bufferLen - position];
      r := r + buffer[..position];
    }

    /** The last `n` steps.  After a wraparound the backward walk does not stop at the oldest step: asked
        for more than the ring holds, it goes round again. */
    method GetLastSteps(n: nat, ghost h: seq<Step>) returns (r: seq<Step>)
      requires Valid() && Holds(View(), h)
      ensures n <= bufferLen || loops == 0 ==> r == LastOf(h, n)
      ensures loops > 0 ==> |h| >= bufferLen && r == WalkedBack(h, n, bufferLen)
    {
      if loops == 0 {
        r := GetLastUnwrapped(n);
        RingShowsLatest(View(), h);
        return;
      }
      WalkedBackIsSuffix(h, n, bufferLen);
      r := GetLastWrapped(n, h);
    }

    method GetLastWrapped(n: nat, ghost h: seq<Step>) returns (r: seq<Step>)
      requires Valid() && Holds(View(), h) && loops > 0
      ensures |h| >= bufferLen && r == WalkedBack(h, n, bufferLen)
    {
      ghost var ring := View();
      var x: int := position - 1;
      var y: int := n - 1;
      r := [];
      while y >= 0
        invariant -1 <= y < n
        invariant x == WalkPosition(ring, n - 1 - y)
        invariant r == WalkedBack(h, n - 1 - y, bufferLen)
      {
        WalkStep(ring, h, n - 1 - y);
        if x < 0 {
          x := bufferLen - 1;
        }
        r := [buffer[x]] + r;
        y := y - 1;
        x := x - 1;
      }
    }

    method GetLastUnwrapped(n: nat) returns (r: seq<Step>)
      requires Valid()
      ensures r == LastOf(buffer[..position], n)
    {
      var cnt := if position > n then n else position;
      var x := position - cnt;
      r := [];
      for i := 0 to cnt
        invariant r == buffer[x..x + i]
      {
        r := r + [buffer[x + i]];
      }
      assert r == buffer[..position][x..];
    }

    method Length() returns (n: nat)
      requires Valid()
      ensures n == View().loops * |View().buffer| + View().position
    {
      n := loops * bufferLen + position;
    }
  }

  /** Counts 0, 1, ... `len - 1`, 0, 1, ... */
  function Cycle(k: nat, len: nat): (c: nat)
    requires len > 0
    ensures c < len && (k < len ==> c == k)
  {
    if k == 0 then 0 else if Cycle(k - 1, len) == len - 1 then 0 else Cycle(k - 1, len) + 1
  }

  /** The last `k` elements of `h`, going round after `len` of them. */
  function WalkedBack(h: seq<Step>, k: nat, len: nat): (s: seq<Step>)
    requires 0 < len <= |h|
    ensures |s| == k
  {
    if k == 0 then [] else [h[|h| - 1 - Cycle(k - 1, len)]] + WalkedBack(h, k - 1, len)
  }

  lemma {:induction false} WalkedBackIsSuffix(h: seq<Step>, k: nat, len: nat)
    requires 0 < len <= |h|
    ensures k <= len ==> WalkedBack(h, k, len) == h[|h| - k..]
  {
    if k > 0 {
      WalkedBackIsSuffix(h, k - 1, len);
    }
  }

  /** The ring position before step `k` of a backward walk. */
  function WalkPosition(r: Ring, k: nat): int
    requires 0 < |r.buffer|
  {
    if k == 0 then r.position - 1
    else
      var x := WalkPosition(r, k - 1);
      (if x < 0 then |r.buffer| - 1 else x) - 1
  }

  /** Where the backward walk reads next. */
  function ReadPosition(r: Ring, k: nat): int
    requires 0 < |r.buffer|
  {
    if WalkPosition(r, k) < 0 then |r.buffer| - 1 else WalkPosition(r, k)
  }

  lemma {:induction false} ReadPositionIs(r: Ring, k: nat)
    requires r.position <= |r.buffer| && 0 < |r.buffer|
    ensures var x, c := ReadPosition(r, k), Cycle(k, |r.buffer|);
            x == if c < r.position then r.position - 1 - c else r.position - 1 - c + |r.buffer|
  {
    if k > 0 {
      ReadPositionIs(r, k - 1);
    }
  }

  lemma WalkStep(r: Ring, h: seq<Step>, k: nat)
    requires Holds(r, h) && r.loops > 0
    ensures 0 <= ReadPosition(r, k) < |r.buffer| <= |h|
    ensures r.buffer[ReadPosition(r, k)] == h[|h| - 1 - Cycle(k, |r.buffer|)]
  {
    ReadPositionIs(r, k);
  }
}
