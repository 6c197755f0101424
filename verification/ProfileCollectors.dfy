/** A bounded buffer that is handed on when it is full; shared by the large and the split collector. */
module StepChunks {
  import opened Common
  import opened StepTree

  datatype Chunks = Chunks(sent: seq<seq<Step>>, buffer: seq<Step>)

  function Put(max: nat, c: Chunks, st: Step): Chunks {
    if |c.buffer| >= max then Chunks(c.sent + [c.buffer], [st]) else c.(buffer := c.buffer + [st])
  }

  /** Everything put so far, in order. */
  function All(c: Chunks): seq<Step> { Flatten(c.sent) + c.buffer }

  /** Each chunk handed on is exactly full. */
  predicate Full(max: nat, c: Chunks) {
    |c.buffer| <= max && forall k :: 0 <= k < |c.sent| ==> |c.sent[k]| == max
  }

  lemma PutKeepsAll(max: nat, c: Chunks, st: Step)
    requires Full(max, c) && max > 0
    ensures Full(max, Put(max, c, st)) && All(Put(max, c, st)) == All(c) + [st]
  {
  }
}

/** agent/agent/trace/ProfileLargeCollector.go */
module LargeCollector {
  import opened Common
  import opened StepTree
  import opened StepChunks

  datatype Large = Large(chunks: Chunks, position: int, parentIndex: int)

  const EMPTY := Large(Chunks([], []), 0, -1)

  function Marked(l: Large, st: Step): Step { st.(index := l.position, parent := l.parentIndex) }

  function Pushed(l: Large): Large { l.(parentIndex := l.position, position := l.position + 1) }

  function Added(max: nat, l: Large, st: Step): Large {
    l.(chunks := Put(max, l.chunks, Marked(l, st)), position := l.position + 1)
  }

  function Popped(max: nat, l: Large, st: Step): Large {
    l.(chunks := Put(max, l.chunks, st), parentIndex := st.parent)
  }

  /** The collector together with the open steps that its caller holds. */
  function RunOps(max: nat, ops: seq<Op>): (Large, seq<Step>) {
    if ops == [] then (EMPTY, [])
    else
      var (l, open) := RunOps(max, Init(ops));
      match Last(ops)
      case Push(st) => (Pushed(l), open + [Marked(l, st)])
      case Add(st) => (Added(max, l, st), open)
      case Pop => if open == [] then (l, open) else (Popped(max, l, Last(open)), Init(open))
  }

  /** After any well-nested run nothing is lost, reordered or misplaced in the tree: the chunks sent, all
      exactly full, and the buffer are the recorded steps; the counters are the nesting. */
  lemma {:induction false} LosesNothing(max: nat, ops: seq<Op>)
    requires max > 0 && WellNested(ops)
    ensures var (l, open) := RunOps(max, ops);
            && All(l.chunks) == Recorded(false, ops) && Full(max, l.chunks)
            && l.position == Starts(ops) && l.parentIndex == Innermost(ops)
            && Tree(l.position, l.parentIndex, open) == TreeRun(ops)
    decreases |ops|
  {
    CountersFollowNesting(ops);
    if ops != [] {
      LosesNothing(max, Init(ops));
      RecordedSnoc(false, ops);
      var (l, open) := RunOps(max, Init(ops));
      match Last(ops)
      case Push(_) =>
      case Add(st) => PutKeepsAll(max, l.chunks, Marked(l, st));
      case Pop => PutKeepsAll(max, l.chunks, Last(open));
    }
  }

  class ProfileLargeCollector {
    const bufferMax: nat
    var buffer: array<Step>
    var bufferPos: nat
    var splitCount: nat
    var position: int
    var parentIndex: int
    var sent: seq<(nat, seq<Step>)>  // what the step thread was given, with the split number

    ghost predicate Valid()
      reads this, buffer
    {
      && buffer.Length == bufferMax && bufferPos <= bufferMax
      && splitCount == |sent|
      && forall k :: 0 <= k < |sent| ==> sent[k].0 == k
    }

    ghost function View(): Large
      reads this, buffer
      requires Valid()
    {
      Large(Chunks(seq(|sent|, k requires 0 <= k < |sent| reads this => sent[k].1), buffer[..bufferPos]),
            position, parentIndex)
    }

    constructor (max: nat)
      ensures Valid() && fresh(buffer) && bufferMax == max && View() == EMPTY
    {
      bufferMax := max;
      buffer := new Step[max](_ => Step(0, Plain, 0, 0, 0, 0));
      bufferPos, splitCount, position, parentIndex, sent := 0, 0, 0, -1, [];
    }

    method PushStep(st: Step) returns (st': Step)
      requires Valid()
      modifies this
      ensures Valid() && buffer == old(buffer)
      ensures st' == Marked(old(View()), st) && View() == Pushed(old(View()))
    {
      st' := st.(index := position, parent := parentIndex);
      parentIndex := position;
      position := position + 1;
    }

    /** Stores a step, after handing on a full buffer. */
    method Store(st: Step)
      requires Valid() && bufferMax > 0
      modifies this, buffer
      ensures Valid() && (buffer == old(buffer) || fresh(buffer))
      ensures View() == old(View()).(chunks := Put(bufferMax, old(View()).chunks, st))
    {
      ghost var before := View();
      if bufferPos >= bufferMax {
        sent := sent + [(splitCount, buffer[..])];
        assert buffer[..] == before.chunks.buffer;
        buffer := new Step[bufferMax](_ => st);
        bufferPos := 0;
        splitCount := splitCount + 1;
      }
      buffer[bufferPos] := st;
      bufferPos := bufferPos + 1;
      assert View().chunks.sent == Put(bufferMax, before.chunks, st).sent;
      assert View().chunks.buffer == Put(bufferMax, before.chunks, st).buffer;
    }

    method AddStep(st: Step) returns (st': Step)
      requires Valid() && bufferMax > 0
      modifies this, buffer
      ensures Valid() && (buffer == old(buffer) || fresh(buffer))
      ensures st' == Marked(old(View()), st) && View() == Added(bufferMax, old(View()), st)
    {
      st' := st.(index := position, parent := parentIndex);
      Store(st');
      position := position + 1;
    }

    method PopStep(st: Step)
      requires Valid() && bufferMax > 0
      modifies this, buffer
      ensures Valid() && (buffer == old(buffer) || fresh(buffer))
      ensures View() == Popped(bufferMax, old(View()), st)
    {
      Store(st);
      parentIndex := st.parent;
    }

    method GetLastSteps(n: nat) returns (r: seq<Step>)
      requires Valid()
      ensures var all := View().chunks.buffer; r == all[if n < |all| then |all| - n else 0..]
    {
      var cnt := if bufferPos > n then n else bufferPos;
      var x := bufferPos - cnt;
      r := [];
      for i := 0 to cnt
        invariant r == buffer[x..x + i]
      {
        r := r + [buffer[x + i]];
      }
      assert r == buffer[..bufferPos][x..];
    }

    method GetSteps() returns (r: seq<Step>)
      requires Valid()
      ensures r == View().chunks.buffer
    {
      r := [];
      if bufferPos > 0 {
        r := r + buffer[..bufferPos];
      }
    }
  }
}

/** agent/agent/trace/ProfileSplitTxCollector.go: full chunks are sent as virtual child transactions, and
    a summary step for each goes to a second buffer of the parent. */
module SplitTxCollector {
  import opened Common
  import opened StepTree
  import opened StepChunks
  import HeaderText

  datatype ChildTx = ChildTx(num: int, txid: int, start: int, elapsed: int, steps: seq<Step>)

  datatype Split = Split(children: seq<ChildTx>, buffer: seq<Step>, parents: Chunks,
                         childIndex: int, parentIndex: int, childStart: int)

  const EMPTY := Split([], [], Chunks([], []), 0, -1, 0)

  /** The summary of a child: its times are cut to 32 bits. */
  function Summary(c: ChildTx): Step {
    Step(0, Virtual(c.num, c.txid), HeaderText.ToInt32(c.start), HeaderText.ToInt32(c.elapsed), 0, 0)
  }

  /** Sends the buffer at elapsed time `now` under the new transaction id `txid`. */
  function SendChild(max: nat, s: Split, now: int, txid: int): Split {
    var c := ChildTx(|s.children| + 1, txid, s.childStart, now - s.childStart, s.buffer);
    s.(children := s.children + [c], buffer := [], parents := Put(max, s.parents, Summary(c)), childStart := now)
  }

  function Record(max: nat, s: Split, st: Step, now: int, txid: int): Split {
    var s1 := if |s.buffer| >= max then SendChild(max, s, now, txid) else s;
    s1.(buffer := s1.buffer + [st])
  }

  function Marked(s: Split, st: Step): Step { st.(index := s.childIndex, parent := s.parentIndex) }

  function Pushed(s: Split): Split { s.(parentIndex := s.childIndex, childIndex := s.childIndex + 1) }

  function Added(max: nat, s: Split, st: Step, now: int, txid: int): Split {
    Record(max, s, Marked(s, st), now, txid).(childIndex := s.childIndex + 1)
  }

  function Popped(max: nat, s: Split, st: Step, now: int, txid: int): Split {
    Record(max, s, st, now, txid).(parentIndex := st.parent)
  }

  /** An operation, the transaction's elapsed time at that moment, and the next free transaction id. */
  datatype Call = Call(op: Op, now: int, txid: int)

  function Ops(calls: seq<Call>): (ops: seq<Op>)
    ensures |ops| == |calls|
  {
    if calls == [] then [] else Ops(Init(calls)) + [Last(calls).op]
  }

  function RunCalls(max: nat, calls: seq<Call>): (Split, seq<Step>) {
    if calls == [] then (EMPTY, [])
    else
      var (s, open) := RunCalls(max, Init(calls));
      var c := Last(calls);
      match c.op
      case Push(st) => (Pushed(s), open + [Marked(s, st)])
      case Add(st) => (Added(max, s, st, c.now, c.txid), open)
      case Pop => if open == [] then (s, open) else (Popped(max, s, Last(open), c.now, c.txid), Init(open))
  }

  function StepsOf(cs: seq<ChildTx>): seq<Step> {
    if cs == [] then [] else StepsOf(Init(cs)) + Last(cs).steps
  }

  function Summaries(cs: seq<ChildTx>): seq<Step> {
    if cs == [] then [] else Summaries(Init(cs)) + [Summary(Last(cs))]
  }

  /** The children abut from 0 to `end`: each begins where the one before it ended. */
  predicate Abut(cs: seq<ChildTx>, end: int) {
    if cs == [] then end == 0
    else Abut(Init(cs), Last(cs).start) && Last(cs).start + Last(cs).elapsed == end
  }

  predicate Numbered(max: nat, cs: seq<ChildTx>) {
    forall k :: 0 <= k < |cs| ==> cs[k].num == k + 1 && |cs[k].steps| == max
  }

  /** What every run keeps, apart from the tree. */
  predicate Kept(max: nat, s: Split) {
    && |s.buffer| <= max && Numbered(max, s.children)
    && Full(max, s.parents) && All(s.parents) == Summaries(s.children)
    && Abut(s.children, s.childStart)
  }

  lemma RecordKeeps(max: nat, s: Split, st: Step, now: int, txid: int)
    requires max > 0 && Kept(max, s)
    ensures var s' := Record(max, s, st, now, txid);
            Kept(max, s') && StepsOf(s'.children) + s'.buffer == StepsOf(s.children) + s.buffer + [st]
  {
    if |s.buffer| >= max {
      var c := ChildTx(|s.children| + 1, txid, s.childStart, now - s.childStart, s.buffer);
      PutKeepsAll(max, s.parents, Summary(c));
      assert Init(s.children + [c]) == s.children;
    }
  }

  /** After any well-nested run, at whatever times: the child chunks, all exactly full and numbered from 1,
      followed by the child buffer, are the recorded steps; the summaries, in full parent chunks, describe
      them one by one; and the intervals of the children abut from 0 to `childStart`. */
  lemma {:induction false} LosesNothingAndAbuts(max: nat, calls: seq<Call>)
    requires max > 0 && WellNested(Ops(calls))
    ensures var (s, open) := RunCalls(max, calls);
            && StepsOf(s.children) + s.buffer == Recorded(false, Ops(calls))
            && Kept(max, s)
            && Tree(s.childIndex, s.parentIndex, open) == TreeRun(Ops(calls))
            && s.parentIndex == Innermost(Ops(calls))
    decreases |calls|
  {
    var ops := Ops(calls);
    CountersFollowNesting(ops);
    if calls != [] {
      assert Init(ops) == Ops(Init(calls));
      LosesNothingAndAbuts(max, Init(calls));
      RecordedSnoc(false, ops);
      var (s, open) := RunCalls(max, Init(calls));
      var c := Last(calls);
      match c.op
      case Push(_) =>
      case Add(st) => RecordKeeps(max, s, Marked(s, st), c.now, c.txid);
      case Pop => RecordKeeps(max, s, Last(open), c.now, c.txid);
    }
  }

  /** Read off `Abut` by position: the first child starts at 0, and each later one where its predecessor
      ended. */
  lemma {:induction false} IntervalsAbut(cs: seq<ChildTx>, end: int)
    requires Abut(cs, end)
    ensures cs != [] ==> cs[0].start == 0 && Last(cs).start + Last(cs).elapsed == end
    ensures forall k :: 0 <= k < |cs| - 1 ==> cs[k].start + cs[k].elapsed == cs[k + 1].start
    decreases |cs|
  {
    if cs != [] {
      IntervalsAbut(Init(cs), Last(cs).start);
    }
  }

  // ---------------------------------------------------------------------------------------------
  // When the intervals tile the time.

  predicate Forward(cs: seq<ChildTx>) { forall k :: 0 <= k < |cs| ==> cs[k].elapsed >= 0 }

  /** The call hands the child buffer on. */
  predicate Sends(max: nat, s: Split, open: seq<Step>, c: Call) {
    |s.buffer| >= max && (c.op.Add? || (c.op.Pop? && open != []))
  }

  /** Whenever a child is sent, the clock has not fallen behind the end of the one before it. */
  predicate OnwardCalls(max: nat, calls: seq<Call>) {
    calls == [] ||
    (OnwardCalls(max, Init(calls))
     && var (s, open) := RunCalls(max, Init(calls));
        Sends(max, s, open, Last(calls)) ==> Last(calls).now >= s.childStart)
  }

  /** The exact condition for every interval to have a length, from the clock and `childStart` before each
      call. */
  lemma {:induction false} ForwardExactlyIfOnward(max: nat, calls: seq<Call>)
    ensures Forward(RunCalls(max, calls).0.children) <==> OnwardCalls(max, calls)
    decreases |calls|
  {
    if calls != [] {
      ForwardExactlyIfOnward(max, Init(calls));
      var (s, open) := RunCalls(max, Init(calls));
      var (s', _) := RunCalls(max, calls);
      var c := Last(calls);
      if Sends(max, s, open, c) {
        var child := ChildTx(|s.children| + 1, c.txid, s.childStart, c.now - s.childStart, s.buffer);
        assert s'.children == s.children + [child];
        ForwardSnoc(s.children, child);
      } else {
        assert s'.children == s.children;
      }
    }
  }

  lemma ForwardSnoc(cs: seq<ChildTx>, c: ChildTx)
    ensures Forward(cs + [c]) <==> Forward(cs) && c.elapsed >= 0
  {
    assert forall k :: 0 <= k < |cs| ==> (cs + [c])[k] == cs[k];
    assert (cs + [c])[|cs|] == c;
  }

  /** A clock that starts at 0 or later and never steps back. */
  predicate Steady(calls: seq<Call>) {
    forall i, j :: 0 <= i <= j < |calls| ==> 0 <= calls[i].now <= calls[j].now
  }

  lemma {:induction false} SteadyIsOnward(max: nat, calls: seq<Call>)
    requires Steady(calls)
    ensures OnwardCalls(max, calls)
    ensures 0 <= RunCalls(max, calls).0.childStart <= if calls == [] then 0 else Last(calls).now
    decreases |calls|
  {
    if calls != [] {
      SteadyIsOnward(max, Init(calls));
      assert calls[|calls| - 1].now >= 0;
      if |calls| > 1 {
        assert calls[|calls| - 2].now <= calls[|calls| - 1].now;
      }
    }
  }

  predicate Covers(c: ChildTx, t: int) { c.start <= t < c.start + c.elapsed }

  lemma {:induction false} WithinEnd(cs: seq<ChildTx>, end: int, k: nat)
    requires Abut(cs, end) && Forward(cs) && k < |cs|
    ensures 0 <= cs[k].start && cs[k].start + cs[k].elapsed <= end
    decreases |cs|
  {
    assert Forward(Init(cs));
    if k < |cs| - 1 {
      WithinEnd(Init(cs), Last(cs).start, k);
    } else if |cs| > 1 {
      WithinEnd(Init(cs), Last(cs).start, |cs| - 2);
    }
    assert cs[|cs| - 1].elapsed >= 0;
  }

  /** Intervals that abut and go forward tile the time: every moment from 0 up to the end is in exactly one
      child, and no other moment in any. */
  lemma {:induction false} TilesExactly(cs: seq<ChildTx>, end: int, t: int) returns (k: nat)
    requires Abut(cs, end) && Forward(cs)
    ensures 0 <= t < end ==> k < |cs| && Covers(cs[k], t)
    ensures forall j :: 0 <= j < |cs| && Covers(cs[j], t) ==> 0 <= t < end && j == k
    decreases |cs|
  {
    k := 0;
    if cs != [] {
      var last := Last(cs);
      assert Forward(Init(cs)) && cs[|cs| - 1].elapsed >= 0;
      k := TilesExactly(Init(cs), last.start, t);
      assert forall j :: 0 <= j < |cs| - 1 ==> cs[j] == Init(cs)[j];
      if |cs| > 1 {
        WithinEnd(Init(cs), last.start, |cs| - 2);
      }
      if t >= last.start && last.start >= 0 {
        k := |cs| - 1;
      }
    }
  }

  /** After any well-nested run with a clock that never steps back, the children tile the time from 0 to
      `childStart` without gap or overlap. */
  lemma SteadyClockTiles(max: nat, calls: seq<Call>, t: int) returns (k: nat)
    requires max > 0 && WellNested(Ops(calls)) && Steady(calls)
    ensures var s := RunCalls(max, calls).0;
            && Forward(s.children)
            && (0 <= t < s.childStart ==> k < |s.children| && Covers(s.children[k], t))
            && forall j :: 0 <= j < |s.children| && Covers(s.children[j], t) ==> 0 <= t < s.childStart && j == k
  {
    LosesNothingAndAbuts(max, calls);
    SteadyIsOnward(max, calls);
    ForwardExactlyIfOnward(max, calls);
    k := TilesExactly(RunCalls(max, calls).0.children, RunCalls(max, calls).0.childStart, t);
  }

  /** How many children a moment is in; and how many go back over it, which is a negative length. */
  function CoverCount(cs: seq<ChildTx>, t: int): nat {
    if cs == [] then 0 else CoverCount(Init(cs), t) + if Covers(Last(cs), t) then 1 else 0
  }

  predicate GoesBackOver(c: ChildTx, t: int) { c.start + c.elapsed <= t < c.start }

  function BackCount(cs: seq<ChildTx>, t: int): nat {
    if cs == [] then 0 else BackCount(Init(cs), t) + if GoesBackOver(Last(cs), t) then 1 else 0
  }

  /** Every moment from 0 up to the end is in exactly one child, and no other moment in any. */
  ghost predicate Tiles(cs: seq<ChildTx>, end: int) {
    forall t :: CoverCount(cs, t) == if 0 <= t < end then 1 else 0
  }

  /** Walking from 0 to the end over intervals that abut, a moment is passed forwards once more often than
      backwards if it lies on the way, and as often if not. */
  lemma {:induction false} PassedOnce(cs: seq<ChildTx>, end: int, t: int)
    requires Abut(cs, end)
    ensures CoverCount(cs, t) - BackCount(cs, t) == if 0 <= t < end then 1 else if end <= t < 0 then -1 else 0
    decreases |cs|
  {
    if cs != [] {
      PassedOnce(Init(cs), Last(cs).start, t);
    }
  }

  lemma {:induction false} BackSomewhere(cs: seq<ChildTx>, k: nat, t: int)
    requires k < |cs| && GoesBackOver(cs[k], t)
    ensures BackCount(cs, t) > 0
    decreases |cs|
  {
    if k < |cs| - 1 {
      BackSomewhere(Init(cs), k, t);
    }
  }

  lemma {:induction false} NeverBack(cs: seq<ChildTx>, t: int)
    requires Forward(cs)
    ensures BackCount(cs, t) == 0
    decreases |cs|
  {
    if cs != [] {
      assert cs[|cs| - 1].elapsed >= 0;
      NeverBack(Init(cs), t);
    }
  }

  /** Intervals that abut tile the time up to their end if and only if none has a negative length. */
  lemma TilesExactlyIfForward(cs: seq<ChildTx>, end: int)
    requires Abut(cs, end) && end >= 0
    ensures Tiles(cs, end) <==> Forward(cs)
  {
    if Forward(cs) {
      forall t ensures CoverCount(cs, t) == if 0 <= t < end then 1 else 0 {
        PassedOnce(cs, end, t);
        NeverBack(cs, t);
      }
    } else {
      var k :| 0 <= k < |cs| && cs[k].elapsed < 0;
      var t := cs[k].start - 1;
      PassedOnce(cs, end, t);
      BackSomewhere(cs, k, t);
    }
  }

  /** The exact condition for the children of a run to tile the time from 0 to `childStart`. */
  lemma TilesExactlyIfOnward(max: nat, calls: seq<Call>)
    requires max > 0 && WellNested(Ops(calls)) && RunCalls(max, calls).0.childStart >= 0
    ensures var s := RunCalls(max, calls).0; Tiles(s.children, s.childStart) <==> OnwardCalls(max, calls)
  {
    LosesNothingAndAbuts(max, calls);
    ForwardExactlyIfOnward(max, calls);
    TilesExactlyIfForward(RunCalls(max, calls).0.children, RunCalls(max, calls).0.childStart);
  }

  lemma RunSnoc(max: nat, calls: seq<Call>, st: Step, now: int, txid: int)
    ensures RunCalls(max, calls + [Call(Add(st), now, txid)])
            == var (s, open) := RunCalls(max, calls); (Added(max, s, st, now, txid), open)
  {
    assert Init(calls + [Call(Add(st), now, txid)]) == calls;
  }

  /** A clock that steps back: with room for one step and calls at 0, 100, 50 and 120, the second child has a
      negative length, and the first and the third overlap. */
  lemma ClockBackOverlaps(st: Step)
    ensures var calls := [] + [Call(Add(st), 0, 1)] + [Call(Add(st), 100, 2)] + [Call(Add(st), 50, 3)] + [Call(Add(st), 120, 4)];
            var cs := RunCalls(1, calls).0.children;
            |cs| == 3 && cs[1].elapsed == -50 && Covers(cs[0], 60) && Covers(cs[2], 60)
  {
    var c1 := [] + [Call(Add(st), 0, 1)];
    var c2 := c1 + [Call(Add(st), 100, 2)];
    var c3 := c2 + [Call(Add(st), 50, 3)];
    RunSnoc(1, [], st, 0, 1);
    RunSnoc(1, c1, st, 100, 2);
    RunSnoc(1, c2, st, 50, 3);
    RunSnoc(1, c3, st, 120, 4);
  }

  /** The summary of a child names its number and transaction, has no place in the tree, and gives the start and
      the length, each exactly if it fits 32 bits. */
  predicate Summarises(st: Step, c: ChildTx) {
    && st.desc == Virtual(c.num, c.txid) && st.index == st.parent == 0
    && (HeaderText.IsInt32(c.start) <==> st.startTime == c.start)
    && (HeaderText.IsInt32(c.elapsed) <==> st.elapsed == c.elapsed)
  }

  lemma {:induction false} SummaryOf(cs: seq<ChildTx>, k: nat)
    requires k < |cs|
    ensures |Summaries(cs)| == |cs| && Summarises(Summaries(cs)[k], cs[k])
    decreases |cs|
  {
    if k < |cs| - 1 {
      SummaryOf(Init(cs), k);
    } else if |cs| > 1 {
      SummaryOf(Init(cs), 0);
    }
  }

  /** A call that finds the buffer full sends it as a child, which ends at that moment under the new transaction
      id; any other call sends nothing. */
  lemma ChildOfCall(max: nat, calls: seq<Call>)
    requires max > 0 && calls != []
    ensures var (s, open) := RunCalls(max, Init(calls));
            var s', c := RunCalls(max, calls).0, Last(calls);
            if Sends(max, s, open, c) then
              && |s'.children| == |s.children| + 1 && Init(s'.children) == s.children
              && var child := Last(s'.children);
                 && child.steps == s.buffer && child.txid == c.txid && child.num == |s'.children|
                 && child.start == s.childStart && child.start + child.elapsed == c.now == s'.childStart
            else s'.children == s.children && s'.childStart == s.childStart && s'.parents == s.parents
  {
  }

  class ProfileSplitTxCollector {
    const bufferMax: nat
    var bufferParent: array<Step>
    var bufferChild: array<Step>
    var bufferParentPos: nat
    var bufferChildPos: nat
    var parentStepSplitCount: nat
    var childSplitTxNum: nat
    var parentIndex: int
    var childIndex: int
    var childStart: int
    var sentChildren: seq<ChildTx>             // what the virtual-transaction thread was given
    var sentParents: seq<seq<Step>>            // what the step thread was given

    ghost predicate Valid()
      reads this, bufferParent, bufferChild
    {
      && bufferParent != bufferChild
      && bufferParent.Length == bufferMax && bufferChild.Length == bufferMax
      && bufferParentPos <= bufferMax && bufferChildPos <= bufferMax
      && parentStepSplitCount == |sentParents| && childSplitTxNum == |sentChildren| + 1
    }

    ghost function View(): Split
      reads this, bufferParent, bufferChild
      requires Valid()
    {
      Split(sentChildren, bufferChild[..bufferChildPos], Chunks(sentParents, bufferParent[..bufferParentPos]),
            childIndex, parentIndex, childStart)
    }

    constructor (max: nat)
      ensures Valid() && bufferMax == max && View() == EMPTY
      ensures fresh(bufferParent) && fresh(bufferChild)
    {
      bufferMax := max;
      var none := Step(0, Plain, 0, 0, 0, 0);
      bufferParent := new Step[max](_ => none);
      bufferChild := new Step[max](_ => none);
      bufferParentPos, bufferChildPos, parentStepSplitCount, childSplitTxNum := 0, 0, 0, 1;
      parentIndex, childIndex, childStart, sentChildren, sentParents := -1, 0, 0, [], [];
    }

    method PushStep(st: Step) returns (st': Step)
      requires Valid()
      modifies this
      ensures Valid() && bufferParent == old(bufferParent) && bufferChild == old(bufferChild)
      ensures st' == Marked(old(View()), st) && View() == Pushed(old(View()))
    {
      st' := st.(parent := parentIndex, index := childIndex);
      parentIndex := st'.index;
      childIndex := childIndex + 1;
    }

    /** Stores a summary, after handing on a full parent buffer. */
    method StoreSummary(st: Step)
      requires Valid() && bufferMax > 0
      modifies this`bufferParent, this`bufferParentPos, this`parentStepSplitCount, this`sentParents, bufferParent
      ensures Valid() && View() == old(View()).(parents := Put(bufferMax, old(View()).parents, st))
      ensures bufferParent == old(bufferParent) || fresh(bufferParent)
    {
      ghost var before := View();
      if bufferParentPos >= bufferMax {
        sentParents := sentParents + [bufferParent[..]];
        assert bufferParent[..] == before.parents.buffer;
        bufferParent := new Step[bufferMax](_ => st);
        bufferParentPos := 0;
        parentStepSplitCount := parentStepSplitCount + 1;
      }
      bufferParent[bufferParentPos] := st;
      bufferParentPos := bufferParentPos + 1;
      assert View().parents.buffer == Put(bufferMax, before.parents, st).buffer;
      assert View().buffer == before.buffer;
    }

    /** Sends the child buffer and leaves an empty one. */
    method Send(now: int, txid: int)
      requires Valid() && bufferMax > 0
      modifies this, bufferParent
      ensures Valid() && View() == SendChild(bufferMax, old(View()), now, txid)
      ensures fresh(bufferChild) && (bufferParent == old(bufferParent) || fresh(bufferParent))
    {
      var elapsed := now - childStart;
      var c := ChildTx(childSplitTxNum, txid, childStart, elapsed, bufferChild[..bufferChildPos]);
      var st := Step(0, Virtual(childSplitTxNum, txid), HeaderText.ToInt32(childStart), HeaderText.ToInt32(elapsed), 0, 0);
      StoreSummary(st);
      sentChildren := sentChildren + [c];
      childStart := now;
      bufferChild := new Step[bufferMax](_ => st);
      bufferChildPos := 0;
      childSplitTxNum := childSplitTxNum + 1;
    }

    /** Stores a step, after sending a full buffer. */
    method Store(st: Step, now: int, txid: int)
      requires Valid() && bufferMax > 0
      modifies this, bufferParent, bufferChild
      ensures Valid() && View() == Record(bufferMax, old(View()), st, now, txid)
      ensures bufferChild == old(bufferChild) || fresh(bufferChild)
      ensures bufferParent == old(bufferParent) || fresh(bufferParent)
    {
      if bufferChildPos >= bufferMax {
        Send(now, txid);
      }
      ghost var s := View();
      bufferChild[bufferChildPos] := st;
      bufferChildPos := bufferChildPos + 1;
      assert View().buffer == s.buffer + [st];
    }

    method AddStep(st: Step, now: int, txid: int) returns (st': Step)
      requires Valid() && bufferMax > 0
      modifies this, bufferParent, bufferChild
      ensures Valid() && st' == Marked(old(View()), st) && View() == Added(bufferMax, old(View()), st, now, txid)
      ensures bufferChild == old(bufferChild) || fresh(bufferChild)
      ensures bufferParent == old(bufferParent) || fresh(bufferParent)
    {
      st' := st.(parent := parentIndex, index := childIndex);
      Store(st', now, txid);
      childIndex := childIndex + 1;
    }

    method PopStep(st: Step, now: int, txid: int)
      requires Valid() && bufferMax > 0
      modifies this, bufferParent, bufferChild
      ensures Valid() && View() == Popped(bufferMax, old(View()), st, now, txid)
      ensures bufferChild == old(bufferChild) || fresh(bufferChild)
      ensures bufferParent == old(bufferParent) || fresh(bufferParent)
    {
      Store(st, now, txid);
      parentIndex := st.parent;
    }

    /** What the transaction's own profile shows: the summaries not yet handed on, then the steps not yet
        sent. */
    method GetSteps() returns (r: seq<Step>)
      requires Valid()
      ensures r == View().parents.buffer + View().buffer
    {
      if bufferParentPos == 0 && bufferChildPos == 0 {
        return [];
      }
      if bufferParentPos == 0 {
        if bufferChildPos >= bufferChild.Length {
          return bufferChild[..];
        }
        return bufferChild[..bufferChildPos];
      }
      if bufferChildPos == 0 {
        return bufferParent[..bufferParentPos];
      }
      return bufferParent[..bufferParentPos] + bufferChild[..bufferChildPos];
    }

    method GetSplitCount() returns (n: nat)
      requires Valid()
      ensures n == |View().parents.sent|
    {
      n := parentStepSplitCount;
    }
  }
}
