/** Profile steps and the tree they form (the index and parent fields that every step collector of
    agent/agent/trace assigns).

    A run of a collector is a sequence of operations.  `OpenAt`, `Starts`, `Innermost` and `RecordedAt`
    describe the nesting of a run by looking at the operations alone, without any collector; the lemmas
    say that the two counters a collector keeps reproduce exactly that nesting. */
module StepTree {
  import opened Common

  /** `Virtual` describes the summary step that stands for a whole chunk of steps. */
  datatype Desc = Plain | Virtual(num: int, txid: int)

  datatype Step = Step(id: int, desc: Desc, startTime: int, elapsed: int, index: int, parent: int)

  /** `Pop` ends the step that was pushed last and is still open; the caller holds it. */
  datatype Op = Push(st: Step) | Add(st: Step) | Pop

  // ---------------------------------------------------------------------------------------------
  // The nesting, from the operations alone.

  /** The positions of the pushes that are still open, outermost first. */
  function OpenAt(ops: seq<Op>): (r: seq<nat>)
    ensures forall i :: 0 <= i < |r| ==> r[i] < |ops| && ops[r[i]].Push?
  {
    if ops == [] then []
    else
      var before := OpenAt(Init(ops));
      match Last(ops)
      case Push(_) => before + [|ops| - 1]
      case Add(_) => before
      case Pop => if before == [] then [] else Init(before)
  }

  /** Every `Pop` has a step to end. */
  predicate WellNested(ops: seq<Op>) {
    ops == [] || (WellNested(Init(ops)) && (Last(ops).Pop? ==> OpenAt(Init(ops)) != []))
  }

  /** How many steps have started. */
  function Starts(ops: seq<Op>): nat {
    if ops == [] then 0 else Starts(Init(ops)) + if Last(ops).Pop? then 0 else 1
  }

  /** The index of the innermost open step, -1 outside every step. */
  function Innermost(ops: seq<Op>): int {
    var o := OpenAt(ops);
    if o == [] then -1 else Starts(ops[..Last(o)])
  }

  /** The step that starts at position `k`, numbered in order of starting and hung under the step
      that encloses it. */
  function Stamped(ops: seq<Op>, k: nat): Step
    requires k < |ops| && !ops[k].Pop?
  {
    ops[k].st.(index := Starts(ops[..k]), parent := Innermost(ops[..k]))
  }

  /** The starting positions of the recorded steps, in the order of recording.  A pushed step is
      recorded when it starts or when it ends, depending on the collector. */
  function RecordedAt(atStart: bool, ops: seq<Op>): (r: seq<nat>)
    ensures forall i :: 0 <= i < |r| ==> r[i] < |ops| && !ops[r[i]].Pop?
  {
    if ops == [] then []
    else
      var before := RecordedAt(atStart, Init(ops));
      match Last(ops)
      case Push(_) => if atStart then before + [|ops| - 1] else before
      case Add(_) => before + [|ops| - 1]
      case Pop => if atStart || OpenAt(Init(ops)) == [] then before else before + [Last(OpenAt(Init(ops)))]
  }

  function StampAll(ops: seq<Op>, ks: seq<nat>): seq<Step>
    requires forall i :: 0 <= i < |ks| ==> ks[i] < |ops| && !ops[ks[i]].Pop?
  {
    seq(|ks|, i requires 0 <= i < |ks| => Stamped(ops, ks[i]))
  }

  /** What a run records. */
  function Recorded(atStart: bool, ops: seq<Op>): seq<Step> {
    StampAll(ops, RecordedAt(atStart, ops))
  }

  // ---------------------------------------------------------------------------------------------
  // The two counters.

  /** `next` and `parent` are the collector's; `open` are the steps the caller holds. */
  datatype Tree = Tree(next: int, parent: int, open: seq<Step>)

  const ROOT := Tree(0, -1, [])

  function Stamp(t: Tree, st: Step): Step { st.(index := t.next, parent := t.parent) }

  function TreeStep(t: Tree, op: Op): Tree {
    match op
    case Push(st) => Tree(t.next + 1, t.next, t.open + [Stamp(t, st)])
    case Add(_) => t.(next := t.next + 1)
    case Pop => if t.open == [] then t else t.(parent := Last(t.open).parent, open := Init(t.open))
  }

  function TreeRun(ops: seq<Op>): Tree {
    if ops == [] then ROOT else TreeStep(TreeRun(Init(ops)), Last(ops))
  }

  lemma StampedInPrefix(ops: seq<Op>, n: nat, k: nat)
    requires k < n <= |ops| && !ops[k].Pop?
    ensures Stamped(ops[..n], k) == Stamped(ops, k)
  {
    assert ops[..n][..k] == ops[..k];
  }

  lemma StampAllInPrefix(ops: seq<Op>, ks: seq<nat>)
    requires ops != [] && forall i :: 0 <= i < |ks| ==> ks[i] < |ops| - 1 && !ops[ks[i]].Pop?
    ensures StampAll(Init(ops), ks) == StampAll(ops, ks)
  {
    forall i | 0 <= i < |ks| ensures StampAll(Init(ops), ks)[i] == StampAll(ops, ks)[i] {
      StampedInPrefix(ops, |ops| - 1, ks[i]);
    }
  }

  lemma StampAllSnoc(ops: seq<Op>, ks: seq<nat>, k: nat)
    requires k < |ops| && !ops[k].Pop?
    requires forall i :: 0 <= i < |ks| ==> ks[i] < |ops| && !ops[ks[i]].Pop?
    ensures StampAll(ops, ks + [k]) == StampAll(ops, ks) + [Stamped(ops, k)]
  {
  }

  /** What was open when an open step started are the steps around it. */
  lemma {:induction false} OpenBefore(ops: seq<Op>, i: nat)
    requires WellNested(ops) && i < |OpenAt(ops)|
    ensures OpenAt(ops[..OpenAt(ops)[i]]) == OpenAt(ops)[..i]
    decreases |ops|
  {
    var o, before := OpenAt(ops), OpenAt(Init(ops));
    if Last(ops).Push? && i == |o| - 1 {
      assert ops[..o[i]] == Init(ops);
    } else {
      OpenBefore(Init(ops), i);
      assert o[i] == before[i];
      assert Init(ops)[..o[i]] == ops[..o[i]];
    }
  }

  /** The counters are the nesting: the next index counts the starts, the parent is the innermost open
      step, and the caller holds the open steps as they were stamped. */
  predicate Follows(ops: seq<Op>) {
    TreeRun(ops) == Tree(Starts(ops), Innermost(ops), StampAll(ops, OpenAt(ops)))
  }

  lemma PushFollows(ops: seq<Op>)
    requires ops != [] && Last(ops).Push? && Follows(Init(ops))
    ensures Follows(ops)
  {
    var o := OpenAt(Init(ops));
    StampAllInPrefix(ops, o);
    StampAllSnoc(ops, o, |ops| - 1);
  }

  lemma AddFollows(ops: seq<Op>)
    requires ops != [] && Last(ops).Add? && Follows(Init(ops))
    ensures Follows(ops)
  {
    StampAllInPrefix(ops, OpenAt(Init(ops)));
    InnermostKept(ops);
  }

  lemma PopFollows(ops: seq<Op>)
    requires WellNested(ops) && ops != [] && Last(ops).Pop? && Follows(Init(ops))
    ensures Follows(ops)
  {
    var o := OpenAt(Init(ops));
    StampAllInPrefix(ops, o);
    InnermostAfterPop(ops);
    StampAllSnoc(ops, Init(o), Last(o));
    assert o == Init(o) + [Last(o)];
  }

  lemma {:induction false} CountersFollowNesting(ops: seq<Op>)
    requires WellNested(ops)
    ensures Follows(ops)
    decreases |ops|
  {
    if ops != [] {
      CountersFollowNesting(Init(ops));
      match Last(ops)
      case Push(_) => PushFollows(ops);
      case Add(_) => AddFollows(ops);
      case Pop => PopFollows(ops);
    }
  }

  lemma {:induction false} InnermostKept(ops: seq<Op>)
    requires ops != [] && OpenAt(ops) == OpenAt(Init(ops))
    ensures Innermost(ops) == Innermost(Init(ops))
  {
    var o := OpenAt(ops);
    if o != [] {
      assert Init(ops)[..Last(o)] == ops[..Last(o)];
    }
  }

  lemma InnermostAfterPop(ops: seq<Op>)
    requires WellNested(ops) && ops != [] && Last(ops).Pop?
    ensures var o := OpenAt(Init(ops)); Innermost(ops) == Stamped(ops, Last(o)).parent
  {
    var before := Init(ops);
    var o := OpenAt(before);
    OpenBefore(before, |o| - 1);
    assert before[..Last(o)] == ops[..Last(o)];
    var outer := Init(o);
    if outer != [] {
      OpenBefore(before, |o| - 2);
      assert Last(outer) == o[|o| - 2];
      assert ops[..Last(o)][..Last(outer)] == ops[..Last(outer)];
    }
  }

  // ---------------------------------------------------------------------------------------------
  // What follows for the tree.

  lemma {:induction false} StartsGrows(ops: seq<Op>, j: nat, k: nat)
    requires j < k <= |ops| && !ops[j].Pop?
    ensures Starts(ops[..j]) < Starts(ops[..k])
    decreases k
  {
    assert Init(ops[..k]) == ops[..k - 1];
    if j < k - 1 {
      StartsGrows(ops, j, k - 1);
    }
  }

  /** A step's parent has a smaller index. */
  lemma ParentBeforeChild(ops: seq<Op>, k: nat)
    requires k < |ops| && !ops[k].Pop?
    ensures -1 <= Stamped(ops, k).parent < Stamped(ops, k).index
  {
    var o := OpenAt(ops[..k]);
    if o != [] {
      assert ops[..k][..Last(o)] == ops[..Last(o)];
      StartsGrows(ops, Last(o), k);
    }
  }

  lemma NoDuplicatesSnoc(s: seq<nat>, x: nat)
    requires NoDuplicates(s) && x !in s
    ensures NoDuplicates(s + [x])
  {
    assert forall i :: 0 <= i < |s| ==> s[i] in s;
  }

  lemma LastIsAlone(s: seq<nat>)
    requires NoDuplicates(s) && s != []
    ensures NoDuplicates(Init(s)) && Last(s) !in Init(s) && forall x :: x in Init(s) ==> x in s
  {
  }

  /** No step is recorded twice, nor while it is still to be recorded. */
  lemma {:induction false} RecordedOnce(atStart: bool, ops: seq<Op>)
    ensures NoDuplicates(RecordedAt(atStart, ops)) && NoDuplicates(OpenAt(ops))
    ensures !atStart ==> forall k :: k in OpenAt(ops) ==> k !in RecordedAt(atStart, ops)
    decreases |ops|
  {
    if ops != [] {
      RecordedOnce(atStart, Init(ops));
      var o, r, n := OpenAt(Init(ops)), RecordedAt(atStart, Init(ops)), |ops| - 1;
      if Last(ops).Pop? {
        if o != [] {
          LastIsAlone(o);
          if !atStart {
            assert Last(o) in o;
            NoDuplicatesSnoc(r, Last(o));
          }
        }
      } else {
        NoDuplicatesSnoc(r, n);
        NoDuplicatesSnoc(o, n);
      }
    }
  }

  /** The recorded steps have pairwise different indices, and each parent precedes its child. */
  lemma RecordedIsATree(atStart: bool, ops: seq<Op>)
    ensures forall i, j :: 0 <= i < j < |Recorded(atStart, ops)| ==>
              Recorded(atStart, ops)[i].index != Recorded(atStart, ops)[j].index
    ensures forall st :: st in Recorded(atStart, ops) ==> -1 <= st.parent < st.index
  {
    var ks := RecordedAt(atStart, ops);
    var rec := Recorded(atStart, ops);
    RecordedOnce(atStart, ops);
    forall i, j | 0 <= i < j < |rec| ensures rec[i].index != rec[j].index {
      if ks[i] < ks[j] {
        StartsGrows(ops, ks[i], ks[j]);
      } else {
        StartsGrows(ops, ks[j], ks[i]);
      }
    }
    forall i | 0 <= i < |rec| ensures -1 <= rec[i].parent < rec[i].index {
      ParentBeforeChild(ops, ks[i]);
    }
  }

  /** Every step that has started is recorded, or still open and to be recorded when it ends. */
  lemma {:induction false} RecordedOrOpen(atStart: bool, ops: seq<Op>, k: nat)
    requires k < |ops| && !ops[k].Pop?
    ensures k in RecordedAt(atStart, ops) || (!atStart && k in OpenAt(ops))
    decreases |ops|
  {
    var o, r := OpenAt(Init(ops)), RecordedAt(atStart, Init(ops));
    if k == |ops| - 1 {
      if Last(ops).Push? {
        assert OpenAt(ops) == o + [k];
      } else {
        assert RecordedAt(atStart, ops) == r + [k];
      }
    } else {
      RecordedOrOpen(atStart, Init(ops), k);
      if Last(ops).Pop? && !atStart && o != [] {
        assert o == Init(o) + [Last(o)];
        assert RecordedAt(atStart, ops) == r + [Last(o)];
      }
    }
  }

  lemma {:induction false} RecordedCount(atStart: bool, ops: seq<Op>)
    ensures |RecordedAt(atStart, ops)| + (if atStart then 0 else |OpenAt(ops)|) == Starts(ops)
    decreases |ops|
  {
    if ops != [] {
      RecordedCount(atStart, Init(ops));
    }
  }

  /** The position at which step number `i` starts. */
  lemma {:induction false} StartPosition(ops: seq<Op>, i: nat) returns (k: nat)
    requires i < Starts(ops)
    ensures k < |ops| && !ops[k].Pop? && Starts(ops[..k]) == i
    decreases |ops|
  {
    if i < Starts(Init(ops)) {
      k := StartPosition(Init(ops), i);
      assert Init(ops)[..k] == ops[..k];
    } else {
      k := |ops| - 1;
      assert ops[..k] == Init(ops);
    }
  }

  predicate HasIndex(rec: seq<Step>, i: int) { exists j :: 0 <= j < |rec| && rec[j].index == i }

  /** Nothing is missing: at the end of a run with nothing open, the recorded indices are exactly those from
      0 to the number of starts, each once. */
  lemma RecordedIndicesAreAll(atStart: bool, ops: seq<Op>)
    requires atStart || OpenAt(ops) == []
    ensures |Recorded(atStart, ops)| == Starts(ops)
    ensures forall j :: 0 <= j < Starts(ops) ==> 0 <= Recorded(atStart, ops)[j].index < Starts(ops)
    ensures forall i :: 0 <= i < Starts(ops) ==> HasIndex(Recorded(atStart, ops), i)
  {
    var ks, rec := RecordedAt(atStart, ops), Recorded(atStart, ops);
    RecordedCount(atStart, ops);
    forall j | 0 <= j < |rec| ensures 0 <= rec[j].index < Starts(ops) {
      StartsGrows(ops, ks[j], |ops|);
      assert ops[..|ops|] == ops;
    }
    forall i | 0 <= i < Starts(ops) ensures HasIndex(rec, i) {
      var k := StartPosition(ops, i);
      RecordedOrOpen(atStart, ops, k);
      var j :| 0 <= j < |ks| && ks[j] == k;
      assert rec[j].index == i;
    }
  }

  /** The counters stamp a starting step as the nesting does. */
  lemma StartStamped(ops: seq<Op>)
    requires WellNested(ops) && ops != [] && !Last(ops).Pop?
    ensures Stamp(TreeRun(Init(ops)), Last(ops).st) == Stamped(ops, |ops| - 1)
  {
    CountersFollowNesting(Init(ops));
  }

  /** The caller's innermost open step is the one that a pop ends. */
  lemma PopStamped(ops: seq<Op>)
    requires WellNested(ops) && ops != [] && Last(ops).Pop?
    ensures var t, o := TreeRun(Init(ops)), OpenAt(Init(ops));
            t.open != [] && Last(t.open) == Stamped(ops, Last(o))
  {
    var before := Init(ops);
    var o := OpenAt(before);
    CountersFollowNesting(before);
    assert Last(StampAll(before, o)) == Stamped(before, Last(o));
    StampedInPrefix(ops, |before|, Last(o));
  }

  lemma RecordedOneMore(atStart: bool, ops: seq<Op>, k: nat)
    requires ops != [] && k < |ops| && !ops[k].Pop?
    requires RecordedAt(atStart, ops) == RecordedAt(atStart, Init(ops)) + [k]
    ensures Recorded(atStart, ops) == Recorded(atStart, Init(ops)) + [Stamped(ops, k)]
  {
    StampAllInPrefix(ops, RecordedAt(atStart, Init(ops)));
    StampAllSnoc(ops, RecordedAt(atStart, Init(ops)), k);
  }

  lemma {:induction false} RecordedNoMore(atStart: bool, ops: seq<Op>)
    requires ops != [] && RecordedAt(atStart, ops) == RecordedAt(atStart, Init(ops))
    ensures Recorded(atStart, ops) == Recorded(atStart, Init(ops)) + []
  {
    StampAllInPrefix(ops, RecordedAt(atStart, Init(ops)));
  }

  /** What the last operation of a run records. */
  lemma RecordedSnoc(atStart: bool, ops: seq<Op>)
    requires WellNested(ops) && ops != []
    ensures Recorded(atStart, ops) == Recorded(atStart, Init(ops)) + RecordedNow(atStart, ops)
  {
    if Last(ops).Pop? {
      PopStamped(ops);
      if atStart {
        RecordedNoMore(atStart, ops);
      } else {
        RecordedOneMore(atStart, ops, Last(OpenAt(Init(ops))));
      }
    } else {
      StartStamped(ops);
      if Last(ops).Push? && !atStart {
        RecordedNoMore(atStart, ops);
      } else {
        RecordedOneMore(atStart, ops, |ops| - 1);
      }
    }
  }

  /** The same from the counters: what a collector in state `TreeRun` writes. */
  function RecordedNow(atStart: bool, ops: seq<Op>): seq<Step>
    requires ops != []
  {
    Written(atStart, TreeRun(Init(ops)), Last(ops))
  }

  function Written(atStart: bool, t: Tree, op: Op): seq<Step> {
    match op
    case Push(st) => if atStart then [Stamp(t, st)] else []
    case Add(st) => [Stamp(t, st)]
    case Pop => if atStart || t.open == [] then [] else [Last(t.open)]
  }
}
