/** agent/agent/trace/ProfileNormalCollector.go: a bounded buffer whose upper part is kept free for heavy
    steps.  The steps are objects, shared with whoever made them: reading the profile renumbers them. */
module NormalCollector {
  import opened Common

  datatype Limits = Limits(normal: int, heavy: int, max: int, heavyTime: int)

  /** The limits as the configuration adjusts them (agent/agent/config/Config.go). */
  function Adjusted(normal: int, heavy: int, max: int, heavyTime: int): (l: Limits)
    ensures l.normal <= l.heavy <= l.max == max && l.heavyTime == heavyTime
    ensures l.heavy <= heavy && (l.heavy == heavy || l.heavy == max)
    ensures l.normal <= normal && (l.normal == normal || l.normal == l.heavy)
  {
    var heavy' := if heavy > max then max else heavy;
    Limits(if normal > heavy' then heavy' else normal, heavy', max, heavyTime)
  }

  /** What may be offered: a step that took `elapsed`, a heavy step, or a final one. */
  datatype Offer = Add(elapsed: int) | AddHeavy | AddTail

  predicate Accepts(l: Limits, size: int, o: Offer) {
    match o
    case Add(elapsed) => size < l.normal || (size < l.heavy && elapsed >= l.heavyTime)
    case AddHeavy => size < l.max
    case AddTail => size < l.max
  }

  function Size(l: Limits, os: seq<Offer>): nat {
    if os == [] then 0
    else
      var n := Size(l, Init(os));
      if Accepts(l, n, Last(os)) then n + 1 else n
  }

  function Reserved(os: seq<Offer>): nat {
    if os == [] then 0 else Reserved(Init(os)) + if Last(os).Add? then 0 else 1
  }

  /** How many places ordinary steps cannot take. */
  function Reserve(l: Limits): int { l.max - Tier(l) }

  function Tier(l: Limits): nat { if l.heavy < 0 then 0 else l.heavy }

  lemma {:induction false} SizeBound(l: Limits, os: seq<Offer>)
    requires l.normal <= l.heavy <= l.max && 0 <= l.max
    ensures Size(l, os) <= l.max && Size(l, os) <= Tier(l) + Reserved(os)
    decreases |os|
  {
    if os != [] {
      SizeBound(l, Init(os));
    }
  }

  /** The reserve holds: whatever ordinary steps come in between, the first `Reserve` heavy or final steps
      are all accepted, and the buffer never outgrows its capacity. */
  lemma ReserveHolds(l: Limits, os: seq<Offer>, k: nat)
    requires l.normal <= l.heavy <= l.max && 0 <= l.max
    requires k < |os| && !os[k].Add? && Reserved(os[..k]) < Reserve(l)
    ensures Accepts(l, Size(l, os[..k]), os[k])
    ensures Size(l, os) <= l.max
  {
    SizeBound(l, os[..k]);
    SizeBound(l, os);
  }

  /** `slow` slow ordinary steps, then `heavy` heavy ones. */
  function Filling(l: Limits, slow: nat, heavy: nat): seq<Offer> {
    seq(slow, _ => Add(l.heavyTime)) + seq(heavy, _ => AddHeavy)
  }

  lemma {:induction false} FillingFills(l: Limits, slow: nat, heavy: nat)
    requires l.normal <= l.heavy <= l.max && slow <= Tier(l) && slow + heavy <= l.max
    ensures Size(l, Filling(l, slow, heavy)) == slow + heavy && Reserved(Filling(l, slow, heavy)) == heavy
    decreases slow + heavy
  {
    var os := Filling(l, slow, heavy);
    if heavy > 0 {
      FillingFills(l, slow, heavy - 1);
      assert Init(os) == Filling(l, slow, heavy - 1);
    } else if slow > 0 {
      FillingFills(l, slow - 1, 0);
      assert Init(os) == Filling(l, slow - 1, 0);
    }
  }

  function Times(n: nat, o: Offer): seq<Offer> { seq(n, _ => o) }

  function Least(n: nat, limit: int): int { if n < limit then n else if limit < 0 then 0 else limit }

  /** Of `n` offers of one kind the first ones are taken, up to the limit of the kind. */
  lemma {:induction false} FilledUpTo(l: Limits, n: nat, elapsed: int)
    requires l.normal <= l.heavy <= l.max
    ensures Size(l, Times(n, Add(elapsed))) == Least(n, if elapsed < l.heavyTime then l.normal else l.heavy)
    ensures Size(l, Times(n, AddHeavy)) == Size(l, Times(n, AddTail)) == Least(n, l.max)
  {
    if n > 0 {
      FilledUpTo(l, n - 1, elapsed);
      assert Init(Times(n, Add(elapsed))) == Times(n - 1, Add(elapsed));
      assert Init(Times(n, AddHeavy)) == Times(n - 1, AddHeavy);
      assert Init(Times(n, AddTail)) == Times(n - 1, AddTail);
    }
  }

  /** The reserve is no larger than that: after a run with exactly `Reserve` heavy steps the next one can
      be dropped. */
  lemma ReserveIsExact(l: Limits)
    requires l.normal <= l.heavy <= l.max && 0 <= l.max
    ensures var os := Filling(l, Tier(l), Reserve(l));
            Reserved(os) == Reserve(l) && !Accepts(l, Size(l, os), AddHeavy) && !Accepts(l, Size(l, os), AddTail)
  {
    FillingFills(l, Tier(l), Reserve(l));
  }

  class StepObject {
    const startTime: int
    const elapsed: int
    var index: int
    var parent: int

    constructor (startTime: int, elapsed: int)
    {
      this.startTime, this.elapsed := startTime, elapsed;
      index, parent := 0, 0;
    }
  }

  predicate Sorted(s: seq<StepObject>) {
    forall i, j :: 0 <= i < j < |s| ==> s[i].startTime <= s[j].startTime
  }

  /** Puts `st` behind the steps that started no later. */
  function Insert(s: seq<StepObject>, st: StepObject): (r: seq<StepObject>)
    ensures multiset(r) == multiset(s) + multiset{st} && |r| == |s| + 1
  {
    if s == [] || Last(s).startTime <= st.startTime then s + [st]
    else
      var r := Insert(Init(s), st) + [Last(s)];
      assert s == Init(s) + [Last(s)];
      r
  }

  lemma {:induction false} InsertSorts(s: seq<StepObject>, st: StepObject)
    requires Sorted(s)
    ensures Sorted(Insert(s, st))
    ensures forall i :: 0 <= i <= |s| ==> Insert(s, st)[i].startTime <= Latest(s, st)
    decreases |s|
  {
    if s != [] && Last(s).startTime > st.startTime {
      var s', last := Init(s), Last(s);
      InsertSorts(s', st);
      var r := Insert(s', st);
      assert forall i :: 0 <= i < |r| ==> r[i].startTime <= last.startTime;
    }
  }

  /** The latest start among sorted steps and one more. */
  function Latest(s: seq<StepObject>, st: StepObject): int {
    if s == [] || Last(s).startTime <= st.startTime then st.startTime else Last(s).startTime
  }

  lemma SameElements(a: seq<StepObject>, b: seq<StepObject>)
    requires multiset(a) == multiset(b) && NoDuplicates(a)
    ensures NoDuplicates(b)
  {
    forall i, j | 0 <= i < j < |b| ensures b[i] != b[j] {
      if b[i] == b[j] {
        var x := b[i];
        assert b == b[..i] + [x] + b[i + 1..j] + [x] + b[j + 1..];
        assert multiset(b)[x] >= 2;
        CountOfDistinct(a, x);
        assert false;
      }
    }
  }

  lemma {:induction false} CountOfDistinct(a: seq<StepObject>, x: StepObject)
    requires NoDuplicates(a)
    ensures multiset(a)[x] <= 1
  {
    if a != [] {
      var init, last := Init(a), Last(a);
      CountOfDistinct(init, x);
      assert a == init + [last];
      assert last !in init;
    }
  }

  lemma SameMembers(a: seq<StepObject>, b: seq<StepObject>)
    requires multiset(a) == multiset(b)
    ensures forall st :: st in a <==> st in b
  {
    forall st ensures st in a <==> st in b {
      assert st in a <==> st in multiset(a);
      assert st in b <==> st in multiset(b);
    }
  }

  class ProfileNormalCollector {
    const limits: Limits
    var buffer: seq<StepObject>
    var parentIndex: int

    constructor (limits: Limits)
      ensures this.limits == limits && buffer == [] && parentIndex == -1
    {
      this.limits := limits;
      buffer, parentIndex := [], -1;
    }

    /** The step is the last of the buffer and numbered accordingly. */
    twostate predicate Stored(st: StepObject)
      reads this, st
    {
      buffer == old(buffer) + [st] && st.index == |old(buffer)| && st.parent == parentIndex
    }

    method Store(st: StepObject)
      modifies this`buffer, st
      ensures Stored(st)
    {
      st.index := |buffer|;
      st.parent := parentIndex;
      buffer := buffer + [st];
    }

    method AddStep(st: StepObject)
      modifies this`buffer, st
      ensures if Accepts(limits, |old(buffer)|, Add(st.elapsed)) then Stored(st) else buffer == old(buffer) && unchanged(st)
    {
      if |buffer| < limits.normal {
        Store(st);
      } else if |buffer| < limits.heavy {
        if st.elapsed >= limits.heavyTime {
          Store(st);
        }
      }
    }

    method AddHeavyStep(st: StepObject)
      modifies this`buffer, st
      ensures if Accepts(limits, |old(buffer)|, AddHeavy) then Stored(st) else buffer == old(buffer) && unchanged(st)
    {
      if |buffer| < limits.max {
        Store(st);
      }
    }

    method AddTailStep(st: StepObject)
      modifies this`buffer, st
      ensures if Accepts(limits, |old(buffer)|, AddTail) then Stored(st) else buffer == old(buffer) && unchanged(st)
    {
      if |buffer| < limits.max {
        Store(st);
      }
    }

    /** The steps by starting time, numbered afresh; the buffer itself keeps its order. */
    method GetSteps() returns (r: seq<StepObject>)
      modifies set st | st in buffer
      ensures buffer == old(buffer)
      ensures multiset(r) == multiset(buffer) && Sorted(r)
      ensures NoDuplicates(buffer) ==> forall i :: 0 <= i < |r| ==> r[i].index == i
      ensures forall st :: st in buffer ==> st.parent == old(st.parent)
    {
      r := SortedByStart(buffer);
      SameMembers(r, buffer);
      if NoDuplicates(buffer) {
        SameElements(buffer, r);
      }
      Renumber(r);
    }

    static method SortedByStart(s: seq<StepObject>) returns (r: seq<StepObject>)
      ensures multiset(r) == multiset(s) && Sorted(r)
    {
      r := [];
      for i := 0 to |s|
        invariant multiset(r) == multiset(s[..i]) && Sorted(r)
      {
        InsertSorts(r, s[i]);
        assert s[..i + 1] == s[..i] + [s[i]];
        r := Insert(r, s[i]);
      }
      assert s[..|s|] == s;
    }

    static method Renumber(r: seq<StepObject>)
      modifies set st | st in r
      ensures NoDuplicates(r) ==> forall i :: 0 <= i < |r| ==> r[i].index == i
      ensures forall st :: st in r ==> st.parent == old(st.parent)
    {
      var i := 0;
      while i < |r|
        invariant i <= |r|
        invariant NoDuplicates(r) ==> forall k :: 0 <= k < i ==> r[k].index == k
        invariant forall st :: st in r ==> st.parent == old(st.parent)
      {
        r[i].index := i;
        i := i + 1;
      }
    }
  }
}
