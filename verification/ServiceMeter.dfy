/** The service meter (agent/agent/counter/meter/MeterService.go): sums over finished transactions since the
    last reset, in all and by caller.  The sums of the main bucket wrap at their machine width. */
module ServiceMeter {
  import opened Common
  import opened HeaderText

  /** A finished transaction.  `oid` 0 means that the caller is unknown. */
  datatype Tx = Tx(elapsed: int, failed: bool, pcode: int, oid: int, okind: int)

  datatype Conf = Conf(pcode: int, apdexTime: int, apdexTime4T: int, callerMeter: bool, pkindMeter: bool)

  /** `int64(x)`: keep the low 64 bits. */
  function Wrap64(x: int): int
    ensures IsInt64(x) ==> Wrap64(x) == x
  {
    var low := x % TWO_64;
    if low >= TWO_63 then low - TWO_64 else low
  }

  datatype Bucket = Bucket(count: int, total: int, satisfied: int, tolerated: int, error: int,
                           timesum: int, timeSqrSum: int)

  const NEW_BUCKET := Bucket(0, 0, 0, 0, 0, 0, 0)

  /** A negative duration counts as zero. */
  function Elapsed(tx: Tx): nat { if tx.elapsed < 0 then 0 else tx.elapsed }

  predicate Satisfies(conf: Conf, tx: Tx) { !tx.failed && Elapsed(tx) <= conf.apdexTime }

  predicate Tolerates(conf: Conf, tx: Tx) {
    !tx.failed && Elapsed(tx) > conf.apdexTime && Elapsed(tx) <= conf.apdexTime4T
  }

  function Inc(x: int, when: bool): int { if when then ToInt32(x + 1) else x }

  function AddTo(conf: Conf, b: Bucket, tx: Tx): Bucket {
    var e := Elapsed(tx);
    Bucket(ToInt32(b.count + 1), ToInt32(b.total + 1),
           Inc(b.satisfied, Satisfies(conf, tx)), Inc(b.tolerated, Tolerates(conf, tx)),
           Inc(b.error, tx.failed),
           Wrap64(b.timesum + e), Wrap64(b.timeSqrSum + e * e))
  }

  /** A duration adds itself and its square; a negative one adds nothing, and counts as if it were zero. */
  lemma DurationAdds(conf: Conf, b: Bucket, tx: Tx)
    ensures tx.elapsed >= 0 ==>
              && AddTo(conf, b, tx).timesum == Wrap64(b.timesum + tx.elapsed)
              && AddTo(conf, b, tx).timeSqrSum == Wrap64(b.timeSqrSum + tx.elapsed * tx.elapsed)
    ensures tx.elapsed < 0 ==> AddTo(conf, b, tx) == AddTo(conf, b, tx.(elapsed := 0))
  {
  }

  function Metered(conf: Conf, txs: seq<Tx>): Bucket {
    if txs == [] then NEW_BUCKET else AddTo(conf, Metered(conf, Init(txs)), Last(txs))
  }

  // ---------------------------------------------------------------------------------------------
  // The exact sums.

  function TimeSum(txs: seq<Tx>): nat {
    if txs == [] then 0 else TimeSum(Init(txs)) + Elapsed(Last(txs))
  }

  function SquareSum(txs: seq<Tx>): nat {
    if txs == [] then 0
    else
      var e := Elapsed(Last(txs));
      SquareSum(Init(txs)) + e * e
  }

  function Failures(txs: seq<Tx>): nat {
    if txs == [] then 0 else Failures(Init(txs)) + if Last(txs).failed then 1 else 0
  }

  function Satisfied(conf: Conf, txs: seq<Tx>): nat {
    if txs == [] then 0 else Satisfied(conf, Init(txs)) + if Satisfies(conf, Last(txs)) then 1 else 0
  }

  function Tolerated(conf: Conf, txs: seq<Tx>): nat {
    if txs == [] then 0 else Tolerated(conf, Init(txs)) + if Tolerates(conf, Last(txs)) then 1 else 0
  }

  lemma FactorIsNotNegative(n: nat, x: int)
    requires n > 0 && n * x >= 0
    ensures x >= 0
  {
  }

  lemma VarianceStep(n: nat, s: nat, q: nat, e: nat)
    requires n * q >= s * s && (n == 0 ==> s == 0)
    ensures (n + 1) * (q + e * e) >= (s + e) * (s + e)
  {
    // It is enough that  n e^2 + q >= 2 s e,  and  n (n e^2 + q - 2 s e) >= (n e - s)^2 >= 0.
    var d := n * e - s;
    assert d * d >= 0;
    assert d * d == n * e * (n * e) - 2 * (n * e) * s + s * s;
    var slack := n * (e * e) + q - 2 * (s * e);
    assert n * slack >= d * d by {
      assert n * (n * (e * e)) == n * e * (n * e);
      assert n * (2 * (s * e)) == 2 * (n * e) * s;
      assert n * slack == n * (n * (e * e)) + n * q - n * (2 * (s * e));
    }
    if n > 0 {
      FactorIsNotNegative(n, slack);
    }
    assert (n + 1) * (q + e * e) == n * q + n * (e * e) + q + e * e;
    assert (s + e) * (s + e) == s * s + 2 * (s * e) + e * e;
  }

  /** The mean square is at least the square of the mean. */
  lemma {:induction false} VarianceIsNotNegative(txs: seq<Tx>)
    ensures |txs| * SquareSum(txs) >= TimeSum(txs) * TimeSum(txs)
    ensures TimeSum(txs) <= SquareSum(txs)
    ensures |txs| == 0 ==> TimeSum(txs) == 0
    decreases |txs|
  {
    if txs != [] {
      var before, e := Init(txs), Elapsed(Last(txs));
      VarianceIsNotNegative(before);
      VarianceStep(|before|, TimeSum(before), SquareSum(before), e);
      assert e <= e * e;
    }
  }

  lemma Wrap64Adds(x: int, n: int)
    ensures Wrap64(Wrap64(x) + n) == Wrap64(x + n)
  {
    var low := x % TWO_64;
    assert x == TWO_64 * (x / TWO_64) + low;
    var k := if low >= TWO_63 then x / TWO_64 + 1 else x / TWO_64;
    assert Wrap64(x) + n == x + n - TWO_64 * k;
    Mod64Shift(x + n, -k);
  }

  lemma Mod64Shift(a: int, k: int)
    ensures (a + TWO_64 * k) % TWO_64 == a % TWO_64
  {
    var q, r := a / TWO_64, a % TWO_64;
    assert a + TWO_64 * k == TWO_64 * (q + k) + r;
  }

  /** The input of the variance is not negative. */
  predicate VarianceOk(b: Bucket) { b.count * b.timeSqrSum >= b.timesum * b.timesum }

  /** Every transaction is of at most one class. */
  lemma {:induction false} ClassesFit(conf: Conf, txs: seq<Tx>)
    ensures Satisfied(conf, txs) + Tolerated(conf, txs) + Failures(txs) <= |txs|
    decreases |txs|
  {
    if txs != [] {
      ClassesFit(conf, Init(txs));
    }
  }

  /** The positions of the transactions of each class, by the bare duration. */
  function SatisfiedAt(conf: Conf, txs: seq<Tx>): set<nat> {
    set i | 0 <= i < |txs| && !txs[i].failed && txs[i].elapsed <= conf.apdexTime
  }

  function ToleratedAt(conf: Conf, txs: seq<Tx>): set<nat> {
    set i | 0 <= i < |txs| && !txs[i].failed && conf.apdexTime < txs[i].elapsed <= conf.apdexTime4T
  }

  function FailedAt(txs: seq<Tx>): set<nat> { set i | 0 <= i < |txs| && txs[i].failed }

  lemma OneMoreAt(before: set<nat>, after: set<nat>, n: nat, more: bool)
    requires n !in before && (forall i: nat :: i in after <==> i in before || (i == n && more))
    ensures |after| == |before| + if more then 1 else 0
  {
    assert after == before + if more then {n} else {};
  }

  lemma SatisfiedLast(conf: Conf, txs: seq<Tx>)
    requires txs != [] && 0 <= conf.apdexTime
    ensures |SatisfiedAt(conf, txs)| == |SatisfiedAt(conf, Init(txs))| + if Satisfies(conf, Last(txs)) then 1 else 0
  {
    OneMoreAt(SatisfiedAt(conf, Init(txs)), SatisfiedAt(conf, txs), |txs| - 1, Satisfies(conf, Last(txs)));
  }

  lemma ToleratedLast(conf: Conf, txs: seq<Tx>)
    requires txs != [] && 0 <= conf.apdexTime
    ensures |ToleratedAt(conf, txs)| == |ToleratedAt(conf, Init(txs))| + if Tolerates(conf, Last(txs)) then 1 else 0
  {
    OneMoreAt(ToleratedAt(conf, Init(txs)), ToleratedAt(conf, txs), |txs| - 1, Tolerates(conf, Last(txs)));
  }

  lemma FailedLast(txs: seq<Tx>)
    requires txs != []
    ensures |FailedAt(txs)| == |FailedAt(Init(txs))| + if Last(txs).failed then 1 else 0
  {
    OneMoreAt(FailedAt(Init(txs)), FailedAt(txs), |txs| - 1, Last(txs).failed);
  }

  /** The classes count what they are named for; limits count as met, and a negative duration is short. */
  lemma {:induction false} ClassesAre(conf: Conf, txs: seq<Tx>)
    requires 0 <= conf.apdexTime
    ensures Satisfied(conf, txs) == |SatisfiedAt(conf, txs)| && Tolerated(conf, txs) == |ToleratedAt(conf, txs)|
    ensures Failures(txs) == |FailedAt(txs)|
    decreases |txs|
  {
    if txs != [] {
      ClassesAre(conf, Init(txs));
      SatisfiedLast(conf, txs);
      ToleratedLast(conf, txs);
      FailedLast(txs);
    }
  }

  /** The counts are those of the run, as 32-bit numbers. */
  predicate CountsWrap(conf: Conf, b: Bucket, txs: seq<Tx>) {
    && b.count == b.total == ToInt32(|txs|) && b.error == ToInt32(Failures(txs))
    && b.satisfied == ToInt32(Satisfied(conf, txs)) && b.tolerated == ToInt32(Tolerated(conf, txs))
  }

  /** The sums are those of the run, as 64-bit numbers. */
  predicate SumsWrap(b: Bucket, txs: seq<Tx>) {
    b.timesum == Wrap64(TimeSum(txs)) && b.timeSqrSum == Wrap64(SquareSum(txs))
  }

  lemma CountStep(conf: Conf, b: Bucket, txs: seq<Tx>)
    requires txs != [] && CountsWrap(conf, b, Init(txs))
    ensures CountsWrap(conf, AddTo(conf, b, Last(txs)), txs)
  {
    var before := Init(txs);
    ToInt32Adds(|before|, 1);
    ToInt32Adds(Failures(before), 1);
    ToInt32Adds(Satisfied(conf, before), 1);
    ToInt32Adds(Tolerated(conf, before), 1);
  }

  lemma SumStep(conf: Conf, b: Bucket, txs: seq<Tx>)
    requires txs != [] && SumsWrap(b, Init(txs))
    ensures SumsWrap(AddTo(conf, b, Last(txs)), txs)
  {
    var before, e := Init(txs), Elapsed(Last(txs));
    Wrap64Adds(TimeSum(before), e);
    Wrap64Adds(SquareSum(before), e * e);
  }

  lemma {:induction false} BucketFollows(conf: Conf, txs: seq<Tx>)
    ensures CountsWrap(conf, Metered(conf, txs), txs) && SumsWrap(Metered(conf, txs), txs)
    decreases |txs|
  {
    if txs != [] {
      BucketFollows(conf, Init(txs));
      CountStep(conf, Metered(conf, Init(txs)), txs);
      SumStep(conf, Metered(conf, Init(txs)), txs);
    }
  }

  lemma Fits32(n: nat)
    ensures ToInt32(n) == n <==> n < TWO_31
  {
  }

  lemma Fits64(n: nat)
    ensures Wrap64(n) == n <==> n < TWO_63
  {
  }

  /** For every run at all, the bucket holds the exact numbers wrapped to their width; so each is exact if and
      only if it fits. */
  lemma BucketWraps(conf: Conf, txs: seq<Tx>)
    ensures var b := Metered(conf, txs);
            && CountsWrap(conf, b, txs) && SumsWrap(b, txs)
            && (b.count == |txs| <==> |txs| < TWO_31)
            && (b.error == Failures(txs) <==> Failures(txs) < TWO_31)
            && (b.satisfied == Satisfied(conf, txs) <==> Satisfied(conf, txs) < TWO_31)
            && (b.tolerated == Tolerated(conf, txs) <==> Tolerated(conf, txs) < TWO_31)
            && (b.timesum == TimeSum(txs) <==> TimeSum(txs) < TWO_63)
            && (b.timeSqrSum == SquareSum(txs) <==> SquareSum(txs) < TWO_63)
  {
    BucketFollows(conf, txs);
    Fits32(|txs|);
    Fits32(Failures(txs));
    Fits32(Satisfied(conf, txs));
    Fits32(Tolerated(conf, txs));
    Fits64(TimeSum(txs));
    Fits64(SquareSum(txs));
  }

  /** For every run whose squares fit 64 bits, the bucket holds the exact numbers; so the variance input is
      never negative, and the classes of answers never exceed the total. */
  lemma {:induction false} BucketIsExact(conf: Conf, txs: seq<Tx>)
    requires |txs| < TWO_31 && SquareSum(txs) < TWO_63
    ensures var b := Metered(conf, txs);
            && b.count == b.total == |txs| && b.error == Failures(txs)
            && b.satisfied == Satisfied(conf, txs) && b.tolerated == Tolerated(conf, txs)
            && b.timesum == TimeSum(txs) && b.timeSqrSum == SquareSum(txs)
            && b.satisfied + b.tolerated + b.error <= b.total && VarianceOk(b)
  {
    VarianceIsNotNegative(txs);
    ClassesFit(conf, txs);
    BucketWraps(conf, txs);
  }

  lemma NegativeSum(b: Bucket)
    requires b.count > 0 && b.timeSqrSum < 0
    ensures !VarianceOk(b)
  {
    assert b.count * b.timeSqrSum < 0;
    assert b.timesum * b.timesum >= 0;
  }

  lemma WrapsNegative(n: nat)
    requires TWO_63 <= n < TWO_64
    ensures Wrap64(n) < 0
  {
  }

  /** Exactly when the variance input is not negative, up to the second wrap of the sum of squares. */
  lemma VarianceSign(conf: Conf, txs: seq<Tx>)
    requires |txs| < TWO_31 && SquareSum(txs) < TWO_64
    ensures VarianceOk(Metered(conf, txs)) <==> SquareSum(txs) < TWO_63
  {
    if SquareSum(txs) < TWO_63 {
      BucketIsExact(conf, txs);
    } else {
      BucketWraps(conf, txs);
      WrapsNegative(SquareSum(txs));
      NegativeSum(Metered(conf, txs));
    }
  }

  function Repeat(n: nat, tx: Tx): seq<Tx> { if n == 0 then [] else Repeat(n - 1, tx) + [tx] }

  lemma OneMoreTime(n: nat, x: int)
    requires n > 0
    ensures n * x == (n - 1) * x + x
  {
  }

  lemma {:induction false} RepeatSums(a: seq<Tx>, n: nat, tx: Tx)
    ensures var txs := a + Repeat(n, tx);
            && |txs| == |a| + n && TimeSum(txs) == TimeSum(a) + n * Elapsed(tx)
            && SquareSum(txs) == SquareSum(a) + n * (Elapsed(tx) * Elapsed(tx))
  {
    if n == 0 {
      assert a + Repeat(n, tx) == a;
    } else {
      var before := a + Repeat(n - 1, tx);
      RepeatSums(a, n - 1, tx);
      assert a + Repeat(n, tx) == before + [tx];
      SumsSnoc(before, tx);
      OneMoreTime(n, Elapsed(tx));
      OneMoreTime(n, Elapsed(tx) * Elapsed(tx));
    }
  }

  const LONGEST := Tx(TWO_31 - 1, false, 0, 0, 0)
  const INSTANT := Tx(0, false, 0, 0, 0)

  lemma LongestElapsed()
    ensures Elapsed(LONGEST) == 0x7FFF_FFFF && Elapsed(LONGEST) * Elapsed(LONGEST) == 0x3FFF_FFFF_0000_0001
  {
  }

  lemma LongSums(long: nat, instant: nat)
    ensures var txs := Repeat(long, LONGEST) + Repeat(instant, INSTANT);
            && |txs| == long + instant && TimeSum(txs) == long * 0x7FFF_FFFF
            && SquareSum(txs) == long * 0x3FFF_FFFF_0000_0001
  {
    var a := Repeat(long, LONGEST);
    RepeatSums([], long, LONGEST);
    assert [] + a == a;
    LongestElapsed();
    RepeatSums(a, instant, INSTANT);
    assert instant * 0 == 0;
  }

  /** The bound is needed: three transactions of the longest possible duration make the sum of squares wrap
      to a negative number. */
  lemma LongTransactionsWrap(conf: Conf)
    ensures !VarianceOk(Metered(conf, Repeat(3, LONGEST)))
  {
    LongSums(3, 0);
    assert Repeat(3, LONGEST) + Repeat(0, INSTANT) == Repeat(3, LONGEST);
    VarianceSign(conf, Repeat(3, LONGEST));
  }

  lemma SixLongest(b: Bucket)
    requires b.count == 19 && b.timesum == 6 * 0x7FFF_FFFF && b.timeSqrSum == 6 * 0x3FFF_FFFF_0000_0001 - TWO_64
    ensures VarianceOk(b)
  {
  }

  lemma SixWrapped()
    ensures Wrap64(6 * 0x3FFF_FFFF_0000_0001) == 6 * 0x3FFF_FFFF_0000_0001 - TWO_64
    ensures 6 * 0x3FFF_FFFF_0000_0001 >= TWO_64
  {
  }

  /** After the second wrap the sign says nothing: with six of the longest and 13 instant transactions the sum
      of squares is far off and yet the inequality holds. */
  lemma BeyondTheSecondWrap(conf: Conf)
    ensures var txs := Repeat(6, LONGEST) + Repeat(13, INSTANT);
            var b := Metered(conf, txs);
            SquareSum(txs) >= TWO_64 && b.timeSqrSum != SquareSum(txs) && VarianceOk(b)
  {
    var txs := Repeat(6, LONGEST) + Repeat(13, INSTANT);
    LongSums(6, 13);
    BucketWraps(conf, txs);
    SixWrapped();
    SixLongest(Metered(conf, txs));
  }

  // ---------------------------------------------------------------------------------------------
  // By caller.

  /** The sums kept for one caller. */
  datatype Share = Share(count: int, timesum: int, error: int)

  const NO_SHARE := Share(0, 0, 0)

  function AddShare(s: Share, tx: Tx): Share {
    Share(s.count + 1, s.timesum + Elapsed(tx), s.error + if tx.failed then 1 else 0)
  }

  /** A table in insertion order; when it is bounded and full, a new key drops the oldest entry. */
  type Table = seq<((int, int), Share)>

  const TABLE_MAX := 307

  function Keys(t: Table): set<(int, int)> { if t == [] then {} else Keys(Init(t)) + {Last(t).0} }

  /** The position of a key, or the length. */
  function Find(t: Table, key: (int, int)): (i: nat)
    ensures i <= |t| && (i < |t| ==> t[i].0 == key) && forall j :: 0 <= j < i ==> t[j].0 != key
  {
    if t == [] || t[0].0 == key then 0
    else
      var i := Find(t[1..], key);
      assert forall j :: 0 < j < 1 + i ==> t[j] == t[1..][j - 1];
      1 + i
  }

  function AddEntry(t: Table, key: (int, int), tx: Tx, bounded: bool): Table {
    var i := Find(t, key);
    if i < |t| then t[i := (key, AddShare(t[i].1, tx))]
    else (if bounded && |t| >= TABLE_MAX then t[1..] else t) + [(key, AddShare(NO_SHARE, tx))]
  }

  function Plus(a: Share, b: Share): Share { Share(a.count + b.count, a.timesum + b.timesum, a.error + b.error) }

  function TableSum(t: Table): Share {
    if t == [] then NO_SHARE else Plus(TableSum(Init(t)), Last(t).1)
  }

  /** The table of callers from other projects is bounded only after its first reset. */
  datatype Callers = Callers(byOid: Table, byPoid: Table, byPkind: Table, unknown: Share, poidBounded: bool)

  const NO_CALLERS := Callers([], [], [], NO_SHARE, false)

  function AddCaller(conf: Conf, c: Callers, tx: Tx): Callers {
    if !conf.callerMeter then c
    else if tx.oid == 0 then c.(unknown := AddShare(c.unknown, tx))
    else
      var c1 := if tx.pcode == conf.pcode then c.(byOid := AddEntry(c.byOid, (0, tx.oid), tx, true))
                else c.(byPoid := AddEntry(c.byPoid, (tx.pcode, tx.oid), tx, c.poidBounded));
      if conf.pkindMeter then c1.(byPkind := AddEntry(c1.byPkind, (tx.pcode, tx.okind), tx, true)) else c1
  }

  function Reset(c: Callers): Callers {
    Callers([], [], [], if c.unknown.count > 0 then NO_SHARE else c.unknown, c.poidBounded || c.byPoid != [])
  }

  /** The meter: the bucket and the shares are reset at different moments. */
  datatype Meter = Meter(bucket: Bucket, shares: Callers)

  datatype Event = End(tx: Tx) | TakeBucket | ResetShares

  function Step(conf: Conf, m: Meter, e: Event): Meter {
    match e
    case End(tx) => Meter(AddTo(conf, m.bucket, tx), AddCaller(conf, m.shares, tx))
    case TakeBucket => m.(bucket := NEW_BUCKET)
    case ResetShares => m.(shares := Reset(m.shares))
  }

  function Play(conf: Conf, es: seq<Event>): Meter {
    if es == [] then Meter(NEW_BUCKET, NO_CALLERS) else Step(conf, Play(conf, Init(es)), Last(es))
  }

  /** The transactions since the bucket was last taken, and since the shares were last reset. */
  function SinceTake(es: seq<Event>): seq<Tx> {
    if es == [] || Last(es).TakeBucket? then []
    else if Last(es).End? then SinceTake(Init(es)) + [Last(es).tx]
    else SinceTake(Init(es))
  }

  function SinceReset(es: seq<Event>): seq<Tx> {
    if es == [] || Last(es).ResetShares? then []
    else if Last(es).End? then SinceReset(Init(es)) + [Last(es).tx]
    else SinceReset(Init(es))
  }

  lemma {:induction false} BucketSinceTake(conf: Conf, es: seq<Event>)
    ensures Play(conf, es).bucket == Metered(conf, SinceTake(es))
    decreases |es|
  {
    if es != [] {
      BucketSinceTake(conf, Init(es));
      if Last(es).End? {
        var txs := SinceTake(es);
        assert Init(txs) == SinceTake(Init(es));
      }
    }
  }

  predicate IsSuffix(a: seq<Tx>, b: seq<Tx>) { |a| <= |b| && b[|b| - |a|..] == a }

  /** One of the two is the end of the other. */
  lemma {:induction false} OneIsASuffix(es: seq<Event>)
    ensures IsSuffix(SinceTake(es), SinceReset(es)) || IsSuffix(SinceReset(es), SinceTake(es))
    decreases |es|
  {
    if es != [] {
      OneIsASuffix(Init(es));
    }
  }

  /** A share that counts nothing holds nothing, so that a reset may leave it. */
  predicate Sound(c: Callers) { c.unknown.count >= 0 && (c.unknown.count == 0 ==> c.unknown == NO_SHARE) }

  lemma {:induction false} PlaySound(conf: Conf, es: seq<Event>)
    ensures Sound(Play(conf, es).shares)
    decreases |es|
  {
    if es != [] {
      PlaySound(conf, Init(es));
    }
  }

  lemma {:induction false} AfterUpdate(t: Table, i: nat, e: ((int, int), Share), d: Share)
    requires i < |t| && e.0 == t[i].0 && e.1 == Plus(t[i].1, d)
    ensures TableSum(t[i := e]) == Plus(TableSum(t), d) && Keys(t[i := e]) == Keys(t)
    decreases |t|
  {
    var t' := t[i := e];
    if i == |t| - 1 {
      assert t'[..i] == t[..i];
    } else {
      assert t'[..|t| - 1] == Init(t)[i := e];
      AfterUpdate(Init(t), i, e, d);
    }
  }

  lemma {:induction false} KeyExists(t: Table, key: (int, int))
    ensures key in Keys(t) <==> exists i :: 0 <= i < |t| && t[i].0 == key
    decreases |t|
  {
    if t != [] {
      KeyExists(Init(t), key);
      assert t == Init(t) + [Last(t)];
    }
  }

  function ShareOf(tx: Tx): Share { AddShare(NO_SHARE, tx) }

  lemma AppendAdds(t: Table, key: (int, int), tx: Tx)
    ensures var t' := t + [(key, ShareOf(tx))];
            Keys(t') == Keys(t) + {key} && TableSum(t') == Plus(TableSum(t), ShareOf(tx))
  {
  }

  lemma KeyFound(t: Table, key: (int, int))
    ensures key in Keys(t) <==> Find(t, key) < |t|
  {
    KeyExists(t, key);
  }

  /** While there is room, an entry adds exactly the transaction. */
  lemma {:induction false} EntryAdds(t: Table, key: (int, int), tx: Tx, bounded: bool)
    requires key in Keys(t) || !bounded || |t| < TABLE_MAX
    ensures var t' := AddEntry(t, key, tx, bounded);
            && Keys(t') == Keys(t) + {key}
            && |t'| == |t| + (if key in Keys(t) then 0 else 1)
            && TableSum(t') == Plus(TableSum(t), ShareOf(tx))
  {
    var i := Find(t, key);
    KeyFound(t, key);
    if i < |t| {
      AfterUpdate(t, i, (key, AddShare(t[i].1, tx)), ShareOf(tx));
      assert Keys(t) + {key} == Keys(t);
    } else {
      AppendAdds(t, key, tx);
    }
  }

  /** Every entry counts a transaction. */
  predicate Counted(t: Table) { forall i :: 0 <= i < |t| ==> t[i].1.count >= 1 }

  lemma {:induction false} SumFront(t: Table)
    requires t != []
    ensures TableSum(t) == Plus(t[0].1, TableSum(t[1..]))
    decreases |t|
  {
    if |t| > 1 {
      SumFront(Init(t));
      assert Init(t)[1..] == Init(t[1..]);
    }
  }

  /** A new key in a full table drops an entry, and with it at least one transaction. */
  lemma EvictionLoses(t: Table, key: (int, int), tx: Tx)
    requires key !in Keys(t) && |t| == TABLE_MAX && Counted(t)
    ensures var t' := AddEntry(t, key, tx, true);
            |t'| == TABLE_MAX && TableSum(t').count < TableSum(t).count + 1
  {
    KeyFound(t, key);
    SumFront(t);
    AppendAdds(t[1..], key, tx);
  }

  /** A table is as it should be: one entry for each caller, nothing dropped. */
  predicate Holds(t: Table, keys: set<(int, int)>) { Keys(t) == keys && |t| == |keys| }

  /** The table divides exactly the transactions that sum to `sum`. */
  predicate Exact(t: Table, keys: set<(int, int)>, sum: Share) { Holds(t, keys) && TableSum(t) == sum }

  /** The table has dropped some of them. */
  predicate Short(t: Table, keys: set<(int, int)>, sum: Share) {
    |keys| > TABLE_MAX && TableSum(t).count < sum.count
  }

  predicate TableOk(t: Table, keys: set<(int, int)>, sum: Share, bounded: bool) {
    && Counted(t) && (bounded ==> |t| <= TABLE_MAX)
    && (Exact(t, keys, sum) || (bounded && Short(t, keys, sum)))
  }

  lemma OneMoreKey(keys: set<(int, int)>, key: (int, int))
    ensures |keys + {key}| == |keys| + if key in keys then 0 else 1
  {
    if key in keys {
      assert keys + {key} == keys;
    }
  }

  lemma ExactStep(t: Table, keys: set<(int, int)>, sum: Share, key: (int, int), tx: Tx, bounded: bool)
    requires Exact(t, keys, sum) && Counted(t) && (bounded ==> |t| <= TABLE_MAX)
    ensures var t', keys', sum' := AddEntry(t, key, tx, bounded), keys + {key}, Plus(sum, ShareOf(tx));
            Exact(t', keys', sum') || (bounded && Short(t', keys', sum'))
  {
    OneMoreKey(keys, key);
    if key in keys || !bounded || |t| < TABLE_MAX {
      EntryAdds(t, key, tx, bounded);
    } else {
      EvictionLoses(t, key, tx);
    }
  }

  lemma ShortStep(t: Table, keys: set<(int, int)>, sum: Share, key: (int, int), tx: Tx)
    requires Short(t, keys, sum) && Counted(t) && |t| <= TABLE_MAX
    ensures Short(AddEntry(t, key, tx, true), keys + {key}, Plus(sum, ShareOf(tx)))
  {
    OneMoreKey(keys, key);
    if key in Keys(t) || |t| < TABLE_MAX {
      EntryAdds(t, key, tx, true);
    } else {
      EvictionLoses(t, key, tx);
    }
  }

  lemma AddKeepsTable(t: Table, keys: set<(int, int)>, sum: Share, key: (int, int), tx: Tx, bounded: bool)
    requires TableOk(t, keys, sum, bounded)
    ensures TableOk(AddEntry(t, key, tx, bounded), keys + {key}, Plus(sum, ShareOf(tx)), bounded)
  {
    if Exact(t, keys, sum) {
      ExactStep(t, keys, sum, key, tx, bounded);
    } else {
      ShortStep(t, keys, sum, key, tx);
    }
  }

  // The three tables, which differ in the transactions they choose and in the key they file them under.

  datatype Kind = SameProject | OtherProject | OfKind

  predicate Chooses(conf: Conf, kind: Kind, tx: Tx) {
    tx.oid != 0 &&
    match kind
    case SameProject => tx.pcode == conf.pcode
    case OtherProject => tx.pcode != conf.pcode
    case OfKind => true
  }

  function KeyOf(kind: Kind, tx: Tx): (int, int) {
    match kind
    case SameProject => (0, tx.oid)
    case OtherProject => (tx.pcode, tx.oid)
    case OfKind => (tx.pcode, tx.okind)
  }

  function TableOf(kind: Kind, c: Callers): Table {
    match kind
    case SameProject => c.byOid
    case OtherProject => c.byPoid
    case OfKind => c.byPkind
  }

  predicate Bounded(kind: Kind, c: Callers) { kind.OtherProject? ==> c.poidBounded }

  predicate Kept(conf: Conf, kind: Kind) { conf.callerMeter && (kind.OfKind? ==> conf.pkindMeter) }

  function Chosen(conf: Conf, kind: Kind, txs: seq<Tx>): seq<Tx> {
    if txs == [] then []
    else if Chooses(conf, kind, Last(txs)) then Chosen(conf, kind, Init(txs)) + [Last(txs)]
    else Chosen(conf, kind, Init(txs))
  }

  function KeysOf(conf: Conf, kind: Kind, txs: seq<Tx>): set<(int, int)> {
    if txs == [] then {}
    else if Chooses(conf, kind, Last(txs)) then KeysOf(conf, kind, Init(txs)) + {KeyOf(kind, Last(txs))}
    else KeysOf(conf, kind, Init(txs))
  }

  function ShareSum(txs: seq<Tx>): Share { Share(|txs|, TimeSum(txs), Failures(txs)) }

  lemma SumsSnoc(txs: seq<Tx>, tx: Tx)
    ensures TimeSum(txs + [tx]) == TimeSum(txs) + Elapsed(tx)
    ensures SquareSum(txs + [tx]) == SquareSum(txs) + Elapsed(tx) * Elapsed(tx)
    ensures ShareSum(txs + [tx]) == Plus(ShareSum(txs), ShareOf(tx))
  {
    assert Init(txs + [tx]) == txs;
  }

  lemma AddCallerTable(conf: Conf, kind: Kind, c: Callers, tx: Tx)
    requires Kept(conf, kind)
    ensures var c' := AddCaller(conf, c, tx);
            && Bounded(kind, c') == Bounded(kind, c)
            && TableOf(kind, c') == if Chooses(conf, kind, tx)
                                    then AddEntry(TableOf(kind, c), KeyOf(kind, tx), tx, Bounded(kind, c))
                                    else TableOf(kind, c)
  {
  }

  lemma EmptyTable(bounded: bool)
    ensures TableOk([], {}, NO_SHARE, bounded)
  {
  }

  predicate KindOk(conf: Conf, kind: Kind, c: Callers, txs: seq<Tx>) {
    TableOk(TableOf(kind, c), KeysOf(conf, kind, txs), ShareSum(Chosen(conf, kind, txs)), Bounded(kind, c))
  }

  lemma KindStep(conf: Conf, kind: Kind, c: Callers, txs: seq<Tx>)
    requires Kept(conf, kind) && txs != [] && KindOk(conf, kind, c, Init(txs))
    ensures KindOk(conf, kind, AddCaller(conf, c, Last(txs)), txs)
  {
    var tx, before := Last(txs), Init(txs);
    AddCallerTable(conf, kind, c, tx);
    if Chooses(conf, kind, tx) {
      AddKeepsTable(TableOf(kind, c), KeysOf(conf, kind, before), ShareSum(Chosen(conf, kind, before)),
                    KeyOf(kind, tx), tx, Bounded(kind, c));
      SumsSnoc(Chosen(conf, kind, before), tx);
    }
  }

  lemma {:induction false} RunKeepsKind(conf: Conf, kind: Kind, es: seq<Event>)
    requires Kept(conf, kind)
    ensures KindOk(conf, kind, Play(conf, es).shares, SinceReset(es))
    decreases |es|
  {
    if es == [] || Last(es).ResetShares? {
      EmptyTable(Bounded(kind, Play(conf, es).shares));
    } else if Last(es).TakeBucket? {
      RunKeepsKind(conf, kind, Init(es));
    } else {
      assert Init(SinceReset(es)) == SinceReset(Init(es));
      RunKeepsKind(conf, kind, Init(es));
      KindStep(conf, kind, Play(conf, Init(es)).shares, SinceReset(es));
    }
  }

  /** So many callers or kinds that the table, if it is bounded, has room for each. */
  predicate Fits(conf: Conf, kind: Kind, c: Callers, txs: seq<Tx>) {
    Bounded(kind, c) ==> |KeysOf(conf, kind, txs)| <= TABLE_MAX
  }

  /** The transactions filed under one key. */
  function Filed(conf: Conf, kind: Kind, txs: seq<Tx>, key: (int, int)): seq<Tx> {
    if txs == [] then []
    else if Chooses(conf, kind, Last(txs)) && KeyOf(kind, Last(txs)) == key then Filed(conf, kind, Init(txs), key) + [Last(txs)]
    else Filed(conf, kind, Init(txs), key)
  }

  predicate Distinct(t: Table) { forall i, j :: 0 <= i < j < |t| ==> t[i].0 != t[j].0 }

  predicate EntryOk(conf: Conf, kind: Kind, txs: seq<Tx>, e: ((int, int), Share)) {
    e.1 == ShareSum(Filed(conf, kind, txs, e.0))
  }

  /** No caller has two entries, and each entry holds exactly what was filed under its key. */
  predicate EntriesOk(conf: Conf, kind: Kind, t: Table, txs: seq<Tx>) {
    && Distinct(t)
    && forall i :: 0 <= i < |t| ==> EntryOk(conf, kind, txs, t[i])
  }

  lemma {:induction false} NothingFiled(conf: Conf, kind: Kind, txs: seq<Tx>, key: (int, int))
    requires key !in KeysOf(conf, kind, txs)
    ensures Filed(conf, kind, txs, key) == []
  {
    if txs != [] {
      NothingFiled(conf, kind, Init(txs), key);
    }
  }

  lemma FiledLast(conf: Conf, kind: Kind, txs: seq<Tx>, key: (int, int))
    requires txs != []
    ensures var before := ShareSum(Filed(conf, kind, Init(txs), key));
            ShareSum(Filed(conf, kind, txs, key))
            == if Chooses(conf, kind, Last(txs)) && KeyOf(kind, Last(txs)) == key then Plus(before, ShareOf(Last(txs))) else before
  {
    SumsSnoc(Filed(conf, kind, Init(txs), key), Last(txs));
  }

  /** One entry before and after the last transaction. */
  lemma EntryFollows(conf: Conf, kind: Kind, txs: seq<Tx>, key: (int, int), before: Share, after: Share)
    requires txs != [] && EntryOk(conf, kind, Init(txs), (key, before))
    requires after == if Chooses(conf, kind, Last(txs)) && KeyOf(kind, Last(txs)) == key then Plus(before, ShareOf(Last(txs)))
                      else before
    ensures EntryOk(conf, kind, txs, (key, after))
  {
    FiledLast(conf, kind, txs, key);
  }

  lemma EntryBegins(conf: Conf, kind: Kind, txs: seq<Tx>, key: (int, int))
    requires key !in KeysOf(conf, kind, txs)
    ensures EntryOk(conf, kind, txs, (key, NO_SHARE))
  {
    NothingFiled(conf, kind, txs, key);
  }

  /** The entry of the key changes and no other one. */
  lemma KnownKey(t: Table, key: (int, int), tx: Tx, bounded: bool)
    requires key in Keys(t) && Distinct(t)
    ensures var t' := AddEntry(t, key, tx, bounded);
            && |t'| == |t| && Distinct(t')
            && forall i :: 0 <= i < |t| ==>
                 t'[i] == (t[i].0, if t[i].0 == key then Plus(t[i].1, ShareOf(tx)) else t[i].1)
  {
    KeyFound(t, key);
    var f, t' := Find(t, key), AddEntry(t, key, tx, bounded);
    assert t'[f] == (key, AddShare(t[f].1, tx));
    forall i, j | 0 <= i < j < |t'| ensures t'[i].0 != t'[j].0 {
      assert t[i].0 != t[j].0;
    }
    forall i | 0 <= i < |t| && i != f ensures t'[i] == t[i] && t[i].0 != key {
      assert if i < f then t[i].0 != t[f].0 else t[f].0 != t[i].0;
    }
  }

  lemma {:induction false} NewKey(t: Table, key: (int, int), tx: Tx, bounded: bool)
    requires key !in Keys(t) && (!bounded || |t| < TABLE_MAX) && Distinct(t)
    ensures AddEntry(t, key, tx, bounded) == t + [(key, ShareOf(tx))] && Distinct(t + [(key, ShareOf(tx))])
    ensures forall i :: 0 <= i < |t| ==> t[i].0 != key
  {
    KeyFound(t, key);
  }

  lemma EntryStep(conf: Conf, kind: Kind, t: Table, txs: seq<Tx>, bounded: bool)
    requires txs != [] && EntriesOk(conf, kind, t, Init(txs)) && Keys(t) == KeysOf(conf, kind, Init(txs))
    requires Chooses(conf, kind, Last(txs)) && (KeyOf(kind, Last(txs)) in Keys(t) || !bounded || |t| < TABLE_MAX)
    ensures EntriesOk(conf, kind, AddEntry(t, KeyOf(kind, Last(txs)), Last(txs), bounded), txs)
  {
    var tx, key := Last(txs), KeyOf(kind, Last(txs));
    var t' := AddEntry(t, key, tx, bounded);
    if key in Keys(t) {
      KnownKey(t, key, tx, bounded);
    } else {
      NewKey(t, key, tx, bounded);
      EntryBegins(conf, kind, Init(txs), key);
    }
    forall i | 0 <= i < |t'| ensures EntryOk(conf, kind, txs, t'[i]) {
      EntryFollows(conf, kind, txs, t'[i].0, if i < |t| then t[i].1 else NO_SHARE, t'[i].1);
    }
  }

  lemma EntriesUnchanged(conf: Conf, kind: Kind, t: Table, txs: seq<Tx>)
    requires txs != [] && EntriesOk(conf, kind, t, Init(txs)) && !Chooses(conf, kind, Last(txs))
    ensures EntriesOk(conf, kind, t, txs)
  {
    forall i | 0 <= i < |t| ensures EntryOk(conf, kind, txs, t[i]) {
      EntryFollows(conf, kind, txs, t[i].0, t[i].1, t[i].1);
    }
  }

  /** Room for all keys is room for all but the last. */
  lemma FitsBefore(conf: Conf, kind: Kind, c: Callers, txs: seq<Tx>)
    requires Kept(conf, kind) && txs != [] && Fits(conf, kind, AddCaller(conf, c, Last(txs)), txs)
    ensures Fits(conf, kind, c, Init(txs))
  {
    AddCallerTable(conf, kind, c, Last(txs));
    SubsetSize(KeysOf(conf, kind, Init(txs)), KeysOf(conf, kind, txs));
  }

  lemma EntriesAfterEnd(conf: Conf, kind: Kind, c: Callers, txs: seq<Tx>)
    requires Kept(conf, kind) && txs != [] && Fits(conf, kind, AddCaller(conf, c, Last(txs)), txs)
    requires KindOk(conf, kind, c, Init(txs)) && EntriesOk(conf, kind, TableOf(kind, c), Init(txs))
    ensures EntriesOk(conf, kind, TableOf(kind, AddCaller(conf, c, Last(txs))), txs)
  {
    AddCallerTable(conf, kind, c, Last(txs));
    if Chooses(conf, kind, Last(txs)) {
      FitsBefore(conf, kind, c, txs);
      OneMoreKey(KeysOf(conf, kind, Init(txs)), KeyOf(kind, Last(txs)));
      EntryStep(conf, kind, TableOf(kind, c), txs, Bounded(kind, c));
    } else {
      EntriesUnchanged(conf, kind, TableOf(kind, c), txs);
    }
  }

  lemma {:induction false} RunKeepsEntries(conf: Conf, kind: Kind, es: seq<Event>)
    requires Kept(conf, kind) && Fits(conf, kind, Play(conf, es).shares, SinceReset(es))
    ensures EntriesOk(conf, kind, TableOf(kind, Play(conf, es).shares), SinceReset(es))
    decreases |es|
  {
    if es != [] && Last(es).TakeBucket? {
      RunKeepsEntries(conf, kind, Init(es));
    } else if es != [] && Last(es).End? {
      var c, txs := Play(conf, Init(es)).shares, SinceReset(es);
      assert Init(txs) == SinceReset(Init(es)) && Last(txs) == Last(es).tx;
      FitsBefore(conf, kind, c, txs);
      RunKeepsEntries(conf, kind, Init(es));
      RunKeepsKind(conf, kind, Init(es));
      EntriesAfterEnd(conf, kind, c, txs);
    }
  }

  /** The table divides exactly these transactions: one entry for each caller, which holds the caller's own. */
  predicate Divides(conf: Conf, kind: Kind, t: Table, txs: seq<Tx>) {
    && Exact(t, KeysOf(conf, kind, txs), ShareSum(Chosen(conf, kind, txs)))
    && EntriesOk(conf, kind, t, txs)
  }

  lemma {:induction false} SumExactlyIfFits(conf: Conf, kind: Kind, es: seq<Event>)
    requires Kept(conf, kind)
    ensures var c, txs := Play(conf, es).shares, SinceReset(es);
            var t, sum := TableOf(kind, c), ShareSum(Chosen(conf, kind, txs));
            && TableSum(t).count <= sum.count && (TableSum(t).count == sum.count <==> Fits(conf, kind, c, txs))
            && (TableSum(t) == sum <==> Fits(conf, kind, c, txs))
            && (Exact(t, KeysOf(conf, kind, txs), sum) <==> Fits(conf, kind, c, txs))
  {
    RunKeepsKind(conf, kind, es);
  }

  /** Over any run with resets, each of the three tables divides exactly its transactions since the last reset,
      each under its own key, if and only if the table had room for all their keys; otherwise its count falls
      short. */
  lemma {:induction false} TableExactlyIfFits(conf: Conf, kind: Kind, es: seq<Event>)
    requires Kept(conf, kind)
    ensures var c, txs := Play(conf, es).shares, SinceReset(es);
            var t, sum := TableOf(kind, c), ShareSum(Chosen(conf, kind, txs));
            && (Divides(conf, kind, t, txs) <==> Fits(conf, kind, c, txs))
            && TableSum(t).count <= sum.count && (TableSum(t).count == sum.count <==> Fits(conf, kind, c, txs))
  {
    SumExactlyIfFits(conf, kind, es);
    if Fits(conf, kind, Play(conf, es).shares, SinceReset(es)) {
      RunKeepsEntries(conf, kind, es);
    }
  }

  /** A reset has found callers from other projects. */
  predicate OthersReset(conf: Conf, es: seq<Event>) {
    es != [] &&
    (OthersReset(conf, Init(es)) || (Last(es).ResetShares? && Chosen(conf, OtherProject, SinceReset(Init(es))) != []))
  }

  lemma AddedIsThere(t: Table, key: (int, int), tx: Tx, bounded: bool)
    ensures AddEntry(t, key, tx, bounded) != []
  {
  }

  /** The table of callers from other projects is bounded exactly after a reset has found some in it. */
  lemma {:induction false} BoundedExactlyIfReset(conf: Conf, es: seq<Event>)
    requires conf.callerMeter
    ensures var c := Play(conf, es).shares;
            && (c.poidBounded <==> OthersReset(conf, es))
            && (c.byPoid == [] <==> Chosen(conf, OtherProject, SinceReset(es)) == [])
    decreases |es|
  {
    if es != [] {
      BoundedExactlyIfReset(conf, Init(es));
      if Last(es).End? {
        var c, tx, txs := Play(conf, Init(es)).shares, Last(es).tx, SinceReset(es);
        assert Init(txs) == SinceReset(Init(es)) && Last(txs) == tx;
        AddCallerTable(conf, OtherProject, c, tx);
        AddedIsThere(c.byPoid, KeyOf(OtherProject, tx), tx, c.poidBounded);
      }
    }
  }

  /** The transactions of unknown callers. */
  function Unnamed(txs: seq<Tx>): seq<Tx> {
    if txs == [] then []
    else if Last(txs).oid == 0 then Unnamed(Init(txs)) + [Last(txs)]
    else Unnamed(Init(txs))
  }

  lemma SumsLast(txs: seq<Tx>)
    requires txs != []
    ensures ShareSum(txs) == Plus(ShareSum(Init(txs)), ShareOf(Last(txs)))
  {
  }

  lemma ChosenLast(conf: Conf, kind: Kind, txs: seq<Tx>)
    requires txs != []
    ensures var before := ShareSum(Chosen(conf, kind, Init(txs)));
            ShareSum(Chosen(conf, kind, txs)) == if Chooses(conf, kind, Last(txs)) then Plus(before, ShareOf(Last(txs))) else before
  {
    SumsSnoc(Chosen(conf, kind, Init(txs)), Last(txs));
  }

  lemma UnnamedLast(txs: seq<Tx>)
    requires txs != []
    ensures var before := ShareSum(Unnamed(Init(txs)));
            ShareSum(Unnamed(txs)) == if Last(txs).oid == 0 then Plus(before, ShareOf(Last(txs))) else before
  {
    SumsSnoc(Unnamed(Init(txs)), Last(txs));
  }

  lemma UnknownStep(conf: Conf, c: Callers, tx: Tx)
    requires conf.callerMeter
    ensures AddCaller(conf, c, tx).unknown == if tx.oid == 0 then Plus(c.unknown, ShareOf(tx)) else c.unknown
  {
  }

  lemma {:induction false} UnknownIsExact(conf: Conf, es: seq<Event>)
    requires conf.callerMeter
    ensures Play(conf, es).shares.unknown == ShareSum(Unnamed(SinceReset(es)))
    decreases |es|
  {
    if es == [] || Last(es).ResetShares? {
      if es != [] {
        PlaySound(conf, Init(es));
      }
    } else {
      UnknownIsExact(conf, Init(es));
      if Last(es).End? {
        var txs := SinceReset(es);
        assert Init(txs) == SinceReset(Init(es)) && Last(txs) == Last(es).tx;
        UnknownStep(conf, Play(conf, Init(es)).shares, Last(es).tx);
        UnnamedLast(txs);
      }
    }
  }

  function PlusAll(a: Share, b: Share, c: Share): Share { Plus(Plus(a, b), c) }

  lemma PlusOne(a: Share, b: Share, c: Share, d: Share)
    ensures Plus(PlusAll(a, b, c), d) == PlusAll(Plus(a, d), b, c)
    ensures Plus(PlusAll(a, b, c), d) == PlusAll(a, Plus(b, d), c)
    ensures Plus(PlusAll(a, b, c), d) == PlusAll(a, b, Plus(c, d))
  {
  }

  function AllShares(conf: Conf, txs: seq<Tx>): Share {
    PlusAll(ShareSum(Chosen(conf, SameProject, txs)), ShareSum(Chosen(conf, OtherProject, txs)), ShareSum(Unnamed(txs)))
  }

  lemma AllSharesLast(conf: Conf, txs: seq<Tx>)
    requires txs != []
    ensures AllShares(conf, txs) == Plus(AllShares(conf, Init(txs)), ShareOf(Last(txs)))
  {
    ChosenLast(conf, SameProject, txs);
    ChosenLast(conf, OtherProject, txs);
    UnnamedLast(txs);
    PlusOne(ShareSum(Chosen(conf, SameProject, Init(txs))), ShareSum(Chosen(conf, OtherProject, Init(txs))),
            ShareSum(Unnamed(Init(txs))), ShareOf(Last(txs)));
  }

  lemma NothingShared(conf: Conf)
    ensures ShareSum([]) == AllShares(conf, []) == NO_SHARE
  {
    assert Chosen(conf, SameProject, []) == [];
    assert Chosen(conf, OtherProject, []) == [];
    assert Unnamed([]) == [];
    assert ShareSum([]) == NO_SHARE;
  }

  /** Every transaction is of a same-project, an other-project or an unknown caller. */
  lemma {:induction false} SharesMakeAll(conf: Conf, txs: seq<Tx>)
    ensures ShareSum(txs) == AllShares(conf, txs)
    decreases |txs|
  {
    if txs == [] {
      NothingShared(conf);
    } else {
      SharesMakeAll(conf, Init(txs));
      SumsLast(txs);
      AllSharesLast(conf, txs);
    }
  }

  /** Count, time and failures over same-project, other-project and unknown callers. */
  function Totals(c: Callers): Share { PlusAll(TableSum(c.byOid), TableSum(c.byPoid), c.unknown) }

  predicate FewCallers(conf: Conf, c: Callers, txs: seq<Tx>) {
    Fits(conf, SameProject, c, txs) && Fits(conf, OtherProject, c, txs)
  }

  /** With caller metering on, over any run with resets: the shares add up to the transactions since the last
      reset if and only if the same-project table, and the other-project table once it is bounded, had room for
      all callers; otherwise their count falls short. */
  lemma {:induction false} CallersShareEverything(conf: Conf, es: seq<Event>)
    requires conf.callerMeter
    ensures var c, txs := Play(conf, es).shares, SinceReset(es);
            && (Totals(c) == ShareSum(txs) <==> FewCallers(conf, c, txs))
            && (!FewCallers(conf, c, txs) ==> Totals(c).count < |txs|)
  {
    SumExactlyIfFits(conf, SameProject, es);
    SumExactlyIfFits(conf, OtherProject, es);
    UnknownIsExact(conf, es);
    SharesMakeAll(conf, SinceReset(es));
  }

  /** The bucket's count, time and failures are the sums over the shares. */
  predicate Agree(m: Meter) { Share(m.bucket.count, m.bucket.timesum, m.bucket.error) == Totals(m.shares) }

  /** Bucket and shares together: the one holds the transactions since it was taken, the others those since
      they were reset; and they agree if and only if no transaction has ended between the two moments. */
  lemma BucketAndSharesAgree(conf: Conf, es: seq<Event>)
    requires conf.callerMeter && FewCallers(conf, Play(conf, es).shares, SinceReset(es))
    requires |SinceTake(es)| < TWO_31 && SquareSum(SinceTake(es)) < TWO_63
    ensures Agree(Play(conf, es)) <==> |SinceTake(es)| == |SinceReset(es)|
    ensures |SinceTake(es)| == |SinceReset(es)| ==> SinceTake(es) == SinceReset(es)
  {
    BucketSinceTake(conf, es);
    BucketIsExact(conf, SinceTake(es));
    CallersShareEverything(conf, es);
    OneIsASuffix(es);
  }

  // ---------------------------------------------------------------------------------------------
  // The imperative meter.

  class MeterService {
    var bucket: Bucket
    var statByOID: Table
    var statByPOID: Table
    var statByPKIND: Table
    var unknown: Share
    var poidBounded: bool

    ghost function Shares(): Callers
      reads this
    {
      Callers(statByOID, statByPOID, statByPKIND, unknown, poidBounded)
    }

    constructor ()
      ensures bucket == NEW_BUCKET && Shares() == NO_CALLERS
    {
      bucket, statByOID, statByPOID, statByPKIND, unknown, poidBounded := NEW_BUCKET, [], [], [], NO_SHARE, false;
    }

    method Add(conf: Conf, tx: Tx)
      modifies this
      ensures bucket == AddTo(conf, old(bucket), tx) && Shares() == AddCaller(conf, old(Shares()), tx)
    {
      var elapsed := if tx.elapsed < 0 then 0 else tx.elapsed;
      AddToBucket(conf, elapsed, tx);
      if conf.callerMeter {
        if tx.oid != 0 {
          if tx.pcode == conf.pcode {
            statByOID := AddEntry(statByOID, (0, tx.oid), tx, true);
          } else {
            statByPOID := AddEntry(statByPOID, (tx.pcode, tx.oid), tx, poidBounded);
          }
          if conf.pkindMeter {
            statByPKIND := AddEntry(statByPKIND, (tx.pcode, tx.okind), tx, true);
          }
        } else {
          unknown := AddShare(unknown, tx);
        }
      }
    }

    method AddToBucket(conf: Conf, elapsed: int, tx: Tx)
      requires elapsed == Elapsed(tx)
      modifies this`bucket
      ensures bucket == AddTo(conf, old(bucket), tx)
    {
      var b := bucket;
      b := b.(count := ToInt32(b.count + 1), timesum := Wrap64(b.timesum + elapsed));
      if tx.failed {
        b := b.(error := ToInt32(b.error + 1), total := ToInt32(b.total + 1));
      } else {
        b := b.(total := ToInt32(b.total + 1));
        if elapsed <= conf.apdexTime {
          b := b.(satisfied := ToInt32(b.satisfied + 1));
        } else if elapsed <= conf.apdexTime4T {
          b := b.(tolerated := ToInt32(b.tolerated + 1));
        }
      }
      bucket := b.(timeSqrSum := Wrap64(b.timeSqrSum + elapsed * elapsed));
    }

    method GetAndResetBucket() returns (b: Bucket)
      modifies this`bucket
      ensures b == old(bucket) && bucket == NEW_BUCKET
    {
      b := bucket;
      bucket := NEW_BUCKET;
    }

    method ResetStat()
      modifies this
      ensures bucket == old(bucket)
      ensures Shares() == Reset(old(Shares()))
    {
      if |statByOID| > 0 {
        statByOID := [];
      }
      if |statByPKIND| > 0 {
        statByPKIND := [];
      }
      if |statByPOID| > 0 {
        statByPOID := [];
        poidBounded := true;
      }
      if unknown.count > 0 {
        unknown := NO_SHARE;
      }
    }
  }
}
