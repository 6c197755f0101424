/** The gauge of LLM calls that are being published (agent/agent/counter/meter/MeterLLM.go): one entry for each
    provider, model, operation and URL with calls in progress. */
module LlmGauge {
  import opened Common

  datatype Key = Key(provider: string, model: string, operation: string, url: string)

  type Gauge = map<Key, int>

  function OnStart(g: Gauge, k: Key): Gauge { g[k := if k in g then g[k] + 1 else 1] }

  const KEY_MAX := 1024

  /** The source's map drops an entry when a new key is put and there are 1024 already. */
  function OnStartBounded(g: Gauge, k: Key, victim: Key): Gauge {
    if k in g || |g| < KEY_MAX then OnStart(g, k) else OnStart(g - {victim}, k)
  }

  function OnEnd(g: Gauge, k: Key): Gauge {
    if k !in g then g else if g[k] - 1 <= 0 then g - {k} else g[k := g[k] - 1]
  }

  /** No entry is empty. */
  predicate Positive(g: Gauge) { forall k :: k in g ==> g[k] > 0 }

  /** A publish with nothing in between. */
  function AfterPublish(g: Gauge, k: Key, victim: Key): Gauge { OnEnd(OnStartBounded(g, k, victim), k) }

  /** It leaves the gauge as it was, except that a new key can push another one out of a full map. */
  lemma PublishLeavesGaugeExactlyIf(g: Gauge, k: Key, victim: Key)
    requires Positive(g)
    ensures Positive(AfterPublish(g, k, victim))
    ensures AfterPublish(g, k, victim) == g <==> k in g || |g| < KEY_MAX || victim !in g
  {
    if k !in g && |g| >= KEY_MAX {
      assert AfterPublish(g, k, victim) == g - {victim};
    }
  }

  function KeyNo(n: nat): Key { Key([], [], [], seq(n, _ => 'x')) }

  /** The gauge after the starts of the first `n` keys. */
  function Started(n: nat): Gauge { if n == 0 then map[] else OnStart(Started(n - 1), KeyNo(n - 1)) }

  lemma NewKey(g: Gauge, k: Key)
    requires k !in g
    ensures |OnStart(g, k)| == |g| + 1 && OnStart(g, k).Keys == g.Keys + {k} && OnStart(g, k)[k] == 1
  {
    assert OnStart(g, k).Keys == g.Keys + {k};
  }

  lemma {:induction false} StartedKeys(n: nat)
    ensures |Started(n)| == n
    ensures forall i: nat :: i < n ==> KeyNo(i) in Started(n)
    ensures forall k :: k in Started(n) ==> |k.url| < n
  {
    if n > 0 {
      StartedKeys(n - 1);
      assert |KeyNo(n - 1).url| == n - 1;
      NewKey(Started(n - 1), KeyNo(n - 1));
    }
  }

  /** With 1024 keys in progress the publish of another one makes the gauge forget the oldest. */
  lemma FullGaugeForgets()
    ensures var g := Started(KEY_MAX);
            KeyNo(0) in g && KeyNo(0) !in AfterPublish(g, KeyNo(KEY_MAX), KeyNo(0))
  {
    StartedKeys(KEY_MAX);
    assert |KeyNo(KEY_MAX).url| == KEY_MAX;
  }

  /** The calls with this key among those in progress. */
  function With(running: map<int, Key>, k: Key): set<int> { set id | id in running && running[id] == k }

  /** The gauge shows, for each key, how many publishes are in progress, and nothing else. */
  ghost predicate Shows(g: Gauge, running: map<int, Key>) {
    forall k :: Entry(g, k) == |With(running, k)| && (k in g ==> g[k] > 0)
  }

  function Entry(g: Gauge, k: Key): int { if k in g then g[k] else 0 }

  lemma OneMore(running: map<int, Key>, id: int, k: Key, x: Key)
    requires id !in running
    ensures |With(running[id := k], x)| == |With(running, x)| + if x == k then 1 else 0
  {
    var more := With(running[id := k], x);
    if x == k {
      assert more == With(running, x) + {id};
    } else {
      assert more == With(running, x);
    }
  }

  lemma StartShows(g: Gauge, running: map<int, Key>, id: int, k: Key)
    requires Shows(g, running) && id !in running
    ensures Shows(OnStart(g, k), running[id := k])
  {
    forall x ensures Entry(OnStart(g, k), x) == |With(running[id := k], x)| && (x in OnStart(g, k) ==> OnStart(g, k)[x] > 0) {
      assert Entry(g, x) == |With(running, x)|;
      OneMore(running, id, k, x);
    }
  }

  lemma EndShows(g: Gauge, running: map<int, Key>, id: int)
    requires Shows(g, running) && id in running
    ensures Shows(OnEnd(g, running[id]), running - {id})
  {
    var k, running' := running[id], running - {id};
    assert Entry(g, k) == |With(running, k)| && id in With(running, k);
    forall x ensures Entry(OnEnd(g, k), x) == |With(running', x)| && (x in OnEnd(g, k) ==> OnEnd(g, k)[x] > 0) {
      assert Entry(g, x) == |With(running, x)|;
      assert With(running', x) == if x == k then With(running, x) - {id} else With(running, x);
    }
  }

  /** When all publishes have finished, the gauge is empty again. */
  lemma NoneRunning(g: Gauge)
    requires Shows(g, map[])
    ensures g == map[]
  {
    forall k ensures k !in g {
      assert With(map[], k) == {};
      assert Entry(g, k) == 0;
    }
  }

  /** With fewer than 1024 publishes in progress a start drops none. */
  lemma NothingIsEvicted(g: Gauge, running: map<int, Key>, k: Key, victim: Key)
    requires Shows(g, running) && |running| < KEY_MAX
    ensures OnStartBounded(g, k, victim) == OnStart(g, k)
  {
    forall x | x !in running.Values ensures x !in g {
      assert With(running, x) == {};
      assert Entry(g, x) == 0;
    }
    KeysOf(running);
    SubsetSize(g.Keys, running.Values);
  }

  lemma KeysOf(running: map<int, Key>)
    ensures |running.Values| <= |running|
    decreases |running|
  {
  }
}
