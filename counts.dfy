/**
 The per-customer event-type counter of the intent engine (a Python `Counter`),
 modelled as a finite map from event type to occurrence count, together with
 the order-independent weighted sums the scorer takes over it.
 */
module Counts {

  /** A Python `Counter` of event types: occurrence count per type; only observed types are keys. */
  type Counter = map<string, nat>

  /** `counts.get(key, 0)`: the count of `key`, zero when it was never observed. */
  function Get(m: Counter, key: string): (n: nat)
    ensures key in m ==> n == m[key]
    ensures key !in m ==> n == 0
  {
    if key in m then m[key] else 0
  }

  /**
   The weighted sum of all counts, each count multiplied by the weight of its key.
   The key taken first is an arbitrary one: SumPick shows that the sum does not
   depend on the order in which the keys are visited.
   */
  ghost function Sum(m: Counter, w: string -> nat): nat
    decreases |m|
  {
    if m == map[] then 0
    else
      var k :| k in m;
      assert |m - {k}| == |m| - 1;
      w(k) * m[k] + Sum(m - {k}, w)
  }

  /** `sum(counts.values())`: the total number of events counted. */
  ghost function Total(m: Counter): nat
  {
    Sum(m, _ => 1)
  }

  /** Any key may be taken out first: the sum is independent of visiting order. */
  lemma {:induction false} SumPick(m: Counter, w: string -> nat, k: string)
    requires k in m
    ensures Sum(m, w) == w(k) * m[k] + Sum(m - {k}, w)
    decreases |m|
  {
    var j :| j in m && Sum(m, w) == w(j) * m[j] + Sum(m - {j}, w);
    if j != k {
      assert |m - {j}| == |m| - 1;
      assert |m - {k}| == |m| - 1;
      SumPick(m - {j}, w, k);
      SumPick(m - {k}, w, j);
      assert m - {j} - {k} == m - {k} - {j};
    }
  }

  /** `counter[key] += 1` adds exactly the key's weight to the weighted sum. */
  lemma SumIncrement(m: Counter, w: string -> nat, key: string)
    ensures Sum(m[key := Get(m, key) + 1], w) == Sum(m, w) + w(key)
  {
    var m' := m[key := Get(m, key) + 1];
    SumPick(m', w, key);
    if key in m {
      SumPick(m, w, key);
      assert m' - {key} == m - {key};
    } else {
      assert m' - {key} == m;
    }
  }

  /** The total is zero exactly when every stored count is zero. */
  lemma {:induction false} TotalZeroIff(m: Counter)
    ensures Total(m) == 0 <==> forall t :: t in m ==> m[t] == 0
    decreases |m|
  {
    if m != map[] {
      var k :| k in m;
      SumPick(m, _ => 1, k);
      assert |m - {k}| == |m| - 1;
      TotalZeroIff(m - {k});
      if Total(m) == 0 {
        forall t | t in m ensures m[t] == 0 {
          if t != k {
            assert t in m - {k};
          }
        }
      }
    }
  }

  /** The total of a single-entry counter is that entry's count. */
  lemma SumSingleton(key: string, n: nat, w: string -> nat)
    ensures Sum(map[key := n], w) == w(key) * n
  {
    SumPick(map[key := n], w, key);
    assert map[key := n] - {key} == map[];
  }
}
