/** Sums and maxima over the values of a finite map, and how one update changes them. */
module Sums {

  ghost function Sum<K, V>(m: map<K, V>, f: V -> nat): nat
    decreases |m|
  {
    if m == map[] then 0 else
      var k :| k in m;
      assert |m - {k}| < |m| by { assert m.Keys == (m - {k}).Keys + {k}; }
      f(m[k]) + Sum(m - {k}, f)
  }

  /** Any key may be split off first, whichever one the definition picks. */
  lemma {:induction false} SumSplit<K, V>(m: map<K, V>, f: V -> nat, k: K)
    requires k in m
    ensures Sum(m, f) == f(m[k]) + Sum(m - {k}, f)
    decreases |m|
  {
    var j :| j in m && Sum(m, f) == f(m[j]) + Sum(m - {j}, f);
    if j != k {
      assert |m - {j}| < |m| by { assert m.Keys == (m - {j}).Keys + {j}; }
      assert |m - {k}| < |m| by { assert m.Keys == (m - {k}).Keys + {k}; }
      SumSplit(m - {j}, f, k);
      SumSplit(m - {k}, f, j);
      assert (m - {j}) - {k} == (m - {k}) - {j};
    }
  }

  /** Writing one key replaces that key's weight. */
  lemma SumUpdate<K, V>(m: map<K, V>, f: V -> nat, k: K, v: V)
    ensures Sum(m[k := v], f) == Sum(m, f) + f(v) - (if k in m then f(m[k]) else 0)
  {
    var m' := m[k := v];
    SumSplit(m', f, k);
    assert m' - {k} == m - {k};
    if k in m { SumSplit(m, f, k); } else { assert m - {k} == m; }
  }

  lemma SumRemove<K, V>(m: map<K, V>, f: V -> nat, k: K)
    ensures Sum(m - {k}, f) == Sum(m, f) - (if k in m then f(m[k]) else 0)
  {
    if k in m { SumSplit(m, f, k); } else { assert m - {k} == m; }
  }

  lemma SumBounds<K, V>(m: map<K, V>, f: V -> nat, k: K)
    requires k in m
    ensures f(m[k]) <= Sum(m, f)
  {
    SumSplit(m, f, k);
  }

  /** Dropping keys that weigh nothing, and rewriting others without changing their weight, keeps the sum. */
  lemma {:induction false} SumPruned<K, V>(m: map<K, V>, m': map<K, V>, f: V -> nat)
    requires m'.Keys <= m.Keys
    requires forall k :: k in m ==> f(m[k]) == if k in m' then f(m'[k]) else 0
    ensures Sum(m', f) == Sum(m, f)
    decreases |m|
  {
    if m == map[] {
      assert m' == map[];
    } else {
      var k :| k in m;
      assert |m - {k}| < |m| by { assert m.Keys == (m - {k}).Keys + {k}; }
      SumRemove(m, f, k);
      SumRemove(m', f, k);
      SumPruned(m - {k}, m' - {k}, f);
    }
  }

  /** Sums of two weights add up. */
  lemma {:induction false} SumAdd<K, V>(m: map<K, V>, f: V -> nat, g: V -> nat, h: V -> nat)
    requires forall v :: h(v) == f(v) + g(v)
    ensures Sum(m, h) == Sum(m, f) + Sum(m, g)
    decreases |m|
  {
    if m != map[] {
      var k :| k in m;
      assert |m - {k}| < |m| by { assert m.Keys == (m - {k}).Keys + {k}; }
      SumSplit(m, f, k);
      SumSplit(m, g, k);
      SumSplit(m, h, k);
      SumAdd(m - {k}, f, g, h);
    }
  }

  function Max(a: nat, b: nat): nat { if a < b then b else a }

  /** The largest weight in the map, 0 when it is empty. */
  ghost function Latest<K, V>(m: map<K, V>, f: V -> nat): nat
    decreases |m|
  {
    if m == map[] then 0 else
      var k :| k in m;
      assert |m - {k}| < |m| by { assert m.Keys == (m - {k}).Keys + {k}; }
      Max(f(m[k]), Latest(m - {k}, f))
  }

  /** As for sums, any key may be split off first. */
  lemma {:induction false} LatestSplit<K, V>(m: map<K, V>, f: V -> nat, k: K)
    requires k in m
    ensures Latest(m, f) == Max(f(m[k]), Latest(m - {k}, f))
    decreases |m|
  {
    var j :| j in m && Latest(m, f) == Max(f(m[j]), Latest(m - {j}, f));
    if j != k {
      assert |m - {j}| < |m| by { assert m.Keys == (m - {j}).Keys + {j}; }
      assert |m - {k}| < |m| by { assert m.Keys == (m - {k}).Keys + {k}; }
      var rest := (m - {j}) - {k};
      assert rest == (m - {k}) - {j};
      LatestSplit(m - {j}, f, k);
      LatestSplit(m - {k}, f, j);
      MaxSwap(f(m[j]), f(m[k]), Latest(rest, f));
    }
  }

  lemma MaxSwap(a: nat, b: nat, c: nat)
    ensures Max(a, Max(b, c)) == Max(b, Max(a, c))
  {
  }

  /** Some key reaches a non-zero maximum. */
  lemma {:induction false} LatestReached<K, V>(m: map<K, V>, f: V -> nat) returns (k: K)
    requires Latest(m, f) != 0
    ensures k in m && f(m[k]) == Latest(m, f)
    decreases |m|
  {
    var j :| j in m;
    LatestSplit(m, f, j);
    if f(m[j]) == Latest(m, f) {
      k := j;
    } else {
      assert |m - {j}| < |m| by { assert m.Keys == (m - {j}).Keys + {j}; }
      k := LatestReached(m - {j}, f);
    }
  }

  /** Writing one key replaces that key's share of the maximum. */
  lemma LatestWrite<K, V>(m: map<K, V>, f: V -> nat, k: K, v: V)
    ensures Latest(m[k := v], f) == Max(f(v), Latest(m - {k}, f))
  {
    LatestSplit(m[k := v], f, k);
    assert m[k := v] - {k} == m - {k};
  }

  /** An update that keeps the key's weight (an absent key weighing 0) keeps the maximum. */
  lemma LatestUpdate<K, V>(m: map<K, V>, f: V -> nat, k: K, v: V)
    requires f(v) == if k in m then f(m[k]) else 0
    ensures Latest(m[k := v], f) == Latest(m, f)
  {
    LatestWrite(m, f, k, v);
    if k in m { LatestSplit(m, f, k); } else { assert m - {k} == m; }
  }

  lemma LatestRemove<K, V>(m: map<K, V>, f: V -> nat, k: K)
    requires k in m ==> f(m[k]) == 0
    ensures Latest(m - {k}, f) == Latest(m, f)
  {
    if k in m { LatestSplit(m, f, k); } else { assert m - {k} == m; }
  }
}
