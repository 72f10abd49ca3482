/** Sums over keyed rows, as SQL's sum() computes them: in no particular order. */
module Sums {
  import opened Base

  ghost function Sum(w: map<Uuid, nat>): nat
    decreases |w|
  {
    if w == map[] then 0
    else
      var k :| k in w;
      w[k] + Sum(w - {k})
  }

  /** Any row may be summed first. */
  lemma {:induction false} SumTake(w: map<Uuid, nat>, k: Uuid)
    requires k in w
    ensures Sum(w) == w[k] + Sum(w - {k})
    decreases |w|
  {
    var j :| j in w && Sum(w) == w[j] + Sum(w - {j});
    if j != k {
      SumTake(w - {j}, k);
      SumTake(w - {k}, j);
      assert w - {j} - {k} == w - {k} - {j};
    }
  }

  /** Inserting or replacing one row. */
  lemma SumPut(w: map<Uuid, nat>, k: Uuid, v: nat)
    ensures Sum(w[k := v]) == Sum(w) - (if k in w then w[k] else 0) + v
  {
    SumTake(w[k := v], k);
    if k in w {
      SumTake(w, k);
      assert w[k := v] - {k} == w - {k};
    } else {
      assert w[k := v] - {k} == w;
    }
  }

  lemma {:induction false} SumOfZeros(w: map<Uuid, nat>)
    requires forall k :: k in w ==> w[k] == 0
    ensures Sum(w) == 0
    decreases |w|
  {
    if w != map[] {
      var k :| k in w;
      SumTake(w, k);
      SumOfZeros(w - {k});
    }
  }

  lemma {:induction false} SumOverParts(w: map<Uuid, nat>, a: map<Uuid, nat>, b: map<Uuid, nat>)
    requires a.Keys !! b.Keys && a.Keys + b.Keys <= w.Keys
    requires forall k :: k in w ==> w[k] == (if k in a then a[k] else if k in b then b[k] else 0)
    ensures Sum(w) == Sum(a) + Sum(b)
    decreases |w|
  {
    if w == map[] {
      assert a == map[] && b == map[];
    } else {
      var k :| k in w;
      SumTake(w, k);
      SumOverParts(w - {k}, a - {k}, b - {k});
      if k in a {
        SumTake(a, k);
        assert b - {k} == b;
      } else if k in b {
        SumTake(b, k);
        assert a - {k} == a;
      } else {
        assert a - {k} == a && b - {k} == b;
      }
    }
  }

  lemma {:induction false} SumOfOnes(w: map<Uuid, nat>, ones: set<Uuid>)
    requires ones <= w.Keys && forall k :: k in w ==> w[k] == (if k in ones then 1 else 0)
    ensures Sum(w) == |ones|
    decreases |w|
  {
    if w == map[] {
      assert ones == {};
    } else {
      var k :| k in w;
      SumTake(w, k);
      SumOfOnes(w - {k}, ones - {k});
      if k !in ones { assert ones - {k} == ones; }
    }
  }
}
