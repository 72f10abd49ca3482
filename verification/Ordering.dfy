/** Python's sorted: a stable sort, and when its result does not depend on the incoming order. */
module Ordering {
  import opened Plans

  /** Strings compare by code points, first difference first. */
  predicate Leq(a: string, b: string) {
    a == [] || (b != [] && (a[0] < b[0] || (a[0] == b[0] && Leq(a[1..], b[1..]))))
  }

  lemma {:induction false} LeqTotal(a: string, b: string)
    ensures Leq(a, b) || Leq(b, a)
  {
    if a != [] && b != [] { LeqTotal(a[1..], b[1..]); }
  }

  lemma {:induction false} LeqTransitive(a: string, b: string, c: string)
    requires Leq(a, b) && Leq(b, c)
    ensures Leq(a, c)
  {
    if a != [] && a[0] == b[0] == c[0] { LeqTransitive(a[1..], b[1..], c[1..]); }
  }

  lemma {:induction false} LeqAntisymmetric(a: string, b: string)
    requires Leq(a, b) && Leq(b, a)
    ensures a == b
  {
    if a != [] {
      LeqAntisymmetric(a[1..], b[1..]);
      assert a == [a[0]] + a[1..] && b == [b[0]] + b[1..];
    }
  }

  /** Insert after everything whose key is not greater. */
  function Insert(key: string -> string, s: seq<string>, p: string): seq<string> {
    if s == [] || Leq(key(s[|s| - 1]), key(p)) then s + [p]
    else Insert(key, s[..|s| - 1], p) + [s[|s| - 1]]
  }

  function Sorted(key: string -> string, s: seq<string>): seq<string> {
    if s == [] then [] else Insert(key, Sorted(key, s[..|s| - 1]), s[|s| - 1])
  }

  predicate IsSorted(key: string -> string, s: seq<string>) {
    forall i, j :: 0 <= i < j < |s| ==> Leq(key(s[i]), key(s[j]))
  }

  lemma AppendKeepsSorted(key: string -> string, s: seq<string>, p: string)
    requires IsSorted(key, s) && (s == [] || Leq(key(s[|s| - 1]), key(p)))
    ensures IsSorted(key, s + [p])
  {
    hide Leq;
    forall i | 0 <= i < |s| ensures Leq(key(s[i]), key(p)) {
      if i < |s| - 1 { LeqTransitive(key(s[i]), key(s[|s| - 1]), key(p)); }
    }
  }

  lemma GreaterThanAll(key: string -> string, front: seq<string>, last: string, p: string, r: seq<string>)
    requires IsSorted(key, front + [last]) && !Leq(key(last), key(p)) && multiset(r) == multiset(front) + multiset{p}
    ensures r == [] || Leq(key(r[|r| - 1]), key(last))
  {
    hide Leq;
    LeqTotal(key(last), key(p));
    if r != [] {
      var x := r[|r| - 1];
      assert x in multiset(r);
      if x != p {
        assert x in front;
        var i :| 0 <= i < |front| && front[i] == x;
        assert (front + [last])[i] == x && (front + [last])[|front|] == last;
      }
    }
  }

  lemma FrontIsSorted(key: string -> string, s: seq<string>)
    requires IsSorted(key, s) && s != []
    ensures IsSorted(key, s[..|s| - 1])
  {
    hide Leq;
  }

  lemma {:induction false} InsertKeeps(key: string -> string, s: seq<string>, p: string)
    requires IsSorted(key, s)
    ensures IsSorted(key, Insert(key, s, p)) && multiset(Insert(key, s, p)) == multiset(s) + multiset{p}
  {
    hide Leq, IsSorted;
    if s == [] || Leq(key(s[|s| - 1]), key(p)) {
      AppendKeepsSorted(key, s, p);
    } else {
      var front, last := s[..|s| - 1], s[|s| - 1];
      assert s == front + [last];
      FrontIsSorted(key, s);
      InsertKeeps(key, front, p);
      GreaterThanAll(key, front, last, p, Insert(key, front, p));
      AppendKeepsSorted(key, Insert(key, front, p), last);
    }
  }

  /** The result is sorted and a permutation. */
  lemma {:induction false} SortedSorts(key: string -> string, s: seq<string>)
    ensures IsSorted(key, Sorted(key, s)) && multiset(Sorted(key, s)) == multiset(s)
  {
    if s != [] {
      var front, last := s[..|s| - 1], s[|s| - 1];
      SortedSorts(key, front);
      InsertKeeps(key, Sorted(key, front), last);
      assert s == front + [last];
    }
  }

  /** No two different paths have the same key. */
  ghost predicate NoCollisions(key: string -> string, paths: set<string>) {
    forall p, q :: p in paths && q in paths && key(p) == key(q) ==> p == q
  }

  lemma LastIsGreatest(key: string -> string, s: seq<string>, p: string)
    requires IsSorted(key, s) && p in s
    ensures Leq(key(p), key(s[|s| - 1]))
  {
    var i :| 0 <= i < |s| && s[i] == p;
    LeqTotal(key(p), key(p));
  }

  lemma SameLast(key: string -> string, s: seq<string>, t: seq<string>)
    requires IsSorted(key, s) && IsSorted(key, t) && s != [] && t != [] && Elements(s) == Elements(t)
    requires NoCollisions(key, Elements(s))
    ensures s[|s| - 1] == t[|t| - 1]
  {
    var a, b := s[|s| - 1], t[|t| - 1];
    assert a in Elements(s) && b in Elements(t);
    LastIsGreatest(key, s, b);
    LastIsGreatest(key, t, a);
    LeqAntisymmetric(key(a), key(b));
  }

  lemma DropLast(s: seq<string>)
    requires s != []
    ensures multiset(s[..|s| - 1]) == multiset(s) - multiset{s[|s| - 1]}
    ensures Elements(s[..|s| - 1]) <= Elements(s)
  {
    assert s == s[..|s| - 1] + [s[|s| - 1]];
  }

  lemma {:induction false} SortedIsUnique(key: string -> string, s: seq<string>, t: seq<string>)
    requires IsSorted(key, s) && IsSorted(key, t) && multiset(s) == multiset(t)
    requires NoCollisions(key, Elements(s))
    ensures s == t
  {
    hide Leq;
    SameElements(s, t);
    if s != [] {
      SameLast(key, s, t);
      DropLast(s);
      DropLast(t);
      hide Elements;
      SortedIsUnique(key, s[..|s| - 1], t[..|t| - 1]);
      assert s == s[..|s| - 1] + [s[|s| - 1]] && t == t[..|t| - 1] + [t[|t| - 1]];
    }
  }

  /** Without collisions the sorted list depends only on which paths there are. */
  lemma SortedOfSameSet(key: string -> string, s: seq<string>, t: seq<string>)
    requires Distinct(s) && Distinct(t) && Elements(s) == Elements(t) && NoCollisions(key, Elements(s))
    ensures Sorted(key, s) == Sorted(key, t)
  {
    SortedSorts(key, s);
    SortedSorts(key, t);
    DistinctIsItsSet(s);
    DistinctIsItsSet(t);
    SameElements(Sorted(key, s), s);
    SortedIsUnique(key, Sorted(key, s), Sorted(key, t));
  }

  lemma SameElements(s: seq<string>, t: seq<string>)
    requires multiset(s) == multiset(t)
    ensures Elements(s) == Elements(t) && |s| == |t|
  {
    EqualMultisetsEqualElements(s, t);
  }

  lemma SortedKeepsDistinct(key: string -> string, s: seq<string>)
    requires Distinct(s)
    ensures Distinct(Sorted(key, s)) && Elements(Sorted(key, s)) == Elements(s) && |Sorted(key, s)| == |s|
  {
    SortedSorts(key, s);
    SameElements(Sorted(key, s), s);
    DistinctHasFullCardinality(s);
    DistinctHasFullCardinality(Sorted(key, s));
  }

  // ---------- stability ----------

  /** The members of one key, in their order. */
  function SameKey(key: string -> string, k: string, s: seq<string>): seq<string> {
    if s == [] then []
    else SameKey(key, k, s[..|s| - 1]) + (if key(s[|s| - 1]) == k then [s[|s| - 1]] else [])
  }

  lemma {:induction false} InsertIsStable(key: string -> string, k: string, s: seq<string>, p: string)
    ensures SameKey(key, k, Insert(key, s, p)) == SameKey(key, k, s) + (if key(p) == k then [p] else [])
  {
    if s == [] || Leq(key(s[|s| - 1]), key(p)) {
      assert (s + [p])[..|s|] == s;
    } else {
      var front, last := s[..|s| - 1], s[|s| - 1];
      var r := Insert(key, front, p);
      InsertIsStable(key, k, front, p);
      assert (r + [last])[..|r|] == r;
      LeqTotal(key(last), key(p));
    }
  }

  /** Sorting leaves members of the same key in their incoming order. */
  lemma {:induction false} SortedIsStable(key: string -> string, k: string, s: seq<string>)
    ensures SameKey(key, k, Sorted(key, s)) == SameKey(key, k, s)
  {
    if s != [] {
      var front, last := s[..|s| - 1], s[|s| - 1];
      SortedIsStable(key, k, front);
      InsertIsStable(key, k, Sorted(key, front), last);
    }
  }

  // ---------- relative order ----------

  ghost predicate Before<T>(s: seq<T>, p: T, q: T) {
    exists i, j :: 0 <= i < j < |s| && s[i] == p && s[j] == q
  }

  lemma BeforeAtEnd<T>(s: seq<T>, x: T, p: T, q: T)
    ensures Before(s + [x], p, q) <==> Before(s, p, q) || (q == x && p in s)
  {
    var t := s + [x];
    if i, j :| 0 <= i < j < |t| && t[i] == p && t[j] == q {
      assert t[i] == s[i];
      if j < |s| { assert t[j] == s[j]; }
    }
    if i, j :| 0 <= i < j < |s| && s[i] == p && s[j] == q { assert t[i] == p && t[j] == q; }
    if q == x && p in s {
      var i :| 0 <= i < |s| && s[i] == p;
      assert t[i] == p && t[|s|] == q;
    }
  }

  lemma BeforeInConcat<T>(a: seq<T>, b: seq<T>, p: T, q: T)
    ensures Before(a, p, q) || Before(b, p, q) || (p in a && q in b) ==> Before(a + b, p, q)
  {
    var t := a + b;
    if i, j :| 0 <= i < j < |a| && a[i] == p && a[j] == q { assert t[i] == p && t[j] == q; }
    if i, j :| 0 <= i < j < |b| && b[i] == p && b[j] == q { assert t[|a| + i] == p && t[|a| + j] == q; }
    if i, j :| 0 <= i < |a| && 0 <= j < |b| && a[i] == p && b[j] == q { assert t[i] == p && t[|a| + j] == q; }
  }

  lemma DistinctHasOneOrder<T>(s: seq<T>, p: T, q: T)
    requires Distinct(s) && Before(s, p, q)
    ensures !Before(s, q, p)
  {
  }

  lemma {:induction false} BeforeInClass(key: string -> string, k: string, s: seq<string>, p: string, q: string)
    requires key(p) == k && key(q) == k
    ensures p in SameKey(key, k, s) <==> p in s
    ensures Before(SameKey(key, k, s), p, q) <==> Before(s, p, q)
  {
    if s != [] {
      var front, last := s[..|s| - 1], s[|s| - 1];
      assert s == front + [last];
      hide Before;
      BeforeInClass(key, k, front, p, q);
      BeforeAtEnd(front, last, p, q);
      assert SameKey(key, k, s) == SameKey(key, k, front) + (if key(last) == k then [last] else []);
      if key(last) == k {
        BeforeAtEnd(SameKey(key, k, front), last, p, q);
      } else {
        assert SameKey(key, k, s) == SameKey(key, k, front);
      }
    }
  }

  /** Two paths that fold together are sorted as they came. */
  lemma SortedKeepsBefore(key: string -> string, s: seq<string>, p: string, q: string)
    requires key(p) == key(q)
    ensures Before(Sorted(key, s), p, q) <==> Before(s, p, q)
  {
    hide Sorted, SameKey, Before;
    BeforeInClass(key, key(p), s, p, q);
    BeforeInClass(key, key(p), Sorted(key, s), p, q);
    SortedIsStable(key, key(p), s);
  }
}
