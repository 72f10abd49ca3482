/** The scan of a directory tree: os.walk from the top with the names of each directory sorted by their folded
    form (scripts/package/seal_package.py), and which orders of paths it can produce. */
module Walk {
  import opened Plans
  import opened SealText
  import opened Ordering

  /** A directory as the operating system lists it: names in an order of its own. */
  datatype Dir = Dir(files: seq<string>, dirs: seq<Sub>)
  datatype Sub = Sub(name: string, dir: Dir)

  function Names(dirs: seq<Sub>): seq<string> {
    seq(|dirs|, i requires 0 <= i < |dirs| => dirs[i].name)
  }

  /** Names are single components and none is given twice. */
  predicate IsDir(d: Dir) {
    && Distinct(d.files) && Distinct(Names(d.dirs))
    && (forall i, j :: 0 <= i < |d.files| && 0 <= j < |d.dirs| ==> d.files[i] != d.dirs[j].name)
    && (forall i :: 0 <= i < |d.files| ==> d.files[i] != [] && NoSlash(d.files[i]))
    && (forall j :: 0 <= j < |d.dirs| ==> d.dirs[j].name != [] && NoSlash(d.dirs[j].name) && IsDir(d.dirs[j].dir))
  }

  function IndexOf(s: seq<string>, x: string): (i: nat)
    requires x in s
    ensures i < |s| && s[i] == x
  {
    if s[0] == x then 0 else 1 + IndexOf(s[1..], x)
  }

  function Prefixed(prefix: string, names: seq<string>): seq<string> {
    seq(|names|, i requires 0 <= i < |names| => prefix + names[i])
  }

  /** The files of a directory, then those of each directory in it. */
  function Scan(fold: string -> string, d: Dir, prefix: string): seq<string>
    decreases d, 2, 0
  {
    Prefixed(prefix, Sorted(fold, d.files)) + ScanDirs(fold, d, Sorted(fold, Names(d.dirs)), prefix)
  }

  function ScanDirs(fold: string -> string, d: Dir, names: seq<string>, prefix: string): seq<string>
    decreases d, 1, |names|
  {
    if names == [] then []
    else ScanDir(fold, d, names[0], prefix) + ScanDirs(fold, d, names[1..], prefix)
  }

  function ScanDir(fold: string -> string, d: Dir, name: string, prefix: string): seq<string>
    decreases d, 0, 0
  {
    if name !in Names(d.dirs) then []
    else
      var i := IndexOf(Names(d.dirs), name);
      Scan(fold, d.dirs[i].dir, prefix + name + "/")
  }

  /** A listing of the directory whose scan reads exactly these paths. */
  ghost predicate ScansTo(fold: string -> string, d: Dir, paths: set<string>) {
    IsDir(d) && Elements(Scan(fold, d, "")) == paths
  }

  // ---------- what a scan finds, in whatever order ----------

  /** The path of a file somewhere in the directory. */
  ghost predicate Holds(d: Dir, prefix: string, p: string)
    decreases d
  {
    || (exists i :: 0 <= i < |d.files| && p == prefix + d.files[i])
    || (exists j :: 0 <= j < |d.dirs| && Holds(d.dirs[j].dir, prefix + d.dirs[j].name + "/", p))
  }

  lemma SortedMembers(key: string -> string, s: seq<string>)
    ensures forall x :: x in Sorted(key, s) <==> x in s
  {
    SortedSorts(key, s);
    assert forall x :: x in multiset(s) <==> x in s;
    assert forall x :: x in multiset(Sorted(key, s)) <==> x in Sorted(key, s);
  }

  lemma InPrefixed(prefix: string, names: seq<string>, p: string)
    ensures p in Prefixed(prefix, names) <==> exists i :: 0 <= i < |names| && p == prefix + names[i]
  {
    if i :| 0 <= i < |names| && p == prefix + names[i] { assert Prefixed(prefix, names)[i] == p; }
  }

  lemma {:induction false} InScanDirs(fold: string -> string, d: Dir, names: seq<string>, prefix: string, p: string)
    ensures p in ScanDirs(fold, d, names, prefix) <==> exists k :: 0 <= k < |names| && p in ScanDir(fold, d, names[k], prefix)
    decreases |names|
  {
    if names != [] {
      InScanDirs(fold, d, names[1..], prefix, p);
      hide ScanDir;
      if k :| 0 <= k < |names| && p in ScanDir(fold, d, names[k], prefix) {
        if k > 0 { assert names[1..][k - 1] == names[k]; }
      }
    }
  }

  lemma ScanDirIs(fold: string -> string, d: Dir, j: nat, prefix: string)
    requires IsDir(d) && j < |d.dirs|
    ensures ScanDir(fold, d, d.dirs[j].name, prefix) == Scan(fold, d.dirs[j].dir, prefix + d.dirs[j].name + "/")
  {
    assert Names(d.dirs)[j] == d.dirs[j].name;
    hide Scan;
  }

  lemma {:induction false} ScanHolds(fold: string -> string, d: Dir, prefix: string, p: string)
    requires IsDir(d)
    ensures p in Scan(fold, d, prefix) <==> Holds(d, prefix, p)
    decreases d
  {
    SortedMembers(fold, d.files);
    SortedMembers(fold, Names(d.dirs));
    var files, names := Sorted(fold, d.files), Sorted(fold, Names(d.dirs));
    InPrefixed(prefix, files, p);
    InScanDirs(fold, d, names, prefix, p);
    hide Sorted;
    assert (exists i :: 0 <= i < |files| && p == prefix + files[i]) <==> (exists i :: 0 <= i < |d.files| && p == prefix + d.files[i]) by {
      if i :| 0 <= i < |files| && p == prefix + files[i] { assert files[i] in d.files; }
      if i :| 0 <= i < |d.files| && p == prefix + d.files[i] { assert d.files[i] in files; }
    }
    forall j | 0 <= j < |d.dirs|
      ensures p in ScanDir(fold, d, d.dirs[j].name, prefix) <==> Holds(d.dirs[j].dir, prefix + d.dirs[j].name + "/", p)
    {
      ScanDirIs(fold, d, j, prefix);
      ScanHolds(fold, d.dirs[j].dir, prefix + d.dirs[j].name + "/", p);
    }
    hide ScanDir;
    if k :| 0 <= k < |names| && p in ScanDir(fold, d, names[k], prefix) {
      assert names[k] in Names(d.dirs);
      var j :| 0 <= j < |d.dirs| && d.dirs[j].name == names[k];
      assert Holds(d.dirs[j].dir, prefix + d.dirs[j].name + "/", p);
    }
    if j :| 0 <= j < |d.dirs| && Holds(d.dirs[j].dir, prefix + d.dirs[j].name + "/", p) {
      assert Names(d.dirs)[j] in names;
      var k :| 0 <= k < |names| && names[k] == d.dirs[j].name;
      assert p in ScanDir(fold, d, names[k], prefix);
    }
  }

  // ---------- a scan finds every file once ----------

  lemma {:induction false} HoldsBelow(d: Dir, prefix: string, p: string)
    requires IsDir(d) && Holds(d, prefix, p)
    ensures prefix <= p && |prefix| < |p|
    decreases d
  {
    if i :| 0 <= i < |d.files| && p == prefix + d.files[i] {
    } else {
      var j :| 0 <= j < |d.dirs| && Holds(d.dirs[j].dir, prefix + d.dirs[j].name + "/", p);
      HoldsBelow(d.dirs[j].dir, prefix + d.dirs[j].name + "/", p);
    }
  }

  lemma ScanDirBelow(fold: string -> string, d: Dir, name: string, prefix: string, p: string)
    requires IsDir(d) && p in ScanDir(fold, d, name, prefix)
    ensures name in Names(d.dirs) && NoSlash(name) && prefix + name + "/" <= p
  {
    var i := IndexOf(Names(d.dirs), name);
    ScanHolds(fold, d.dirs[i].dir, prefix + name + "/", p);
    HoldsBelow(d.dirs[i].dir, prefix + name + "/", p);
  }

  /** The component after the prefix is told by the path. */
  lemma SameComponent(prefix: string, n: string, m: string, p: string)
    requires NoSlash(n) && NoSlash(m) && prefix + n + "/" <= p && prefix + m + "/" <= p
    ensures n == m
  {
    assert p[|prefix| + |n|] == '/' && p[|prefix| + |m|] == '/';
    assert forall i :: 0 <= i < |n| ==> p[|prefix| + i] == n[i];
    assert forall i :: 0 <= i < |m| ==> p[|prefix| + i] == m[i];
    assert |n| == |m|;
  }

  lemma DistinctConcat<T>(a: seq<T>, b: seq<T>)
    requires Distinct(a) && Distinct(b) && forall x :: x in a ==> x !in b
    ensures Distinct(a + b)
  {
    var s := a + b;
    forall i, j | 0 <= i < j < |s| ensures s[i] != s[j] {
      if i < |a| <= j { assert s[i] in a && s[j] in b; }
    }
  }

  lemma {:induction false} ScanDirsDistinct(fold: string -> string, d: Dir, names: seq<string>, prefix: string)
    requires IsDir(d) && Distinct(names) && forall k :: 0 <= k < |names| ==> Distinct(ScanDir(fold, d, names[k], prefix))
    ensures Distinct(ScanDirs(fold, d, names, prefix))
    decreases |names|
  {
    hide IsDir, ScanDir;
    if names != [] {
      ScanDirsDistinct(fold, d, names[1..], prefix);
      var first, rest := ScanDir(fold, d, names[0], prefix), ScanDirs(fold, d, names[1..], prefix);
      forall x | x in first ensures x !in rest {
        if x in rest {
          InScanDirs(fold, d, names[1..], prefix, x);
          var k :| 0 <= k < |names[1..]| && x in ScanDir(fold, d, names[1..][k], prefix);
          ScanDirBelow(fold, d, names[0], prefix, x);
          ScanDirBelow(fold, d, names[1..][k], prefix, x);
          SameComponent(prefix, names[0], names[1..][k], x);
        }
      }
      DistinctConcat(first, rest);
    }
  }

  lemma PrefixedDistinct(prefix: string, names: seq<string>)
    requires Distinct(names)
    ensures Distinct(Prefixed(prefix, names))
  {
    forall i, j | 0 <= i < j < |names| ensures prefix + names[i] != prefix + names[j] {
      assert (prefix + names[i])[|prefix|..] == names[i] && (prefix + names[j])[|prefix|..] == names[j];
    }
  }

  lemma FileIsNoDirectory(prefix: string, f: string, n: string)
    requires NoSlash(f)
    ensures !(prefix + n + "/" <= prefix + f)
  {
    assert (prefix + n + "/")[|prefix| + |n|] == '/';
    assert forall i :: 0 <= i < |f| ==> (prefix + f)[|prefix| + i] == f[i] != '/';
  }

  lemma {:induction false} ScanIsDistinct(fold: string -> string, d: Dir, prefix: string)
    requires IsDir(d)
    ensures Distinct(Scan(fold, d, prefix))
    decreases d
  {
    SortedKeepsDistinct(fold, d.files);
    SortedKeepsDistinct(fold, Names(d.dirs));
    SortedMembers(fold, d.files);
    SortedMembers(fold, Names(d.dirs));
    var files, names := Sorted(fold, d.files), Sorted(fold, Names(d.dirs));
    forall k | 0 <= k < |names| ensures Distinct(ScanDir(fold, d, names[k], prefix)) {
      assert names[k] in Names(d.dirs);
      var j :| 0 <= j < |d.dirs| && d.dirs[j].name == names[k];
      ScanDirIs(fold, d, j, prefix);
      ScanIsDistinct(fold, d.dirs[j].dir, prefix + names[k] + "/");
    }
    PrefixedDistinct(prefix, files);
    ScanDirsDistinct(fold, d, names, prefix);
    forall x | x in Prefixed(prefix, files) ensures x !in ScanDirs(fold, d, names, prefix) {
      FileNotScannedTwice(fold, d, files, names, prefix, x);
    }
    hide *;
    DistinctConcat(Prefixed(prefix, files), ScanDirs(fold, d, names, prefix));
    assert Scan(fold, d, prefix) == Prefixed(prefix, files) + ScanDirs(fold, d, names, prefix) by { ScanIs(fold, d, prefix); }
  }

  lemma ScanIs(fold: string -> string, d: Dir, prefix: string)
    ensures Scan(fold, d, prefix) == Prefixed(prefix, Sorted(fold, d.files)) + ScanDirs(fold, d, Sorted(fold, Names(d.dirs)), prefix)
  {
  }

  lemma FileNotScannedTwice(fold: string -> string, d: Dir, files: seq<string>, names: seq<string>, prefix: string, x: string)
    requires IsDir(d) && x in Prefixed(prefix, files) && forall i :: 0 <= i < |files| ==> files[i] in d.files
    ensures x !in ScanDirs(fold, d, names, prefix)
  {
    var i :| 0 <= i < |files| && x == prefix + files[i];
    InScanDirs(fold, d, names, prefix, x);
    if x in ScanDirs(fold, d, names, prefix) {
      var k :| 0 <= k < |names| && x in ScanDir(fold, d, names[k], prefix);
      ScanDirBelow(fold, d, names[k], prefix, x);
      FileIsNoDirectory(prefix, files[i], names[k]);
    }
  }

  // ---------- folded names ----------

  /** Case folding works character by character and makes no slash. */
  ghost predicate Folds(fold: string -> string) {
    (forall s, t :: fold(s + t) == fold(s) + fold(t)) && fold("/") == "/" && forall s :: NoSlash(s) ==> NoSlash(fold(s))
  }

  lemma SameStart(a: string, b: string, c: string)
    requires a + b == a + c
    ensures b == c
  {
    assert (a + b)[|a|..] == b && (a + c)[|a|..] == c;
  }

  lemma SameFirstComponent(a: string, x: string, b: string, y: string)
    requires NoSlash(a) && NoSlash(b) && a + "/" + x == b + "/" + y
    ensures a == b
  {
    var s := a + "/" + x;
    assert s == [] + a + "/" + x == [] + b + "/" + y;
    assert [] + a + "/" <= s && [] + b + "/" <= b + "/" + y;
    SameComponent([], a, b, s);
  }

  lemma FoldBelow(fold: string -> string, prefix: string, n: string, p: string) returns (rest: string)
    requires Folds(fold) && prefix + n + "/" <= p
    ensures fold(p) == fold(prefix) + (fold(n) + "/" + rest)
  {
    var tail := p[|prefix| + |n| + 1..];
    assert p == prefix + (n + ("/" + tail));
    rest := fold(tail);
    assert fold("/" + tail) == "/" + rest && fold(n + ("/" + tail)) == fold(n) + ("/" + rest);
    assert fold(n) + ("/" + rest) == fold(n) + "/" + rest;
  }

  lemma FilesFoldTogether(fold: string -> string, prefix: string, f: string, g: string)
    requires Folds(fold) && fold(prefix + f) == fold(prefix + g)
    ensures fold(f) == fold(g)
  {
    SameStart(fold(prefix), fold(f), fold(g));
  }

  /** A file and a file in a directory beside it never fold together. */
  lemma DepthsDoNotFold(fold: string -> string, prefix: string, f: string, n: string, p: string)
    requires Folds(fold) && NoSlash(f) && prefix + n + "/" <= p
    ensures fold(prefix + f) != fold(p)
  {
    var rest := FoldBelow(fold, prefix, n, p);
    var folded := fold(n) + "/" + rest;
    assert folded[|fold(n)|] == '/' && NoSlash(fold(f));
    assert fold(prefix + f) == fold(prefix) + fold(f);
    if fold(prefix + f) == fold(p) { SameStart(fold(prefix), fold(f), folded); }
  }

  lemma DirectoriesFoldTogether(fold: string -> string, prefix: string, n: string, m: string, p: string, q: string)
    requires Folds(fold) && NoSlash(n) && NoSlash(m) && prefix + n + "/" <= p && prefix + m + "/" <= q && fold(p) == fold(q)
    ensures fold(n) == fold(m)
  {
    var x := FoldBelow(fold, prefix, n, p);
    var y := FoldBelow(fold, prefix, m, q);
    SameStart(fold(prefix), fold(n) + "/" + x, fold(m) + "/" + y);
    SameFirstComponent(fold(n), x, fold(m), y);
  }

  // ---------- listing two siblings first ----------

  function ToFront<T>(s: seq<T>, i: nat, j: nat): (r: seq<T>)
    requires i < |s| && j < |s| && i != j
    ensures |r| == |s| && r[0] == s[i] && r[1] == s[j]
  {
    [s[i], s[j]] + (if i < j then s[..i] + s[i + 1..j] + s[j + 1..] else s[..j] + s[j + 1..i] + s[i + 1..])
  }

  lemma ToFrontMembers<T>(s: seq<T>, i: nat, j: nat)
    requires i < |s| && j < |s| && i != j
    ensures forall x :: x in ToFront(s, i, j) <==> x in s
  {
    var lo, hi := if i < j then i else j, if i < j then j else i;
    assert s == s[..lo] + [s[lo]] + s[lo + 1..hi] + [s[hi]] + s[hi + 1..];
  }

  lemma ToFrontDistinct<T>(s: seq<T>, i: nat, j: nat)
    requires i < |s| && j < |s| && i != j && Distinct(s)
    ensures Distinct(ToFront(s, i, j))
  {
    ToFrontMembers(s, i, j);
    var r := ToFront(s, i, j);
    assert Elements(r) == Elements(s);
    DistinctHasFullCardinality(s);
    DistinctHasFullCardinality(r);
  }

  lemma NamesConcat(a: seq<Sub>, b: seq<Sub>)
    ensures Names(a + b) == Names(a) + Names(b)
  {
  }

  lemma NamesPart(dirs: seq<Sub>, lo: nat, hi: nat)
    requires lo <= hi <= |dirs|
    ensures Names(dirs[lo..hi]) == Names(dirs)[lo..hi]
  {
  }

  lemma NamesOfThree(dirs: seq<Sub>, lo: nat, hi: nat)
    requires lo < hi < |dirs|
    ensures Names(dirs[..lo] + dirs[lo + 1..hi] + dirs[hi + 1..]) == Names(dirs)[..lo] + Names(dirs)[lo + 1..hi] + Names(dirs)[hi + 1..]
  {
    NamesConcat(dirs[..lo] + dirs[lo + 1..hi], dirs[hi + 1..]);
    NamesConcat(dirs[..lo], dirs[lo + 1..hi]);
    NamesPart(dirs, 0, lo);
    NamesPart(dirs, lo + 1, hi);
    NamesPart(dirs, hi + 1, |dirs|);
    hide Names;
    assert dirs[0..lo] == dirs[..lo] && dirs[hi + 1..|dirs|] == dirs[hi + 1..];
  }

  lemma NamesToFront(dirs: seq<Sub>, i: nat, j: nat)
    requires i < |dirs| && j < |dirs| && i != j
    ensures Names(ToFront(dirs, i, j)) == ToFront(Names(dirs), i, j)
  {
    var lo, hi := if i < j then i else j, if i < j then j else i;
    var rest := dirs[..lo] + dirs[lo + 1..hi] + dirs[hi + 1..];
    NamesOfThree(dirs, lo, hi);
    NamesConcat([dirs[i], dirs[j]], rest);
    assert Names([dirs[i], dirs[j]]) == [dirs[i].name, dirs[j].name];
  }

  ghost predicate SameFiles(d: Dir, e: Dir, prefix: string) {
    forall x :: Holds(e, prefix, x) <==> Holds(d, prefix, x)
  }

  lemma SameFileNames(d: Dir, e: Dir, prefix: string, x: string)
    requires d.dirs == e.dirs && forall f :: f in d.files <==> f in e.files
    ensures Holds(e, prefix, x) <==> Holds(d, prefix, x)
  {
    if i :| 0 <= i < |d.files| && x == prefix + d.files[i] {
      assert d.files[i] in e.files;
      var k :| 0 <= k < |e.files| && e.files[k] == d.files[i];
    }
    if i :| 0 <= i < |e.files| && x == prefix + e.files[i] {
      assert e.files[i] in d.files;
      var k :| 0 <= k < |d.files| && d.files[k] == e.files[i];
    }
  }

  lemma ReorderedFiles(d: Dir, e: Dir, i: nat, j: nat, prefix: string)
    requires IsDir(d) && i < |d.files| && j < |d.files| && i != j && e == Dir(ToFront(d.files, i, j), d.dirs)
    ensures IsDir(e) && SameFiles(d, e, prefix)
  {
    ToFrontDistinct(d.files, i, j);
    ToFrontMembers(d.files, i, j);
    hide ToFront, NoSlash, Distinct;
    forall k | 0 <= k < |e.files| ensures exists l :: 0 <= l < |d.files| && d.files[l] == e.files[k] { assert e.files[k] in d.files; }
    hide Holds;
    forall x ensures Holds(e, prefix, x) <==> Holds(d, prefix, x) { SameFileNames(d, e, prefix, x); }
  }

  lemma FilesToFront(fold: string -> string, d: Dir, i: nat, j: nat, prefix: string) returns (e: Dir)
    requires IsDir(d) && i < |d.files| && j < |d.files| && i != j && fold(d.files[i]) == fold(d.files[j])
    ensures IsDir(e) && SameFiles(d, e, prefix) && Before(Scan(fold, e, prefix), prefix + d.files[i], prefix + d.files[j])
  {
    hide ToFront, Holds, IsDir, SameFiles, Scan, ScanDirs, Prefixed;
    var files := ToFront(d.files, i, j);
    e := Dir(files, d.dirs);
    ReorderedFiles(d, e, i, j, prefix);
    PrefixedKeepsBefore(fold, files, prefix, d.files[i], d.files[j]);
    ScanIs(fold, e, prefix);
    BeforeInConcat(Prefixed(prefix, Sorted(fold, files)), ScanDirs(fold, e, Sorted(fold, Names(e.dirs)), prefix),
      prefix + d.files[i], prefix + d.files[j]);
  }

  lemma PrefixedKeepsBefore(fold: string -> string, files: seq<string>, prefix: string, f: string, g: string)
    requires fold(f) == fold(g) && |files| >= 2 && files[0] == f && files[1] == g
    ensures Before(Prefixed(prefix, Sorted(fold, files)), prefix + f, prefix + g)
  {
    assert Before(files, f, g);
    SortedKeepsBefore(fold, files, f, g);
    var s := Sorted(fold, files);
    hide Sorted;
    var i, j :| 0 <= i < j < |s| && s[i] == f && s[j] == g;
    assert Prefixed(prefix, s)[i] == prefix + f && Prefixed(prefix, s)[j] == prefix + g;
  }

  lemma {:induction false} ScanDirsBefore(fold: string -> string, d: Dir, names: seq<string>, prefix: string, n: string, m: string,
          p: string, q: string)
    requires Before(names, n, m) && p in ScanDir(fold, d, n, prefix) && q in ScanDir(fold, d, m, prefix)
    ensures Before(ScanDirs(fold, d, names, prefix), p, q)
    decreases |names|
  {
    var i, j :| 0 <= i < j < |names| && names[i] == n && names[j] == m;
    var first, rest := ScanDir(fold, d, names[0], prefix), names[1..];
    assert rest[j - 1] == m;
    if i == 0 {
      InScanDirs(fold, d, rest, prefix, q);
    } else {
      assert rest[i - 1] == n;
      ScanDirsBefore(fold, d, rest, prefix, n, m, p, q);
    }
    BeforeInConcat(first, ScanDirs(fold, d, rest, prefix), p, q);
  }

  lemma {:induction false} ScanDirInside(fold: string -> string, d: Dir, names: seq<string>, prefix: string, n: string, p: string, q: string)
    requires n in names && Before(ScanDir(fold, d, n, prefix), p, q)
    ensures Before(ScanDirs(fold, d, names, prefix), p, q)
    decreases |names|
  {
    hide ScanDir, Before;
    if names[0] != n { ScanDirInside(fold, d, names[1..], prefix, n, p, q); }
    BeforeInConcat(ScanDir(fold, d, names[0], prefix), ScanDirs(fold, d, names[1..], prefix), p, q);
  }

  lemma DirsToFront(fold: string -> string, d: Dir, i: nat, j: nat, prefix: string, p: string, q: string) returns (e: Dir)
    requires IsDir(d) && i < |d.dirs| && j < |d.dirs| && i != j && fold(d.dirs[i].name) == fold(d.dirs[j].name)
    requires Holds(d.dirs[i].dir, prefix + d.dirs[i].name + "/", p) && Holds(d.dirs[j].dir, prefix + d.dirs[j].name + "/", q)
    ensures IsDir(e) && SameFiles(d, e, prefix) && Before(Scan(fold, e, prefix), p, q)
  {
    e := Dir(d.files, ToFront(d.dirs, i, j));
    ReorderedDirs(d, e, i, j, prefix);
    var n, m := d.dirs[i].name, d.dirs[j].name;
    assert e.dirs[0] == d.dirs[i] && e.dirs[1] == d.dirs[j];
    var names := Names(e.dirs);
    assert names[0] == n && names[1] == m;
    assert Before(names, n, m);
    SortedKeepsBefore(fold, names, n, m);
    ScanDirIs(fold, e, 0, prefix);
    ScanDirIs(fold, e, 1, prefix);
    ScanHolds(fold, e.dirs[0].dir, prefix + n + "/", p);
    ScanHolds(fold, e.dirs[1].dir, prefix + m + "/", q);
    hide ToFront, Holds, IsDir, SameFiles, ScanDir, Before, Sorted, Prefixed;
    ScanDirsBefore(fold, e, Sorted(fold, names), prefix, n, m, p, q);
    ScanIs(fold, e, prefix);
    BeforeInConcat(Prefixed(prefix, Sorted(fold, e.files)), ScanDirs(fold, e, Sorted(fold, names), prefix), p, q);
  }

  lemma SameSubs(d: Dir, e: Dir, prefix: string, x: string)
    requires d.files == e.files && forall sub :: sub in d.dirs <==> sub in e.dirs
    ensures Holds(e, prefix, x) <==> Holds(d, prefix, x)
  {
    if k :| 0 <= k < |d.dirs| && Holds(d.dirs[k].dir, prefix + d.dirs[k].name + "/", x) {
      assert d.dirs[k] in e.dirs;
      var l :| 0 <= l < |e.dirs| && e.dirs[l] == d.dirs[k];
    }
    if k :| 0 <= k < |e.dirs| && Holds(e.dirs[k].dir, prefix + e.dirs[k].name + "/", x) {
      assert e.dirs[k] in d.dirs;
      var l :| 0 <= l < |d.dirs| && d.dirs[l] == e.dirs[k];
    }
  }

  lemma ReorderedDirs(d: Dir, e: Dir, i: nat, j: nat, prefix: string)
    requires IsDir(d) && i < |d.dirs| && j < |d.dirs| && i != j && e == Dir(d.files, ToFront(d.dirs, i, j))
    ensures IsDir(e) && SameFiles(d, e, prefix)
  {
    NamesToFront(d.dirs, i, j);
    ToFrontDistinct(Names(d.dirs), i, j);
    ToFrontMembers(d.dirs, i, j);
    hide ToFront, NoSlash, Distinct;
    forall k | 0 <= k < |e.dirs| ensures exists l :: 0 <= l < |d.dirs| && d.dirs[l] == e.dirs[k] { assert e.dirs[k] in d.dirs; }
    hide Holds;
    forall x ensures Holds(e, prefix, x) <==> Holds(d, prefix, x) { SameSubs(d, e, prefix, x); }
  }

  lemma DirReplaced(d: Dir, i: nat, inner: Dir, e: Dir, prefix: string)
    requires IsDir(d) && i < |d.dirs| && IsDir(inner) && SameFiles(d.dirs[i].dir, inner, prefix + d.dirs[i].name + "/")
    requires e == Dir(d.files, d.dirs[i := Sub(d.dirs[i].name, inner)])
    ensures IsDir(e) && SameFiles(d, e, prefix)
  {
    hide NoSlash, Distinct;
    assert Names(e.dirs) == Names(d.dirs);
    forall k | 0 <= k < |d.dirs| ensures e.dirs[k].name == d.dirs[k].name && (k != i ==> e.dirs[k] == d.dirs[k]) {}
    forall x ensures Holds(e, prefix, x) <==> Holds(d, prefix, x) {
      if k :| 0 <= k < |e.dirs| && Holds(e.dirs[k].dir, prefix + e.dirs[k].name + "/", x) {
        assert Holds(d.dirs[k].dir, prefix + d.dirs[k].name + "/", x);
      }
      if k :| 0 <= k < |d.dirs| && Holds(d.dirs[k].dir, prefix + d.dirs[k].name + "/", x) {
        assert Holds(e.dirs[k].dir, prefix + e.dirs[k].name + "/", x);
      }
    }
  }

  /** The operating system may list the same files so that, of two paths that fold together, either comes first. */
  lemma {:induction false} Arrange(fold: string -> string, d: Dir, prefix: string, p: string, q: string) returns (e: Dir)
    requires Folds(fold) && IsDir(d) && Holds(d, prefix, p) && Holds(d, prefix, q) && p != q && fold(p) == fold(q)
    ensures IsDir(e) && SameFiles(d, e, prefix) && Before(Scan(fold, e, prefix), p, q)
    decreases d
  {
    hide Folds, SameFiles, Before, Scan;
    if i :| 0 <= i < |d.files| && p == prefix + d.files[i] {
      if j :| 0 <= j < |d.files| && q == prefix + d.files[j] {
        FilesFoldTogether(fold, prefix, d.files[i], d.files[j]);
        e := FilesToFront(fold, d, i, j, prefix);
      } else {
        var j :| 0 <= j < |d.dirs| && Holds(d.dirs[j].dir, prefix + d.dirs[j].name + "/", q);
        HoldsBelow(d.dirs[j].dir, prefix + d.dirs[j].name + "/", q);
        DepthsDoNotFold(fold, prefix, d.files[i], d.dirs[j].name, q);
        assert false;
      }
    } else {
      var i :| 0 <= i < |d.dirs| && Holds(d.dirs[i].dir, prefix + d.dirs[i].name + "/", p);
      HoldsBelow(d.dirs[i].dir, prefix + d.dirs[i].name + "/", p);
      if j :| 0 <= j < |d.files| && q == prefix + d.files[j] {
        DepthsDoNotFold(fold, prefix, d.files[j], d.dirs[i].name, p);
        assert false;
      } else {
        e := ArrangeBelow(fold, d, prefix, p, q, i);
      }
    }
  }

  lemma {:induction false} ArrangeBelow(fold: string -> string, d: Dir, prefix: string, p: string, q: string, i: nat) returns (e: Dir)
    requires Folds(fold) && IsDir(d) && p != q && fold(p) == fold(q) && Holds(d, prefix, q)
    requires i < |d.dirs| && Holds(d.dirs[i].dir, prefix + d.dirs[i].name + "/", p)
    requires forall j :: 0 <= j < |d.files| ==> q != prefix + d.files[j]
    ensures IsDir(e) && SameFiles(d, e, prefix) && Before(Scan(fold, e, prefix), p, q)
    decreases d, 0
  {
    var j :| 0 <= j < |d.dirs| && Holds(d.dirs[j].dir, prefix + d.dirs[j].name + "/", q);
    HoldsBelow(d.dirs[i].dir, prefix + d.dirs[i].name + "/", p);
    HoldsBelow(d.dirs[j].dir, prefix + d.dirs[j].name + "/", q);
    hide Folds, Before, Scan, SameFiles;
    if i == j {
      var inner := Arrange(fold, d.dirs[i].dir, prefix + d.dirs[i].name + "/", p, q);
      e := Dir(d.files, d.dirs[i := Sub(d.dirs[i].name, inner)]);
      DirReplaced(d, i, inner, e, prefix);
      InnerOrderShows(fold, e, i, prefix, p, q);
    } else {
      DirectoriesFoldTogether(fold, prefix, d.dirs[i].name, d.dirs[j].name, p, q);
      e := DirsToFront(fold, d, i, j, prefix, p, q);
    }
  }

  lemma InnerOrderShows(fold: string -> string, e: Dir, i: nat, prefix: string, p: string, q: string)
    requires IsDir(e) && i < |e.dirs| && Before(Scan(fold, e.dirs[i].dir, prefix + e.dirs[i].name + "/"), p, q)
    ensures Before(Scan(fold, e, prefix), p, q)
  {
    ScanDirIs(fold, e, i, prefix);
    ScanIs(fold, e, prefix);
    assert Names(e.dirs)[i] == e.dirs[i].name;
    SortedMembers(fold, Names(e.dirs));
    hide Scan, ScanDir, Before, Sorted, IsDir, Prefixed;
    var names := Sorted(fold, Names(e.dirs));
    ScanDirInside(fold, e, names, prefix, e.dirs[i].name, p, q);
    BeforeInConcat(Prefixed(prefix, Sorted(fold, e.files)), ScanDirs(fold, e, names, prefix), p, q);
  }

  /** A directory that lists given files can list them so that p comes before q. */
  lemma ArrangeListing(fold: string -> string, d: Dir, paths: set<string>, p: string, q: string) returns (e: Dir)
    requires Folds(fold) && ScansTo(fold, d, paths) && p in paths && q in paths && p != q && fold(p) == fold(q)
    ensures ScansTo(fold, e, paths) && Before(Scan(fold, e, ""), p, q)
  {
    hide Folds, Scan, Before, IsDir, Holds;
    assert forall x :: x in Elements(Scan(fold, d, "")) <==> x in Scan(fold, d, "");
    ScanHolds(fold, d, "", p);
    ScanHolds(fold, d, "", q);
    e := Arrange(fold, d, "", p, q);
    forall x ensures x in Scan(fold, e, "") <==> x in paths {
      ScanHolds(fold, d, "", x);
      ScanHolds(fold, e, "", x);
    }
    assert Elements(Scan(fold, e, "")) == paths;
  }
}
