/** Packages that the seal accepts and the verifier refuses, and packages that the seal cannot finish. Each is
    made from any sealed package by a change that the scan lets through. */
module SealRefusals {
  import opened Base
  import opened SealText
  import opened Walk
  import opened Seal
  import opened SealVerifier
  import opened SealAgreement

  /** A file that is neither pinned, nor an authority, nor generated, nor there already. */
  predicate IsFreshFile(bytes: map<string, Bytes>, path: string) {
    path !in bytes && IsScannedPath(path) && !IsPinPath(path) && path !in AuthorityPaths
  }

  lemma PutBuilds(env: Env, t: Tree, path: string, value: Bytes)
    requires IsTree(t) && Build(env, t).Ok? && path !in t.bytes && !IsPinPath(path) && path !in AuthorityPaths
    ensures IsTree(Put(t, path, value)) && Build(env, Put(t, path, value)).Ok?
  {
    hide IsPinPath, PinPaths, PinsBytes, ManifestBytes, SumsBytes, IsTree, AuthorityPaths, PinsPath, ManifestPath;
    var u := Put(t, path, value);
    PutIsTree(t, path, value);
    assert (map p | p in u.bytes && p in AuthorityPaths :: u.bytes[p]) == map p | p in t.bytes && p in AuthorityPaths :: t.bytes[p];
    PinCountOf(env, t);
    PinCountOf(env, u);
    assert (set p | p in u.bytes && IsPinPath(p)) == set p | p in t.bytes && IsPinPath(p);
  }

  lemma SealedIsThere(env: Env, t: Tree, bytes: map<string, Bytes>)
    requires FreshlySealed(env, t, bytes)
    ensures bytes.Keys == t.bytes.Keys + Generated
  {
    hide Build, Lawful, IsTree, IsScannedPath, PinsPath, ManifestPath, SumsPath;
  }

  lemma SealsAgain(env: Env, t: Tree, bytes: map<string, Bytes>, u: Tree)
    requires FreshlySealed(env, t, bytes) && IsTree(u) && Build(env, u).Ok?
    requires forall p :: p in u.bytes ==> p in bytes || IsScannedPath(p)
    ensures FreshlySealed(env, u, WithDocuments(u.bytes, Build(env, u).value))
  {
    SealedIsThere(env, t, bytes);
    hide Build, Lawful, IsTree, IsScannedPath, PinsPath, ManifestPath, SumsPath;
  }

  /** Any sealed package with one more file whose name is that of the checksum document, or whose path holds
      a character at which lines are split, can be sealed again, and its checksum check refuses it. */
  lemma AnotherFileIsRefused(env: Env, t: Tree, bytes: map<string, Bytes>, path: string, value: Bytes)
    requires FreshlySealed(env, t, bytes) && IsFreshFile(bytes, path) && (Name(path) == SumsPath || LineEnds(path) > 0)
    ensures
      var u := Put(t, path, value);
      && IsTree(u) && Build(env, u).Ok?
      && FreshlySealed(env, u, WithDocuments(u.bytes, Build(env, u).value))
      && !SumsAccepted(env, WithDocuments(u.bytes, Build(env, u).value))
  {
    var u := Put(t, path, value);
    SealedIsThere(env, t, bytes);
    LawfulSeal(env, t, bytes);
    hide Build, Lawful, FreshlySealed, IsTree, IsScannedPath, IsPinPath, AuthorityPaths, PinsPath, ManifestPath, SumsPath, Name, LineEnds,
      SumsAccepted;
    PutBuilds(env, t, path, value);
    SealsAgain(env, t, bytes, u);
    var sealed := WithDocuments(u.bytes, Build(env, u).value);
    SealedSumsAreAcceptedIff(env, u, sealed);
    assert path in sealed && path != SumsPath;
  }

  const AnotherSums := "docs/SHA256SUMS.txt"

  lemma AnotherSumsIsFresh(bytes: map<string, Bytes>)
    requires AnotherSums !in bytes
    ensures IsFreshFile(bytes, AnotherSums) && Name(AnotherSums) == SumsPath
  {
    AnotherSumsIsScanned();
    AnotherSumsIsOrdinary();
    AnotherSumsIsNamed();
    hide AnotherSums, IsScannedPath, IsPinPath, Name, AuthorityPaths, SumsPath;
  }

  lemma AnotherSumsIsOrdinary()
    ensures !IsPinPath(AnotherSums) && AnotherSums !in AuthorityPaths
  {
    assert AnotherSums[0] == 'd';
    assert "scripts/demo/agentteams_in_place_demo.py"[0] == "scripts/demo/Invoke-AgentTeamsInPlaceDemo.ps1"[0]
      == "scripts/demo/Start-AgentTeamsDemoHostRelay.ps1"[0] == 's';
    assert "VERSION"[0] == 'V' && "verify_offline.ps1"[0] == 'v' && "scripts/package/verify_package.py"[0] == 's' && "pyproject.toml"[0] == 'p';
    forall i | 0 <= i < |PinPrefixes| ensures !(PinPrefixes[i] <= AnotherSums) {
      assert PinPrefixes[i][0] != 'd';
    }
  }

  lemma {:induction false} NameAfterSlash(front: string, last: string)
    requires NoSlash(last)
    ensures Name(front + "/" + last) == last
    decreases |last|
  {
    var s := front + "/" + last;
    if last == [] {
      assert s[|s| - 1] == '/';
    } else {
      NameAfterSlash(front, last[..|last| - 1]);
      assert s[..|s| - 1] == front + "/" + last[..|last| - 1];
      assert last == last[..|last| - 1] + [last[|last| - 1]];
    }
  }

  lemma AnotherSumsIsNamed()
    ensures Name(AnotherSums) == SumsPath
  {
    assert AnotherSums == "docs" + "/" + SumsPath;
    NameAfterSlash("docs", SumsPath);
  }

  lemma {:induction false} SplitWithoutSlash(s: string)
    requires NoSlash(s)
    ensures SplitPath(s) == [s]
  {
    if s != [] {
      SplitWithoutSlash(s[1..]);
      assert s == [s[0]] + s[1..];
    }
  }

  lemma {:induction false} SplitAtSlash(front: string, last: string)
    requires NoSlash(front) && NoSlash(last)
    ensures SplitPath(front + "/" + last) == [front, last]
    decreases |front|
  {
    var s := front + "/" + last;
    if front == [] {
      assert s[1..] == last;
      SplitWithoutSlash(last);
    } else {
      SplitAtSlash(front[1..], last);
      assert s[1..] == front[1..] + "/" + last && front == [front[0]] + front[1..];
    }
  }

  predicate IsComponent(s: string) {
    s != [] && s != "." && s != ".." && NoSlash(s) && '\\' !in s && forall i :: 0 <= i < |s| ==> !IsControl(s[i])
  }

  lemma TwoComponentsAreScanned(front: string, last: string)
    requires IsComponent(front) && IsComponent(last)
    ensures IsScannedPath(front + "/" + last)
  {
    var path := front + "/" + last;
    SplitAtSlash(front, last);
    var parts := [front, last];
    assert parts[1..] == [last] && [last][1..] == [];
    assert Kept([last]) == [last] + Kept([]);
    assert Kept(parts) == [front] + Kept([last]);
    assert Kept(parts) == parts && JoinPath(parts) == front + "/" + JoinPath([last]);
    assert path[0] == front[0];
    hide SplitPath, Kept, JoinPath;
  }

  lemma AnotherSumsIsScanned()
    ensures IsScannedPath(AnotherSums)
  {
    assert AnotherSums == "docs" + "/" + SumsPath;
    assert IsComponent("docs");
    assert IsComponent(SumsPath) by { assert |SumsPath| == 14; }
    hide IsComponent, IsScannedPath, SumsPath, AnotherSums;
    TwoComponentsAreScanned("docs", SumsPath);
  }

  /** For instance a second SHA256SUMS.txt under docs. */
  lemma ASecondSumsFileIsRefused(env: Env, t: Tree, bytes: map<string, Bytes>, value: Bytes)
    requires FreshlySealed(env, t, bytes) && AnotherSums !in bytes
    ensures
      var u := Put(t, AnotherSums, value);
      && IsTree(u) && Build(env, u).Ok?
      && FreshlySealed(env, u, WithDocuments(u.bytes, Build(env, u).value))
      && !SumsAccepted(env, WithDocuments(u.bytes, Build(env, u).value))
  {
    hide FreshlySealed, IsFreshFile, Name, AnotherSums, SumsPath, Build, WithDocuments, Put, IsTree, SumsAccepted;
    AnotherSumsIsFresh(bytes);
    AnotherFileIsRefused(env, t, bytes, AnotherSums, value);
  }

  // ---------- a helper that is not there ----------

  lemma HelpersArePinned(helper: string)
    requires helper in DemoHelpers
    ensures IsPinPath(helper) && helper !in AuthorityPaths && helper !in Generated
  {
    assert PinPrefixes[0] == "scripts/m4/";
    assert "scripts/m4/" <= helper && helper[8] == 'm' && helper[0] == 's';
    assert PinExclusion[0] == 'i' && PinsPath[0] == 'c' && ManifestPath[0] == 'P' && SumsPath[0] == 'S';
    assert forall p :: p in AuthorityPaths ==> p[0] != 's' || p[8] != 'm';
  }

  lemma SameSizeAfterExchange(a: set<string>, helper: string, path: string)
    requires helper in a && path !in a
    ensures |a - {helper} + {path}| == |a|
  {
    assert |a - {helper}| == |a| - 1;
  }

  lemma ExchangedPins(a: map<string, Bytes>, b: map<string, Bytes>, helper: string, path: string)
    requires b.Keys == a.Keys - {helper} + {path} && IsPinPath(helper) && IsPinPath(path) && helper in a && path !in a
    ensures |set p | p in b && IsPinPath(p)| == |set p | p in a && IsPinPath(p)|
  {
    hide IsPinPath;
    var pins := set p | p in a && IsPinPath(p);
    assert (set p | p in b && IsPinPath(p)) == pins - {helper} + {path};
    SameSizeAfterExchange(pins, helper, path);
  }

  /** Any sealed package in which a demonstration helper gave way to a new pinned file still has all its pins
      and can be sealed again, and its pins check refuses it. */
  lemma AMissingHelperIsRefused(env: Env, t: Tree, bytes: map<string, Bytes>, helper: string, path: string, u: Tree)
    requires FreshlySealed(env, t, bytes) && helper in DemoHelpers && helper in t.bytes
    requires path !in bytes && IsPinPath(path) && IsScannedPath(path) && path !in AuthorityPaths
    requires IsTree(u) && u.bytes.Keys == t.bytes.Keys - {helper} + {path}
    requires forall p :: p in t.bytes && p != helper ==> u.bytes[p] == t.bytes[p]
    ensures
      && Build(env, u).Ok?
      && FreshlySealed(env, u, WithDocuments(u.bytes, Build(env, u).value))
      && !PinsAccepted(env, WithDocuments(u.bytes, Build(env, u).value))
  {
    hide FreshlySealed, IsPinPath, IsScannedPath, PinsPath, ManifestPath, SumsPath, DemoHelpers, IsTree, PinPaths, PinsAccepted, Lawful,
      Build, AuthorityPaths, WithDocuments, Generated;
    HelpersArePinned(helper);
    SealedIsThere(env, t, bytes);
    LawfulSeal(env, t, bytes);
    ExchangeBuilds(env, t, helper, path, u);
    SealsAgain(env, t, bytes, u);
    var sealed := WithDocuments(u.bytes, Build(env, u).value);
    SealedIsThere(env, u, sealed);
    SealedPinsAreAcceptedIff(env, u, sealed);
    assert helper !in sealed;
  }

  lemma ExchangeBuilds(env: Env, t: Tree, helper: string, path: string, u: Tree)
    requires IsTree(t) && Build(env, t).Ok? && IsPinPath(helper) && IsPinPath(path)
    requires helper !in AuthorityPaths && path !in AuthorityPaths && helper in t.bytes && path !in t.bytes
    requires IsTree(u) && u.bytes.Keys == t.bytes.Keys - {helper} + {path}
    requires forall p :: p in t.bytes && p != helper ==> u.bytes[p] == t.bytes[p]
    ensures Build(env, u).Ok?
  {
    hide IsPinPath, IsTree, PinPaths, PinsBytes, ManifestBytes, SumsBytes, AuthorityPaths;
    assert (map p | p in u.bytes && p in AuthorityPaths :: u.bytes[p]) == map p | p in t.bytes && p in AuthorityPaths :: t.bytes[p];
    PinCountOf(env, t);
    PinCountOf(env, u);
    ExchangedPins(t.bytes, u.bytes, helper, path);
  }

  // ---------- two files that fold together ----------

  lemma TwoMoreBuild(env: Env, t: Tree, bytes: map<string, Bytes>, p: string, v: Bytes, q: string, w: Bytes)
    requires FreshlySealed(env, t, bytes) && IsFreshFile(bytes, p) && IsFreshFile(bytes, q) && p != q
    ensures
      var u := Put(Put(t, p, v), q, w);
      IsTree(u) && Build(env, u).Ok? && FreshlySealed(env, u, WithDocuments(u.bytes, Build(env, u).value))
  {
    hide FreshlySealed, Build, IsTree, IsPinPath, IsScannedPath, AuthorityPaths, Generated, WithDocuments;
    LawfulSeal(env, t, bytes);
    SealedIsThere(env, t, bytes);
    PutBuilds(env, t, p, v);
    PutBuilds(env, Put(t, p, v), q, w);
    SealsAgain(env, t, bytes, Put(Put(t, p, v), q, w));
  }

  /** However the sealed directory is listed: if two of its listed paths fold together, it can also be listed so
      that the rebuilt documents are not those just written. */
  lemma SomeRescanDiffers(env: Env, bytes: map<string, Bytes>, p: string, q: string, r: Result<Documents, SealError>, d: Dir)
    returns (rescan: Dir)
    requires Lawful(env) && r.Ok? && ScansTo(env.fold, d, bytes.Keys)
    requires p in bytes && q in bytes && InManifest(p) && InManifest(q) && env.fold(p) == env.fold(q) && p != q
    ensures ScansTo(env.fold, rescan, bytes.Keys) && Build(env, Scanned(env, rescan, bytes)) != r
  {
    hide Lawful, Build, ScansTo, Scanned, InManifest;
    var e, f := CollisionShows(env, d, bytes, p, q);
    rescan := if Build(env, Scanned(env, e, bytes)) != r then e else f;
  }

  /** Any sealed package with two more files that fold together can be sealed again; and however it is scanned
      first, it may be rescanned so that the check after the write fails, on other documents than those written. */
  lemma TwoFoldingFilesFail(env: Env, t: Tree, bytes: map<string, Bytes>, p: string, v: Bytes, q: string, w: Bytes, scan: Dir, d: Dir)
    returns (rescan: Dir)
    requires FreshlySealed(env, t, bytes) && IsFreshFile(bytes, p) && IsFreshFile(bytes, q) && p != q && env.fold(p) == env.fold(q)
    requires ScansTo(env.fold, scan, t.bytes.Keys + {p, q}) && ScansTo(env.fold, d, t.bytes.Keys + {p, q} + Generated)
    ensures
      var u := t.bytes[p := v][q := w];
      && ScansTo(env.fold, scan, u.Keys) && ScansTo(env.fold, rescan, u.Keys + Generated)
      && Build(env, Scanned(env, scan, u)).Ok?
      && var sealed := WithDocuments(u, Build(env, Scanned(env, scan, u)).value);
      && sealed.Keys == u.Keys + Generated
      && FreshlySealed(env, Scanned(env, scan, u), sealed)
      && Build(env, Scanned(env, rescan, sealed)) != Build(env, Scanned(env, scan, u))
  {
    hide FreshlySealed, Lawful, IsFreshFile, Build, ScansTo, Scanned, WithDocuments, AgreeOff, IsTree, Generated, PinsPath, ManifestPath, SumsPath;
    var u := t.bytes[p := v][q := w];
    assert u.Keys == t.bytes.Keys + {p, q};
    var built := FoldingFilesSeal(env, t, bytes, p, v, q, w, scan);
    var sealed := WithDocuments(u, built.value);
    WrittenKeys(u, built.value);
    FreshIsListed(env, t, bytes, p);
    FreshIsListed(env, t, bytes, q);
    LawfulSeal(env, t, bytes);
    rescan := SomeRescanDiffers(env, sealed, p, q, built, d);
  }

  lemma FreshIsListed(env: Env, t: Tree, bytes: map<string, Bytes>, p: string)
    requires FreshlySealed(env, t, bytes) && IsFreshFile(bytes, p)
    ensures InManifest(p)
  {
    SealedIsThere(env, t, bytes);
    hide FreshlySealed, IsScannedPath, IsPinPath, AuthorityPaths, PinsPath, ManifestPath, SumsPath;
  }

  lemma FoldingFilesSeal(env: Env, t: Tree, bytes: map<string, Bytes>, p: string, v: Bytes, q: string, w: Bytes, scan: Dir)
    returns (built: Result<Documents, SealError>)
    requires FreshlySealed(env, t, bytes) && IsFreshFile(bytes, p) && IsFreshFile(bytes, q) && p != q
    requires ScansTo(env.fold, scan, t.bytes[p := v][q := w].Keys)
    ensures
      var u := t.bytes[p := v][q := w];
      && built == Build(env, Scanned(env, scan, u)) && built.Ok?
      && FreshlySealed(env, Scanned(env, scan, u), WithDocuments(u, built.value))
  {
    hide FreshlySealed, IsFreshFile, Build, IsTree, ScansTo, WithDocuments, Generated;
    var u := Scanned(env, scan, t.bytes[p := v][q := w]);
    built := Build(env, u);
    TwoMoreBuild(env, t, bytes, p, v, q, w);
    var other := Put(Put(t, p, v), q, w);
    assert other.bytes == u.bytes;
    AgreesWithItself(u.bytes);
    WrittenKeys(other.bytes, Build(env, other).value);
    BuildsAlike(env, other, u);
    SealsAgain(env, other, WithDocuments(other.bytes, Build(env, other).value), u);
  }

  lemma AgreesWithItself(bytes: map<string, Bytes>)
    ensures AgreeOff(Generated, bytes, bytes)
  {
  }
}
