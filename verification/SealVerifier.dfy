/** The independently written checks of a package, and when they accept a freshly sealed one
    (scripts/package/verify_package.py). */
module SealVerifier {
  import opened Base
  import opened Plans
  import opened SealText
  import opened Seal

  const DemoHelpers: set<string> := {"scripts/m4/provision-provider-state.py", "scripts/m4/run-real-chain.py"}

  /** The verifier's own copies of the constant header fields. */
  const ExpectedPinsHeader := PinsHeader("awakening.agentteams.demo.reference-source-pins.v1", "v1.1.2", "sha256")
  const ExpectedManifestHeader := ManifestHeader(1, "awakening-agentteams-demo", "dual-layer-sanitized-review", "v1.1.2", 2)

  /** The verifier's own copy of which files are pinned. */
  predicate IsExpectedPin(path: string) {
    && (IsExpectedDemo(path) || "scripts/m4/" <= path || "infra/agentteams/demo/runtime/" <= path || "infra/agentteams/m4/" <= path
        || "src/" <= path || "schemas/" <= path || "contracts/" <= path || "agents/" <= path || "skills/" <= path)
    && path != "infra/agentteams/m4/controller.env.example"
  }

  predicate IsExpectedDemo(path: string) {
    || path == "scripts/demo/agentteams_in_place_demo.py"
    || path == "scripts/demo/Invoke-AgentTeamsInPlaceDemo.ps1"
    || path == "scripts/demo/Start-AgentTeamsDemoHostRelay.ps1"
  }

  function ExpectedPins(bytes: map<string, Bytes>): set<string> {
    set p | p in bytes && IsExpectedPin(p)
  }

  /** Builder and verifier pin the same files, each by its own list. */
  lemma PinScopesAgree(path: string)
    ensures IsExpectedPin(path) <==> IsPinPath(path)
  {
    hide IsExpectedDemo, FixedPins;
    DemoPinsAgree(path);
    assert PinPrefixes[0] <= path || PinPrefixes[1] <= path || PinPrefixes[2] <= path || PinPrefixes[3] <= path
        || PinPrefixes[4] <= path || PinPrefixes[5] <= path || PinPrefixes[6] <= path || PinPrefixes[7] <= path
      <==> exists i :: 0 <= i < |PinPrefixes| && PinPrefixes[i] <= path;
  }

  lemma DemoPinsAgree(path: string)
    ensures IsExpectedDemo(path) <==> path in FixedPins
  {
  }

  lemma ExpectedPinsAre(bytes: map<string, Bytes>)
    ensures ExpectedPins(bytes) == set p | p in bytes && IsPinPath(p)
  {
    hide IsExpectedPin, IsPinPath;
    forall p | p in bytes ensures IsExpectedPin(p) <==> IsPinPath(p) {
      PinScopesAgree(p);
    }
  }

  // ---------- what each check requires ----------

  /** Entries given as (path, digest): all readable, no path twice, and covering exactly `expected`. */
  predicate Covering(entries: seq<(string, string)>, expected: set<string>) {
    && (forall i :: 0 <= i < |entries| ==> SafeRelativePath(entries[i].0).Some? && IsSha256(entries[i].1))
    && (forall i, j :: 0 <= i < j < |entries| && SafeRelativePath(entries[i].0).Some? && SafeRelativePath(entries[j].0).Some? ==>
          SafeRelativePath(entries[i].0) != SafeRelativePath(entries[j].0))
    && (forall i :: 0 <= i < |entries| && SafeRelativePath(entries[i].0).Some? ==> SafeRelativePath(entries[i].0).value in expected)
    && (forall p :: p in expected ==> exists i :: 0 <= i < |entries| && SafeRelativePath(entries[i].0) == Some(p))
  }

  predicate DigestsMatch(env: Env, bytes: map<string, Bytes>, entries: seq<(string, string)>) {
    forall i :: 0 <= i < |entries| && SafeRelativePath(entries[i].0).Some? ==>
      SafeRelativePath(entries[i].0).value in bytes && env.digest(bytes[SafeRelativePath(entries[i].0).value]) == entries[i].1
  }

  function OfManifest(files: seq<ManifestEntry>): seq<(string, string)> {
    seq(|files|, i requires 0 <= i < |files| => (files[i].path, files[i].sha))
  }

  function OfPins(files: seq<PinEntry>): seq<(string, string)> {
    seq(|files|, i requires 0 <= i < |files| => (files[i].path, files[i].sha))
  }

  predicate SizesMatch(bytes: map<string, Bytes>, files: seq<ManifestEntry>) {
    forall i :: 0 <= i < |files| && SafeRelativePath(files[i].path).Some? ==>
      files[i].size >= 0 && SafeRelativePath(files[i].path).value in bytes
      && |bytes[SafeRelativePath(files[i].path).value]| == files[i].size
  }

  predicate ManifestAccepted(env: Env, bytes: map<string, Bytes>, release: Release) {
    && ManifestPath in bytes && env.readManifest(bytes[ManifestPath]).Some?
    && var doc := env.readManifest(bytes[ManifestPath]).value;
    && doc.header == ExpectedManifestHeader && doc.release == release && doc.payloadCount == |doc.files|
    && Covering(OfManifest(doc.files), bytes.Keys - {ManifestPath, SumsPath})
    && DigestsMatch(env, bytes, OfManifest(doc.files)) && SizesMatch(bytes, doc.files)
  }

  predicate PinsAccepted(env: Env, bytes: map<string, Bytes>) {
    && PinsPath in bytes && env.readPins(bytes[PinsPath]).Some?
    && var doc := env.readPins(bytes[PinsPath]).value;
    && doc.header == ExpectedPinsHeader && doc.fileCount == |doc.files| == 180
    && Covering(OfPins(doc.files), ExpectedPins(bytes))
    && DigestsMatch(env, bytes, OfPins(doc.files))
    && (forall p :: p in DemoHelpers ==> p in bytes)
  }

  function LineEntries(lines: seq<string>): seq<(string, string)> {
    seq(|lines|, i requires 0 <= i < |lines| => LineEntry(lines[i]))
  }

  function SumsExpected(bytes: map<string, Bytes>): set<string> {
    set p | p in bytes && Name(p) != SumsPath
  }

  predicate SumsAccepted(env: Env, bytes: map<string, Bytes>) {
    && SumsPath in bytes && env.readText(bytes[SumsPath]).Some?
    && var entries := LineEntries(SplitLines(env.readText(bytes[SumsPath]).value));
    && Covering(entries, SumsExpected(bytes)) && DigestsMatch(env, bytes, entries)
  }

  // ---------- the checks ----------

  /** `found` holds exactly the first n entries, which are readable and name different paths. */
  ghost predicate Collected(entries: seq<(string, string)>, n: nat, found: map<string, string>)
    requires n <= |entries|
  {
    && (forall i :: 0 <= i < n ==> EntryIn(entries[i], found))
    && (forall i, j :: 0 <= i < j < n ==> SafeRelativePath(entries[i].0) != SafeRelativePath(entries[j].0))
    && (forall p :: p in found ==> exists i :: 0 <= i < n && SafeRelativePath(entries[i].0) == Some(p))
  }

  predicate EntryIn(entry: (string, string), found: map<string, string>) {
    && SafeRelativePath(entry.0).Some? && IsSha256(entry.1)
    && SafeRelativePath(entry.0).value in found && found[SafeRelativePath(entry.0).value] == entry.1
  }

  /** The loop all three checks share: read each entry, refuse a repeated path, collect the rest. */
  method CollectEntries(entries: seq<(string, string)>) returns (seen: Option<map<string, string>>)
    ensures seen.Some? ==> Collected(entries, |entries|, seen.value)
    ensures seen.None? ==> forall expected :: !Covering(entries, expected)
  {
    hide SafeRelativePath, IsSha256;
    var found: map<string, string> := map[];
    for k := 0 to |entries|
      invariant Collected(entries, k, found)
    {
      var relative := SafeRelativePath(entries[k].0);
      if relative.None? || !IsSha256(entries[k].1) { return None; }
      if relative.value in found { return None; }
      found := found[relative.value := entries[k].1];
    }
    return Some(found);
  }

  /** Compare the collected paths and digests with the files. */
  method MatchFiles(env: Env, bytes: map<string, Bytes>, seen: map<string, string>, expected: set<string>) returns (ok: bool)
    requires expected <= bytes.Keys
    ensures ok <==> seen.Keys == expected && forall p :: p in seen ==> p in bytes && env.digest(bytes[p]) == seen[p]
  {
    if seen.Keys != expected { return false; }
    var todo := seen.Keys;
    while todo != {}
      invariant todo <= seen.Keys
      invariant forall p :: p in seen && p !in todo ==> env.digest(bytes[p]) == seen[p]
      decreases |todo|
    {
      var p :| p in todo;
      if env.digest(bytes[p]) != seen[p] { return false; }
      todo := todo - {p};
    }
    return true;
  }

  method CheckEntries(env: Env, bytes: map<string, Bytes>, entries: seq<(string, string)>, expected: set<string>)
    returns (ok: bool)
    requires expected <= bytes.Keys
    ensures ok <==> Covering(entries, expected) && DigestsMatch(env, bytes, entries)
  {
    hide SafeRelativePath, IsSha256;
    var seen := CollectEntries(entries);
    if seen.None? { return false; }
    ok := MatchFiles(env, bytes, seen.value, expected);
    CollectedCovers(env, bytes, entries, seen.value, expected);
  }

  lemma CollectedCovers(env: Env, bytes: map<string, Bytes>, entries: seq<(string, string)>, seen: map<string,
          string>, expected: set<string>)
    requires Collected(entries, |entries|, seen) && expected <= bytes.Keys
    ensures (seen.Keys == expected && forall p :: p in seen ==> p in bytes && env.digest(bytes[p]) == seen[p])
       <==> Covering(entries, expected) && DigestsMatch(env, bytes, entries)
  {
    hide SafeRelativePath, IsSha256;
    forall i | 0 <= i < |entries| ensures EntryIn(entries[i], seen) {}
    if seen.Keys == expected {
      forall p | p in expected ensures exists i :: 0 <= i < |entries| && SafeRelativePath(entries[i].0) == Some(p) { assert p in seen; }
    }
  }

  method VerifySizes(bytes: map<string, Bytes>, files: seq<ManifestEntry>) returns (ok: bool)
    ensures ok <==> SizesMatch(bytes, files)
  {
    hide SafeRelativePath;
    for k := 0 to |files|
      invariant forall i :: 0 <= i < k && SafeRelativePath(files[i].path).Some? ==>
        files[i].size >= 0 && SafeRelativePath(files[i].path).value in bytes
        && |bytes[SafeRelativePath(files[i].path).value]| == files[i].size
    {
      var relative := SafeRelativePath(files[k].path);
      if relative.Some? && (files[k].size < 0 || relative.value !in bytes || |bytes[relative.value]| != files[k].size) {
        return false;
      }
    }
    return true;
  }

  method VerifyManifest(env: Env, bytes: map<string, Bytes>, release: Release) returns (ok: bool)
    ensures ok <==> ManifestAccepted(env, bytes, release)
  {
    hide Covering, DigestsMatch, SizesMatch;
    if ManifestPath !in bytes { return false; }
    var read := env.readManifest(bytes[ManifestPath]);
    if read.None? || read.value.header != ExpectedManifestHeader || read.value.release != release { return false; }
    if read.value.payloadCount != |read.value.files| { return false; }
    var entries := CheckEntries(env, bytes, OfManifest(read.value.files), bytes.Keys - {ManifestPath, SumsPath});
    var sizes := VerifySizes(bytes, read.value.files);
    return entries && sizes;
  }

  method VerifyReferenceSourcePins(env: Env, bytes: map<string, Bytes>) returns (ok: bool)
    ensures ok <==> PinsAccepted(env, bytes)
  {
    hide Covering, DigestsMatch, IsExpectedPin;
    if PinsPath !in bytes { return false; }
    var read := env.readPins(bytes[PinsPath]);
    if read.None? || read.value.header != ExpectedPinsHeader { return false; }
    if read.value.fileCount != |read.value.files| || |read.value.files| != 180 { return false; }
    ok := CheckEntries(env, bytes, OfPins(read.value.files), ExpectedPins(bytes));
    if ok { ok := forall p :: p in DemoHelpers ==> p in bytes; }
  }

  method VerifySha256Sums(env: Env, bytes: map<string, Bytes>) returns (ok: bool)
    ensures ok <==> SumsAccepted(env, bytes)
  {
    hide Covering, DigestsMatch, Name;
    if SumsPath !in bytes { return false; }
    var text := env.readText(bytes[SumsPath]);
    if text.None? { return false; }
    ok := CheckEntries(env, bytes, LineEntries(SplitLines(text.value)), SumsExpected(bytes));
  }

  // ---------- a freshly sealed tree ----------

  /** The files after sealing `t`: every path is one the scan lets through. */
  ghost predicate FreshlySealed(env: Env, t: Tree, bytes: map<string, Bytes>) {
    && Lawful(env) && IsTree(t) && Build(env, t).Ok?
    && bytes == WithDocuments(t.bytes, Build(env, t).value)
    && forall p :: p in bytes ==> IsScannedPath(p)
  }

  /** Entries made from distinct scanned paths, each with the digest of its file. */
  lemma PrintedEntriesMatch(env: Env, bytes: map<string, Bytes>, entries: seq<(string, string)>, paths: seq<string>)
    requires Lawful(env) && |entries| == |paths| && Distinct(paths)
    requires forall i :: 0 <= i < |paths| ==> SafeRelativePath(paths[i]) == Some(paths[i]) && paths[i] in bytes
    requires forall i :: 0 <= i < |paths| ==> entries[i] == (paths[i], env.digest(bytes[paths[i]]))
    ensures Covering(entries, Elements(paths)) && DigestsMatch(env, bytes, entries)
  {
    hide SafeRelativePath, IsSha256;
    forall p | p in Elements(paths) ensures exists i :: 0 <= i < |entries| && SafeRelativePath(entries[i].0) == Some(p) {
      var i :| 0 <= i < |paths| && paths[i] == p;
      assert SafeRelativePath(entries[i].0) == Some(p);
    }
    forall i | 0 <= i < |paths| ensures paths[i] in Elements(paths) {}
  }

  /** The tree a document describes, and the sealed files: the same bytes wherever the document looks. */
  lemma SealedPaths(env: Env, t: Tree, bytes: map<string, Bytes>)
    requires FreshlySealed(env, t, bytes)
    ensures
      var d := Build(env, t).value;
      var t1 := Put(t, PinsPath, d.pins);
      var t2 := Put(t1, ManifestPath, d.manifest);
      && IsTree(t1) && IsTree(t2)
      && d.pins == PinsBytes(env, t) && Authorities(env, t.bytes).Some?
      && d.manifest == ManifestBytes(env, Authorities(env, t.bytes).value, t1) && d.sums == SumsBytes(env, t2)
      && |PinPaths(env, t.order)| == PinCount
      && bytes == t2.bytes[SumsPath := d.sums]
  {
    hide IsScannedPath, PinsBytes, ManifestBytes, SumsBytes, PinPaths, Authorities, IsTree;
    var d := Build(env, t).value;
    PutIsTree(t, PinsPath, d.pins);
    PutIsTree(Put(t, PinsPath, d.pins), ManifestPath, d.manifest);
  }

  /** `paths` are files with the same bytes in the tree that was described and in the sealed one. */
  ghost predicate Described(bytes: map<string, Bytes>, source: map<string, Bytes>, paths: seq<string>) {
    Distinct(paths) && forall p :: p in paths ==> p in source && p in bytes && bytes[p] == source[p] && SafeRelativePath(p) == Some(p)
  }

  lemma ManifestReadsBack(env: Env, release: Release, bytes: map<string, Bytes>, source: map<string, Bytes>,
          paths: seq<string>)
    requires Lawful(env) && Described(bytes, source, paths) && Elements(paths) == bytes.Keys - {ManifestPath, SumsPath}
    requires ManifestPath in bytes && bytes[ManifestPath] == env.writeManifest(ManifestOf(env, release, source, paths))
    ensures ManifestAccepted(env, bytes, release)
  {
    hide SafeRelativePath, IsSha256;
    var doc := ManifestOf(env, release, source, paths);
    PrintedEntriesMatch(env, bytes, OfManifest(doc.files), paths);
    hide Covering, DigestsMatch, Elements, Distinct;
    assert SizesMatch(bytes, doc.files);
    assert env.readManifest(bytes[ManifestPath]) == Some(doc);
  }

  lemma LawfulSeal(env: Env, t: Tree, bytes: map<string, Bytes>)
    requires FreshlySealed(env, t, bytes)
    ensures Lawful(env) && IsTree(t) && Build(env, t).Ok?
  {
    hide Lawful, IsTree, Build;
  }

  lemma ManifestBytesAre(env: Env, release: Release, t: Tree)
    requires IsTree(t) && forall p :: p in ManifestPaths(env, t.order) ==> p in t.bytes
    ensures ManifestBytes(env, release, t) == env.writeManifest(ManifestOf(env, release, t.bytes, ManifestPaths(env, t.order)))
  {
    hide ManifestPaths, ManifestOf, IsTree;
  }

  lemma ScannedIsSafe(env: Env, t: Tree, bytes: map<string, Bytes>, p: string)
    requires FreshlySealed(env, t, bytes) && p in bytes
    ensures SafeRelativePath(p) == Some(p) && forall i :: 0 <= i < |p| ==> !IsControl(p[i])
  {
    hide Build, IsTree, Lawful, SafeRelativePath, IsControl;
    assert IsScannedPath(p);
  }

  lemma SealedKeys(env: Env, t: Tree, bytes: map<string, Bytes>)
    requires FreshlySealed(env, t, bytes)
    ensures
      var d := Build(env, t).value;
      && bytes.Keys - {ManifestPath, SumsPath} == Put(t, PinsPath, d.pins).bytes.Keys - {ManifestPath, SumsPath}
      && ManifestPath in bytes && bytes[ManifestPath] == d.manifest
      && PinsPath in bytes && bytes[PinsPath] == d.pins && SumsPath in bytes && bytes[SumsPath] == d.sums
  {
    GeneratedAreOrdinary();
    hide *;
    LawfulSeal(env, t, bytes);
    SealedPaths(env, t, bytes);
    PutBytes(t, PinsPath, Build(env, t).value.pins);
    PutBytes(Put(t, PinsPath, Build(env, t).value.pins), ManifestPath, Build(env, t).value.manifest);
  }

  lemma PutBytes(t: Tree, path: string, value: Bytes)
    ensures Put(t, path, value).bytes == t.bytes[path := value]
  {
  }

  lemma ManifestDescribes(env: Env, t: Tree, bytes: map<string, Bytes>)
    requires FreshlySealed(env, t, bytes)
    ensures
      var t1 := Put(t, PinsPath, Build(env, t).value.pins);
      IsTree(t1) && Described(bytes, t1.bytes, ManifestPaths(env, t1.order))
  {
    GeneratedAreOrdinary();
    hide FreshlySealed, Build, Authorities, IsTree, ManifestPaths, SafeRelativePath, IsControl, Put, PinsBytes, ManifestBytes, SumsBytes,
      PinsPath, ManifestPath, SumsPath, Distinct, Elements, IsPinPath;
    LawfulSeal(env, t, bytes);
    SealedPaths(env, t, bytes);
    var d := Build(env, t).value;
    var t1 := Put(t, PinsPath, d.pins);
    PutBytes(t1, ManifestPath, d.manifest);
    PathsInTree(env, t1);
    forall p | p in ManifestPaths(env, t1.order)
      ensures p in t1.bytes && p in bytes && bytes[p] == t1.bytes[p] && SafeRelativePath(p) == Some(p)
    {
      InManifestPaths(env, t1, p);
      ScannedIsSafe(env, t, bytes, p);
    }
  }

  /** The manifest check accepts any freshly sealed tree. */
  lemma SealedManifestIsAccepted(env: Env, t: Tree, bytes: map<string, Bytes>)
    requires FreshlySealed(env, t, bytes)
    ensures Authorities(env, t.bytes).Some? && ManifestAccepted(env, bytes, Authorities(env, t.bytes).value)
  {
    GeneratedAreOrdinary();
    hide *;
    LawfulSeal(env, t, bytes);
    SealedPaths(env, t, bytes);
    var d := Build(env, t).value;
    var t1 := Put(t, PinsPath, d.pins);
    PathsInTree(env, t1);
    PathsExist(env, t1);
    var paths := ManifestPaths(env, t1.order);
    assert Described(bytes, t1.bytes, paths) by { ManifestDescribes(env, t, bytes); }
    SealedKeys(env, t, bytes);
    ManifestBytesAre(env, Authorities(env, t.bytes).value, t1);
    ManifestReadsBack(env, Authorities(env, t.bytes).value, bytes, t1.bytes, paths);
  }

  lemma PinsReadBack(env: Env, bytes: map<string, Bytes>, source: map<string, Bytes>, paths: seq<string>)
    requires Lawful(env) && Described(bytes, source, paths) && |paths| == PinCount
    requires Elements(paths) == set p | p in bytes && IsPinPath(p)
    requires PinsPath in bytes && bytes[PinsPath] == env.writePins(PinsOf(env, source, paths))
    ensures PinsAccepted(env, bytes) <==> forall p :: p in DemoHelpers ==> p in bytes
  {
    ExpectedPinsAre(bytes);
    hide SafeRelativePath, IsSha256, IsPinPath, ExpectedPins;
    var doc := PinsOf(env, source, paths);
    PrintedEntriesMatch(env, bytes, OfPins(doc.files), paths);
    hide Covering, DigestsMatch, Elements, Distinct;
    assert env.readPins(bytes[PinsPath]) == Some(doc);
  }

  lemma PinsDescribe(env: Env, t: Tree, bytes: map<string, Bytes>)
    requires FreshlySealed(env, t, bytes)
    ensures IsTree(t) && Described(bytes, t.bytes, PinPaths(env, t.order))
    ensures Elements(PinPaths(env, t.order)) == set p | p in bytes && IsPinPath(p)
  {
    GeneratedAreOrdinary();
    hide FreshlySealed, Build, Authorities, IsTree, PinPaths, SafeRelativePath, IsControl, Put, PinsBytes, ManifestBytes, SumsBytes,
      PinsPath, ManifestPath, SumsPath, Distinct, Elements, IsPinPath;
    LawfulSeal(env, t, bytes);
    SealedPaths(env, t, bytes);
    var d := Build(env, t).value;
    PutBytes(t, PinsPath, d.pins);
    PutBytes(Put(t, PinsPath, d.pins), ManifestPath, d.manifest);
    PathsInTree(env, t);
    forall p | p in PinPaths(env, t.order)
      ensures p in t.bytes && p in bytes && bytes[p] == t.bytes[p] && SafeRelativePath(p) == Some(p)
    {
      InPinPaths(env, t, p);
      ScannedIsSafe(env, t, bytes, p);
    }
    assert (set p | p in bytes && IsPinPath(p)) == set p | p in t.bytes && IsPinPath(p);
  }

  /** The pins check accepts a freshly sealed tree exactly when the two demonstration helpers are in it. */
  lemma SealedPinsAreAcceptedIff(env: Env, t: Tree, bytes: map<string, Bytes>)
    requires FreshlySealed(env, t, bytes)
    ensures PinsAccepted(env, bytes) <==> forall p :: p in DemoHelpers ==> p in bytes
  {
    hide FreshlySealed, Build, Authorities, IsTree, PinPaths, SafeRelativePath, Lawful, PinsAccepted, Described, IsPinPath, Elements, Put,
      ManifestBytes, SumsBytes, PinsPath, ManifestPath, SumsPath, DemoHelpers;
    LawfulSeal(env, t, bytes);
    SealedPaths(env, t, bytes);
    SealedKeys(env, t, bytes);
    PinsDescribe(env, t, bytes);
    PathsExist(env, t);
    PinsReadBack(env, bytes, t.bytes, PinPaths(env, t.order));
  }
}
