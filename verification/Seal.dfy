/** Building the three integrity documents of a release, and the fixpoint they reach
    (scripts/package/seal_package.py). */
module Seal {
  import opened Base
  import opened Plans
  import opened SealText
  import opened Ordering
  import opened Walk

  type Bytes = seq<bv8>

  /** A dictionary with its iteration order: the scanned tree, or an overlay of it. */
  datatype Tree = Tree(order: seq<string>, bytes: map<string, Bytes>)

  predicate IsTree(t: Tree) { Distinct(t.order) && Elements(t.order) == t.bytes.Keys }

  /** Assigning an existing key keeps its place, a new key goes to the end. */
  function Put(t: Tree, path: string, value: Bytes): Tree {
    Tree(if path in t.bytes then t.order else t.order + [path], t.bytes[path := value])
  }

  const PinsPath := "config/reference-source-pins.json"
  const ManifestPath := "PACKAGE_MANIFEST.json"
  const SumsPath := "SHA256SUMS.txt"
  const Generated: set<string> := {PinsPath, ManifestPath, SumsPath}
  const PinExclusion := "infra/agentteams/m4/controller.env.example"
  const PinCount := 180

  const PinPrefixes: seq<string> := ["scripts/m4/", "infra/agentteams/demo/runtime/", "infra/agentteams/m4/", "src/",
    "schemas/", "contracts/", "agents/", "skills/"]

  const FixedPins: set<string> := {"scripts/demo/agentteams_in_place_demo.py", "scripts/demo/Invoke-AgentTeamsInPlaceDemo.ps1",
    "scripts/demo/Start-AgentTeamsDemoHostRelay.ps1"}

  const AuthorityPaths: set<string> := {"VERSION", "verify_offline.ps1", "scripts/package/verify_package.py", "pyproject.toml"}

  predicate IsPinPath(path: string) {
    path != PinExclusion && (path in FixedPins || exists i :: 0 <= i < |PinPrefixes| && PinPrefixes[i] <= path)
  }

  predicate InManifest(path: string) { path != ManifestPath && path != SumsPath }
  predicate InSums(path: string) { path != SumsPath }
  function Unfolded(path: string): string { path }

  lemma GeneratedAreOrdinary()
    ensures !IsPinPath(PinsPath) && !IsPinPath(ManifestPath) && !IsPinPath(SumsPath)
    ensures Generated !! AuthorityPaths
    ensures PinsPath != ManifestPath && ManifestPath != SumsPath && PinsPath != SumsPath
  {
    assert PinsPath[0] == 'c' && ManifestPath[0] == 'P' && SumsPath[0] == 'S';
    assert PinsPath[2] == 'n' && PinsPath[3] == 'f';
    assert "contracts/"[3] == 't';
    forall i | 0 <= i < |PinPrefixes| ensures !(PinPrefixes[i] <= PinsPath) && !(PinPrefixes[i] <= ManifestPath) && !(PinPrefixes[i] <= SumsPath) {
      assert PinPrefixes[i][0] != 'P' && PinPrefixes[i][0] != 'S' && (PinPrefixes[i][0] == 'c' ==> PinPrefixes[i][3] == 't');
    }
    assert "scripts/demo/agentteams_in_place_demo.py"[0] == "scripts/demo/Invoke-AgentTeamsInPlaceDemo.ps1"[0]
      == "scripts/demo/Start-AgentTeamsDemoHostRelay.ps1"[0] == 's';
  }

  // ---------- documents ----------

  /** Release facts that VERSION, pyproject.toml and the verifier's own constants agree on. */
  datatype Release = Release(version: string, testCount: nat)

  datatype PinEntry = PinEntry(path: string, sha: string)
  datatype PinsHeader = PinsHeader(schemaVersion: string, agentTeamsVersion: string, hashAlgorithm: string)
  datatype PinsDocument = PinsDocument(header: PinsHeader, fileCount: int, excluded: seq<string>, files: seq<PinEntry>)

  datatype ManifestEntry = ManifestEntry(path: string, size: int, sha: string)
  datatype ManifestHeader = ManifestHeader(schemaVersion: int, packageName: string, profile: string, agentTeamsVersion: string, evidenceRuns: int)
  datatype Manifest = Manifest(header: ManifestHeader, release: Release, payloadCount: int, files: seq<ManifestEntry>)

  const WrittenPinsHeader := PinsHeader("awakening.agentteams.demo.reference-source-pins.v1", "v1.1.2", "sha256")
  const WrittenManifestHeader := ManifestHeader(1, "awakening-agentteams-demo", "dual-layer-sanitized-review", "v1.1.2", 2)

  /** SHA-256, case folding, JSON and text encodings, and the agreement of the release files, as given functions. */
  datatype Env = Env(
    digest: Bytes -> string,
    fold: string -> string,
    writePins: PinsDocument -> Bytes,
    readPins: Bytes -> Option<PinsDocument>,
    writeManifest: Manifest -> Bytes,
    readManifest: Bytes -> Option<Manifest>,
    writeText: string -> Bytes,
    readText: Bytes -> Option<string>,
    authorities: map<string, Bytes> -> Option<Release>)

  /** What the encodings promise. Text is read back as written when it holds no carriage return, which
      reading would turn into a newline; folding works character by character. */
  ghost predicate Lawful(env: Env) {
    && Folds(env.fold)
    && (forall b :: IsSha256(env.digest(b)))
    && (forall d :: env.readPins(env.writePins(d)) == Some(d))
    && (forall d :: env.readManifest(env.writeManifest(d)) == Some(d))
    && (forall t :: '\r' !in t ==> env.readText(env.writeText(t)) == Some(t))
  }

  datatype SealError = AuthorityMismatch | PinScopeCountInvalid

  datatype Documents = Documents(pins: Bytes, manifest: Bytes, sums: Bytes)

  function Authorities(env: Env, bytes: map<string, Bytes>): Option<Release> {
    env.authorities(map p | p in bytes && p in AuthorityPaths :: bytes[p])
  }

  function Selected(paths: seq<string>, keep: string -> bool): seq<string> {
    if paths == [] then []
    else Selected(paths[..|paths| - 1], keep) + (if keep(paths[|paths| - 1]) then [paths[|paths| - 1]] else [])
  }

  lemma {:induction false} SelectedElements(paths: seq<string>, keep: string -> bool)
    ensures forall p :: p in Selected(paths, keep) <==> p in paths && keep(p)
    ensures Distinct(paths) ==> Distinct(Selected(paths, keep))
  {
    if paths != [] {
      var front, last := paths[..|paths| - 1], paths[|paths| - 1];
      SelectedElements(front, keep);
      assert paths == front + [last];
      assert forall p :: p in paths <==> p in front || p == last;
      if Distinct(paths) {
        assert last !in front;
        assert forall i :: 0 <= i < |Selected(front, keep)| ==> Selected(front, keep)[i] in Selected(front, keep);
      }
    }
  }

  function PinPaths(env: Env, order: seq<string>): seq<string> {
    Sorted(env.fold, Selected(order, IsPinPath))
  }

  function ManifestPaths(env: Env, order: seq<string>): seq<string> {
    Sorted(env.fold, Selected(order, InManifest))
  }

  /** The checksum lines are sorted by folded path and then by path. */
  function SumsPaths(env: Env, order: seq<string>): seq<string> {
    Sorted(env.fold, Sorted(Unfolded, Selected(order, InSums)))
  }

  function PinsOf(env: Env, bytes: map<string, Bytes>, paths: seq<string>): PinsDocument
    requires forall p :: p in paths ==> p in bytes
  {
    PinsDocument(WrittenPinsHeader, |paths|, [PinExclusion],
      seq(|paths|, i requires 0 <= i < |paths| => PinEntry(paths[i], env.digest(bytes[paths[i]]))))
  }

  function ManifestOf(env: Env, release: Release, bytes: map<string, Bytes>, paths: seq<string>): Manifest
    requires forall p :: p in paths ==> p in bytes
  {
    Manifest(WrittenManifestHeader, release, |paths|, seq(|paths|, i requires 0 <= i < |paths| =>
      ManifestEntry(paths[i], |bytes[paths[i]]|, env.digest(bytes[paths[i]]))))
  }

  function SumsEntries(env: Env, bytes: map<string, Bytes>, paths: seq<string>): seq<(string, string)>
    requires forall p :: p in paths ==> p in bytes
  {
    seq(|paths|, i requires 0 <= i < |paths| => (env.digest(bytes[paths[i]]), paths[i]))
  }

  lemma SelectedInTree(t: Tree, key: string -> string, keep: string -> bool)
    requires IsTree(t)
    ensures Elements(Sorted(key, Selected(t.order, keep))) == set p | p in t.bytes && keep(p)
    ensures Distinct(Sorted(key, Selected(t.order, keep)))
  {
    SelectedElements(t.order, keep);
    SortedKeepsDistinct(key, Selected(t.order, keep));
    assert forall p :: p in t.order <==> p in Elements(t.order);
    assert Elements(Selected(t.order, keep)) == set p | p in t.bytes && keep(p);
  }

  lemma PathsInTree(env: Env, t: Tree)
    requires IsTree(t)
    ensures Elements(PinPaths(env, t.order)) == set p | p in t.bytes && IsPinPath(p)
    ensures Elements(ManifestPaths(env, t.order)) == t.bytes.Keys - {ManifestPath, SumsPath}
    ensures Elements(SumsPaths(env, t.order)) == t.bytes.Keys - {SumsPath}
    ensures Distinct(PinPaths(env, t.order)) && Distinct(ManifestPaths(env, t.order)) && Distinct(SumsPaths(env, t.order))
  {
    hide Distinct, IsPinPath, Selected, Sorted, Elements;
    SelectedInTree(t, env.fold, IsPinPath);
    SelectedInTree(t, env.fold, InManifest);
    SelectedInTree(t, Unfolded, InSums);
    SortedKeepsDistinct(env.fold, Sorted(Unfolded, Selected(t.order, InSums)));
  }

  lemma PathsExist(env: Env, t: Tree)
    requires IsTree(t)
    ensures forall p :: p in PinPaths(env, t.order) ==> p in t.bytes
    ensures forall p :: p in ManifestPaths(env, t.order) ==> p in t.bytes
    ensures forall p :: p in SumsPaths(env, t.order) ==> p in t.bytes
  {
    PathsInTree(env, t);
    hide IsPinPath, PinPaths, ManifestPaths, SumsPaths, Distinct;
    assert forall p :: p in PinPaths(env, t.order) ==> p in Elements(PinPaths(env, t.order));
    assert forall p :: p in ManifestPaths(env, t.order) ==> p in Elements(ManifestPaths(env, t.order));
    assert forall p :: p in SumsPaths(env, t.order) ==> p in Elements(SumsPaths(env, t.order));
  }

  lemma PutIsTree(t: Tree, path: string, value: Bytes)
    requires IsTree(t)
    ensures IsTree(Put(t, path, value))
  {
    assert path !in t.bytes ==> path !in Elements(t.order);
    assert forall i :: 0 <= i < |t.order| ==> t.order[i] in t.order;
  }

  // ---------- building ----------

  function PinsBytes(env: Env, t: Tree): Bytes
    requires IsTree(t)
  {
    PathsExist(env, t);
    env.writePins(PinsOf(env, t.bytes, PinPaths(env, t.order)))
  }

  function ManifestBytes(env: Env, release: Release, t: Tree): Bytes
    requires IsTree(t)
  {
    PathsExist(env, t);
    env.writeManifest(ManifestOf(env, release, t.bytes, ManifestPaths(env, t.order)))
  }

  function SumsBytes(env: Env, t: Tree): Bytes
    requires IsTree(t)
  {
    PathsExist(env, t);
    env.writeText(SumsText(SumsEntries(env, t.bytes, SumsPaths(env, t.order))))
  }

  /** The documents of a tree: the manifest covers the pins, the sums cover both. */
  function Build(env: Env, t: Tree): Result<Documents, SealError>
    requires IsTree(t)
  {
    var release := Authorities(env, t.bytes);
    if release.None? then Err(AuthorityMismatch)
    else if |PinPaths(env, t.order)| != PinCount then Err(PinScopeCountInvalid)
    else
      var pins := PinsBytes(env, t);
      PutIsTree(t, PinsPath, pins);
      var withPins := Put(t, PinsPath, pins);
      var manifest := ManifestBytes(env, release.value, withPins);
      PutIsTree(withPins, ManifestPath, manifest);
      Ok(Documents(pins, manifest, SumsBytes(env, Put(withPins, ManifestPath, manifest))))
  }

  function WithDocuments(bytes: map<string, Bytes>, d: Documents): map<string, Bytes> {
    bytes[PinsPath := d.pins][ManifestPath := d.manifest][SumsPath := d.sums]
  }

  function When(stale: bool, path: string): seq<string> { if stale then [path] else [] }

  /** The generated files that are missing or differ. */
  function Stale(bytes: map<string, Bytes>, d: Documents): seq<string> {
    When(PinsPath !in bytes || bytes[PinsPath] != d.pins, PinsPath)
    + When(ManifestPath !in bytes || bytes[ManifestPath] != d.manifest, ManifestPath)
    + When(SumsPath !in bytes || bytes[SumsPath] != d.sums, SumsPath)
  }

  // ---------- the fixpoint ----------

  /** The paths the manifest of a tree lists: all but the two documents that come after it, and always the
      pins document. */
  function Listed(bytes: map<string, Bytes>): set<string> {
    bytes.Keys + {PinsPath} - {ManifestPath, SumsPath}
  }

  /** The same files, up to some paths. */
  predicate AgreeOff(off: set<string>, a: map<string, Bytes>, b: map<string, Bytes>) {
    && (forall p :: p in a && p !in off ==> p in b && a[p] == b[p])
    && (forall p :: p in b && p !in off ==> p in a)
  }

  lemma SamePaths(key: string -> string, keep: string -> bool, kept: set<string>, t: Tree, u: Tree)
    requires IsTree(t) && IsTree(u)
    requires forall p :: p in t.bytes && keep(p) ==> p in u.bytes
    requires forall p :: p in u.bytes && keep(p) ==> p in t.bytes
    requires NoCollisions(key, kept) && forall p :: p in t.bytes && keep(p) ==> p in kept
    ensures Sorted(key, Selected(t.order, keep)) == Sorted(key, Selected(u.order, keep))
  {
    SelectedElements(t.order, keep);
    SelectedElements(u.order, keep);
    assert forall p :: p in t.order <==> p in Elements(t.order);
    assert forall p :: p in u.order <==> p in Elements(u.order);
    assert Elements(Selected(t.order, keep)) == Elements(Selected(u.order, keep));
    assert Elements(Selected(t.order, keep)) <= kept;
    SortedOfSameSet(key, Selected(t.order, keep), Selected(u.order, keep));
  }

  lemma InPinPaths(env: Env, t: Tree, p: string)
    requires IsTree(t) && p in PinPaths(env, t.order)
    ensures p in t.bytes && IsPinPath(p)
  {
    PathsInTree(env, t);
    hide PinPaths, IsPinPath;
    assert p in Elements(PinPaths(env, t.order));
  }

  lemma SamePinPaths(env: Env, t: Tree, u: Tree)
    requires IsTree(t) && IsTree(u) && AgreeOff(Generated, t.bytes, u.bytes)
    requires NoCollisions(env.fold, t.bytes.Keys - {ManifestPath, SumsPath})
    ensures PinPaths(env, t.order) == PinPaths(env, u.order)
  {
    GeneratedAreOrdinary();
    hide IsPinPath, IsTree, NoCollisions, Sorted, Selected, PinsPath, ManifestPath, SumsPath;
    SamePaths(env.fold, IsPinPath, t.bytes.Keys - {ManifestPath, SumsPath}, t, u);
  }

  lemma SamePinEntries(env: Env, a: map<string, Bytes>, b: map<string, Bytes>, paths: seq<string>)
    requires forall p :: p in paths ==> p in a && p in b && a[p] == b[p]
    ensures PinsOf(env, a, paths) == PinsOf(env, b, paths)
  {
    assert PinsOf(env, a, paths).files == PinsOf(env, b, paths).files;
  }

  lemma SamePinBytes(env: Env, t: Tree, u: Tree, p: string)
    requires IsTree(t) && AgreeOff(Generated, t.bytes, u.bytes) && p in PinPaths(env, t.order)
    ensures p in t.bytes && p in u.bytes && t.bytes[p] == u.bytes[p]
  {
    GeneratedAreOrdinary();
    hide IsPinPath, IsTree, PinPaths, PinsPath, ManifestPath, SumsPath;
    InPinPaths(env, t, p);
  }

  lemma SamePins(env: Env, t: Tree, u: Tree)
    requires IsTree(t) && IsTree(u) && AgreeOff(Generated, t.bytes, u.bytes)
    requires NoCollisions(env.fold, t.bytes.Keys - {ManifestPath, SumsPath})
    ensures PinsBytes(env, t) == PinsBytes(env, u)
  {
    SamePinPaths(env, t, u);
    hide IsTree, AgreeOff, NoCollisions, PinPaths, PinsOf;
    var paths := PinPaths(env, t.order);
    forall p | p in paths ensures p in t.bytes && p in u.bytes && t.bytes[p] == u.bytes[p] { SamePinBytes(env, t, u, p); }
    SamePinEntries(env, t.bytes, u.bytes, paths);
  }

  lemma InManifestPaths(env: Env, t: Tree, p: string)
    requires IsTree(t) && p in ManifestPaths(env, t.order)
    ensures p in t.bytes && InManifest(p)
  {
    PathsInTree(env, t);
    hide ManifestPaths;
    assert p in Elements(ManifestPaths(env, t.order));
  }

  lemma SameManifestPaths(env: Env, t: Tree, u: Tree)
    requires IsTree(t) && IsTree(u) && AgreeOff({ManifestPath, SumsPath}, t.bytes, u.bytes)
    requires NoCollisions(env.fold, t.bytes.Keys - {ManifestPath, SumsPath})
    ensures ManifestPaths(env, t.order) == ManifestPaths(env, u.order)
  {
    hide IsTree, NoCollisions, Sorted, Selected;
    SamePaths(env.fold, InManifest, t.bytes.Keys - {ManifestPath, SumsPath}, t, u);
  }

  lemma SameEntries(env: Env, release: Release, a: map<string, Bytes>, b: map<string, Bytes>, paths: seq<string>)
    requires forall p :: p in paths ==> p in a && p in b && a[p] == b[p]
    ensures ManifestOf(env, release, a, paths) == ManifestOf(env, release, b, paths)
  {
    assert ManifestOf(env, release, a, paths).files == ManifestOf(env, release, b, paths).files;
  }

  /** The manifest depends on the files it lists and on the order it lists them in. */
  lemma SameManifest(env: Env, release: Release, t: Tree, u: Tree)
    requires IsTree(t) && IsTree(u) && AgreeOff({ManifestPath, SumsPath}, t.bytes, u.bytes)
    requires ManifestPaths(env, t.order) == ManifestPaths(env, u.order)
    ensures ManifestBytes(env, release, t) == ManifestBytes(env, release, u)
  {
    hide ManifestPaths, IsTree, Elements, Distinct, NoCollisions;
    PathsExist(env, t);
    PathsExist(env, u);
    var paths := ManifestPaths(env, t.order);
    forall p | p in paths ensures t.bytes[p] == u.bytes[p] { InManifestPaths(env, t, p); }
    SameEntries(env, release, t.bytes, u.bytes, paths);
  }

  lemma InSumsPaths(env: Env, t: Tree, p: string)
    requires IsTree(t) && p in SumsPaths(env, t.order)
    ensures p in t.bytes && InSums(p)
  {
    PathsInTree(env, t);
    hide SumsPaths;
    assert p in Elements(SumsPaths(env, t.order));
  }

  lemma SameSumsPaths(env: Env, t: Tree, u: Tree)
    requires IsTree(t) && IsTree(u) && AgreeOff({SumsPath}, t.bytes, u.bytes)
    ensures SumsPaths(env, t.order) == SumsPaths(env, u.order)
  {
    hide IsTree, Sorted, Selected;
    SamePaths(Unfolded, InSums, t.bytes.Keys, t, u);
  }

  lemma SameSums(env: Env, t: Tree, u: Tree)
    requires IsTree(t) && IsTree(u) && AgreeOff({SumsPath}, t.bytes, u.bytes)
    ensures SumsBytes(env, t) == SumsBytes(env, u)
  {
    SameSumsPaths(env, t, u);
    hide SumsPaths, IsTree, Elements, Distinct, NoCollisions;
    PathsExist(env, t);
    PathsExist(env, u);
    var paths := SumsPaths(env, t.order);
    forall p | p in paths ensures t.bytes[p] == u.bytes[p] { InSumsPaths(env, t, p); }
    assert SumsEntries(env, t.bytes, paths) == SumsEntries(env, u.bytes, paths);
  }

  lemma AgreeAfterPut(off: set<string>, a: map<string, Bytes>, b: map<string, Bytes>, path: string, value: Bytes)
    requires AgreeOff(off, a, b)
    ensures AgreeOff(off - {path}, a[path := value], b[path := value])
  {
  }

  lemma SameAuthorities(env: Env, a: map<string, Bytes>, b: map<string, Bytes>)
    requires AgreeOff(Generated, a, b)
    ensures Authorities(env, a) == Authorities(env, b)
  {
    GeneratedAreOrdinary();
    assert forall p :: p in AuthorityPaths ==> p !in Generated;
    hide AuthorityPaths, Generated;
    var ofA, ofB := map p | p in a && p in AuthorityPaths :: a[p], map p | p in b && p in AuthorityPaths :: b[p];
    assert ofA == ofB;
  }

  lemma FewerPathsFewerCollisions(key: string -> string, a: set<string>, b: set<string>)
    requires a <= b && NoCollisions(key, b)
    ensures NoCollisions(key, a)
  {
  }

  /** A tree whose pins and manifest list the same paths in the same order builds the same documents. */
  lemma SameBuild(env: Env, t: Tree, u: Tree)
    requires IsTree(t) && IsTree(u) && AgreeOff(Generated, t.bytes, u.bytes)
    requires NoCollisions(env.fold, t.bytes.Keys - {ManifestPath, SumsPath})
    requires forall d :: ManifestPaths(env, Put(t, PinsPath, d).order) == ManifestPaths(env, Put(u, PinsPath, d).order)
    ensures Build(env, t) == Build(env, u)
  {
    hide NoCollisions, AgreeOff, PinPaths, PinsBytes, ManifestPaths, ManifestBytes, SumsBytes, IsTree, Authorities;
    SameAuthorities(env, t.bytes, u.bytes);
    SamePinPaths(env, t, u);
    SamePins(env, t, u);
    if Build(env, t).Ok? {
      var release, pins := Authorities(env, t.bytes).value, PinsBytes(env, t);
      var t1, u1 := Put(t, PinsPath, pins), Put(u, PinsPath, pins);
      PutIsTree(t, PinsPath, pins);
      PutIsTree(u, PinsPath, pins);
      AgreeAfterPut(Generated, t.bytes, u.bytes, PinsPath, pins);
      assert Generated - {PinsPath} == {ManifestPath, SumsPath} by { GeneratedAreOrdinary(); }
      SameManifest(env, release, t1, u1);
      var manifest := ManifestBytes(env, release, t1);
      PutIsTree(t1, ManifestPath, manifest);
      PutIsTree(u1, ManifestPath, manifest);
      AgreeAfterPut({ManifestPath, SumsPath}, t1.bytes, u1.bytes, ManifestPath, manifest);
      assert {ManifestPath, SumsPath} - {ManifestPath} == {SumsPath} by { GeneratedAreOrdinary(); }
      SameSums(env, Put(t1, ManifestPath, manifest), Put(u1, ManifestPath, manifest));
    }
  }

  lemma ListedAfterPut(env: Env, t: Tree, u: Tree, d: Bytes)
    requires IsTree(t) && IsTree(u) && AgreeOff(Generated, t.bytes, u.bytes) && NoCollisions(env.fold, Listed(t.bytes))
    ensures ManifestPaths(env, Put(t, PinsPath, d).order) == ManifestPaths(env, Put(u, PinsPath, d).order)
  {
    GeneratedAreOrdinary();
    PutIsTree(t, PinsPath, d);
    PutIsTree(u, PinsPath, d);
    AgreeAfterPut(Generated, t.bytes, u.bytes, PinsPath, d);
    assert Generated - {PinsPath} == {ManifestPath, SumsPath};
    assert Put(t, PinsPath, d).bytes.Keys - {ManifestPath, SumsPath} == Listed(t.bytes);
    hide IsTree, AgreeOff, NoCollisions, ManifestPaths;
    SameManifestPaths(env, Put(t, PinsPath, d), Put(u, PinsPath, d));
  }

  /** When no two listed paths fold together, the documents depend only on the files that are not generated:
      not on the scan order, and not on what stands in the three generated places. */
  lemma BuildIgnoresGenerated(env: Env, t: Tree, u: Tree)
    requires IsTree(t) && IsTree(u) && AgreeOff(Generated, t.bytes, u.bytes) && NoCollisions(env.fold, Listed(t.bytes))
    ensures Build(env, t) == Build(env, u)
  {
    hide Build, ManifestPaths, IsTree, AgreeOff, NoCollisions;
    forall d ensures ManifestPaths(env, Put(t, PinsPath, d).order) == ManifestPaths(env, Put(u, PinsPath, d).order) {
      ListedAfterPut(env, t, u, d);
    }
    FewerPathsFewerCollisions(env.fold, t.bytes.Keys - {ManifestPath, SumsPath}, Listed(t.bytes));
    SameBuild(env, t, u);
  }

  lemma SealedAgrees(t: map<string, Bytes>, d: Documents)
    ensures AgreeOff(Generated, t, WithDocuments(t, d)) && Stale(WithDocuments(t, d), d) == []
    ensures Listed(WithDocuments(t, d)) == Listed(t)
    ensures WithDocuments(t, d).Keys - {ManifestPath, SumsPath} == Listed(t)
  {
    GeneratedAreOrdinary();
    hide PinsPath, ManifestPath, SumsPath;
  }

  /** Rebuilding over the tree that already holds the documents, scanned in any order, gives the same
      documents, and none of them is stale. */
  lemma SealIsAFixpoint(env: Env, t: Tree, sealed: Tree)
    requires IsTree(t) && IsTree(sealed) && Build(env, t).Ok? && sealed.bytes == WithDocuments(t.bytes, Build(env, t).value)
    requires NoCollisions(env.fold, Listed(t.bytes))
    ensures Build(env, sealed) == Build(env, t)
    ensures Stale(sealed.bytes, Build(env, t).value) == []
  {
    hide Build, NoCollisions, WithDocuments, Stale, AgreeOff, IsTree, Listed;
    SealedAgrees(t.bytes, Build(env, t).value);
    BuildIgnoresGenerated(env, t, sealed);
  }

  // ---------- exactly when it is one ----------

  /** What a scan of the directory hands to the build. */
  function Scanned(env: Env, d: Dir, bytes: map<string, Bytes>): (t: Tree)
    requires ScansTo(env.fold, d, bytes.Keys)
    ensures IsTree(t) && t.bytes == bytes && t.order == Scan(env.fold, d, "")
  {
    ScanIsDistinct(env.fold, d, "");
    Tree(Scan(env.fold, d, ""), bytes)
  }

  /** However the operating system lists the same files, they build the same result. */
  ghost predicate EveryScanBuilds(env: Env, bytes: map<string, Bytes>, r: Result<Documents, SealError>) {
    forall d: Dir :: ScansTo(env.fold, d, bytes.Keys) ==> Build(env, Scanned(env, d, bytes)) == r
  }

  lemma {:induction false} SelectedKeepsBefore(paths: seq<string>, keep: string -> bool, p: string, q: string)
    requires Before(paths, p, q) && keep(p) && keep(q)
    ensures Before(Selected(paths, keep), p, q)
  {
    var front, last := paths[..|paths| - 1], paths[|paths| - 1];
    assert paths == front + [last];
    SelectedElements(front, keep);
    hide Before;
    BeforeAtEnd(front, last, p, q);
    if Before(front, p, q) { SelectedKeepsBefore(front, keep, p, q); }
    if keep(last) {
      BeforeAtEnd(Selected(front, keep), last, p, q);
    } else {
      assert Selected(paths, keep) == Selected(front, keep);
    }
  }

  /** The manifest lists paths that fold together as they were scanned. */
  lemma ManifestKeepsBefore(env: Env, order: seq<string>, p: string, q: string)
    requires Before(order, p, q) && InManifest(p) && InManifest(q) && env.fold(p) == env.fold(q)
    ensures Before(ManifestPaths(env, order), p, q)
  {
    hide Before, InManifest;
    SelectedKeepsBefore(order, InManifest, p, q);
    SortedKeepsBefore(env.fold, Selected(order, InManifest), p, q);
  }

  /** A manifest can be read back, so manifests over different lists of paths differ. */
  lemma ManifestTellsPaths(env: Env, release: Release, t: Tree, u: Tree)
    requires Lawful(env) && IsTree(t) && IsTree(u) && ManifestBytes(env, release, t) == ManifestBytes(env, release, u)
    ensures ManifestPaths(env, t.order) == ManifestPaths(env, u.order)
  {
    hide ManifestPaths, IsTree;
    PathsExist(env, t);
    PathsExist(env, u);
    var a, b := ManifestPaths(env, t.order), ManifestPaths(env, u.order);
    var of, of' := ManifestOf(env, release, t.bytes, a), ManifestOf(env, release, u.bytes, b);
    assert env.readManifest(env.writeManifest(of)) == Some(of) && env.readManifest(env.writeManifest(of')) == Some(of');
    assert of == of';
    assert |a| == |b| && forall i :: 0 <= i < |a| ==> of.files[i].path == a[i] && of'.files[i].path == b[i];
  }

  /** Equal documents come from equal lists of paths. */
  lemma SameBuildSameListing(env: Env, t: Tree, u: Tree)
    requires Lawful(env) && IsTree(t) && IsTree(u) && t.bytes == u.bytes && Build(env, t).Ok? && Build(env, t) == Build(env, u)
    ensures
      var pins := Build(env, t).value.pins;
      ManifestPaths(env, Put(t, PinsPath, pins).order) == ManifestPaths(env, Put(u, PinsPath, pins).order)
  {
    hide Lawful, ManifestPaths, ManifestBytes, PinsBytes, SumsBytes, PinPaths, IsTree, Authorities;
    var pins := Build(env, t).value.pins;
    PutIsTree(t, PinsPath, pins);
    PutIsTree(u, PinsPath, pins);
    ManifestTellsPaths(env, Authorities(env, t.bytes).value, Put(t, PinsPath, pins), Put(u, PinsPath, pins));
  }

  lemma PutKeepsBefore(t: Tree, path: string, value: Bytes, p: string, q: string)
    requires Before(t.order, p, q)
    ensures Before(Put(t, path, value).order, p, q)
  {
    hide Before;
    BeforeInConcat(t.order, [path], p, q);
  }

  /** Two trees of the same files that have two manifest-listed, folded together paths in opposite orders do not
      build the same documents. */
  lemma OppositeOrdersDiffer(env: Env, t: Tree, u: Tree, p: string, q: string)
    requires Lawful(env) && IsTree(t) && IsTree(u) && t.bytes == u.bytes && Build(env, t).Ok?
    requires InManifest(p) && InManifest(q) && env.fold(p) == env.fold(q) && Before(t.order, p, q) && Before(u.order, q, p)
    ensures Build(env, t) != Build(env, u)
  {
    hide Lawful, Build, IsTree, InManifest, Before, ManifestPaths, Distinct;
    var pins := Build(env, t).value.pins;
    var t1, u1 := Put(t, PinsPath, pins), Put(u, PinsPath, pins);
    PutKeepsBefore(t, PinsPath, pins, p, q);
    PutKeepsBefore(u, PinsPath, pins, q, p);
    ManifestKeepsBefore(env, t1.order, p, q);
    ManifestKeepsBefore(env, u1.order, q, p);
    PutIsTree(t, PinsPath, pins);
    PathsInTree(env, t1);
    DistinctHasOneOrder(ManifestPaths(env, t1.order), p, q);
    hide Put;
    if Build(env, t) == Build(env, u) { SameBuildSameListing(env, t, u); }
  }

  /** With two manifest-listed files whose paths fold together, two scans of the same directory build different
      documents. */
  lemma CollisionShows(env: Env, d: Dir, bytes: map<string, Bytes>, p: string, q: string) returns (e: Dir, f: Dir)
    requires Lawful(env) && ScansTo(env.fold, d, bytes.Keys)
    requires p in bytes && q in bytes && InManifest(p) && InManifest(q) && env.fold(p) == env.fold(q) && p != q
    ensures ScansTo(env.fold, e, bytes.Keys) && ScansTo(env.fold, f, bytes.Keys)
    ensures Build(env, Scanned(env, e, bytes)).Ok? ==> Build(env, Scanned(env, e, bytes)) != Build(env, Scanned(env, f, bytes))
  {
    LawfulFolds(env);
    hide Lawful, Build, IsTree, InManifest, Folds, ScansTo, Before, Scan;
    e := ArrangeListing(env.fold, d, bytes.Keys, p, q);
    f := ArrangeListing(env.fold, d, bytes.Keys, q, p);
    if Build(env, Scanned(env, e, bytes)).Ok? {
      OppositeOrdersDiffer(env, Scanned(env, e, bytes), Scanned(env, f, bytes), p, q);
    }
  }

  lemma LawfulFolds(env: Env)
    requires Lawful(env)
    ensures Folds(env.fold)
  {
    hide Folds;
  }

  lemma AgreementShows(env: Env, d: Dir, bytes: map<string, Bytes>, r: Result<Documents, SealError>)
    requires Lawful(env) && r.Ok? && ScansTo(env.fold, d, bytes.Keys) && EveryScanBuilds(env, bytes, r)
    ensures NoCollisions(env.fold, bytes.Keys - {ManifestPath, SumsPath})
  {
    hide Lawful, Build, IsTree, ScansTo, Scan;
    forall p, q | p in bytes.Keys - {ManifestPath, SumsPath} && q in bytes.Keys - {ManifestPath, SumsPath} && env.fold(p) == env.fold(q)
      ensures p == q
    {
      if p != q { var e, f := CollisionShows(env, d, bytes, p, q); }
    }
  }

  lemma SortedAppends(env: Env, order: seq<string>, path: string)
    requires InManifest(path)
    ensures ManifestPaths(env, order + [path]) == Insert(env.fold, ManifestPaths(env, order), path)
  {
    assert (order + [path])[..|order|] == order;
    var s := Selected(order, InManifest);
    assert Selected(order + [path], InManifest) == s + [path] && (s + [path])[..|s|] == s;
  }

  lemma ListingsAgree(env: Env, t: Tree, u: Tree)
    requires IsTree(t) && IsTree(u) && t.bytes == u.bytes && NoCollisions(env.fold, t.bytes.Keys - {ManifestPath, SumsPath})
    ensures Build(env, t) == Build(env, u)
  {
    GeneratedAreOrdinary();
    hide Build, ManifestPaths, IsTree, NoCollisions, Insert, PinsPath, ManifestPath, SumsPath;
    SameManifestPaths(env, t, u);
    SortedAppends(env, t.order, PinsPath);
    SortedAppends(env, u.order, PinsPath);
    SameBuild(env, t, u);
  }

  /** The documents of a directory are the same for every scan of it if and only if no two of the files its
      manifest lists have paths that fold together; then they are the same in any order whatever. */
  lemma ListingsAgreeIff(env: Env, d: Dir, bytes: map<string, Bytes>)
    requires Lawful(env) && ScansTo(env.fold, d, bytes.Keys) && Build(env, Scanned(env, d, bytes)).Ok?
    ensures EveryScanBuilds(env, bytes, Build(env, Scanned(env, d, bytes))) <==> NoCollisions(env.fold, bytes.Keys - {ManifestPath, SumsPath})
    ensures NoCollisions(env.fold, bytes.Keys - {ManifestPath, SumsPath}) ==>
      forall u: Tree :: IsTree(u) && u.bytes == bytes ==> Build(env, u) == Build(env, Scanned(env, d, bytes))
  {
    hide Lawful, Build, IsTree, NoCollisions, ScansTo;
    var t := Scanned(env, d, bytes);
    if EveryScanBuilds(env, bytes, Build(env, t)) {
      AgreementShows(env, d, bytes, Build(env, t));
    }
    if NoCollisions(env.fold, bytes.Keys - {ManifestPath, SumsPath}) {
      forall u: Tree | IsTree(u) && u.bytes == bytes ensures Build(env, u) == Build(env, t) { ListingsAgree(env, u, t); }
    }
  }

  /** Sealing is a fixpoint, however the sealed directory is listed, if and only if no two listed paths, the
      pins document among them, fold together. */
  lemma SealIsAFixpointIff(env: Env, t: Tree, d: Dir)
    requires Lawful(env) && IsTree(t) && Build(env, t).Ok?
    requires ScansTo(env.fold, d, WithDocuments(t.bytes, Build(env, t).value).Keys)
    ensures EveryScanBuilds(env, WithDocuments(t.bytes, Build(env, t).value), Build(env, t)) <==> NoCollisions(env.fold, Listed(t.bytes))
  {
    hide Lawful, Build, IsTree, NoCollisions, WithDocuments, Listed, ScansTo, Scanned;
    var sealed := WithDocuments(t.bytes, Build(env, t).value);
    SealedAgrees(t.bytes, Build(env, t).value);
    if EveryScanBuilds(env, sealed, Build(env, t)) {
      AgreementShows(env, d, sealed, Build(env, t));
    }
    if NoCollisions(env.fold, Listed(t.bytes)) {
      forall e: Dir | ScansTo(env.fold, e, sealed.Keys)
        ensures Build(env, Scanned(env, e, sealed)) == Build(env, t)
      {
        SealIsAFixpoint(env, t, Scanned(env, e, sealed));
      }
    }
  }

  lemma PinCountOf(env: Env, t: Tree)
    requires IsTree(t)
    ensures |PinPaths(env, t.order)| == |set p | p in t.bytes && IsPinPath(p)|
  {
    PathsInTree(env, t);
    hide IsPinPath, PinPaths, Elements, Distinct;
    DistinctHasFullCardinality(PinPaths(env, t.order));
  }

  lemma SamePinSet(a: map<string, Bytes>, b: map<string, Bytes>)
    requires AgreeOff(Generated, a, b)
    ensures (set p | p in a && IsPinPath(p)) == set p | p in b && IsPinPath(p)
  {
    GeneratedAreOrdinary();
    hide IsPinPath, PinsPath, ManifestPath, SumsPath;
  }

  /** Whether a tree builds does not depend on its listing. */
  lemma BuildsAlike(env: Env, t: Tree, u: Tree)
    requires IsTree(t) && IsTree(u) && AgreeOff(Generated, t.bytes, u.bytes)
    ensures Build(env, t).Ok? <==> Build(env, u).Ok?
  {
    hide AgreeOff, IsTree, IsPinPath, PinPaths, PinsBytes, ManifestBytes, SumsBytes, Authorities;
    SameAuthorities(env, t.bytes, u.bytes);
    SamePinSet(t.bytes, u.bytes);
    PinCountOf(env, t);
    PinCountOf(env, u);
  }

  // ---------- sealing a package in place ----------

  datatype SealResult = Current | OutOfDate(paths: seq<string>) | Written(paths: seq<string>) | Failed(error: SealError) | PostwriteFailed

  class Package {
    var bytes: map<string, Bytes>

    constructor (bytes: map<string, Bytes>)
      ensures this.bytes == bytes
    {
      this.bytes := bytes;
    }

    /** Replace each stale generated file. */
    method WriteDocuments(stale: seq<string>, d: Documents)
      requires stale == Stale(bytes, d)
      modifies this
      ensures bytes == WithDocuments(old(bytes), d)
    {
      GeneratedAreOrdinary();
      var before := bytes;
      if PinsPath in stale { bytes := bytes[PinsPath := d.pins]; }
      assert bytes == before[PinsPath := d.pins];
      if ManifestPath in stale { bytes := bytes[ManifestPath := d.manifest]; }
      assert bytes == before[PinsPath := d.pins][ManifestPath := d.manifest];
      if SumsPath in stale { bytes := bytes[SumsPath := d.sums]; }
      assert bytes == WithDocuments(before, d);
    }

    /** Build, compare, write what is stale, then scan again and rebuild. The check after the write fails
        exactly when the rebuilt documents differ, which no tree without folded collisions can make happen. */
    method Seal(env: Env, write: bool, scan: Dir, rescan: Dir) returns (r: SealResult)
      requires ScansTo(env.fold, scan, bytes.Keys) && ScansTo(env.fold, rescan, bytes.Keys + Generated)
      modifies this
      ensures
        var built := Build(env, Scanned(env, scan, old(bytes)));
        if built.Err? then r == Failed(built.error) && bytes == old(bytes)
        else if write then
          && bytes == WithDocuments(old(bytes), built.value) && ScansTo(env.fold, rescan, bytes.Keys)
          && r == if Build(env, Scanned(env, rescan, bytes)) == built then Written(Stale(old(bytes), built.value)) else PostwriteFailed
        else bytes == old(bytes) && r == if Stale(bytes, built.value) == [] then Current else OutOfDate(Stale(bytes, built.value))
      ensures NoCollisions(env.fold, Listed(old(bytes))) ==> r != PostwriteFailed
    {
      hide Build, NoCollisions, Stale, WithDocuments, AgreeOff, Listed, ScansTo, Scan, IsTree;
      var tree := Scanned(env, scan, bytes);
      var built := Build(env, tree);
      if built.Err? { return Failed(built.error); }
      var stale := Stale(bytes, built.value);
      if !write { return if stale == [] then Current else OutOfDate(stale); }
      WriteDocuments(stale, built.value);
      SealedAgrees(tree.bytes, built.value);
      WrittenKeys(tree.bytes, built.value);
      var after := Scanned(env, rescan, bytes);
      if NoCollisions(env.fold, Listed(tree.bytes)) { SealIsAFixpoint(env, tree, after); }
      BuildsAlike(env, tree, after);
      var rebuilt := Build(env, after);
      if rebuilt.Err? { assert false; }  // the authorities and the number of pins are the same
      if rebuilt != built || Stale(bytes, rebuilt.value) != [] { return PostwriteFailed; }
      return Written(stale);
    }
  }

  lemma WrittenKeys(bytes: map<string, Bytes>, d: Documents)
    ensures WithDocuments(bytes, d).Keys == bytes.Keys + Generated
  {
    hide PinsPath, ManifestPath, SumsPath;
  }
}
