/** When the checksum document of a freshly sealed tree is accepted. */
module SealAgreement {
  import opened Base
  import opened Plans
  import opened SealText
  import opened Seal
  import opened SealVerifier

  /** No file but the checksum document itself bears its name, and no path hides a line end. */
  predicate Clean(bytes: map<string, Bytes>) {
    forall p :: p in bytes && p != SumsPath ==> Name(p) != SumsPath && LineEnds(p) == 0
  }

  lemma NameOfSums()
    ensures Name(SumsPath) == SumsPath
  {
    NameWithoutSlash(SumsPath);
  }

  lemma {:induction false} NameWithoutSlash(s: string)
    requires NoSlash(s)
    ensures Name(s) == s
  {
    if s != [] {
      NameWithoutSlash(s[..|s| - 1]);
      assert s == s[..|s| - 1] + [s[|s| - 1]];
    }
  }

  predicate NoReturn(s: string) { forall i :: 0 <= i < |s| ==> s[i] != '\r' }

  lemma {:induction false} SumsTextHasNoReturn(lines: seq<(string, string)>)
    requires forall i :: 0 <= i < |lines| ==> IsSha256(lines[i].0) && NoReturn(lines[i].1)
    ensures '\r' !in SumsText(lines)
  {
    if lines != [] { SumsTextHasNoReturn(lines[1..]); }
  }

  // ---------- counting ----------

  lemma CoveringCounts(entries: seq<(string, string)>, expected: set<string>)
    requires Covering(entries, expected)
    ensures |entries| == |expected|
  {
    hide SafeRelativePath, IsSha256;
    var rels := seq(|entries|, i requires 0 <= i < |entries| => SafeRelativePath(entries[i].0).value);
    assert Distinct(rels);
    forall p | p in expected ensures p in rels {
      var i :| 0 <= i < |entries| && SafeRelativePath(entries[i].0) == Some(p);
      assert rels[i] == p;
    }
    assert Elements(rels) == expected;
    DistinctHasFullCardinality(rels);
  }

  lemma {:induction false} NoPathHidesALine(lines: seq<(string, string)>, i: nat)
    requires PathLineEnds(lines) == 0 && i < |lines|
    ensures LineEnds(lines[i].1) == 0
  {
    if i > 0 { NoPathHidesALine(lines[1..], i - 1); }
  }

  // ---------- the document of a sealed tree ----------

  /** `lines` are the digests and paths of all files but the checksum document, each once. */
  ghost predicate Lists(env: Env, bytes: map<string, Bytes>, lines: seq<(string, string)>, paths: seq<string>) {
    && Distinct(paths) && Elements(paths) == bytes.Keys - {SumsPath} && |lines| == |paths|
    && (forall i :: 0 <= i < |paths| ==> paths[i] in bytes && SafeRelativePath(paths[i]) == Some(paths[i]) && NoReturn(paths[i]))
    && (forall i :: 0 <= i < |paths| ==> lines[i] == (env.digest(bytes[paths[i]]), paths[i]))
  }

  lemma ExpectedPaths(bytes: map<string, Bytes>)
    ensures SumsExpected(bytes) <= bytes.Keys - {SumsPath}
    ensures (forall p :: p in bytes && p != SumsPath ==> Name(p) != SumsPath) ==> SumsExpected(bytes) == bytes.Keys - {SumsPath}
    ensures SumsExpected(bytes) == bytes.Keys - {SumsPath} ==> forall p :: p in bytes && p != SumsPath ==> Name(p) != SumsPath
  {
    NameOfSums();
    hide Name, SumsPath;
    forall p | p in bytes && p != SumsPath ensures p in bytes.Keys - {SumsPath} {}
  }

  lemma CleanIsAccepted(env: Env, bytes: map<string, Bytes>, lines: seq<(string, string)>, paths: seq<string>)
    requires Lawful(env) && Lists(env, bytes, lines, paths) && Clean(bytes)
    ensures
      var entries := LineEntries(SplitLines(SumsText(lines)));
      Covering(entries, SumsExpected(bytes)) && DigestsMatch(env, bytes, entries)
  {
    hide SafeRelativePath, IsSha256, SplitLines, SumsText, LineEntry, Name, LineEnds, SumsPath, NoReturn;
    forall i | 0 <= i < |paths| ensures LineEnds(paths[i]) == 0 { assert paths[i] in Elements(paths); }
    SumsTextSplits(lines);
    var split := SplitLines(SumsText(lines));
    forall i | 0 <= i < |paths| ensures LineEntries(split)[i] == (paths[i], env.digest(bytes[paths[i]])) {
      SumsLineRoundTrip(lines[i].0, lines[i].1);
    }
    PrintedEntriesMatch(env, bytes, LineEntries(split), paths);
    ExpectedPaths(bytes);
  }

  lemma NothingLeftOver(env: Env, bytes: map<string, Bytes>, lines: seq<(string, string)>, paths: seq<string>)
    requires Lawful(env) && Lists(env, bytes, lines, paths)
    requires Covering(LineEntries(SplitLines(SumsText(lines))), SumsExpected(bytes))
    ensures SumsExpected(bytes) == bytes.Keys - {SumsPath} && PathLineEnds(lines) == 0
  {
    hide SafeRelativePath, IsSha256, SplitLines, SumsText, LineEntry, SumsExpected, SumsPath, NoReturn, Covering, PathLineEnds;
    SumsTextLines(lines);
    CoveringCounts(LineEntries(SplitLines(SumsText(lines))), SumsExpected(bytes));
    ExpectedPaths(bytes);
    DistinctHasFullCardinality(paths);
    hide Lists, Elements, Distinct;
    SubsetSize(SumsExpected(bytes), bytes.Keys - {SumsPath});
    SameSizeSubset(SumsExpected(bytes), bytes.Keys - {SumsPath});
  }

  lemma AcceptedIsClean(env: Env, bytes: map<string, Bytes>, lines: seq<(string, string)>, paths: seq<string>)
    requires Lawful(env) && Lists(env, bytes, lines, paths)
    requires Covering(LineEntries(SplitLines(SumsText(lines))), SumsExpected(bytes))
    ensures Clean(bytes)
  {
    hide SafeRelativePath, IsSha256, SplitLines, SumsText, LineEntry, SumsExpected, SumsPath, NoReturn, Covering, Name, LineEnds, Lawful,
      PathLineEnds;
    NothingLeftOver(env, bytes, lines, paths);
    ExpectedPaths(bytes);
    forall p | p in bytes && p != SumsPath ensures Name(p) != SumsPath && LineEnds(p) == 0 {
      assert p in Elements(paths);
      var i :| 0 <= i < |paths| && paths[i] == p;
      NoPathHidesALine(lines, i);
    }
  }

  lemma SealedLists(env: Env, t: Tree, bytes: map<string, Bytes>) returns (lines: seq<(string, string)>, paths: seq<string>)
    requires FreshlySealed(env, t, bytes)
    ensures Lists(env, bytes, lines, paths)
    ensures SumsPath in bytes && bytes[SumsPath] == env.writeText(SumsText(lines))
  {
    hide FreshlySealed, Build, Authorities, IsTree, SumsPaths, SafeRelativePath, Put, PinsBytes, ManifestBytes, PinPaths,
      PinsPath, ManifestPath, SumsPath, Distinct, Elements, SumsText, Lawful;
    LawfulSeal(env, t, bytes);
    SealedPaths(env, t, bytes);
    var d := Build(env, t).value;
    var t2 := Put(Put(t, PinsPath, d.pins), ManifestPath, d.manifest);
    PathsInTree(env, t2);
    PathsExist(env, t2);
    paths := SumsPaths(env, t2.order);
    lines := SumsEntries(env, t2.bytes, paths);
    forall i | 0 <= i < |paths| ensures paths[i] in bytes && SafeRelativePath(paths[i]) == Some(paths[i]) && NoReturn(paths[i])
      && bytes[paths[i]] == t2.bytes[paths[i]]
    {
      InSumsPaths(env, t2, paths[i]);
      ScannedIsSafe(env, t, bytes, paths[i]);
    }
  }

  /** The checksum check accepts a freshly sealed tree exactly when no other file is named SHA256SUMS.txt
      and no path contains a character at which lines are split. */
  lemma SealedSumsAreAcceptedIff(env: Env, t: Tree, bytes: map<string, Bytes>)
    requires FreshlySealed(env, t, bytes)
    ensures SumsAccepted(env, bytes) <==> Clean(bytes)
  {
    var lines, paths := SealedLists(env, t, bytes);
    LawfulSeal(env, t, bytes);
    hide FreshlySealed, SafeRelativePath, IsSha256, SumsText, SplitLines, Clean, Covering, DigestsMatch, SumsExpected, SumsPath;
    SumsTextHasNoReturn(lines);
    assert env.readText(bytes[SumsPath]) == Some(SumsText(lines));
    if Clean(bytes) {
      CleanIsAccepted(env, bytes, lines, paths);
    }
    if SumsAccepted(env, bytes) {
      AcceptedIsClean(env, bytes, lines, paths);
    }
  }
}
