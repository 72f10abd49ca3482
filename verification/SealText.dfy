/** Text forms of the release seal: paths, lines, and checksum lines
    (scripts/package/seal_package.py and scripts/package/verify_package.py). */
module SealText {
  import opened Base

  // ---------- lines ----------

  /** The characters at which str.splitlines breaks a line. */
  predicate IsLineEnd(c: char) {
    c == '\n' || c == '\r' || c == '\U{000B}' || c == '\U{000C}' || c == '\U{001C}' || c == '\U{001D}' || c == '\U{001E}'
    || c == '\U{0085}' || c == '\U{2028}' || c == '\U{2029}'
  }

  function FirstLineEnd(s: string): (i: nat)
    ensures i <= |s| && (forall j :: 0 <= j < i ==> !IsLineEnd(s[j])) && (i < |s| ==> IsLineEnd(s[i]))
  {
    if s == [] || IsLineEnd(s[0]) then 0 else 1 + FirstLineEnd(s[1..])
  }

  /** str.splitlines, for text in which no carriage return is followed by a newline. */
  function SplitLines(s: string): seq<string>
    decreases |s|
  {
    if s == [] then []
    else
      var i := FirstLineEnd(s);
      if i == |s| then [s] else [s[..i]] + SplitLines(s[i + 1..])
  }

  function LineEnds(s: string): nat {
    if s == [] then 0 else LineEnds(s[..|s| - 1]) + (if IsLineEnd(s[|s| - 1]) then 1 else 0)
  }

  lemma {:induction false} LineEndsOfConcat(s: string, t: string)
    ensures LineEnds(s + t) == LineEnds(s) + LineEnds(t)
  {
    if t == [] {
      assert s + t == s;
    } else {
      assert (s + t)[..|s + t| - 1] == s + t[..|t| - 1];
      LineEndsOfConcat(s, t[..|t| - 1]);
    }
  }

  lemma {:induction false} NoLineEnds(s: string)
    ensures LineEnds(s) == 0 <==> forall i :: 0 <= i < |s| ==> !IsLineEnd(s[i])
  {
    if s != [] {
      NoLineEnds(s[..|s| - 1]);
      assert forall i :: 0 <= i < |s| - 1 ==> s[..|s| - 1][i] == s[i];
    }
  }

  lemma OneLineEnd(c: char)
    ensures LineEnds([c]) == if IsLineEnd(c) then 1 else 0
  {
    assert [c][..0] == [];
  }

  lemma SplitAround(s: string, i: nat)
    requires i < |s|
    ensures s == s[..i] + ([s[i]] + s[i + 1..])
  {
  }

  lemma LineEndsAfterFirst(s: string)
    requires FirstLineEnd(s) < |s|
    ensures LineEnds(s) == 1 + LineEnds(s[FirstLineEnd(s) + 1..])
  {
    hide LineEnds, IsLineEnd, FirstLineEnd;
    var i := FirstLineEnd(s);
    SplitAround(s, i);
    LineEndsOfConcat(s[..i], [s[i]] + s[i + 1..]);
    LineEndsOfConcat([s[i]], s[i + 1..]);
    NoLineEnds(s[..i]);
    OneLineEnd(s[i]);
  }

  /** A text that ends with a line end has as many lines as line ends. */
  lemma {:induction false} CountLines(s: string)
    requires s != [] ==> IsLineEnd(s[|s| - 1])
    ensures |SplitLines(s)| == LineEnds(s)
    decreases |s|
  {
    hide LineEnds, IsLineEnd;
    if s == [] {
      assert LineEnds(s) == 0 by { NoLineEnds(s); }
    } else {
      assert FirstLineEnd(s) < |s|;
      LineEndsAfterFirst(s);
      CountLines(s[FirstLineEnd(s) + 1..]);
    }
  }

  lemma FirstLine(line: string, rest: string)
    requires LineEnds(line) == 0
    ensures SplitLines(line + "\n" + rest) == [line] + SplitLines(rest)
  {
    NoLineEnds(line);
    var s := line + "\n" + rest;
    assert s[|line|] == '\n';
    assert FirstLineEnd(s) == |line|;
    assert s[..|line|] == line && s[|line| + 1..] == rest;
  }

  // ---------- paths ----------

  predicate NoSlash(s: string) { forall i :: 0 <= i < |s| ==> s[i] != '/' }

  /** Components between slashes. */
  function SplitPath(s: string): (parts: seq<string>)
    ensures parts != []
  {
    if s == [] then [[]]
    else
      var rest := SplitPath(s[1..]);
      if s[0] == '/' then [[]] + rest else [[s[0]] + rest[0]] + rest[1..]
  }

  function Kept(parts: seq<string>): seq<string> {
    if parts == [] then []
    else if parts[0] == [] || parts[0] == "." then Kept(parts[1..])
    else [parts[0]] + Kept(parts[1..])
  }

  function JoinPath(parts: seq<string>): string {
    if parts == [] then "."
    else if |parts| == 1 then parts[0]
    else parts[0] + "/" + JoinPath(parts[1..])
  }

  /** A relative path in the normal form of PurePosixPath, or nothing when it is empty, absolute,
      climbs, or holds a backslash. */
  function SafeRelativePath(text: string): Option<string> {
    if text == [] || text[0] == '/' || '\\' in text || ".." in SplitPath(text) then None
    else Some(JoinPath(Kept(SplitPath(text))))
  }

  /** The last component. */
  function Name(path: string): string {
    if path == [] || path[|path| - 1] == '/' then [] else Name(path[..|path| - 1]) + [path[|path| - 1]]
  }

  predicate IsControl(c: char) { c < ' ' || c == '\U{007F}' }

  /** What the scan of a tree lets through: already normal, and free of control characters. */
  predicate IsScannedPath(p: string) {
    SafeRelativePath(p) == Some(p) && forall i :: 0 <= i < |p| ==> !IsControl(p[i])
  }

  // ---------- checksum lines ----------

  function SumsLine(digest: string, path: string): string { digest + "  " + path }

  function SumsText(lines: seq<(string, string)>): string {
    if lines == [] then [] else SumsLine(lines[0].0, lines[0].1) + "\n" + SumsText(lines[1..])
  }

  predicate GapAt(line: string, i: int) { 0 <= i < |line| - 1 && line[i] == ' ' && line[i + 1] == ' ' }

  function FirstGap(line: string, start: nat): (i: int)
    requires start <= |line|
    ensures i == -1 ==> forall j :: start <= j ==> !GapAt(line, j)
    ensures i != -1 ==> start <= i && GapAt(line, i) && forall j :: start <= j < i ==> !GapAt(line, j)
    decreases |line| - start
  {
    if start == |line| then -1 else if GapAt(line, start) then start else FirstGap(line, start + 1)
  }

  /** A checksum line split at its first double space into path and digest; nothing readable when there is none. */
  function LineEntry(line: string): (string, string) {
    var gap := FirstGap(line, 0);
    if gap == -1 then ("", "") else (line[gap + 2..], line[..gap])
  }

  /** What is printed is read back, whatever spaces the path holds. */
  lemma SumsLineRoundTrip(digest: string, path: string)
    requires IsSha256(digest)
    ensures LineEntry(SumsLine(digest, path)) == (path, digest)
  {
    var line := SumsLine(digest, path);
    assert forall i :: 0 <= i < 64 ==> line[i] == digest[i];
    assert GapAt(line, 64);
    assert FirstGap(line, 0) == 64;
    assert line[..64] == digest && line[66..] == path;
  }

  lemma DigestHasNoLineEnds(digest: string)
    requires IsSha256(digest)
    ensures LineEnds(digest) == 0
  {
    NoLineEnds(digest);
  }

  function PathLineEnds(lines: seq<(string, string)>): nat {
    if lines == [] then 0 else LineEnds(lines[0].1) + PathLineEnds(lines[1..])
  }

  lemma LineEndsOfLine(digest: string, path: string)
    requires IsSha256(digest)
    ensures LineEnds(SumsLine(digest, path)) == LineEnds(path)
  {
    DigestHasNoLineEnds(digest);
    LineEndsOfConcat(digest + "  ", path);
    LineEndsOfConcat(digest, "  ");
    NoLineEnds("  ");
  }

  /** The sums document has one line per entry, plus one for every line end hidden in a path. */
  lemma {:induction false} SumsTextLines(lines: seq<(string, string)>)
    requires forall i :: 0 <= i < |lines| ==> IsSha256(lines[i].0)
    ensures |SplitLines(SumsText(lines))| == |lines| + PathLineEnds(lines)
  {
    SumsTextEnds(lines);
    CountLines(SumsText(lines));
  }

  lemma {:induction false} SumsTextEnds(lines: seq<(string, string)>)
    requires forall i :: 0 <= i < |lines| ==> IsSha256(lines[i].0)
    ensures LineEnds(SumsText(lines)) == |lines| + PathLineEnds(lines)
    ensures SumsText(lines) != [] ==> IsLineEnd(SumsText(lines)[|SumsText(lines)| - 1])
  {
    if lines != [] {
      var line, rest := SumsLine(lines[0].0, lines[0].1), SumsText(lines[1..]);
      SumsTextEnds(lines[1..]);
      LineEndsOfConcat(line + "\n", rest);
      LineEndsOfConcat(line, "\n");
      assert LineEnds("\n") == 1 by { assert "\n"[..0] == []; }
      LineEndsOfLine(lines[0].0, lines[0].1);
    }
  }

  /** Without line ends in paths the document splits back into exactly its lines. */
  lemma {:induction false} SumsTextSplits(lines: seq<(string, string)>)
    requires forall i :: 0 <= i < |lines| ==> IsSha256(lines[i].0) && LineEnds(lines[i].1) == 0
    ensures |SplitLines(SumsText(lines))| == |lines|
    ensures forall i :: 0 <= i < |lines| ==> SplitLines(SumsText(lines))[i] == SumsLine(lines[i].0, lines[i].1)
  {
    if lines != [] {
      var line := SumsLine(lines[0].0, lines[0].1);
      LineEndsOfLine(lines[0].0, lines[0].1);
      FirstLine(line, SumsText(lines[1..]));
      SumsTextSplits(lines[1..]);
    }
  }
}
