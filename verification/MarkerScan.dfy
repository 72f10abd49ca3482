/** Finding the one request marker in a chat message
    (src/awakening/model_gateway/m4/http_adapter.py). */
module MarkerScan {
  import opened Base

  const Prefix: string := "m4-call:"

  /** `pat` stands in `text` at position i. */
  predicate At(text: string, pat: string, i: int) {
    0 <= i <= |text| - |pat| && text[i..i + |pat|] == pat
  }

  /** A canonical version 4 UUID in lower-case text form. */
  predicate IsUuid4Text(s: string) {
    && |s| == 36
    && (forall i :: 0 <= i < 36 ==> if i == 8 || i == 13 || i == 18 || i == 23 then s[i] == '-' else IsHex(s[i]))
    && s[14] == '4' && (s[19] == '8' || s[19] == '9' || s[19] == 'a' || s[19] == 'b')
  }

  predicate IsMarker(m: string) {
    |m| == 44 && m[..8] == Prefix && IsUuid4Text(m[8..])
  }

  predicate IsBoundaryCharacter(c: char) {
    'a' <= c <= 'z' || 'A' <= c <= 'Z' || '0' <= c <= '9' || c == '_' || c == ':' || c == '-'
  }

  /** The marker stands at i and no longer token does. */
  predicate ExactAt(text: string, marker: string, i: int) {
    && At(text, marker, i)
    && (i == 0 || !IsBoundaryCharacter(text[i - 1]))
    && (i + |marker| == |text| || !IsBoundaryCharacter(text[i + |marker|]))
  }

  // ---------- counting ----------

  /** Occurrences that start before n. */
  function Occurrences(text: string, pat: string, n: nat): nat {
    if n == 0 then 0 else Occurrences(text, pat, n - 1) + (if At(text, pat, n - 1) then 1 else 0)
  }

  function ExactOccurrences(text: string, marker: string, n: nat): nat {
    if n == 0 then 0 else ExactOccurrences(text, marker, n - 1) + (if ExactAt(text, marker, n - 1) then 1 else 0)
  }

  /** Every occurrence, overlapping ones included. */
  function AllOccurrences(text: string, pat: string): nat { Occurrences(text, pat, |text| + 1) }
  function AllExact(text: string, marker: string): nat { ExactOccurrences(text, marker, |text| + 1) }

  /** No proper suffix of the pattern is a prefix of it. */
  predicate NeverOverlaps(pat: string) {
    pat != [] && forall i :: 0 < i < |pat| ==> pat[i] != pat[0]
  }

  lemma PrefixNeverOverlaps()
    ensures NeverOverlaps(Prefix)
  {
  }

  /** A marker starts with the only 'm' in it. */
  lemma OnlyOneM(m: string)
    requires IsMarker(m)
    ensures m[0] == 'm' && forall i :: 0 < i < |m| ==> m[i] != 'm'
  {
    assert m[0] == m[..8][0] == 'm';
    forall i | 0 < i < |m| ensures m[i] != 'm' {
      if i < 8 { assert m[i] == m[..8][i]; } else { assert m[i] == m[8..][i - 8]; }
    }
  }

  lemma MarkerNeverOverlaps(m: string)
    requires IsMarker(m)
    ensures NeverOverlaps(m)
  {
    OnlyOneM(m);
  }

  lemma NoOccurrenceInside(text: string, pat: string, i: int, j: int)
    requires NeverOverlaps(pat) && At(text, pat, i) && i < j < i + |pat|
    ensures !At(text, pat, j)
  {
    assert text[j] == text[i..i + |pat|][j - i] == pat[j - i];
    if j <= |text| - |pat| { assert text[j..j + |pat|][0] == text[j]; }
  }

  lemma {:induction false} NothingBetween(text: string, pat: string, low: nat, high: nat)
    requires low <= high && forall j :: low <= j < high ==> !At(text, pat, j)
    ensures Occurrences(text, pat, high) == Occurrences(text, pat, low)
    decreases high
  {
    if low < high { NothingBetween(text, pat, low, high - 1); }
  }

  lemma {:induction false} NothingExactBetween(text: string, marker: string, low: nat, high: nat)
    requires low <= high && forall j :: low <= j < high ==> !At(text, marker, j)
    ensures ExactOccurrences(text, marker, high) == ExactOccurrences(text, marker, low)
    decreases high
  {
    if low < high { NothingExactBetween(text, marker, low, high - 1); }
  }

  // ---------- the loops ----------

  /** str.find: the first occurrence at or after `offset`, or -1. */
  method Find(text: string, pat: string, offset: nat) returns (position: int)
    ensures position < 0 ==> forall j :: offset <= j ==> !At(text, pat, j)
    ensures 0 <= position ==> offset <= position && At(text, pat, position) && forall j :: offset <= j < position ==> !At(text, pat, j)
  {
    position := offset;
    while position <= |text| - |pat|
      invariant offset <= position
      invariant forall j :: offset <= j < position ==> !At(text, pat, j)
      decreases |text| - position
    {
      if text[position..position + |pat|] == pat { return position; }
      position := position + 1;
    }
    position := -1;
  }

  /** str.count: occurrences found by jumping over each one. */
  method CountNonOverlapping(text: string, pat: string) returns (count: nat)
    requires NeverOverlaps(pat)
    ensures count == AllOccurrences(text, pat)
  {
    count := 0;
    var offset := 0;
    while true
      invariant 0 <= offset <= |text|
      invariant count == Occurrences(text, pat, offset)
      decreases |text| - offset
    {
      var position := Find(text, pat, offset);
      if position < 0 {
        NothingBetween(text, pat, offset, |text| + 1);
        return;
      }
      NothingBetween(text, pat, offset, position);
      forall j | position + 1 <= j < position + |pat| ensures !At(text, pat, j) { NoOccurrenceInside(text, pat, position, j); }
      NothingBetween(text, pat, position + 1, position + |pat|);
      offset := position + |pat|;
      count := count + 1;
    }
  }

  lemma JumpLosesNothing(text: string, marker: string, offset: nat, position: nat)
    requires NeverOverlaps(marker) && offset <= position && At(text, marker, position)
    requires forall j :: offset <= j < position ==> !At(text, marker, j)
    ensures ExactOccurrences(text, marker, position + |marker|)
         == ExactOccurrences(text, marker, offset) + (if ExactAt(text, marker, position) then 1 else 0)
  {
    assert marker != [];
    hide At, ExactAt, NeverOverlaps, ExactOccurrences;
    NothingExactBetween(text, marker, offset, position);
    OneMoreExact(text, marker, position);
    forall j | position + 1 <= j < position + |marker| ensures !At(text, marker, j) { NoOccurrenceInside(text, marker, position, j); }
    NothingExactBetween(text, marker, position + 1, position + |marker|);
  }

  lemma OneMoreExact(text: string, marker: string, n: nat)
    ensures ExactOccurrences(text, marker, n + 1) == ExactOccurrences(text, marker, n) + (if ExactAt(text, marker, n) then 1 else 0)
  {
    hide ExactAt;
  }

  /** Counts marker prefixes and exact markers; the jumps lose nothing. */
  method TextMarkerCounts(text: string, marker: string) returns (prefixes: nat, exact: nat)
    requires IsMarker(marker)
    ensures prefixes == AllOccurrences(text, Prefix)
    ensures exact == AllExact(text, marker)
  {
    MarkerNeverOverlaps(marker);
    hide IsMarker, NeverOverlaps;
    exact := 0;
    var offset := 0;
    while true
      invariant 0 <= offset <= |text|
      invariant exact == ExactOccurrences(text, marker, offset)
      decreases |text| - offset
    {
      var position := Find(text, marker, offset);
      if position < 0 {
        NothingExactBetween(text, marker, offset, |text| + 1);
        PrefixNeverOverlaps();
        prefixes := CountNonOverlapping(text, Prefix);
        return;
      }
      var end := position + |marker|;
      var leftOk := position == 0 || !IsBoundaryCharacter(text[position - 1]);
      var rightOk := end == |text| || !IsBoundaryCharacter(text[end]);
      JumpLosesNothing(text, marker, offset, position);
      if leftOk && rightOk { exact := exact + 1; }
      offset := end;
    }
  }

  // ---------- messages ----------

  datatype Part = TextPart(text: string) | OtherPart

  datatype Content = Text(text: string) | Parts(parts: seq<Part>) | OtherContent

  datatype Message = Message(fromUser: bool, content: Content)

  /** The text parts of a message that may be scanned at all. */
  function Texts(c: Content): Option<seq<string>> {
    match c
    case Text(t) => Some([t])
    case Parts(parts) =>
      if parts == [] || exists i :: 0 <= i < |parts| && parts[i].OtherPart? then None
      else Some(seq(|parts|, i requires 0 <= i < |parts| => parts[i].text))
    case OtherContent => None
  }

  function PrefixTotal(texts: seq<string>): nat {
    if texts == [] then 0 else PrefixTotal(texts[..|texts| - 1]) + AllOccurrences(texts[|texts| - 1], Prefix)
  }

  function ExactTotal(texts: seq<string>, marker: string): nat {
    if texts == [] then 0 else ExactTotal(texts[..|texts| - 1], marker) + AllExact(texts[|texts| - 1], marker)
  }

  predicate Somewhere(texts: seq<string>, pat: string, k: int, i: int) {
    0 <= k < |texts| && At(texts[k], pat, i)
  }

  /** The meaning of acceptance: there is one single "m4-call:" in all the text, and it begins a whole
      marker with a boundary on either side. */
  ghost predicate Carries(texts: seq<string>, marker: string) {
    exists k, i ::
      && Somewhere(texts, marker, k, i) && ExactAt(texts[k], marker, i)
      && forall l, j :: Somewhere(texts, Prefix, l, j) ==> l == k && j == i
  }

  method ScanParts(parts: seq<Part>, marker: string) returns (accepted: bool)
    requires IsMarker(marker)
    ensures accepted <==> Texts(Parts(parts)).Some? && PrefixTotal(Texts(Parts(parts)).value) == 1
                          && ExactTotal(Texts(Parts(parts)).value, marker) == 1
  {
    if parts == [] { return false; }
    var prefixCount, exactCount := 0, 0;
    ghost var texts: seq<string> := [];
    for n := 0 to |parts|
      invariant |texts| == n && forall i :: 0 <= i < n ==> parts[i] == TextPart(texts[i])
      invariant prefixCount == PrefixTotal(texts) && exactCount == ExactTotal(texts, marker)
    {
      if parts[n].OtherPart? { return false; }
      var partPrefixes, partExact := TextMarkerCounts(parts[n].text, marker);
      assert (texts + [parts[n].text])[..n] == texts;
      texts := texts + [parts[n].text];
      prefixCount := prefixCount + partPrefixes;
      exactCount := exactCount + partExact;
    }
    assert texts == Texts(Parts(parts)).value;
    return prefixCount == 1 && exactCount == 1;
  }

  /** The content of the last user message, if any. */
  function LastUserContent(messages: seq<Message>): Content {
    if messages == [] then OtherContent
    else if messages[|messages| - 1].fromUser then messages[|messages| - 1].content
    else LastUserContent(messages[..|messages| - 1])
  }

  method LastUserContentContainsMarker(messages: seq<Message>, marker: string) returns (accepted: bool)
    requires IsMarker(marker)
    ensures
      var texts := Texts(LastUserContent(messages));
      accepted <==> texts.Some? && Carries(texts.value, marker)
  {
    var content := OtherContent;
    var n := |messages|;
    assert messages[..n] == messages;
    while n > 0
      invariant 0 <= n <= |messages| && content == OtherContent
      invariant LastUserContent(messages) == LastUserContent(messages[..n])
    {
      n := n - 1;
      assert messages[..n + 1][..n] == messages[..n];
      if messages[n].fromUser {
        content := messages[n].content;
        break;
      }
    }
    assert content == LastUserContent(messages);
    if content.Text? {
      var prefixes, exact := TextMarkerCounts(content.text, marker);
      assert PrefixTotal([content.text]) == prefixes by { assert [content.text][..0] == []; }
      assert ExactTotal([content.text], marker) == exact by { assert [content.text][..0] == []; }
      CountsDecide([content.text], marker);
      return prefixes == 1 && exact == 1;
    }
    if content.OtherContent? { return false; }
    accepted := ScanParts(content.parts, marker);
    if Texts(content).Some? { CountsDecide(Texts(content).value, marker); }
  }

  /** A text that is just the marker carries it. */
  lemma MarkerCarriesItself(marker: string)
    requires IsMarker(marker)
    ensures Carries([marker], marker)
  {
    OnlyOneM(marker);
    assert Somewhere([marker], marker, 0, 0) && ExactAt(marker, marker, 0);
    forall l, j | Somewhere([marker], Prefix, l, j) ensures l == 0 && j == 0 {
      assert marker[j] == marker[j..j + 8][0] == 'm';
    }
  }

  // ---------- what the two counts decide ----------

  lemma MarkerBeginsWithPrefix(text: string, marker: string, i: int)
    requires IsMarker(marker) && At(text, marker, i)
    ensures At(text, Prefix, i)
  {
    assert text[i..i + 8] == text[i..i + |marker|][..8];
  }

  lemma {:induction false} NoneMeansZero(text: string, pat: string, n: nat)
    ensures Occurrences(text, pat, n) == 0 <==> forall i :: 0 <= i < n ==> !At(text, pat, i)
  {
    if n > 0 { NoneMeansZero(text, pat, n - 1); }
  }

  predicate UniqueAt(text: string, pat: string, n: nat, i: int) {
    0 <= i < n && At(text, pat, i) && forall j :: 0 <= j < n && At(text, pat, j) ==> j == i
  }

  lemma {:induction false} OneMeansUnique(text: string, pat: string, n: nat)
    ensures Occurrences(text, pat, n) == 1 <==> exists i :: UniqueAt(text, pat, n, i)
  {
    if n > 0 {
      OneMeansUnique(text, pat, n - 1);
      NoneMeansZero(text, pat, n - 1);
      if Occurrences(text, pat, n) == 1 {
        if At(text, pat, n - 1) {
          assert UniqueAt(text, pat, n, n - 1);
        } else {
          var i :| UniqueAt(text, pat, n - 1, i);
          assert UniqueAt(text, pat, n, i);
        }
      }
      if i :| UniqueAt(text, pat, n, i) {
        if i < n - 1 { assert UniqueAt(text, pat, n - 1, i) && !At(text, pat, n - 1); }
      }
    }
  }

  lemma {:induction false} ExactIsPrefix(text: string, marker: string, n: nat)
    requires IsMarker(marker)
    ensures ExactOccurrences(text, marker, n) <= Occurrences(text, Prefix, n)
    ensures ExactOccurrences(text, marker, n) == 0 <==> forall i :: 0 <= i < n ==> !ExactAt(text, marker, i)
  {
    if n > 0 {
      ExactIsPrefix(text, marker, n - 1);
      if ExactAt(text, marker, n - 1) { MarkerBeginsWithPrefix(text, marker, n - 1); }
    }
  }

  /** Where the pattern stands, over several texts. */
  ghost predicate UniqueSomewhere(texts: seq<string>, pat: string, k: int, i: int) {
    Somewhere(texts, pat, k, i) && forall l, j :: Somewhere(texts, pat, l, j) ==> l == k && j == i
  }

  lemma {:induction false} NoneAnywhere(texts: seq<string>)
    ensures PrefixTotal(texts) == 0 <==> forall k, i :: !Somewhere(texts, Prefix, k, i)
  {
    if texts != [] {
      var front, last := texts[..|texts| - 1], texts[|texts| - 1];
      NoneAnywhere(front);
      NoneMeansZero(last, Prefix, |last| + 1);
      assert forall k, i :: Somewhere(front, Prefix, k, i) ==> Somewhere(texts, Prefix, k, i);
      assert forall i :: At(last, Prefix, i) ==> Somewhere(texts, Prefix, |texts| - 1, i);
      assert forall k, i :: Somewhere(texts, Prefix, k, i) ==> Somewhere(front, Prefix, k, i) || (k == |texts| - 1 && At(last, Prefix, i));
    }
  }

  lemma {:induction false} OneSomewhere(texts: seq<string>)
    ensures PrefixTotal(texts) == 1 <==> exists k, i :: UniqueSomewhere(texts, Prefix, k, i)
  {
    if texts != [] {
      var front, last, n := texts[..|texts| - 1], texts[|texts| - 1], |texts| - 1;
      OneSomewhere(front);
      NoneAnywhere(front);
      NoneMeansZero(last, Prefix, |last| + 1);
      OneMeansUnique(last, Prefix, |last| + 1);
      Spread(texts);
      if PrefixTotal(texts) == 1 {
        if PrefixTotal(front) == 1 {
          var k, i :| UniqueSomewhere(front, Prefix, k, i);
          assert UniqueSomewhere(texts, Prefix, k, i);
        } else {
          var i :| UniqueAt(last, Prefix, |last| + 1, i);
          assert UniqueSomewhere(texts, Prefix, n, i);
        }
      }
      if k, i :| UniqueSomewhere(texts, Prefix, k, i) {
        forall j | At(last, Prefix, j) ensures k == n && j == i { assert Somewhere(texts, Prefix, n, j); }
        if k == n {
          forall l, j ensures !Somewhere(front, Prefix, l, j) { assert Somewhere(front, Prefix, l, j) ==> Somewhere(texts, Prefix, l, j); }
          assert At(last, Prefix, i);
          assert UniqueAt(last, Prefix, |last| + 1, i);
        } else {
          assert UniqueSomewhere(front, Prefix, k, i);
        }
      }
    }
  }

  lemma Spread(texts: seq<string>)
    requires texts != []
    ensures
      var front, last, n := texts[..|texts| - 1], texts[|texts| - 1], |texts| - 1;
      forall k, i :: Somewhere(texts, Prefix, k, i) <==> Somewhere(front, Prefix, k, i) || (k == n && At(last, Prefix, i))
  {
  }

  lemma {:induction false} ExactSomewhere(texts: seq<string>, marker: string)
    requires IsMarker(marker)
    ensures ExactTotal(texts, marker) <= PrefixTotal(texts)
    ensures ExactTotal(texts, marker) == 0 <==> forall k, i :: 0 <= k < |texts| ==> !ExactAt(texts[k], marker, i)
  {
    if texts != [] {
      var front, last := texts[..|texts| - 1], texts[|texts| - 1];
      ExactSomewhere(front, marker);
      ExactIsPrefix(last, marker, |last| + 1);
      if forall k, i :: 0 <= k < |texts| ==> !ExactAt(texts[k], marker, i) {
        forall k, i | 0 <= k < |front| ensures !ExactAt(front[k], marker, i) { assert front[k] == texts[k]; }
        assert texts[|texts| - 1] == last;
      }
      if ExactTotal(texts, marker) == 0 {
        forall k, i | 0 <= k < |texts| ensures !ExactAt(texts[k], marker, i) {
          if k < |front| { assert front[k] == texts[k]; }
        }
      }
    }
  }

  /** Both counts are one exactly when the text carries the marker. */
  lemma CountsDecide(texts: seq<string>, marker: string)
    requires IsMarker(marker)
    ensures PrefixTotal(texts) == 1 && ExactTotal(texts, marker) == 1 <==> Carries(texts, marker)
  {
    hide IsMarker;
    OneSomewhere(texts);
    ExactSomewhere(texts, marker);
    if PrefixTotal(texts) == 1 && ExactTotal(texts, marker) == 1 {
      var k, i :| 0 <= k < |texts| && ExactAt(texts[k], marker, i);
      MarkerBeginsWithPrefix(texts[k], marker, i);
      assert Somewhere(texts, Prefix, k, i) && Somewhere(texts, marker, k, i);
    }
    if Carries(texts, marker) {
      var k, i :| Somewhere(texts, marker, k, i) && ExactAt(texts[k], marker, i)
        && forall l, j :: Somewhere(texts, Prefix, l, j) ==> l == k && j == i;
      MarkerBeginsWithPrefix(texts[k], marker, i);
      assert UniqueSomewhere(texts, Prefix, k, i);
    }
  }

  /** One message never satisfies two different markers. */
  lemma NoTwoMarkers(texts: seq<string>, m: string, other: string)
    requires IsMarker(m) && IsMarker(other) && Carries(texts, m) && Carries(texts, other)
    ensures m == other
  {
    var k, i :| Somewhere(texts, m, k, i) && ExactAt(texts[k], m, i)
      && forall l, j :: Somewhere(texts, Prefix, l, j) ==> l == k && j == i;
    var l, j :| Somewhere(texts, other, l, j) && ExactAt(texts[l], other, j);
    MarkerBeginsWithPrefix(texts[l], other, j);
    assert Somewhere(texts, Prefix, l, j);
  }
}
