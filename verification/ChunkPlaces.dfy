// Where chunks are cut and which headings they stand under.

module ChunkPlaces {
  import opened Outcomes
  import opened TextPieces
  import opened Chunker

  // ---- the end of a part ----

  // The place lies in the second half of the window.
  predicate BreaksAt(s: string, sub: string, maximum: nat, i: nat) {
    maximum / 2 <= i && i + |sub| <= maximum && OccursAt(s, sub, i)
  }

  ghost predicate LastBreak(s: string, sub: string, maximum: nat, i: nat) {
    BreaksAt(s, sub, maximum, i) && forall j: nat :: i < j ==> !BreaksAt(s, sub, maximum, j)
  }

  ghost predicate NoBreak(s: string, sub: string, maximum: nat) {
    forall j: nat :: !BreaksAt(s, sub, maximum, j)
  }

  // A part ends at the last paragraph break of the second half, or without one at
  // the last blank there, or else at the maximum.
  ghost predicate EndsAt(s: string, maximum: nat, b: nat) {
    || LastBreak(s, "\n\n", maximum, b)
    || (NoBreak(s, "\n\n", maximum) && LastBreak(s, " ", maximum, b))
    || (NoBreak(s, "\n\n", maximum) && NoBreak(s, " ", maximum) && b == maximum)
  }

  lemma BreakEndsPart(s: string, maximum: nat)
    requires 1 <= maximum < |s|
    ensures EndsAt(s, maximum, BreakAt(s, maximum))
  {
    FoundIsLast(s, "\n\n", maximum);
    FoundIsLast(s, " ", maximum);
  }

  lemma FoundIsLast(s: string, sub: string, maximum: nat)
    requires maximum <= |s|
    ensures var i := RFind(s, sub, maximum);
            if i >= maximum / 2 then LastBreak(s, sub, maximum, i) else NoBreak(s, sub, maximum)
  {
  }

  // A text longer than the maximum is cut there: the part is trimmed, and the rest,
  // without the white space it begins with, is cut in the same way.
  lemma PartsEndAtBreaks(value: string, maximum: nat)
    requires 1 <= maximum < |value|
    ensures exists b :: maximum / 2 <= b <= maximum && EndsAt(value, maximum, b)
                        && Pieces(value, maximum) == [Strip(value[..b])] + Pieces(LStrip(value[b..]), maximum)
  {
    BreakEndsPart(value, maximum);
    var b := BreakAt(value, maximum);
    assert Pieces(value, maximum) == [Strip(value[..b])] + Pieces(LStrip(value[b..]), maximum);
  }

  // ---- headings ----

  // A heading begins with one or more number signs, as many as its level, and a blank.
  lemma {:induction false} HashesCount(line: string, n: nat)
    requires n <= |line| && (forall i :: 0 <= i < n ==> line[i] == '#') && (n < |line| ==> line[n] != '#')
    ensures Hashes(line) == n
  {
    if n > 0 {
      HashesCount(line[1..], n - 1);
    }
  }

  lemma {:induction false} HashesAreHashes(line: string)
    ensures forall i :: 0 <= i < Hashes(line) ==> line[i] == '#'
    ensures Hashes(line) < |line| ==> line[Hashes(line)] != '#'
  {
    if line != "" && line[0] == '#' {
      HashesAreHashes(line[1..]);
      forall i | 0 <= i < Hashes(line)
        ensures line[i] == '#'
      {
        if i > 0 {
          assert line[i] == line[1..][i - 1];
        }
      }
    }
  }

  predicate LevelOf(line: string, level: nat) {
    0 < level < |line| && (forall i :: 0 <= i < level ==> line[i] == '#') && line[level] == ' '
  }

  lemma HeadingMeans(line: string)
    ensures IsHeading(line) <==> exists level :: LevelOf(line, level)
    ensures forall level :: LevelOf(line, level) ==> Hashes(line) == level
  {
    HashesAreHashes(line);
    forall level | LevelOf(line, level)
      ensures Hashes(line) == level
    {
      HashesCount(line, level);
    }
    assert IsHeading(line) ==> LevelOf(line, Hashes(line));
  }

  // ---- the heading path ----

  function Title(line: string): string {
    Strip(line[Hashes(line)..])
  }

  predicate Titled(line: string) {
    IsHeading(line) && Title(line) != ""
  }

  // The place in the path that a heading takes: that of its level, or the next free
  // one if a level is skipped.
  function Depth(lines: seq<string>, i: nat): nat
    requires i < |lines|
  {
    var before := |PathAfter(lines[..i])|;
    if Hashes(lines[i]) <= before then Max(0, Hashes(lines[i]) - 1) else before
  }

  // Heading i stands in place k, and no later heading took that place or one above.
  ghost predicate Stands(lines: seq<string>, i: nat, k: nat) {
    && i < |lines| && Titled(lines[i]) && Depth(lines, i) == k
    && forall j :: i < j < |lines| && Titled(lines[j]) ==> Hashes(lines[j]) > k + 1
  }

  lemma PrefixDepth(lines: seq<string>, i: nat)
    requires i + 1 < |lines|
    ensures Depth(lines, i) == Depth(lines[..|lines| - 1], i)
  {
    assert lines[..i] == lines[..|lines| - 1][..i];
  }

  lemma PrefixStands(lines: seq<string>, i: nat, k: nat)
    requires lines != [] && i + 1 < |lines|
    ensures Stands(lines, i, k) <==>
            Stands(lines[..|lines| - 1], i, k) && (Titled(lines[|lines| - 1]) ==> Hashes(lines[|lines| - 1]) > k + 1)
  {
    PrefixDepth(lines, i);
    var before := lines[..|lines| - 1];
    assert forall j :: 0 <= j < |before| ==> before[j] == lines[j];
  }

  lemma PathStep(lines: seq<string>)
    requires lines != []
    ensures var before, line := PathAfter(lines[..|lines| - 1]), lines[|lines| - 1];
            PathAfter(lines) == if Titled(line) then before[..Least(Depth(lines, |lines| - 1), |before|)] + [Title(line)] else before
  {
  }

  function Least(a: nat, b: nat): nat {
    if a <= b then a else b
  }

  ghost predicate PathSays(lines: seq<string>, path: seq<string>, i: nat, k: nat) {
    Stands(lines, i, k) ==> k < |path| && path[k] == Title(lines[i])
  }

  lemma {:induction false} StandingIsInPath(lines: seq<string>, i: nat, k: nat)
    ensures PathSays(lines, PathAfter(lines), i, k)
  {
    if lines != [] && i < |lines| {
      PathStep(lines);
      if i + 1 < |lines| {
        PrefixStands(lines, i, k);
        StandingIsInPath(lines[..|lines| - 1], i, k);
      }
    }
  }

  lemma {:induction false} PathEntryStands(lines: seq<string>, k: nat) returns (i: nat)
    requires k < |PathAfter(lines)|
    ensures Stands(lines, i, k)
  {
    PathStep(lines);
    var n := |lines| - 1;
    if Titled(lines[n]) && k == Depth(lines, n) {
      i := n;
    } else {
      i := PathEntryStands(lines[..n], k);
      PrefixStands(lines, i, k);
    }
  }

  // The path holds exactly the headings that stand: entry k is the title of the one
  // that took place k and that no later heading displaced.
  lemma PathIsStandingHeadings(lines: seq<string>, k: nat)
    ensures k < |PathAfter(lines)| <==> exists i: nat :: Stands(lines, i, k)
    ensures forall i: nat :: Stands(lines, i, k) ==> k < |PathAfter(lines)| && PathAfter(lines)[k] == Title(lines[i])
  {
    if k < |PathAfter(lines)| {
      var i := PathEntryStands(lines, k);
    }
    forall i: nat | Stands(lines, i, k)
      ensures k < |PathAfter(lines)| && PathAfter(lines)[k] == Title(lines[i])
    {
      StandingIsInPath(lines, i, k);
    }
  }

  // No heading skips a level.
  ghost predicate Nested(lines: seq<string>) {
    forall i :: 0 <= i < |lines| && Titled(lines[i]) ==> Hashes(lines[i]) <= |PathAfter(lines[..i])| + 1
  }

  // Then a heading stands exactly when no later one is of its level or above.
  lemma NestedStandsIff(lines: seq<string>, i: nat)
    requires Nested(lines) && i < |lines| && Titled(lines[i])
    ensures Stands(lines, i, Hashes(lines[i]) - 1) <==>
            forall j :: i < j < |lines| && Titled(lines[j]) ==> Hashes(lines[j]) > Hashes(lines[i])
  {
    assert Hashes(lines[i]) > 0;
  }

  // A heading of the third level at the top is not displaced by one of the second.
  lemma SkippedLevelStays()
    ensures PathAfter(["### a", "## b"]) == ["a", "b"]
  {
    HashesCount("### a", 3);
    HashesCount("## b", 2);
    TitleIs("### a", 3, "a");
    TitleIs("## b", 2, "b");
    assert ["### a", "## b"][..1] == ["### a"] && ["### a"][..0] == [];
    assert PathAfter(["### a"]) == OnHeading([], "### a");
  }

  lemma TitleIs(line: string, level: nat, title: string)
    requires |title| == 1 && !IsSpace(title[0]) && level <= |line| && line[level..] == " " + title && Hashes(line) == level
    ensures Title(line) == title
  {
    assert (" " + title)[1..] == title;
    assert LStrip(" " + title) == LStrip(title) == title;
    assert RStrip(title) == title;
  }

  // ---- the headings of a chunk ----

  // The lines from j on are the section that ends at m.
  ghost predicate SectionFrom(lines: seq<string>, j: nat, m: nat) {
    && j <= m <= |lines| && (j > 0 ==> IsHeading(lines[j - 1]))
    && forall i :: j <= i < m ==> !IsHeading(lines[i])
  }

  lemma {:induction false} SectionIsLines(lines: seq<string>) returns (j: nat)
    ensures SectionFrom(lines, j, |lines|) && Section(lines) == lines[j..]
  {
    var n := |lines| - 1;
    if lines == [] || IsHeading(lines[n]) {
      j := |lines|;
    } else {
      j := SectionIsLines(lines[..n]);
      assert lines[j..] == lines[..n][j..] + [lines[n]];
      assert forall i :: j <= i < n ==> lines[..n][i] == lines[i];
    }
  }

  // The chunk is a part of a whole section, under the headings before its end.
  ghost predicate InSection(lines: seq<string>, maximum: nat, p: Placed, j: nat, m: nat)
    requires maximum >= 1
  {
    && SectionFrom(lines, j, m) && (m < |lines| ==> IsHeading(lines[m]))
    && p.content in Split(Strip(Join(lines[j..m])), maximum) && p.path == PathAfter(lines[..m])
  }

  lemma PlacedInSection(lines: seq<string>, maximum: nat, m: nat, p: Placed) returns (j: nat)
    requires maximum >= 1 && m <= |lines| && (m < |lines| ==> IsHeading(lines[m])) && p in LastSection(lines[..m], maximum)
    ensures InSection(lines, maximum, p, j, m)
  {
    j := SectionIsLines(lines[..m]);
    assert lines[..m][j..] == lines[j..m];
    assert forall i :: 0 <= i < m ==> lines[..m][i] == lines[i];
  }

  lemma {:induction false} ClosedInSection(lines: seq<string>, maximum: nat, m: nat, p: Placed) returns (j: nat, e: nat)
    requires maximum >= 1 && m <= |lines| && p in Closed(lines[..m], maximum)
    ensures InSection(lines, maximum, p, j, e)
    decreases m
  {
    var before := lines[..m][..m - 1];
    assert before == lines[..m - 1] && lines[..m][m - 1] == lines[m - 1];
    if p in Closed(before, maximum) {
      j, e := ClosedInSection(lines, maximum, m - 1, p);
    } else {
      e := m - 1;
      j := PlacedInSection(lines, maximum, e, p);
    }
  }

  // Every chunk of a text is a part of the lines between one heading and the next,
  // under the path of the headings up to there.
  lemma ChunksStandUnderTheirHeadings(text: string, maximum: nat, chunks: seq<Chunk>, i: nat)
    requires maximum >= 1 && i < |chunks|
    requires Numbers(chunks, Closed(SplitLines(text), maximum) + LastSection(SplitLines(text), maximum))
    ensures exists j, m :: InSection(SplitLines(text), maximum, Placed(chunks[i].headingPath, chunks[i].content), j, m)
  {
    var lines, p := SplitLines(text), Placed(chunks[i].headingPath, chunks[i].content);
    assert lines[..|lines|] == lines;
    assert p == (Closed(lines, maximum) + LastSection(lines, maximum))[i];
    if p in Closed(lines, maximum) {
      var j, m := ClosedInSection(lines, maximum, |lines|, p);
    } else {
      var j := PlacedInSection(lines, maximum, |lines|, p);
    }
  }
}
