// Document chunking: knowledge/ingestion.py:127-183.

module Chunker {
  import opened Outcomes
  import opened TextPieces

  // ---- _split_bounded ----

  // Where the next part ends: at the last paragraph break or else the last blank
  // in the second half of the window, or at the end of the window.
  function BreakAt(remaining: string, maximum: nat): (b: nat)
    requires 1 <= maximum < |remaining|
    ensures maximum / 2 <= b <= maximum
    ensures b == 0 ==> IsSpace(remaining[0])
  {
    var paragraph := RFind(remaining, "\n\n", maximum);
    var blank := RFind(remaining, " ", maximum);
    assert paragraph == 0 ==> remaining[0..2][0] == '\n';
    assert blank == 0 ==> remaining[0..1][0] == ' ';
    if paragraph >= maximum / 2 then paragraph else if blank >= maximum / 2 then blank else maximum
  }

  function Rest(remaining: string, maximum: nat): (rest: string)
    requires 1 <= maximum < |remaining|
    ensures |rest| < |remaining|
  {
    var b := BreakAt(remaining, maximum);
    LStripKeeps(remaining[b..]);
    LStripKeeps(remaining[1..]);
    assert b == 0 ==> remaining[b..] == remaining;
    LStrip(remaining[b..])
  }

  // All parts, empty ones included.
  function Pieces(value: string, maximum: nat): seq<string>
    requires maximum >= 1
    decreases |value|
  {
    if value == "" then []
    else if |value| <= maximum then [value]
    else [Strip(value[..BreakAt(value, maximum)])] + Pieces(Rest(value, maximum), maximum)
  }

  function NonEmpty(parts: seq<string>): seq<string> {
    if parts == [] then []
    else (if parts[0] != "" then [parts[0]] else []) + NonEmpty(parts[1..])
  }

  function Split(value: string, maximum: nat): seq<string>
    requires maximum >= 1
  {
    NonEmpty(Pieces(value, maximum))
  }

  method SplitBounded(value: string, maximum: nat) returns (parts: seq<string>)
    requires maximum >= 1
    ensures parts == Split(value, maximum)
  {
    parts := [];
    var remaining := value;
    while remaining != ""
      invariant parts + Pieces(remaining, maximum) == Pieces(value, maximum)
      decreases |remaining|
    {
      if |remaining| <= maximum {
        parts := parts + [remaining];
        assert parts == Pieces(value, maximum);
        break;
      }
      var breakpoint := RFind(remaining, "\n\n", maximum);
      if breakpoint < maximum / 2 {
        breakpoint := RFind(remaining, " ", maximum);
      }
      if breakpoint < maximum / 2 {
        breakpoint := maximum;
      }
      PiecesStep(parts, remaining, maximum);
      assert breakpoint == BreakAt(remaining, maximum);
      parts := parts + [Strip(remaining[..breakpoint])];
      remaining := Rest(remaining, maximum);
    }
    assert parts == Pieces(value, maximum);
    parts := NonEmpty(parts);
  }

  lemma PiecesStep(parts: seq<string>, remaining: string, maximum: nat)
    requires 1 <= maximum < |remaining|
    ensures parts + Pieces(remaining, maximum) ==
            parts + [Strip(remaining[..BreakAt(remaining, maximum)])] + Pieces(Rest(remaining, maximum), maximum)
  {
  }

  predicate Fitting(parts: seq<string>, maximum: nat) {
    forall i :: 0 <= i < |parts| ==> 0 < |parts[i]| <= maximum
  }

  predicate AllTrimmed(parts: seq<string>) {
    forall i :: 0 <= i < |parts| ==> Trimmed(parts[i])
  }

  lemma {:induction false} NonEmptyKeeps(parts: seq<string>, maximum: nat)
    requires forall i :: 0 <= i < |parts| ==> |parts[i]| <= maximum
    ensures Fitting(NonEmpty(parts), maximum) && InkOfAll(NonEmpty(parts)) == InkOfAll(parts)
  {
    if parts != [] {
      NonEmptyKeeps(parts[1..], maximum);
      if parts[0] != "" {
        assert NonEmpty(parts)[1..] == NonEmpty(parts[1..]);
      } else {
        assert NonEmpty(parts) == NonEmpty(parts[1..]);
      }
    }
  }

  lemma {:induction false} NonEmptyOfTrimmed(parts: seq<string>)
    requires AllTrimmed(parts)
    ensures AllTrimmed(NonEmpty(parts))
  {
    if parts != [] {
      NonEmptyOfTrimmed(parts[1..]);
    }
  }

  lemma {:induction false} PiecesKeep(value: string, maximum: nat)
    requires maximum >= 1
    ensures InkOfAll(Pieces(value, maximum)) == Ink(value)
    ensures forall i :: 0 <= i < |Pieces(value, maximum)| ==> |Pieces(value, maximum)[i]| <= maximum
    decreases |value|
  {
    if |value| > maximum {
      var b := BreakAt(value, maximum);
      PiecesKeep(Rest(value, maximum), maximum);
      StripKeeps(value[..b]);
      LStripKeeps(value[b..]);
      InkOfConcat(value[..b], value[b..]);
      assert value == value[..b] + value[b..];
      assert Pieces(value, maximum)[1..] == Pieces(Rest(value, maximum), maximum);
    } else if value != "" {
      assert Pieces(value, maximum)[1..] == [];
    }
  }

  lemma RestIsTrimmed(value: string, maximum: nat)
    requires 1 <= maximum < |value| && Trimmed(value)
    ensures Trimmed(Rest(value, maximum))
  {
    var b := BreakAt(value, maximum);
    LStripKeeps(value[b..]);
  }

  lemma {:induction false} PiecesAreTrimmed(value: string, maximum: nat)
    requires maximum >= 1 && Trimmed(value)
    ensures AllTrimmed(Pieces(value, maximum))
    decreases |value|
  {
    if |value| > maximum {
      var rest := Rest(value, maximum);
      StripKeeps(value[..BreakAt(value, maximum)]);
      RestIsTrimmed(value, maximum);
      PiecesAreTrimmed(rest, maximum);
      forall i | 0 <= i < |Pieces(value, maximum)|
        ensures Trimmed(Pieces(value, maximum)[i])
      {
        if i > 0 {
          assert Pieces(value, maximum)[i] == Pieces(rest, maximum)[i - 1];
        }
      }
    }
  }

  // Whatever the text: no part is empty or longer than the maximum, no character
  // but white space is lost, added or moved, and a trimmed text has trimmed parts.
  lemma SplitKeepsText(value: string, maximum: nat)
    requires maximum >= 1
    ensures Fitting(Split(value, maximum), maximum)
    ensures InkOfAll(Split(value, maximum)) == Ink(value)
    ensures Trimmed(value) ==> AllTrimmed(Split(value, maximum))
  {
    PiecesKeep(value, maximum);
    NonEmptyKeeps(Pieces(value, maximum), maximum);
    if Trimmed(value) {
      PiecesAreTrimmed(value, maximum);
      NonEmptyOfTrimmed(Pieces(value, maximum));
    }
  }

  // ---- _chunk_text ----

  datatype Chunk = Chunk(index: nat, headingPath: seq<string>, content: string, tokens: nat)

  function Hashes(line: string): (n: nat)
    ensures n <= |line|
  {
    if line == "" || line[0] != '#' then 0 else 1 + Hashes(line[1..])
  }

  predicate IsHeading(line: string) {
    var n := Hashes(line);
    n > 0 && n < |line| && line[n] == ' '
  }

  // The heading path after some lines: a heading of level n replaces everything
  // from level n on; one without a title changes nothing.
  function PathAfter(lines: seq<string>): seq<string> {
    if lines == [] then
      []
    else
      var before, line := PathAfter(lines[..|lines| - 1]), lines[|lines| - 1];
      if !IsHeading(line) then before else OnHeading(before, line)
  }

  function OnHeading(path: seq<string>, line: string): seq<string> {
    var level := Hashes(line);
    var title := Strip(line[level..]);
    if title == "" then path
    else (if level - 1 < |path| then path[..Max(0, level - 1)] else path) + [title]
  }

  // The lines since the last heading.
  function Section(lines: seq<string>): seq<string> {
    if lines == [] || IsHeading(lines[|lines| - 1]) then []
    else Section(lines[..|lines| - 1]) + [lines[|lines| - 1]]
  }

  // The lines that are no headings.
  function Body(lines: seq<string>): seq<string> {
    if lines == [] then []
    else Body(lines[..|lines| - 1]) + if IsHeading(lines[|lines| - 1]) then [] else [lines[|lines| - 1]]
  }

  datatype Placed = Placed(path: seq<string>, content: string)

  function Place(path: seq<string>, parts: seq<string>): seq<Placed> {
    seq(|parts|, i requires 0 <= i < |parts| => Placed(path, parts[i]))
  }

  // The chunks of the section that the lines end in.
  function LastSection(lines: seq<string>, maximum: nat): seq<Placed>
    requires maximum >= 1
  {
    Place(PathAfter(lines), Split(Strip(Join(Section(lines))), maximum))
  }

  // The chunks of the sections that a heading has closed.
  function Closed(lines: seq<string>, maximum: nat): seq<Placed>
    requires maximum >= 1
  {
    if lines == [] then []
    else
      var before := lines[..|lines| - 1];
      Closed(before, maximum) + if IsHeading(lines[|lines| - 1]) then LastSection(before, maximum) else []
  }

  // The chunks in order, numbered from zero.
  ghost predicate Numbers(chunks: seq<Chunk>, placed: seq<Placed>) {
    && |chunks| == |placed|
    && forall i :: 0 <= i < |chunks| ==>
         chunks[i] == Chunk(i, placed[i].path, placed[i].content, Tokens(placed[i].content))
  }

  // append_buffer
  method AppendBuffer(chunks: seq<Chunk>, ghost placed: seq<Placed>, path: seq<string>, buffer: seq<string>, maximum: nat)
    returns (longer: seq<Chunk>)
    requires maximum >= 1 && Numbers(chunks, placed)
    ensures Numbers(longer, placed + Place(path, Split(Strip(Join(buffer)), maximum)))
  {
    longer := chunks;
    var value := Strip(Join(buffer));
    if value == "" {
      return;
    }
    var parts := SplitBounded(value, maximum);
    for i := 0 to |parts|
      invariant Numbers(longer, placed + Place(path, parts[..i]))
    {
      longer := longer + [Chunk(|longer|, path, parts[i], Tokens(parts[i]))];
      assert Place(path, parts[..i + 1]) == Place(path, parts[..i]) + [Placed(path, parts[i])];
    }
    assert parts[..|parts|] == parts;
  }

  // _chunk_text. A document without any text is refused.
  method ChunkText(text: string, maximum: nat) returns (result: Result<seq<Chunk>>)
    requires maximum >= 1
    ensures var lines := SplitLines(text);
            var placed := Closed(lines, maximum) + LastSection(lines, maximum);
            if placed == [] then result.Raised? else result.Ok? && Numbers(result.value, placed)
  {
    var lines := SplitLines(text);
    var chunks, path, buffer := [], [], [];
    for i := 0 to |lines|
      invariant path == PathAfter(lines[..i]) && buffer == Section(lines[..i])
      invariant Numbers(chunks, Closed(lines[..i], maximum))
    {
      var line := lines[i];
      assert lines[..i + 1][..i] == lines[..i] && lines[..i + 1][i] == line;
      if IsHeading(line) {
        chunks := AppendBuffer(chunks, Closed(lines[..i], maximum), path, buffer, maximum);
        buffer := [];
        path := OnHeading(path, line);
      } else {
        buffer := buffer + [line];
      }
    }
    assert lines[..|lines|] == lines;
    chunks := AppendBuffer(chunks, Closed(lines, maximum), path, buffer, maximum);
    result := if chunks == [] then Raised(422) else Ok(chunks);
  }

  // ---- what the chunks hold ----

  function ContentsOf(placed: seq<Placed>): seq<string> {
    seq(|placed|, i requires 0 <= i < |placed| => placed[i].content)
  }

  lemma ContentsOfTwo(a: seq<Placed>, b: seq<Placed>)
    ensures ContentsOf(a + b) == ContentsOf(a) + ContentsOf(b)
  {
  }

  lemma ContentsOfPlace(path: seq<string>, parts: seq<string>)
    ensures ContentsOf(Place(path, parts)) == parts
  {
  }

  lemma SectionKeepsInk(lines: seq<string>, maximum: nat)
    requires maximum >= 1
    ensures InkOfAll(ContentsOf(LastSection(lines, maximum))) == InkOfAll(Section(lines))
  {
    var value := Join(Section(lines));
    ContentsOfPlace(PathAfter(lines), Split(Strip(value), maximum));
    SplitKeepsText(Strip(value), maximum);
    StripKeeps(value);
    InkOfJoin(Section(lines));
  }

  // The closed sections and the open one together hold the body so far.
  lemma {:induction false} SectionsKeepInk(lines: seq<string>, maximum: nat)
    requires maximum >= 1
    ensures InkOfAll(ContentsOf(Closed(lines, maximum))) + InkOfAll(Section(lines)) == InkOfAll(Body(lines))
  {
    if lines != [] {
      var before, line := lines[..|lines| - 1], lines[|lines| - 1];
      SectionsKeepInk(before, maximum);
      if IsHeading(line) {
        SectionKeepsInk(before, maximum);
        ContentsOfTwo(Closed(before, maximum), LastSection(before, maximum));
        InkOfTwo(ContentsOf(Closed(before, maximum)), ContentsOf(LastSection(before, maximum)));
        assert Body(lines) == Body(before) && Section(lines) == [];
      } else {
        assert Closed(lines, maximum) == Closed(before, maximum);
        InkOfTwo(Section(before), [line]);
        InkOfTwo(Body(before), [line]);
      }
    }
  }

  lemma {:induction false} ClosedAreFitting(lines: seq<string>, maximum: nat)
    requires maximum >= 1
    ensures forall p :: p in Closed(lines, maximum) ==> 0 < |p.content| <= maximum && Trimmed(p.content)
  {
    if lines != [] {
      ClosedAreFitting(lines[..|lines| - 1], maximum);
      SectionIsFitting(lines[..|lines| - 1], maximum);
    }
  }

  lemma SectionIsFitting(lines: seq<string>, maximum: nat)
    requires maximum >= 1
    ensures forall p :: p in LastSection(lines, maximum) ==> 0 < |p.content| <= maximum && Trimmed(p.content)
  {
    var value := Strip(Join(Section(lines)));
    StripKeeps(Join(Section(lines)));
    SplitKeepsText(value, maximum);
  }

  // The chunks of a text, whatever it is: numbered 0 to n-1, none empty or longer
  // than the maximum, none with white space at its ends; and with white space
  // removed, together exactly the lines that are no headings, in order. A text is
  // refused exactly when those lines hold nothing but white space.
  lemma ChunksKeepText(text: string, maximum: nat, chunks: seq<Chunk>)
    requires maximum >= 1
    requires Numbers(chunks, Closed(SplitLines(text), maximum) + LastSection(SplitLines(text), maximum))
    ensures forall i :: 0 <= i < |chunks| ==>
              && chunks[i].index == i && 0 < |chunks[i].content| <= maximum
              && Trimmed(chunks[i].content) && chunks[i].tokens > 0
    ensures InkOfAll(seq(|chunks|, i requires 0 <= i < |chunks| => chunks[i].content)) == InkOfAll(Body(SplitLines(text)))
    ensures chunks == [] <==> InkOfAll(Body(SplitLines(text))) == ""
  {
    var lines := SplitLines(text);
    var placed := Closed(lines, maximum) + LastSection(lines, maximum);
    ClosedAreFitting(lines, maximum);
    SectionIsFitting(lines, maximum);
    forall i | 0 <= i < |chunks|
      ensures chunks[i].index == i && 0 < |chunks[i].content| <= maximum && Trimmed(chunks[i].content) && chunks[i].tokens > 0
    {
      assert placed[i] in placed;
      TokensNeedInk(chunks[i].content);
      assert Ink(chunks[i].content) != "";
    }
    var contents := seq(|chunks|, i requires 0 <= i < |chunks| => chunks[i].content);
    assert contents == ContentsOf(placed);
    ContentsOfTwo(Closed(lines, maximum), LastSection(lines, maximum));
    InkOfTwo(ContentsOf(Closed(lines, maximum)), ContentsOf(LastSection(lines, maximum)));
    SectionsKeepInk(lines, maximum);
    SectionKeepsInk(lines, maximum);
    if chunks != [] {
      assert Ink(contents[0]) != "";
    }
  }

  // No heading path is deeper than the deepest heading seen.
  lemma {:induction false} PathIsShallow(lines: seq<string>, depth: nat)
    requires forall i :: 0 <= i < |lines| && IsHeading(lines[i]) ==> Hashes(lines[i]) <= depth
    ensures |PathAfter(lines)| <= depth
  {
    if lines != [] {
      PathIsShallow(lines[..|lines| - 1], depth);
    }
  }
}
