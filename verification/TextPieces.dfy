// The string operations the chunker is built from, and what each keeps of the
// characters that are not white space.

module TextPieces {

  // str.isspace
  predicate IsSpace(c: char) {
    || '\t' <= c <= '\r' || '\U{1C}' <= c <= ' ' || c == '\U{85}' || c == '\U{A0}' || c == '\U{1680}'
    || '\U{2000}' <= c <= '\U{200A}' || c == '\U{2028}' || c == '\U{2029}' || c == '\U{202F}'
    || c == '\U{205F}' || c == '\U{3000}'
  }

  // The line boundaries of str.splitlines.
  predicate IsBreak(c: char) {
    || '\n' <= c <= '\r' || '\U{1C}' <= c <= '\U{1E}' || c == '\U{85}' || c == '\U{2028}' || c == '\U{2029}'
  }

  // A text with its white space removed.
  function Ink(s: string): string {
    if s == "" then "" else (if IsSpace(s[0]) then "" else [s[0]]) + Ink(s[1..])
  }

  lemma {:induction false} InkOfConcat(a: string, b: string)
    ensures Ink(a + b) == Ink(a) + Ink(b)
  {
    if a == "" {
      assert a + b == b;
    } else {
      assert (a + b)[0] == a[0] && (a + b)[1..] == a[1..] + b;
      InkOfConcat(a[1..], b);
    }
  }

  function LStrip(s: string): string {
    if s != "" && IsSpace(s[0]) then LStrip(s[1..]) else s
  }

  function RStrip(s: string): string {
    if s != "" && IsSpace(s[|s| - 1]) then RStrip(s[..|s| - 1]) else s
  }

  function Strip(s: string): string {
    RStrip(LStrip(s))
  }

  predicate Trimmed(s: string) {
    s == "" || (!IsSpace(s[0]) && !IsSpace(s[|s| - 1]))
  }

  lemma {:induction false} LStripKeeps(s: string)
    ensures Ink(LStrip(s)) == Ink(s) && |LStrip(s)| <= |s|
    ensures LStrip(s) == "" || !IsSpace(LStrip(s)[0])
    ensures LStrip(s) != "" ==> s != "" && LStrip(s)[|LStrip(s)| - 1] == s[|s| - 1]
  {
    if s != "" && IsSpace(s[0]) {
      LStripKeeps(s[1..]);
    }
  }

  lemma {:induction false} RStripKeeps(s: string)
    ensures Ink(RStrip(s)) == Ink(s) && |RStrip(s)| <= |s|
    ensures RStrip(s) == "" || !IsSpace(RStrip(s)[|RStrip(s)| - 1])
    ensures RStrip(s) != "" ==> s != "" && RStrip(s)[0] == s[0]
  {
    if s != "" && IsSpace(s[|s| - 1]) {
      var front, last := s[..|s| - 1], s[|s| - 1..];
      RStripKeeps(front);
      InkOfConcat(front, last);
      assert s == front + last;
      assert Ink(last) == "";
    }
  }

  lemma StripKeeps(s: string)
    ensures Ink(Strip(s)) == Ink(s) && |Strip(s)| <= |s| && Trimmed(Strip(s))
    ensures Strip(s) == "" <==> Ink(s) == ""
  {
    LStripKeeps(s);
    RStripKeeps(LStrip(s));
    if Strip(s) != "" {
      assert Ink(Strip(s))[0] == Strip(s)[0];
    }
  }

  // The white-space-free text of several pieces in a row.
  function InkOfAll(pieces: seq<string>): string {
    if pieces == [] then "" else Ink(pieces[0]) + InkOfAll(pieces[1..])
  }

  lemma {:induction false} InkOfTwo(a: seq<string>, b: seq<string>)
    ensures InkOfAll(a + b) == InkOfAll(a) + InkOfAll(b)
  {
    if a == [] {
      assert a + b == b;
    } else {
      assert (a + b)[0] == a[0] && (a + b)[1..] == a[1..] + b;
      InkOfTwo(a[1..], b);
    }
  }

  // "\n".join
  function Join(lines: seq<string>): string {
    if lines == [] then "" else if |lines| == 1 then lines[0] else lines[0] + "\n" + Join(lines[1..])
  }

  lemma {:induction false} InkOfJoin(lines: seq<string>)
    ensures Ink(Join(lines)) == InkOfAll(lines)
  {
    if |lines| == 1 {
      assert InkOfAll(lines[1..]) == "";
    } else if |lines| > 1 {
      InkOfJoin(lines[1..]);
      InkOfConcat(lines[0], "\n" + Join(lines[1..]));
      InkOfConcat("\n", Join(lines[1..]));
      assert lines[0] + "\n" + Join(lines[1..]) == lines[0] + ("\n" + Join(lines[1..]));
      assert Ink("\n") == "";
    }
  }

  // ---- str.splitlines ----

  function LineEnd(text: string): (n: nat)
    ensures n <= |text|
    ensures n < |text| ==> IsBreak(text[n]) && IsSpace(text[n])
    ensures forall i :: 0 <= i < n ==> !IsBreak(text[i])
  {
    if text == "" || IsBreak(text[0]) then 0 else 1 + LineEnd(text[1..])
  }

  // A carriage return and a line feed together end one line.
  function BreakEnd(text: string, n: nat): (e: nat)
    requires n < |text|
    ensures n < e <= |text|
  {
    if text[n] == '\r' && n + 1 < |text| && text[n + 1] == '\n' then n + 2 else n + 1
  }

  function SplitLines(text: string): seq<string> {
    if text == "" then
      []
    else
      var n := LineEnd(text);
      if n == |text| then [text] else [text[..n]] + SplitLines(text[BreakEnd(text, n)..])
  }

  lemma {:induction false} AllSpace(text: string)
    requires forall i :: 0 <= i < |text| ==> IsSpace(text[i])
    ensures Ink(text) == ""
  {
    if text != "" {
      AllSpace(text[1..]);
    }
  }

  lemma InkAround(left: string, gap: string, right: string)
    requires forall i :: 0 <= i < |gap| ==> IsSpace(gap[i])
    ensures Ink(left + gap + right) == Ink(left) + Ink(right)
  {
    AllSpace(gap);
    InkOfConcat(left, gap);
    InkOfConcat(left + gap, right);
    assert Ink(left) + Ink(gap) == Ink(left);
  }

  lemma BreakIsSpace(text: string, n: nat)
    requires n < |text| && IsSpace(text[n])
    ensures forall i :: 0 <= i < BreakEnd(text, n) - n ==> IsSpace(text[n..BreakEnd(text, n)][i])
  {
    assert IsSpace('\n');
  }

  lemma ThreeSlices(text: string, n: nat, e: nat)
    requires n <= e <= |text|
    ensures text == text[..n] + text[n..e] + text[e..]
  {
  }

  lemma LineAndBreak(text: string, n: nat, e: nat)
    requires n <= e <= |text| && forall i :: 0 <= i < e - n ==> IsSpace(text[n..e][i])
    ensures Ink(text) == Ink(text[..n]) + Ink(text[e..])
  {
    var left, gap, right := text[..n], text[n..e], text[e..];
    InkAround(left, gap, right);
    ThreeSlices(text, n, e);
  }

  // Splitting loses no character that is not white space.
  lemma {:induction false} LinesKeepInk(text: string)
    ensures InkOfAll(SplitLines(text)) == Ink(text)
    decreases |text|
  {
    if text != "" {
      var n := LineEnd(text);
      if n == |text| {
        assert SplitLines(text)[1..] == [];
      } else {
        var e := BreakEnd(text, n);
        BreakIsSpace(text, n);
        LineAndBreak(text, n, e);
        LinesKeepInk(text[e..]);
        assert SplitLines(text)[1..] == SplitLines(text[e..]);
      }
    }
  }

  // No line holds a line break.
  lemma {:induction false} LinesHoldNoBreak(text: string)
    ensures forall line, i :: line in SplitLines(text) && 0 <= i < |line| ==> !IsBreak(line[i])
    decreases |text|
  {
    if text != "" && LineEnd(text) < |text| {
      LinesHoldNoBreak(text[BreakEnd(text, LineEnd(text))..]);
    }
  }

  // The text is the lines joined, up to a line feed at its end.
  predicate JoinGives(text: string, lines: seq<string>) {
    text == Join(lines) || text == Join(lines) + "\n"
  }

  lemma JoinOneMore(line: string, rest: string, lines: seq<string>)
    requires lines != [] && JoinGives(rest, lines)
    ensures JoinGives(line + "\n" + rest, [line] + lines)
  {
    assert ([line] + lines)[1..] == lines;
    assert Join([line] + lines) == line + "\n" + Join(lines);
    if rest == Join(lines) + "\n" {
      assert line + "\n" + (Join(lines) + "\n") == (line + "\n" + Join(lines)) + "\n";
    }
  }

  // Where all breaks are line feeds, joining the lines gives the text back.
  lemma {:induction false} JoinUndoesSplitting(text: string)
    requires forall i :: 0 <= i < |text| && IsBreak(text[i]) ==> text[i] == '\n'
    ensures JoinGives(text, SplitLines(text)) && (text != "" ==> SplitLines(text) != [])
    decreases |text|
  {
    if text != "" && LineEnd(text) < |text| {
      var n := LineEnd(text);
      var rest := text[n + 1..];
      assert text[n] == '\n' && text[n..n + 1] == "\n";
      ThreeSlices(text, n, n + 1);
      JoinUndoesSplitting(rest);
      if rest != "" {
        JoinOneMore(text[..n], rest, SplitLines(rest));
      }
    }
  }

  // ---- str.rfind ----

  predicate OccursAt(s: string, sub: string, i: nat) {
    i + |sub| <= |s| && s[i..i + |sub|] == sub
  }

  // The last place before end where sub occurs whole, or -1.
  function RFind(s: string, sub: string, end: nat): (i: int)
    requires end <= |s|
    ensures i >= -1
    ensures i >= 0 ==> i + |sub| <= end && OccursAt(s, sub, i)
    ensures forall j: nat :: i < j && j + |sub| <= end ==> !OccursAt(s, sub, j)
    decreases end
  {
    if end < |sub| then -1
    else if OccursAt(s, sub, end - |sub|) then end - |sub|
    else if end == 0 then -1
    else RFind(s, sub, end - 1)
  }

  // The number of maximal runs of characters that are not white space.
  function Tokens(s: string): nat {
    if s == "" then 0
    else Tokens(s[..|s| - 1]) +
         if !IsSpace(s[|s| - 1]) && (|s| == 1 || IsSpace(s[|s| - 2])) then 1 else 0
  }

  // The places where such a run begins.
  function TokenStarts(s: string): set<nat> {
    set i | 0 <= i < |s| && Starts(s, i)
  }

  predicate Starts(s: string, i: nat)
    requires i < |s|
  {
    !IsSpace(s[i]) && (i == 0 || IsSpace(s[i - 1]))
  }

  lemma StartsOfPrefix(s: string)
    requires s != ""
    ensures TokenStarts(s) == TokenStarts(s[..|s| - 1]) + if Starts(s, |s| - 1) then {|s| - 1} else {}
  {
    forall i | 0 <= i < |s| - 1
      ensures Starts(s, i) <==> Starts(s[..|s| - 1], i)
    {
    }
  }

  lemma {:induction false} TokensAreStarts(s: string)
    ensures Tokens(s) == |TokenStarts(s)|
  {
    if s == "" {
      assert TokenStarts(s) == {};
    } else {
      TokensAreStarts(s[..|s| - 1]);
      StartsOfPrefix(s);
    }
  }

  // Text has a token exactly when it has a character that is not white space.
  lemma {:induction false} TokensNeedInk(s: string)
    ensures Tokens(s) == 0 <==> Ink(s) == ""
  {
    if s != "" {
      var front, last := s[..|s| - 1], s[|s| - 1..];
      TokensNeedInk(front);
      InkOfConcat(front, last);
      assert s == front + last;
      assert last[1..] == "";
      if |s| > 1 && !IsSpace(s[|s| - 2]) {
        var f := front[..|front| - 1];
        InkOfConcat(f, front[|front| - 1..]);
        assert front == f + front[|front| - 1..];
      }
    }
  }
}
