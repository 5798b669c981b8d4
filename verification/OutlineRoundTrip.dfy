/**
 The outline block of a digest as the offline outline reads it back.

 Printer (web) and parser (ai package) are written apart; the main result,
 RoundTrip, is exactly when reading gives back the printed headings.
 */
module OutlineRoundTrip {
  import opened Options
  import opened Texts
  import opened Arithmetic
  import opened DigestText
  import opened DigestBudget
  import opened Digest

  // ---- Levels ---------------------------------------------------------------

  const MAX_LEVEL := 3

  /** A heading as it was detected: any size or style tier for a level. */
  datatype Found = Found(heading: Heading, tier: int)

  /** How many different tiers stand above this one. */
  function Rank(tiers: set<int>, tier: int): nat {
    |set t | t in tiers && t < tier|
  }

  function Tiers(found: seq<Found>): set<int> {
    set f | f in found :: f.tier
  }

  /** Levels 1 to 3, the first heading at level 1, and never more than one level deeper at a time. */
  predicate StepsDown(hs: seq<Heading>) {
    && (forall i :: 0 <= i < |hs| ==> 1 <= hs[i].level <= MAX_LEVEL)
    && (hs != [] ==> hs[0].level == 1)
    && (forall i :: 0 <= i < |hs| - 1 ==> hs[i + 1].level <= hs[i].level + 1)
  }

  /** No heading repeats the one right before it; `key` compares titles. */
  predicate NoEchoes(hs: seq<Heading>, key: Text -> Text) {
    forall i :: 0 <= i < |hs| - 1 ==> key(hs[i].title) != key(hs[i + 1].title)
  }

  /** Heading `h` is this one, at the level of its tier or higher up. */
  predicate StandsFor(h: Heading, f: Found, tiers: set<int>) {
    h == f.heading.(level := h.level) && h.level <= Rank(tiers, f.tier) + 1
  }

  /** Where each heading kept was found: the order is that of the document. */
  ghost predicate Keeps(from: seq<nat>, out: seq<Heading>, found: seq<Found>) {
    && |from| == |out|
    && (forall k :: 0 <= k < |out| ==> from[k] < |found| && StandsFor(out[k], found[from[k]], Tiers(found)))
    && (forall k, l :: 0 <= k < l < |out| ==> from[k] < from[l])
  }

  /** A heading goes if it repeats the last one kept, or lies too deep below it. */
  predicate Gives(h: Heading, f: Found, tiers: set<int>, key: Text -> Text) {
    key(h.title) == key(f.heading.title) || (h.level == MAX_LEVEL && Rank(tiers, f.tier) >= MAX_LEVEL)
  }

  /** Heading `j` was found between the kept heading `k` and the next, and goes because of `k`. */
  ghost predicate GoesAfter(j: nat, k: nat, from: seq<nat>, out: seq<Heading>, found: seq<Found>, key: Text -> Text)
    requires |from| == |out| && j < |found| && k < |out|
  {
    from[k] < j && (k + 1 < |out| ==> j < from[k + 1]) && Gives(out[k], found[j], Tiers(found), key)
  }

  ghost predicate IsAccountedFor(j: nat, from: seq<nat>, out: seq<Heading>, found: seq<Found>, key: Text -> Text)
    requires |from| == |out| && j < |found|
  {
    j in from || exists k: nat :: k < |out| && GoesAfter(j, k, from, out, found, key)
  }

  /** A subsequence of the headings found, up to level, that leaves out only repeated and too deep ones. */
  ghost predicate IsThinned(out: seq<Heading>, found: seq<Found>, key: Text -> Text) {
    exists from: seq<nat> :: Keeps(from, out, found) && forall j: nat :: j < |found| ==> IsAccountedFor(j, from, out, found, key)
  }

  lemma OneMoreKept(from: seq<nat>, out: seq<Heading>, found: seq<Found>, key: Text -> Text, i: nat, h: Heading)
    requires Keeps(from, out, found) && i < |found| && StandsFor(h, found[i], Tiers(found))
    requires out != [] ==> from[|out| - 1] < i
    requires forall j: nat :: j < i ==> IsAccountedFor(j, from, out, found, key)
    ensures Keeps(from + [i], out + [h], found)
    ensures forall j: nat :: j <= i ==> IsAccountedFor(j, from + [i], out + [h], found, key)
  {
    hide StandsFor, Gives;
    forall j: nat | j <= i ensures IsAccountedFor(j, from + [i], out + [h], found, key) {
      if j == i {
        assert (from + [i])[|from|] == i;
      } else if j in from {
        var k :| 0 <= k < |from| && from[k] == j;
        assert (from + [i])[k] == j;
      } else {
        assert IsAccountedFor(j, from, out, found, key);
        var k: nat :| k < |out| && GoesAfter(j, k, from, out, found, key);
        assert (out + [h])[k] == out[k] && (from + [i])[k] == from[k];
        assert GoesAfter(j, k, from + [i], out + [h], found, key);
      }
    }
  }

  lemma OneMoreGone(from: seq<nat>, out: seq<Heading>, found: seq<Found>, key: Text -> Text, i: nat)
    requires |from| == |out| && i < |found| && out != [] && from[|out| - 1] < i && Gives(out[|out| - 1], found[i], Tiers(found), key)
    ensures IsAccountedFor(i, from, out, found, key)
  {
    assert GoesAfter(i, |out| - 1, from, out, found, key);
  }

  lemma NothingRepeats(key: Text -> Text)
    ensures StepsDown([]) && NoEchoes([], key)
  {
  }

  predicate LevelsWithin(hs: seq<Heading>) {
    forall i :: 0 <= i < |hs| ==> 1 <= hs[i].level <= MAX_LEVEL
  }

  lemma OneMoreHeading(out: seq<Heading>, h: Heading, key: Text -> Text)
    requires StepsDown(out) && NoEchoes(out, key)
    requires 1 <= h.level <= MAX_LEVEL && h.level <= (if out == [] then 0 else out[|out| - 1].level) + 1
    requires out != [] ==> key(out[|out| - 1].title) != key(h.title)
    ensures StepsDown(out + [h]) && NoEchoes(out + [h], key)
  {
    var more := out + [h];
    forall i | 0 <= i < |more| - 1 ensures key(more[i].title) != key(more[i + 1].title) && more[i + 1].level <= more[i].level + 1 {
      if i < |out| - 1 { assert more[i] == out[i] && more[i + 1] == out[i + 1]; }
    }
  }

  method NormalizeLevels(found: seq<Found>, key: Text -> Text) returns (out: seq<Heading>)
    ensures StepsDown(out) && NoEchoes(out, key)
    ensures IsThinned(out, found, key)
    ensures found != [] ==> out != [] && out[0] == found[0].heading.(level := 1)
  {
    hide Rank, Tiers, StepsDown, NoEchoes, IsAccountedFor;
    NothingRepeats(key);
    var tiers := Tiers(found);
    out := [];
    ghost var from: seq<nat> := [];
    for i := 0 to |found|
      invariant StepsDown(out) && NoEchoes(out, key) && LevelsWithin(out)
      invariant Keeps(from, out, found) && (out != [] ==> from[|out| - 1] < i)
      invariant forall j: nat :: j < i ==> IsAccountedFor(j, from, out, found, key)
      invariant i == 0 ==> out == []
      invariant i > 0 ==> out != [] && out[0] == found[0].heading.(level := 1)
    {
      var f := found[i];
      var above := if out == [] then 0 else out[|out| - 1].level;
      var level := Min(Rank(tiers, f.tier) + 1, above + 1);
      if level > MAX_LEVEL {
        OneMoreGone(from, out, found, key, i);
        continue;
      }
      if out != [] && key(out[|out| - 1].title) == key(f.heading.title) {
        OneMoreGone(from, out, found, key, i);
        continue;
      }
      var h := f.heading.(level := level);
      OneMoreHeading(out, h, key);
      OneMoreKept(from, out, found, key, i, h);
      out, from := out + [h], from + [i];
    }
  }

  // ---- Reading --------------------------------------------------------------

  function WithoutReturn(line: Text): Text {
    if line != [] && line[|line| - 1] == RETURN then line[..|line| - 1] else line
  }

  /** Split at every newline, or return and newline; `current` is the line read so far. */
  function SplitLines(current: Text, t: Text): (ls: seq<Text>)
    ensures ls != []
    decreases |t|
  {
    if t == [] then [current]
    else if t[0] == NEWLINE then [WithoutReturn(current)] + SplitLines([], t[1..])
    else SplitLines(current + [t[0]], t[1..])
  }

  function Hashes(t: Text): (n: nat)
    ensures n <= |t|
  {
    if t != [] && t[0] == 0x23 then 1 + Hashes(t[1..]) else 0
  }

  /** Is this a markdown heading: one to six # marks and whitespace? */
  predicate IsMarkdown(t: Text) {
    1 <= Hashes(t) <= 6 && Hashes(t) < |t| && IsSpace(t[Hashes(t)])
  }

  function WithoutMarks(t: Text): Text {
    if IsMarkdown(t) then TrimStart(t[Hashes(t)..]) else t
  }

  datatype OutlineHeading = OutlineHeading(title: Text, level: nat)

  function ReadHeading(line: Text): OutlineHeading {
    OutlineHeading(WithoutMarks(Trim(line)), Leading(line) / 2 + 1)
  }

  predicate EndsOutline(line: Text) {
    Trim(line) == [] || Trim(line) == ExcerptsHeader()
  }

  function ReadHeadings(lines: seq<Text>): seq<OutlineHeading> {
    if lines == [] || EndsOutline(lines[0]) then [] else [ReadHeading(lines[0])] + ReadHeadings(lines[1..])
  }

  predicate StartsOutline(line: Text) {
    Lit("DOCUMENT OUTLINE") <= Trim(line)
  }

  /** The first line that opens an outline block, or the number of lines. */
  function OutlineStart(lines: seq<Text>): (at: nat)
    ensures at <= |lines|
  {
    if lines == [] || StartsOutline(lines[0]) then 0 else 1 + OutlineStart(lines[1..])
  }

  /** The headings of the outline block, when the text has one. */
  function ReadOutline(source: Text): Option<seq<OutlineHeading>> {
    var lines := SplitLines([], source);
    var start := OutlineStart(lines);
    if start == |lines| then None else Some(ReadHeadings(lines[start + 1..]))
  }

  method OutlineHeadings(source: Text) returns (headings: Option<seq<OutlineHeading>>)
    ensures headings == ReadOutline(source)
  {
    hide SplitLines, OutlineStart, EndsOutline, ReadHeading;
    var lines := SplitLines([], source);
    var start := OutlineStart(lines);
    if start == |lines| { return None; }
    var found: seq<OutlineHeading> := [];
    var rest := lines[start + 1..];
    var i := 0;
    while i < |rest|
      invariant 0 <= i <= |rest|
      invariant found + ReadHeadings(rest[i..]) == ReadHeadings(rest)
    {
      assert rest[i..][1..] == rest[i + 1..] && rest[i..][0] == rest[i];
      if EndsOutline(rest[i]) {
        assert ReadHeadings(rest[i..]) == [] && found + [] == found;
        return Some(found);
      }
      assert found + ReadHeadings(rest[i..]) == found + [ReadHeading(rest[i])] + ReadHeadings(rest[i + 1..]);
      found := found + [ReadHeading(rest[i])];
      i := i + 1;
    }
    assert ReadHeadings(rest[i..]) == [] && found + [] == found;
    return Some(found);
  }

  // ---- What can be read back ------------------------------------------------

  /** A title that survives: one trimmed line, no markdown marks, and not the excerpts' header. */
  predicate IsPrintable(title: Text) {
    title != [] && IsTrimmed(title) && NEWLINE !in title && !IsMarkdown(title) && title != ExcerptsHeader()
  }

  function Pairs(hs: seq<Heading>): (ps: seq<OutlineHeading>)
    ensures |ps| == |hs| && forall i :: 0 <= i < |hs| ==> ps[i] == OutlineHeading(hs[i].title, hs[i].level)
  {
    if hs == [] then [] else [OutlineHeading(hs[0].title, hs[0].level)] + Pairs(hs[1..])
  }

  lemma {:induction false} LeadingOfSpaces(n: nat, t: Text)
    ensures Leading(Spaces(n) + t) == n + Leading(t)
    ensures TrimStart(Spaces(n) + t) == TrimStart(t)
  {
    if n == 0 {
      assert Spaces(0) + t == t;
    } else {
      LeadingOfSpaces(n - 1, t);
      var line := Spaces(n) + t;
      assert line[1..] == Spaces(n - 1) + t;
    }
  }

  lemma ReadLine(h: Heading)
    requires h.level >= 1
    ensures Trim(OutlineLine(h)) == Trim(h.title)
    ensures h.title != [] && !IsSpace(h.title[0]) ==> Leading(OutlineLine(h)) == 2 * (h.level - 1)
  {
    hide Spaces, TrimEnd;
    LeadingOfSpaces(2 * (h.level - 1), h.title);
  }

  lemma ReturnIsTrimmed(line: Text)
    ensures Trim(WithoutReturn(line)) == Trim(line)
    ensures Trim(line) != [] ==> Leading(WithoutReturn(line)) == Leading(line)
  {
    if line != [] && line[|line| - 1] == RETURN {
      TrimOfOneMore(line[..|line| - 1], RETURN);
      assert line == line[..|line| - 1] + [RETURN];
    }
  }

  lemma {:induction false} TrimOfOneMore(t: Text, u: CodeUnit)
    requires IsSpace(u)
    ensures Trim(t + [u]) == Trim(t)
    ensures Trim(t) != [] ==> Leading(t + [u]) == Leading(t)
  {
    if t == [] {
      assert [u][1..] == [] && [] + [u] == [u];
    } else if IsSpace(t[0]) {
      TrimOfOneMore(t[1..], u);
      assert (t + [u])[1..] == t[1..] + [u];
    } else {
      assert (t + [u])[..|t + [u]| - 1] == t;
    }
  }

  // ---- Splitting what was joined --------------------------------------------

  lemma {:induction false} SplitAtNewline(current: Text, line: Text, rest: Text)
    requires NEWLINE !in line
    ensures SplitLines(current, line + [NEWLINE] + rest) == [WithoutReturn(current + line)] + SplitLines([], rest)
    decreases |line|
  {
    var t := line + [NEWLINE] + rest;
    if line == [] {
      assert t[1..] == rest && current + line == current;
    } else {
      assert t[0] == line[0] && t[1..] == line[1..] + [NEWLINE] + rest;
      SplitAtNewline(current + [line[0]], line[1..], rest);
      assert current + [line[0]] + line[1..] == current + line;
    }
  }

  lemma {:induction false} SplitLastLine(current: Text, line: Text)
    requires NEWLINE !in line
    ensures SplitLines(current, line) == [current + line]
    decreases |line|
  {
    if line == [] {
      assert current + line == current;
    } else {
      SplitLastLine(current + [line[0]], line[1..]);
      assert current + [line[0]] + line[1..] == current + line;
    }
  }

  lemma {:induction false} JoinFirst(parts: seq<Text>, sep: Text)
    requires |parts| >= 2
    ensures Join(parts, sep) == parts[0] + sep + Join(parts[1..], sep)
  {
    var front := parts[..|parts| - 1];
    if |parts| == 2 {
      assert Join(front, sep) == parts[0] && Join(parts[1..], sep) == parts[1];
    } else {
      JoinFirst(front, sep);
      assert parts[1..][..|parts[1..]| - 1] == front[1..];
      assert Join(parts[1..], sep) == Join(front[1..], sep) + sep + parts[|parts| - 1];
    }
  }

  lemma {:induction false} LinesFirst(hs: seq<Heading>)
    requires hs != []
    ensures Lines(hs)[1..] == Lines(hs[1..])
  {
    assert forall i :: 0 <= i < |hs| - 1 ==> Lines(hs)[1..][i] == OutlineLine(hs[1..][i]);
  }

  lemma OutlineFirst(hs: seq<Heading>)
    requires |hs| >= 2
    ensures OutlineLines(hs) == OutlineLine(hs[0]) + [NEWLINE] + OutlineLines(hs[1..])
  {
    JoinFirst(Lines(hs), [NEWLINE]);
    LinesFirst(hs);
  }

  lemma OutlineOfOne(hs: seq<Heading>)
    requires |hs| == 1
    ensures OutlineLines(hs) == OutlineLine(hs[0])
  {
  }

  /** What follows the outline in a digest: nothing, or a blank line and the excerpts. */
  ghost predicate IsTail(tail: Text) {
    tail == [] || (|tail| >= 2 && tail[0] == NEWLINE && tail[1] == NEWLINE)
  }

  lemma LineHoldsNoNewline(h: Heading)
    requires NEWLINE !in h.title
    ensures NEWLINE !in OutlineLine(h)
  {
    var indent := Spaces(if h.level == 0 then 0 else 2 * (h.level - 1));
    assert forall u :: u in OutlineLine(h) ==> u in indent || u in h.title;
  }

  lemma BlankEnds()
    ensures EndsOutline(WithoutReturn([]))
  {
  }

  /** The first line of an outline whose first title is one line, and what comes after it. */
  lemma FirstLine(hs: seq<Heading>, tail: Text)
    requires hs != [] && IsTail(tail) && NEWLINE !in hs[0].title
    ensures var ls := SplitLines([], OutlineLines(hs) + tail);
      && (ls[0] == OutlineLine(hs[0]) || ls[0] == WithoutReturn(OutlineLine(hs[0])))
      && (|hs| >= 2 ==> ls[1..] == SplitLines([], OutlineLines(hs[1..]) + tail))
      && (|hs| == 1 ==> |ls| == 1 || EndsOutline(ls[1]))
  {
    hide OutlineLine, OutlineLines, SplitLines, EndsOutline, WithoutReturn;
    LineHoldsNoNewline(hs[0]);
    var line := OutlineLine(hs[0]);
    if |hs| >= 2 {
      OutlineFirst(hs);
      var rest := OutlineLines(hs[1..]) + tail;
      assert OutlineLines(hs) + tail == line + [NEWLINE] + rest;
      LineAndRest(line, rest);
    } else {
      OutlineOfOne(hs);
      OnlyLine(line, tail);
    }
  }

  lemma LineAndRest(line: Text, rest: Text)
    requires NEWLINE !in line
    ensures SplitLines([], line + [NEWLINE] + rest) == [WithoutReturn(line)] + SplitLines([], rest)
  {
    hide SplitLines, WithoutReturn;
    var empty: Text := [];
    assert empty + line == line;
    SplitAtNewline(empty, line, rest);
  }

  lemma OnlyLine(line: Text, tail: Text)
    requires NEWLINE !in line && IsTail(tail)
    ensures var ls := SplitLines([], line + tail);
      (ls[0] == line || ls[0] == WithoutReturn(line)) && (|ls| == 1 || EndsOutline(ls[1]))
  {
    BlankEnds();
    hide IsTail, SplitLines, WithoutReturn, EndsOutline;
    var empty: Text := [];
    if tail == empty {
      assert line + tail == line && empty + line == line;
      SplitLastLine(empty, line);
    } else {
      LineThenBlank(line, tail);
    }
  }

  lemma LineThenBlank(line: Text, tail: Text)
    requires NEWLINE !in line && IsTail(tail) && tail != []
    ensures var ls := SplitLines([], line + tail);
      |ls| >= 2 && ls[0] == WithoutReturn(line) && ls[1] == WithoutReturn([])
  {
    TailStarts(tail);
    hide IsTail, SplitLines, WithoutReturn;
    var empty: Text := [];
    var rest := empty + [NEWLINE] + tail[2..];
    assert line + tail == line + [NEWLINE] + rest;
    LineAndRest(line, rest);
    LineAndRest(empty, tail[2..]);
  }

  lemma TailStarts(tail: Text)
    requires IsTail(tail) && tail != []
    ensures |tail| >= 2 && tail == [NEWLINE] + ([] + [NEWLINE] + tail[2..])
  {
  }

  // ---- The round trip -------------------------------------------------------

  lemma ShorterOrSame(title: Text)
    ensures |WithoutMarks(Trim(title))| <= |Trim(title)| <= |title|
    ensures IsMarkdown(Trim(title)) ==> |WithoutMarks(Trim(title))| < |Trim(title)|
    ensures |Trim(title)| == |title| ==> IsTrimmed(title)
  {
    TrimTrims(title);
    TrimStartIsSuffix(title);
    TrimEndIsPrefix(TrimStart(title));
    var marks := Trim(title)[Hashes(Trim(title))..];
    TrimStartIsSuffix(marks);
  }

  /** The line of a printable title is read as that heading. */
  lemma PrintableLine(h: Heading, line: Text)
    requires h.level >= 1 && IsPrintable(h.title)
    requires line == OutlineLine(h) || line == WithoutReturn(OutlineLine(h))
    ensures !EndsOutline(line) && ReadHeading(line) == OutlineHeading(h.title, h.level)
  {
    ReadLine(h);
    ReturnIsTrimmed(OutlineLine(h));
    TrimTrims(h.title);
    hide Trim, OutlineLine, WithoutReturn, IsMarkdown;
  }

  /** And only then. */
  lemma ReadBackIsPrintable(h: Heading, line: Text)
    requires h.level >= 1 && NEWLINE !in h.title
    requires line == OutlineLine(h) || line == WithoutReturn(OutlineLine(h))
    requires !EndsOutline(line) && ReadHeading(line).title == h.title
    ensures IsPrintable(h.title)
  {
    ReadLine(h);
    ReturnIsTrimmed(OutlineLine(h));
    ShorterOrSame(h.title);
    TrimTrims(h.title);
    hide Trim, OutlineLine, WithoutReturn, IsMarkdown, IsTrimmed;
  }

  predicate AllPrintable(hs: seq<Heading>) {
    forall i :: 0 <= i < |hs| ==> IsPrintable(hs[i].title)
  }

  ghost predicate HaveLevels(hs: seq<Heading>) {
    forall i :: 0 <= i < |hs| ==> hs[i].level >= 1
  }

  lemma {:induction false} PrintableIsRead(hs: seq<Heading>, tail: Text)
    requires hs != [] && HaveLevels(hs) && AllPrintable(hs) && IsTail(tail)
    ensures ReadHeadings(SplitLines([], OutlineLines(hs) + tail)) == Pairs(hs)
    decreases |hs|
  {
    hide SplitLines, OutlineLine, OutlineLines, EndsOutline, ReadHeading, WithoutReturn, IsPrintable, IsTail;
    var ls := SplitLines([], OutlineLines(hs) + tail);
    PrintableIsOneLine(hs[0].title);
    FirstLine(hs, tail);
    PrintableLine(hs[0], ls[0]);
    if |hs| >= 2 {
      PrintableIsRead(hs[1..], tail);
    } else {
      assert ReadHeadings(ls[1..]) == [];
    }
  }

  lemma PrintableIsOneLine(title: Text)
    requires IsPrintable(title)
    ensures NEWLINE !in title
  {
  }

  // ---- Titles that were read hold no newline --------------------------------

  lemma {:induction false} SplitLinesHoldNoNewline(current: Text, t: Text)
    requires NEWLINE !in current
    ensures forall line :: line in SplitLines(current, t) ==> NEWLINE !in line
    decreases |t|
  {
    if t != [] {
      if t[0] == NEWLINE { SplitLinesHoldNoNewline([], t[1..]); } else { SplitLinesHoldNoNewline(current + [t[0]], t[1..]); }
    }
  }

  lemma ReadTitleIsInLine(line: Text)
    requires NEWLINE !in line
    ensures NEWLINE !in ReadHeading(line).title
  {
    TrimStartIsSuffix(line);
    TrimEndIsPrefix(TrimStart(line));
    var trimmed := Trim(line);
    assert forall u :: u in trimmed ==> u in line;
    TrimStartIsSuffix(trimmed[Hashes(trimmed)..]);
  }

  lemma ReadFirst(lines: seq<Text>)
    requires lines != [] && ReadHeadings(lines) != []
    ensures !EndsOutline(lines[0]) && ReadHeadings(lines)[0] == ReadHeading(lines[0]) && ReadHeadings(lines)[1..] == ReadHeadings(lines[1..])
  {
  }

  lemma {:induction false} ReadIsPrintable(hs: seq<Heading>, tail: Text)
    requires hs != [] && HaveLevels(hs) && IsTail(tail)
    requires ReadHeadings(SplitLines([], OutlineLines(hs) + tail)) == Pairs(hs)
    ensures AllPrintable(hs)
    decreases |hs|
  {
    hide SplitLines, OutlineLine, OutlineLines, EndsOutline, ReadHeading, WithoutReturn, IsPrintable, IsTail, ReadHeadings;
    var ls := SplitLines([], OutlineLines(hs) + tail);
    ReadFirst(ls);
    SplitLinesHoldNoNewline([], OutlineLines(hs) + tail);
    ReadTitleIsInLine(ls[0]);
    FirstLine(hs, tail);
    ReadBackIsPrintable(hs[0], ls[0]);
    if |hs| >= 2 {
      assert Pairs(hs)[1..] == Pairs(hs[1..]);
      ReadIsPrintable(hs[1..], tail);
    }
  }

  lemma HeaderEnds()
    ensures OutlineHeader()[0] == 'D' as int && OutlineHeader()[38] == ':' as int
  {
    hide Lit;
    assert |"DOCUMENT OUTLINE"| == 16 && |" (authoritative order):"| == 23;
    assert "DOCUMENT OUTLINE"[0] == 'D';
    assert " (authoritative order):"[22] == ':';
    assert Lit(" (authoritative order):")[22] == ':' as int;
  }

  lemma HeaderStarts()
    ensures StartsOutline(OutlineHeader()) && WithoutReturn(OutlineHeader()) == OutlineHeader() && NEWLINE !in OutlineHeader()
  {
    hide Trim, Lit;
    HeaderEnds();
    NoNewlines("DOCUMENT OUTLINE");
    NoNewlines(" (authoritative order):");
    TrimTrims(OutlineHeader());
  }

  lemma {:induction false} NoNewlines(s: string)
    requires '\n' !in s
    ensures NEWLINE !in Lit(s)
  {
    if s != "" { NoNewlines(s[1..]); }
  }

  /** Reading a digest's outline gives back its headings and levels exactly when every title is printable. */
  lemma RoundTrip(kept: seq<Heading>, excerpts: Text)
    requires kept != [] && HaveLevels(kept)
    ensures ReadOutline(Assembled(kept, excerpts)) == Some(Pairs(kept)) <==> AllPrintable(kept)
  {
    var tail: Text := if excerpts == [] then [] else PARAGRAPH_SEP + ExcerptsHeader() + [NEWLINE] + excerpts;
    HeaderStarts();
    hide OutlineHeader, StartsOutline, OutlineLines, ReadHeadings, AllPrintable, WithoutReturn, Pairs;
    var rest := OutlineLines(kept) + tail;
    assert Assembled(kept, excerpts) == OutlineHeader() + [NEWLINE] + rest;
    SplitAtNewline([], OutlineHeader(), rest);
    assert [] + OutlineHeader() == OutlineHeader();
    var lines := SplitLines([], Assembled(kept, excerpts));
    assert lines[0] == WithoutReturn(OutlineHeader()) && lines[1..] == SplitLines([], rest);
    assert OutlineStart(lines) == 0;
    if AllPrintable(kept) { PrintableIsRead(kept, tail); }
    if ReadHeadings(lines[1..]) == Pairs(kept) { ReadIsPrintable(kept, tail); }
  }

  /** A heading with the title of the excerpts' header, among any others. */
  lemma ExcerptsTitleIsNotReadBack(before: seq<Heading>, after: seq<Heading>, excerpts: Text)
    requires HaveLevels(before) && HaveLevels(after)
    ensures var kept := before + [Heading(|before|, ExcerptsHeader(), 1, None, None, false)] + after;
      ReadOutline(Assembled(kept, excerpts)) != Some(Pairs(kept))
  {
    var h := Heading(|before|, ExcerptsHeader(), 1, None, None, false);
    var kept := before + [h] + after;
    assert kept[|before|] == h;
    assert !IsPrintable(h.title);
    hide ReadOutline, Assembled, Pairs, IsPrintable, ExcerptsHeader;
    RoundTrip(kept, excerpts);
  }
}
