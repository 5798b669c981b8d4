/**
 The digest of a document for the outline generator: its headings and an excerpt
 under each, within a budget of characters and one of estimated tokens.
 */
module Digest {
  import opened Texts
  import opened Arithmetic
  import opened DigestText
  import opened DigestBudget

  /** A line of the document; `toc` marks entries of a table of contents. */
  datatype Line = Line(text: Text, toc: bool)

  datatype Prepared = Prepared(lines: seq<Line>, headings: seq<Heading>, fromBookmarks: bool)

  predicate Placed(prep: Prepared) {
    forall i :: 0 <= i < |prep.headings| ==> prep.headings[i].anchor.None? || prep.headings[i].anchor.value <= |prep.lines|
  }

  function OutlineHeader(): (t: Text)
    ensures |t| == 39
  {
    assert |"DOCUMENT OUTLINE"| == 16 && |" (authoritative order):"| == 23;
    Lit("DOCUMENT OUTLINE") + Lit(" (authoritative order):")
  }

  function ExcerptsHeader(): (t: Text)
    ensures |t| == 9
  {
    assert |"EXCERPTS:"| == 9;
    Lit("EXCERPTS:")
  }

  function OpeningCaption(): Text {
    Lit("(Before the first heading)")
  }

  // ---- Body text ------------------------------------------------------------

  predicate IsPrivateUse(u: CodeUnit) {
    0xE000 <= u <= 0xF8FF
  }

  /** Private-use characters as spaces, and every run of whitespace as one space. */
  function Collapsed(t: Text): (c: Text)
    ensures |c| <= |t|
  {
    if t == [] then []
    else
      var front, u := Collapsed(t[..|t| - 1]), t[|t| - 1];
      if !IsSpace(u) && !IsPrivateUse(u) then front + [u]
      else if front != [] && front[|front| - 1] == SPACE then front
      else front + [SPACE]
  }

  function Tidy(t: Text): (c: Text)
    ensures |c| <= |t|
  {
    TrimTrims(Collapsed(t));
    Trim(Collapsed(t))
  }

  /** The lines from `start` up to `end` that are not entries of a table of contents. */
  function Parts(lines: seq<Line>, start: nat, end: nat): seq<Text>
    requires end <= |lines|
  {
    if end <= start then []
    else
      var front := Parts(lines, start, end - 1);
      if lines[end - 1].toc then front else front + [lines[end - 1].text]
  }

  function BodyText(lines: seq<Line>, start: nat, end: nat): Text
    requires end <= |lines|
  {
    Tidy(Join(Parts(lines, start, end), [SPACE]))
  }

  /** Each of these lines with the separator after it. */
  function Stretch(lines: seq<Line>, start: nat, end: nat): nat
    requires end <= |lines|
  {
    if end <= start then 0
    else Stretch(lines, start, end - 1) + if lines[end - 1].toc then 0 else |lines[end - 1].text| + 1
  }

  lemma {:induction false} StretchOfParts(lines: seq<Line>, start: nat, end: nat)
    requires end <= |lines|
    ensures Stretch(lines, start, end) == TotalLength(Parts(lines, start, end)) + |Parts(lines, start, end)|
  {
    if start < end {
      StretchOfParts(lines, start, end - 1);
      var front := Parts(lines, start, end - 1);
      assert (front + [lines[end - 1].text])[..|front + [lines[end - 1].text]| - 1] == front;
    }
  }

  ghost predicate IsEntryOf(e: Entry, lines: seq<Line>) {
    e.end <= |lines| && e.length + 1 == Stretch(lines, e.start, e.end)
  }

  /** An entry's text is never longer than the length it competes with. */
  lemma BodyFitsLength(e: Entry, lines: seq<Line>)
    requires IsEntryOf(e, lines)
    ensures |BodyText(lines, e.start, e.end)| <= e.length
  {
    StretchOfParts(lines, e.start, e.end);
    JoinLength(Parts(lines, e.start, e.end), [SPACE]);
  }

  // ---- Entries --------------------------------------------------------------

  /** An entry, unless these lines hold no text. */
  function EntryIfAny(lines: seq<Line>, caption: Text, start: nat, end: nat): (es: seq<Entry>)
    requires end <= |lines|
    ensures forall i :: 0 <= i < |es| ==> IsEntryOf(es[i], lines)
  {
    var length := Stretch(lines, start, end);
    if length > 1 then [Entry(caption, start, end, length - 1)] else []
  }

  method PushEntry(lines: seq<Line>, entries: seq<Entry>, caption: Text, start: nat, end: nat) returns (pushed: seq<Entry>)
    requires end <= |lines|
    ensures pushed == entries + EntryIfAny(lines, caption, start, end)
  {
    var length := 0;
    var i := start;
    while i < end
      invariant start <= i && (i <= end || i == start)
      invariant length == Stretch(lines, start, if i <= end then i else end)
    {
      if !lines[i].toc { length := length + |lines[i].text| + 1; }
      i := i + 1;
    }
    pushed := if length > 1 then entries + [Entry(caption, start, end, length - 1)] else entries;
  }

  ghost predicate AllPlaced(hs: seq<Heading>, limit: nat) {
    forall i :: 0 <= i < |hs| ==> hs[i].anchor.None? || hs[i].anchor.value <= limit
  }

  /** The headings that have a place in the text. */
  function Anchored(hs: seq<Heading>): (anchored: seq<Heading>)
    ensures forall h :: h in anchored <==> h in hs && h.anchor.Some?
  {
    if hs == [] then []
    else
      var front := Anchored(hs[..|hs| - 1]);
      if hs[|hs| - 1].anchor.Some? then front + [hs[|hs| - 1]] else front
  }

  ghost predicate ArePlaces(anchored: seq<Heading>, limit: nat) {
    forall h :: h in anchored ==> h.anchor.Some? && h.anchor.value <= limit
  }

  /** Where a body at line `from` ends: at the first heading from the `j`th on that is further down, or with the text. */
  function BodyEnd(anchored: seq<Heading>, j: nat, from: nat, limit: nat): (end: nat)
    requires j <= |anchored| && ArePlaces(anchored, limit)
    ensures end <= limit
    decreases |anchored| - j
  {
    if j == |anchored| then limit
    else if anchored[j].anchor.value > from then anchored[j].anchor.value
    else BodyEnd(anchored, j + 1, from, limit)
  }

  lemma {:induction false} BodyEndsAtNext(anchored: seq<Heading>, j: nat, from: nat, limit: nat) returns (k: nat)
    requires j <= |anchored| && ArePlaces(anchored, limit)
    ensures j <= k <= |anchored|
    ensures forall i :: j <= i < k ==> anchored[i].anchor.value <= from
    ensures if k == |anchored| then BodyEnd(anchored, j, from, limit) == limit
      else anchored[k].anchor.value > from && BodyEnd(anchored, j, from, limit) == anchored[k].anchor.value
    decreases |anchored| - j
  {
    if j == |anchored| || anchored[j].anchor.value > from {
      k := j;
    } else {
      k := BodyEndsAtNext(anchored, j + 1, from, limit);
    }
  }

  /** The entry of the `i`th heading: from the start of its body to the next boundary further down. */
  function HeadingEntry(lines: seq<Line>, anchored: seq<Heading>, i: nat): (es: seq<Entry>)
    requires i < |anchored| && ArePlaces(anchored, |lines|)
    ensures forall k :: 0 <= k < |es| ==> IsEntryOf(es[k], lines)
  {
    var h := anchored[i];
    if h.skip then []
    else EntryIfAny(lines, h.title, if h.bodyStart.Some? then h.bodyStart.value else h.anchor.value,
                    BodyEnd(anchored, i + 1, h.anchor.value, |lines|))
  }

  function HeadingEntries(lines: seq<Line>, anchored: seq<Heading>, upTo: nat): (es: seq<Entry>)
    requires upTo <= |anchored| && ArePlaces(anchored, |lines|)
    ensures forall k :: 0 <= k < |es| ==> IsEntryOf(es[k], lines)
  {
    if upTo == 0 then [] else HeadingEntries(lines, anchored, upTo - 1) + HeadingEntry(lines, anchored, upTo - 1)
  }

  /** What stands before the first heading, where that counts. */
  function OpeningEntry(lines: seq<Line>, anchored: seq<Heading>, withOpening: bool): (es: seq<Entry>)
    requires ArePlaces(anchored, |lines|)
    ensures forall k :: 0 <= k < |es| ==> IsEntryOf(es[k], lines)
  {
    if withOpening && anchored != [] then EntryIfAny(lines, OpeningCaption(), 0, anchored[0].anchor.value) else []
  }

  /** One entry per heading with body text, and one for the text before the first heading. */
  function EntriesOf(lines: seq<Line>, boundaries: seq<Heading>, withOpening: bool): (es: seq<Entry>)
    requires AllPlaced(boundaries, |lines|)
    ensures forall k :: 0 <= k < |es| ==> IsEntryOf(es[k], lines)
  {
    AnchorsPlaced(boundaries, |lines|);
    var anchored := Anchored(boundaries);
    OpeningEntry(lines, anchored, withOpening) + HeadingEntries(lines, anchored, |anchored|)
  }

  method ExcerptEntries(lines: seq<Line>, boundaries: seq<Heading>, withOpening: bool) returns (entries: seq<Entry>)
    requires AllPlaced(boundaries, |lines|)
    ensures entries == EntriesOf(lines, boundaries, withOpening)
  {
    hide IsEntryOf, OpeningCaption, EntryIfAny, AllPlaced, Anchored, BodyEnd, HeadingEntry;
    AnchorsPlaced(boundaries, |lines|);
    var anchored := Anchored(boundaries);
    entries := [];
    if withOpening && anchored != [] {
      entries := PushEntry(lines, entries, OpeningCaption(), 0, anchored[0].anchor.value);
    }
    ghost var opening := entries;
    for i := 0 to |anchored|
      invariant entries == opening + HeadingEntries(lines, anchored, i)
    {
      Regrouped(opening, HeadingEntries(lines, anchored, i), HeadingEntry(lines, anchored, i));
      entries := PushHeading(lines, entries, anchored, i);
    }
  }

  lemma Regrouped(a: seq<Entry>, b: seq<Entry>, c: seq<Entry>)
    ensures (a + b) + c == a + (b + c)
  {
  }

  method PushHeading(lines: seq<Line>, entries: seq<Entry>, anchored: seq<Heading>, i: nat) returns (pushed: seq<Entry>)
    requires i < |anchored| && ArePlaces(anchored, |lines|)
    ensures pushed == entries + HeadingEntry(lines, anchored, i)
  {
    hide IsEntryOf, EntryIfAny, BodyEnd;
    var h := anchored[i];
    if h.skip { return entries; }
    var end := FindEnd(anchored, i + 1, h.anchor.value, |lines|);
    var start := if h.bodyStart.Some? then h.bodyStart.value else h.anchor.value;
    pushed := PushEntry(lines, entries, h.title, start, end);
  }

  method FindEnd(anchored: seq<Heading>, first: nat, from: nat, limit: nat) returns (end: nat)
    requires first <= |anchored| && ArePlaces(anchored, limit)
    ensures end == BodyEnd(anchored, first, from, limit)
  {
    var j := first;
    while j < |anchored| && anchored[j].anchor.value <= from
      invariant first <= j <= |anchored|
      invariant BodyEnd(anchored, j, from, limit) == BodyEnd(anchored, first, from, limit)
    {
      j := j + 1;
    }
    end := if j < |anchored| then anchored[j].anchor.value else limit;
  }

  lemma AnchorsPlaced(hs: seq<Heading>, limit: nat)
    requires AllPlaced(hs, limit)
    ensures ArePlaces(Anchored(hs), limit)
  {
    forall h | h in Anchored(hs) ensures h.anchor.Some? && h.anchor.value <= limit {
      var i :| 0 <= i < |hs| && hs[i] == h;
    }
  }

  // ---- Rendering ------------------------------------------------------------

  function Outlined(hs: seq<Heading>): seq<Heading> {
    if hs == [] then []
    else
      var front := Outlined(hs[..|hs| - 1]);
      if hs[|hs| - 1].skip then front else front + [hs[|hs| - 1]]
  }

  /** The headings excerpts are cut at: those kept, and the skipped ones. */
  function Boundaries(hs: seq<Heading>, kept: seq<Heading>): (bs: seq<Heading>)
    ensures forall b :: b in bs ==> b in hs
  {
    if hs == [] then []
    else
      var front := Boundaries(hs[..|hs| - 1], kept);
      if hs[|hs| - 1].skip || hs[|hs| - 1] in kept then front + [hs[|hs| - 1]] else front
  }

  function AllTexts(lines: seq<Line>): seq<Text> {
    if lines == [] then [] else AllTexts(lines[..|lines| - 1]) + [lines[|lines| - 1].text]
  }

  function WholeText(lines: seq<Line>): Text {
    Join(AllTexts(lines), [NEWLINE])
  }

  function FlatText(lines: seq<Line>): Text {
    Join(Parts(lines, 0, |lines|), [SPACE])
  }

  function OutlineBlock(kept: seq<Heading>): (t: Text)
    ensures |t| == 40 + |OutlineLines(kept)|
  {
    OutlineHeader() + [NEWLINE] + OutlineLines(kept)
  }

  /** The digest of a document with headings: the outline and, when there are any, the excerpts. */
  function Assembled(kept: seq<Heading>, excerpts: Text): (t: Text)
    ensures |t| == if excerpts == [] then 40 + |OutlineLines(kept)| else 52 + |OutlineLines(kept)| + |excerpts|
  {
    if excerpts == [] then OutlineBlock(kept)
    else OutlineBlock(kept) + PARAGRAPH_SEP + ExcerptsHeader() + [NEWLINE] + excerpts
  }

  function Block(caption: Text, text: Text): (b: Text)
    ensures |b| == 4 + |caption| + |text|
  {
    Lit("## ") + caption + [NEWLINE] + text
  }

  /** Every entry with its whole text. */
  function WholeBlocks(lines: seq<Line>, entries: seq<Entry>): seq<Text>
    requires forall i :: 0 <= i < |entries| ==> IsEntryOf(entries[i], lines)
  {
    if entries == [] then []
    else
      var e := entries[|entries| - 1];
      assert IsEntryOf(e, lines);
      WholeBlocks(lines, entries[..|entries| - 1]) + [Block(e.caption, BodyText(lines, e.start, e.end))]
  }

  lemma {:induction false} BlocksFit(blocks: seq<Text>, entries: seq<Entry>, sizes: seq<nat>)
    requires |blocks| == |entries| == |sizes|
    requires forall i :: 0 <= i < |blocks| ==> |blocks[i]| <= 4 + |entries[i].caption| + sizes[i]
    ensures TotalLength(blocks) + 2 * |blocks| <= Overheads(entries) + Sum(sizes)
  {
    if blocks != [] {
      BlocksFit(blocks[..|blocks| - 1], entries[..|entries| - 1], sizes[..|sizes| - 1]);
    }
  }

  /** A body as it is shown: whole, cut, or sampled. */
  ghost predicate IsExcerptOf(text: Text, body: Text) {
    text == body || IsCutOf(text, body) || IsSampled(text, body)
  }

  function BlocksOf(entries: seq<Entry>, texts: seq<Text>): (blocks: seq<Text>)
    requires |texts| == |entries|
    ensures |blocks| == |entries|
  {
    if entries == [] then []
    else
      var last := |entries| - 1;
      BlocksOf(entries[..last], texts[..last]) + [Block(entries[last].caption, texts[last])]
  }

  /** Each text is an excerpt of its entry's body, within its size. */
  ghost predicate ShowEntries(texts: seq<Text>, lines: seq<Line>, entries: seq<Entry>, sizes: seq<nat>)
    requires |sizes| == |entries| && forall i :: 0 <= i < |entries| ==> IsEntryOf(entries[i], lines)
  {
    && |texts| == |entries|
    && forall i :: 0 <= i < |entries| ==>
        assert IsEntryOf(entries[i], lines);
        |texts[i]| <= sizes[i] && IsExcerptOf(texts[i], BodyText(lines, entries[i].start, entries[i].end))
  }

  function BodyOf(lines: seq<Line>, e: Entry): Text
    requires IsEntryOf(e, lines)
  {
    BodyText(lines, e.start, e.end)
  }

  /** No text is longer than its entry's, and not all are as long. */
  ghost predicate SomeFallShort(texts: seq<Text>, lines: seq<Line>, entries: seq<Entry>)
    requires |texts| == |entries| && AreEntriesOf(entries, lines)
  {
    exists i :: 0 <= i < |entries| && |texts[i]| < |BodyOf(lines, entries[i])|
  }

  ghost predicate NoneLonger(texts: seq<Text>, lines: seq<Line>, entries: seq<Entry>)
    requires |texts| == |entries| && AreEntriesOf(entries, lines)
  {
    forall i :: 0 <= i < |entries| ==> |texts[i]| <= |BodyOf(lines, entries[i])|
  }

  ghost predicate AreEntriesOf(entries: seq<Entry>, lines: seq<Line>) {
    forall i :: 0 <= i < |entries| ==> IsEntryOf(entries[i], lines)
  }

  lemma OneMoreShown(lines: seq<Line>, entries: seq<Entry>, sizes: seq<nat>, i: nat, texts: seq<Text>, text: Text)
    requires |sizes| == |entries| && AreEntriesOf(entries, lines) && i < |entries|
    requires ShowEntries(texts, lines, entries[..i], sizes[..i])
    requires IsEntryOf(entries[i], lines) && |text| <= sizes[i]
    requires IsExcerptOf(text, BodyText(lines, entries[i].start, entries[i].end))
    ensures ShowEntries(texts + [text], lines, entries[..i + 1], sizes[..i + 1])
    ensures BlocksOf(entries[..i + 1], texts + [text]) == BlocksOf(entries[..i], texts) + [Block(entries[i].caption, text)]
  {
    hide IsEntryOf, BodyText, IsExcerptOf, Block;
    assert entries[..i + 1][..i] == entries[..i] && (texts + [text])[..i] == texts;
    forall k | 0 <= k < i + 1 ensures IsEntryOf(entries[k], lines) {
    }
  }

  lemma OneMoreWhole(lines: seq<Line>, entries: seq<Entry>, i: nat)
    requires AreEntriesOf(entries, lines) && i < |entries|
    ensures IsEntryOf(entries[i], lines)
    ensures WholeBlocks(lines, entries[..i + 1])
         == WholeBlocks(lines, entries[..i]) + [Block(entries[i].caption, BodyText(lines, entries[i].start, entries[i].end))]
  {
    hide IsEntryOf, BodyText, Block;
    assert entries[..i + 1][..i] == entries[..i];
  }

  lemma NothingShown(lines: seq<Line>)
    ensures ShowEntries([], lines, [], []) && BlocksOf([], []) == [] && WholeBlocks(lines, []) == []
  {
  }

  /** The excerpts of the chosen entries; `whole` when none of them is cut. */
  method RenderEntries(lines: seq<Line>, chosen: seq<Entry>, sizes: seq<nat>) returns (excerpts: Text, whole: bool, ghost texts: seq<Text>)
    requires |sizes| == |chosen| && AreEntriesOf(chosen, lines)
    ensures chosen == [] ==> excerpts == []
    ensures chosen != [] ==> |excerpts| + 2 <= Overheads(chosen) + Sum(sizes)
    ensures |texts| == |chosen| && ShowEntries(texts, lines, chosen, sizes) && excerpts == Join(BlocksOf(chosen, texts), PARAGRAPH_SEP)
    ensures whole ==> excerpts == Join(WholeBlocks(lines, chosen), PARAGRAPH_SEP)
    ensures NoneLonger(texts, lines, chosen) && (!whole ==> SomeFallShort(texts, lines, chosen))
    ensures (forall i :: 0 <= i < |chosen| ==> sizes[i] == chosen[i].length) ==> whole
  {
    hide IsEntryOf, BodyText, Block, Overheads, Sum, IsCutOf, IsSampled, ShowEntries, BlocksOf, WholeBlocks;
    NothingShown(lines);
    texts := [];
    var blocks: seq<Text> := [];
    whole := true;
    assert chosen[..0] == [] && sizes[..0] == [];
    for i := 0 to |chosen|
      invariant |blocks| == |texts| == i
      invariant forall k :: 0 <= k < i ==> |blocks[k]| <= 4 + |chosen[k].caption| + sizes[k]
      invariant ShowEntries(texts, lines, chosen[..i], sizes[..i]) && blocks == BlocksOf(chosen[..i], texts)
      invariant whole ==> blocks == WholeBlocks(lines, chosen[..i])
      invariant forall k :: 0 <= k < i ==> |texts[k]| <= |BodyOf(lines, chosen[k])|
      invariant !whole ==> exists k :: 0 <= k < i && |texts[k]| < |BodyOf(lines, chosen[k])|
      invariant (forall k :: 0 <= k < |chosen| ==> sizes[k] == chosen[k].length) ==> whole
    {
      var e := chosen[i];
      OneMoreWhole(lines, chosen, i);
      EntryInLines(e, lines);
      var body := BodyText(lines, e.start, e.end);
      BodyFitsLength(e, lines);
      var text := ExcerptOf(body, sizes[i]);
      assert body == BodyOf(lines, e);
      assert IsExcerptOf(text, body);
      OneMoreShown(lines, chosen, sizes, i, texts, text);
      if |text| < |body| { whole := false; }
      assert forall k :: 0 <= k < i ==> (texts + [text])[k] == texts[k];
      assert (texts + [text])[i] == text;
      blocks, texts := blocks + [Block(e.caption, text)], texts + [text];
    }
    assert chosen[..|chosen|] == chosen && sizes[..|sizes|] == sizes;
    JoinLength(blocks, PARAGRAPH_SEP);
    BlocksFit(blocks, chosen, sizes);
    excerpts := Join(blocks, PARAGRAPH_SEP);
  }

  lemma EntryInLines(e: Entry, lines: seq<Line>)
    requires IsEntryOf(e, lines)
    ensures e.end <= |lines|
  {
  }

  datatype Rendered = Rendered(text: Text, headings: nat, truncated: bool)

  /** Under the header, a text or windows into it. */
  ghost predicate ShowsText(text: Text, flat: Text) {
    && ExcerptsHeader() + [NEWLINE] <= text
    && (text[10..] == flat || IsWindowed(text[10..], flat))
  }

  /** A document without an outline: the text itself if it fits, otherwise windows into it. */
  method RenderPlain(lines: seq<Line>, budget: nat) returns (r: Rendered)
    requires budget >= 100
    ensures |r.text| <= budget && r.headings == 0
    ensures r.truncated <==> |WholeText(lines)| > budget
    ensures !r.truncated ==> r.text == WholeText(lines)
    ensures r.truncated ==> ShowsText(r.text, FlatText(lines)) && r.text != WholeText(lines)
  {
    hide WholeText, FlatText, IsWindowed, ExcerptsHeader;
    var all := WholeText(lines);
    if |all| <= budget { return Rendered(all, 0, false); }
    var body, _ := WindowExcerpts(FlatText(lines), budget - |ExcerptsHeader()| - 1);
    r := Rendered(ExcerptsHeader() + [NEWLINE] + body, 0, true);
    assert r.text[10..] == body;
  }

  function ExcerptsOf(prep: Prepared, kept: seq<Heading>): (es: seq<Entry>)
    requires Placed(prep)
    ensures forall k :: 0 <= k < |es| ==> IsEntryOf(es[k], prep.lines)
  {
    BoundariesPlaced(prep, kept);
    EntriesOf(prep.lines, Boundaries(prep.headings, kept), !prep.fromBookmarks)
  }

  /** Nothing cut: every entry under its caption, or the whole text when no heading has a place in it. */
  function WholeExcerpts(prep: Prepared, kept: seq<Heading>): Text
    requires Placed(prep)
  {
    var entries := ExcerptsOf(prep, kept);
    if entries == [] then FlatText(prep.lines) else Join(WholeBlocks(prep.lines, entries), PARAGRAPH_SEP)
  }

  // ---- What is cut is shorter -----------------------------------------------

  /** What an entry's block takes of a digest that shows everything, its separator included. */
  function WholeSize(lines: seq<Line>, e: Entry): nat
    requires IsEntryOf(e, lines)
  {
    6 + |e.caption| + |BodyOf(lines, e)|
  }

  function WholeSizes(lines: seq<Line>, entries: seq<Entry>): nat
    requires AreEntriesOf(entries, lines)
  {
    if entries == [] then 0
    else
      LastIsEntry(lines, entries);
      WholeSizes(lines, entries[..|entries| - 1]) + WholeSize(lines, entries[|entries| - 1])
  }

  lemma LastIsEntry(lines: seq<Line>, entries: seq<Entry>)
    requires AreEntriesOf(entries, lines) && entries != []
    ensures AreEntriesOf(entries[..|entries| - 1], lines) && IsEntryOf(entries[|entries| - 1], lines)
  {
  }

  lemma {:induction false} WholeLength(lines: seq<Line>, entries: seq<Entry>)
    requires AreEntriesOf(entries, lines)
    ensures |WholeBlocks(lines, entries)| == |entries|
    ensures TotalLength(WholeBlocks(lines, entries)) + 2 * |entries| == WholeSizes(lines, entries)
  {
    hide IsEntryOf, BodyText;
    if entries != [] {
      LastIsEntry(lines, entries);
      var front, e := entries[..|entries| - 1], entries[|entries| - 1];
      WholeLength(lines, front);
      LengthOfOneMore(WholeBlocks(lines, front), Block(e.caption, BodyOf(lines, e)));
    }
  }

  lemma LengthOfOneMore(parts: seq<Text>, part: Text)
    ensures TotalLength(parts + [part]) == TotalLength(parts) + |part|
  {
    assert (parts + [part])[..|parts + [part]| - 1] == parts;
  }

  lemma {:induction false} ShownLength(lines: seq<Line>, entries: seq<Entry>, texts: seq<Text>)
    requires |texts| == |entries| && AreEntriesOf(entries, lines) && NoneLonger(texts, lines, entries)
    ensures TotalLength(BlocksOf(entries, texts)) + 2 * |entries| <= WholeSizes(lines, entries)
    ensures SomeFallShort(texts, lines, entries) ==> TotalLength(BlocksOf(entries, texts)) + 2 * |entries| < WholeSizes(lines, entries)
  {
    hide IsEntryOf, BodyOf;
    if entries != [] {
      LastIsEntry(lines, entries);
      var last := |entries| - 1;
      ShownLength(lines, entries[..last], texts[..last]);
      LengthOfOneMore(BlocksOf(entries[..last], texts[..last]), Block(entries[last].caption, texts[last]));
      if SomeFallShort(texts, lines, entries) && |texts[last]| == |BodyOf(lines, entries[last])| {
        var i :| 0 <= i < |entries| && |texts[i]| < |BodyOf(lines, entries[i])|;
        assert entries[..last][i] == entries[i] && texts[..last][i] == texts[i];
      }
    }
  }

  /** Some of the entries take less than all of them. */
  lemma {:induction false} FewerAreShorter(lines: seq<Line>, chosen: seq<Entry>, entries: seq<Entry>)
    requires AreEntriesOf(entries, lines) && AreEntriesOf(chosen, lines) && IsSubsequence(chosen, entries)
    ensures WholeSizes(lines, chosen) <= WholeSizes(lines, entries)
    ensures |chosen| < |entries| ==> WholeSizes(lines, chosen) < WholeSizes(lines, entries)
    decreases |entries|
  {
    hide IsEntryOf, WholeSize, IsSubsequence;
    SubsequenceIsNoLonger(chosen, entries);
    if entries != [] {
      LastIsEntry(lines, entries);
      var front := entries[..|entries| - 1];
      WholeSizeIsPositive(lines, entries[|entries| - 1]);
      if IsSubsequence(chosen, front) {
        FewerAreShorter(lines, chosen, front);
      } else {
        LastIsKept(chosen, entries);
        LastIsEntry(lines, chosen);
        FewerAreShorter(lines, chosen[..|chosen| - 1], front);
      }
    }
  }

  lemma WholeSizeIsPositive(lines: seq<Line>, e: Entry)
    requires IsEntryOf(e, lines)
    ensures WholeSize(lines, e) > 0
  {
  }

  lemma LastIsKept(chosen: seq<Entry>, entries: seq<Entry>)
    requires IsSubsequence(chosen, entries) && entries != [] && !IsSubsequence(chosen, entries[..|entries| - 1])
    ensures chosen != [] && chosen[|chosen| - 1] == entries[|entries| - 1]
    ensures IsSubsequence(chosen[..|chosen| - 1], entries[..|entries| - 1])
  {
    var from :| Embeds(from, chosen, entries);
    var front := entries[..|entries| - 1];
    if chosen == [] || from[|chosen| - 1] < |front| {
      assert Embeds(from, chosen, front);
    } else {
      assert Embeds(from[..|chosen| - 1], chosen[..|chosen| - 1], front);
    }
  }

  lemma ShorterThanWhole(lines: seq<Line>, chosen: seq<Entry>, entries: seq<Entry>, texts: seq<Text>)
    requires AreEntriesOf(entries, lines) && AreEntriesOf(chosen, lines) && IsSubsequence(chosen, entries) && entries != []
    requires |texts| == |chosen| && NoneLonger(texts, lines, chosen)
    requires |chosen| < |entries| || SomeFallShort(texts, lines, chosen)
    ensures |Join(BlocksOf(chosen, texts), PARAGRAPH_SEP)| < |Join(WholeBlocks(lines, entries), PARAGRAPH_SEP)|
  {
    hide IsEntryOf, BlocksOf, WholeBlocks, WholeSizes, NoneLonger, SomeFallShort, IsSubsequence, Join, TotalLength;
    JoinLength(BlocksOf(chosen, texts), PARAGRAPH_SEP);
    JoinLength(WholeBlocks(lines, entries), PARAGRAPH_SEP);
    WholeLength(lines, entries);
    ShownLength(lines, chosen, texts);
    FewerAreShorter(lines, chosen, entries);
    WholeIsNotEmpty(lines, entries);
  }

  lemma WholeIsNotEmpty(lines: seq<Line>, entries: seq<Entry>)
    requires AreEntriesOf(entries, lines) && entries != []
    ensures TotalLength(WholeBlocks(lines, entries)) > 0
  {
    hide IsEntryOf, BodyText;
    LastIsEntry(lines, entries);
    var front, e := entries[..|entries| - 1], entries[|entries| - 1];
    LengthOfOneMore(WholeBlocks(lines, front), Block(e.caption, BodyOf(lines, e)));
  }

  // ---- One digest -----------------------------------------------------------

  /** Nothing is left out: the whole text, or all headings with all that stands under them. */
  ghost predicate IsComplete(prep: Prepared, kept: seq<Heading>, text: Text, excerpts: Text)
    requires Placed(prep)
  {
    if kept == [] then text == WholeText(prep.lines)
    else kept == Outlined(prep.headings) && excerpts == WholeExcerpts(prep, kept)
  }

  /** What is left of a budget for excerpts. */
  function RoomFor(kept: seq<Heading>, budget: nat): int {
    budget - (40 + |OutlineLines(kept)|) - 12
  }

  /** Lines, but no text in them; a digest with little room left says truncated all the same. */
  ghost predicate HasNoText(prep: Prepared, kept: seq<Heading>)
    requires Placed(prep)
  {
    kept != [] && prep.lines != [] && ExcerptsOf(prep, kept) == [] && FlatText(prep.lines) == []
  }

  /** A document with an outline, `kept` being what fits of it. */
  method RenderOutlined(prep: Prepared, kept: seq<Heading>, budget: nat) returns (r: Rendered, ghost excerpts: Text)
    requires Placed(prep) && budget >= 100
    requires kept != [] && 5 * |OutlineLines(kept)| <= 2 * budget && IsSubsequence(kept, Outlined(prep.headings))
    ensures |r.text| <= budget && r.headings == |kept|
    ensures r.text == Assembled(kept, excerpts)
    ensures r.truncated <==> !IsComplete(prep, kept, r.text, excerpts) || (HasNoText(prep, kept) && RoomFor(kept, budget) <= MIN_EXCERPT)
  {
    hide Placed, Outlined, OutlineLines, Boundaries, IsSubsequence, IsFair, SomeCutShort, FlatText, Assembled, Overheads, Sum, PickEvenly, LeastCost, WholeBlocks, EntriesOf, IsWindowed, NoneLonger, SomeFallShort, BlocksOf, ShowEntries;
    SubsequenceIsNoLonger(kept, Outlined(prep.headings));
    SubsequenceIsWhole(kept, Outlined(prep.headings));
    var lines := prep.lines;
    var truncated := |kept| < |Outlined(prep.headings)|;
    var room := RoomFor(kept, budget);
    BoundariesPlaced(prep, kept);
    var entries := ExcerptEntries(lines, Boundaries(prep.headings, kept), !prep.fromBookmarks);
    var text: Text := [];
    if entries != [] {
      var chosen, sizes := Allocate(entries, room);
      ChosenAreEntries(chosen, entries, sizes, lines);
      SubsequenceIsNoLonger(chosen, entries);
      SubsequenceIsWhole(chosen, entries);
      if |chosen| < |entries| { truncated := true; }
      var whole;
      ghost var shown;
      text, whole, shown := RenderEntries(lines, chosen, sizes);
      if !whole { truncated := true; }
      if !whole || |chosen| < |entries| { ShorterThanWhole(lines, chosen, entries, shown); }
    } else if lines != [] && room > MIN_EXCERPT {
      var cut;
      text, cut := WindowExcerpts(FlatText(lines), room);
      if cut { truncated := true; }
    } else if lines != [] {
      truncated := true;
    } else {
      NothingFlat(lines);
    }
    excerpts := text;
    r := Rendered(Assembled(kept, text), |kept|, truncated);
  }

  lemma NothingFlat(lines: seq<Line>)
    requires lines == []
    ensures FlatText(lines) == []
  {
  }

  lemma BoundariesPlaced(prep: Prepared, kept: seq<Heading>)
    requires Placed(prep)
    ensures AllPlaced(Boundaries(prep.headings, kept), |prep.lines|)
  {
    var bs := Boundaries(prep.headings, kept);
    forall i | 0 <= i < |bs| ensures bs[i].anchor.None? || bs[i].anchor.value <= |prep.lines| {
      assert bs[i] in prep.headings;
    }
  }

  lemma ChosenAreEntries(chosen: seq<Entry>, entries: seq<Entry>, sizes: seq<nat>, lines: seq<Line>)
    requires IsSubsequence(chosen, entries) && IsFair(chosen, sizes)
    requires forall i :: 0 <= i < |entries| ==> IsEntryOf(entries[i], lines)
    ensures |sizes| == |chosen| && forall i :: 0 <= i < |chosen| ==> IsEntryOf(chosen[i], lines)
  {
    hide IsEntryOf;
    var from :| Embeds(from, chosen, entries);
  }

  /** The digest at one budget. */
  method Render(prep: Prepared, budget: nat) returns (r: Rendered, kept: seq<Heading>, ghost excerpts: Text)
    requires Placed(prep) && budget >= 100
    ensures |r.text| <= budget && r.headings == |kept|
    ensures IsSubsequence(kept, Outlined(prep.headings))
    ensures kept != [] ==> r.text == Assembled(kept, excerpts)
    ensures r.truncated <==> !IsComplete(prep, kept, r.text, excerpts) || (HasNoText(prep, kept) && RoomFor(kept, budget) <= MIN_EXCERPT)
  {
    hide Placed, Outlined, OutlineLines, IsSubsequence, WholeText, WholeExcerpts, Assembled, ExcerptsOf, FlatText, ShowsText;
    var outlined := Outlined(prep.headings);
    SubsequenceOfItself(outlined);
    kept := outlined;
    if outlined != [] {
      kept := FitOutline(outlined, 2 * budget / 5);
    }
    if kept == [] {
      r := RenderPlain(prep.lines, budget);
      excerpts := [];
    } else {
      r, excerpts := RenderOutlined(prep, kept, budget);
    }
  }

  // ---- Within both budgets --------------------------------------------------

  /** The budget for the next try, from what the last one came to. */
  function NextBudget(budget: nat, budgetTokens: nat, tokens: nat): int
    requires tokens > 0
  {
    budget * budgetTokens * 97 / (100 * tokens)
  }

  /** A text over the token budget leaves a smaller budget, but never a useless one. */
  lemma NextBudgetShrinks(budget: nat, budgetTokens: nat, tokens: nat)
    requires budgetTokens >= 500 && tokens > budgetTokens && 3 * tokens <= 2 * budget + 2
    ensures 100 <= NextBudget(budget, budgetTokens, tokens) <= budget
  {
    assert 2 * budget >= tokens;
    assert budget * budgetTokens * 97 >= 100 * (100 * tokens) by {
      MulMono(500, budgetTokens, budget);
      assert budget * budgetTokens >= 500 * budget;
    }
    DivAtLeast(budget * budgetTokens * 97, 100 * tokens, 100);
    assert budget * budgetTokens * 97 < (budget + 1) * (100 * tokens) by {
      MulMono(budgetTokens, tokens, budget);
      assert budget * budgetTokens <= budget * tokens;
      assert (budget + 1) * (100 * tokens) == 100 * (budget * tokens) + 100 * tokens;
    }
    DivLess(budget * budgetTokens * 97, 100 * tokens, budget + 1);
  }

  datatype DocumentDigest = DocumentDigest(text: Text, headings: nat, estTokens: nat, truncated: bool)

  /**
   The digest is within the character budget and the token budget, for every
   document and every pair of budgets; when it lists headings, it is their
   outline followed by the excerpts.
   */
  method BuildDigest(prep: Prepared, chars: int, tokens: int) returns (d: DocumentDigest, kept: seq<Heading>, ghost excerpts: Text)
    requires Placed(prep)
    ensures |d.text| <= Max(1000, chars)
    ensures d.estTokens == TokenEstimate(d.text) <= Max(500, tokens)
    ensures d.headings == |kept| && IsSubsequence(kept, Outlined(prep.headings))
    ensures kept != [] ==> d.text == Assembled(kept, excerpts)
    ensures !d.truncated ==> IsComplete(prep, kept, d.text, excerpts)
    ensures d.truncated ==> !IsComplete(prep, kept, d.text, excerpts) || HasNoText(prep, kept)
  {
    hide Placed, Outlined, IsSubsequence, IsComplete, HasNoText, Assembled, TokenEstimate, NextBudget;
    var budgetChars: nat := Max(1000, chars);
    var budgetTokens: nat := Max(500, tokens);
    var budget: nat := budgetChars;
    for attempt := 0 to 4
      invariant 100 <= budget <= budgetChars
    {
      var r;
      r, kept, excerpts := Render(prep, budget);
      var estTokens := EstimateTokens(r.text);
      if estTokens <= budgetTokens {
        return DocumentDigest(r.text, r.headings, estTokens, r.truncated), kept, excerpts;
      }
      TokensBound(r.text);
      NextBudgetShrinks(budget, budgetTokens, estTokens);
      budget := NextBudget(budget, budgetTokens, estTokens);
    }
    // Two thirds of a token per character is the most there is, so the last try cannot fail.
    var r;
    r, kept, excerpts := Render(prep, Min(budgetChars, 3 * budgetTokens / 2));
    var estTokens := EstimateTokens(r.text);
    TokensBound(r.text);
    return DocumentDigest(r.text, r.headings, estTokens, r.truncated), kept, excerpts;
  }
}
