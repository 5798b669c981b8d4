/**
 From the headings of a document to the chapters of its outline: a lone title
 above the others is passed over, and each heading at the top level that is left
 becomes a chapter with the headings directly below it. Main result: every such
 heading is in the outline (EveryTopHeadingIsPresent).
 */
module OutlineChapters {
  import opened Options
  import opened Texts
  import opened OfflineOutline
  import opened OutlineGroups
  import opened OutlineRoundTrip

  // ---- Levels ---------------------------------------------------------------

  function TopLevel(hs: seq<OutlineHeading>): (top: nat)
    requires hs != []
    ensures forall h :: h in hs ==> top <= h.level
    ensures exists h :: h in hs && h.level == top
  {
    if |hs| == 1 then hs[0].level
    else
      var rest := TopLevel(hs[1..]);
      assert forall h :: h in hs <==> h == hs[0] || h in hs[1..];
      if hs[0].level < rest then hs[0].level else rest
  }

  function Below(hs: seq<OutlineHeading>, top: nat): (deeper: seq<OutlineHeading>)
    ensures |deeper| <= |hs|
    ensures forall h :: h in deeper <==> h in hs && h.level > top
  {
    if hs == [] then []
    else
      var front := Below(hs[..|hs| - 1], top);
      assert forall h :: h in hs <==> h in hs[..|hs| - 1] || h == hs[|hs| - 1];
      if hs[|hs| - 1].level > top then front + [hs[|hs| - 1]] else front
  }

  function CountAt(hs: seq<OutlineHeading>, level: nat): nat {
    if hs == [] then 0 else CountAt(hs[..|hs| - 1], level) + if hs[|hs| - 1].level == level then 1 else 0
  }

  lemma {:induction false} BelowIsShorter(hs: seq<OutlineHeading>, top: nat)
    requires exists h :: h in hs && h.level == top
    ensures |Below(hs, top)| < |hs|
  {
    var front, last := hs[..|hs| - 1], hs[|hs| - 1];
    if last.level > top {
      var h :| h in hs && h.level == top;
      assert h in front;
      BelowIsShorter(front, top);
    }
  }

  /** One heading stands above all others: it is the document's title. */
  predicate HasLoneTitle(hs: seq<OutlineHeading>)
    requires hs != []
  {
    CountAt(hs, TopLevel(hs)) == 1 && Below(hs, TopLevel(hs)) != []
  }

  /** What is left once lone titles are passed over. */
  function WithoutTitles(hs: seq<OutlineHeading>): (kept: seq<OutlineHeading>)
    requires hs != []
    ensures kept != [] && !HasLoneTitle(kept)
    ensures forall h :: h in kept <==> h in hs && h.level >= TopLevel(kept)
    decreases |hs|
  {
    if !HasLoneTitle(hs) then hs
    else
      BelowIsShorter(hs, TopLevel(hs));
      WithoutTitles(Below(hs, TopLevel(hs)))
  }

  method PassTitles(hs: seq<OutlineHeading>) returns (kept: seq<OutlineHeading>, top: nat)
    requires hs != []
    ensures kept == WithoutTitles(hs) && top == TopLevel(kept)
  {
    kept, top := hs, TopLevel(hs);
    while CountAt(kept, top) == 1 && Below(kept, top) != []
      invariant kept != [] && top == TopLevel(kept)
      invariant WithoutTitles(kept) == WithoutTitles(hs)
      decreases |kept|
    {
      BelowIsShorter(kept, top);
      kept := Below(kept, top);
      top := TopLevel(kept);
    }
  }

  // ---- Chapters -------------------------------------------------------------

  /** Where the headings below a chapter end. */
  function ChapterEnd(hs: seq<OutlineHeading>, i: nat, top: nat): (end: nat)
    requires i <= |hs|
    ensures i <= end <= |hs|
    ensures forall k :: i <= k < end ==> hs[k].level > top
    ensures end < |hs| ==> hs[end].level <= top
    decreases |hs| - i
  {
    if i == |hs| || hs[i].level <= top then i else ChapterEnd(hs, i + 1, top)
  }

  function TitlesAt(hs: seq<OutlineHeading>, level: nat): (ts: seq<Text>)
    ensures forall t :: t in ts ==> exists h :: h in hs && h.title == t
  {
    if hs == [] then []
    else
      var front := TitlesAt(hs[..|hs| - 1], level);
      assert forall h :: h in hs[..|hs| - 1] ==> h in hs;
      if hs[|hs| - 1].level == level then front + [hs[|hs| - 1].title] else front
  }

  /** The titles directly below heading `i`: those of the highest level before the next heading at the top. */
  function Children(hs: seq<OutlineHeading>, i: nat, top: nat): (ts: seq<Text>)
    requires i < |hs|
  {
    var under := hs[i + 1..ChapterEnd(hs, i + 1, top)];
    if under == [] then [] else TitlesAt(under, TopLevel(under))
  }

  function ChapterAt(hs: seq<OutlineHeading>, i: nat, top: nat, plain: Text -> Text): Chapter
    requires i < |hs|
  {
    Chapter(hs[i].title, plain(hs[i].title), Children(hs, i, top))
  }

  function Chapters(hs: seq<OutlineHeading>, upTo: nat, top: nat, plain: Text -> Text): (cs: seq<Chapter>)
    requires upTo <= |hs|
    ensures |cs| <= upTo
  {
    if upTo == 0 then []
    else
      var front := Chapters(hs, upTo - 1, top, plain);
      if hs[upTo - 1].level == top then front + [ChapterAt(hs, upTo - 1, top, plain)] else front
  }

  method FindChapters(hs: seq<OutlineHeading>, top: nat, plain: Text -> Text) returns (cs: seq<Chapter>)
    ensures cs == Chapters(hs, |hs|, top, plain)
  {
    hide Children, ChapterEnd;
    cs := [];
    for i := 0 to |hs|
      invariant cs == Chapters(hs, i, top, plain)
    {
      if hs[i].level != top { continue; }
      cs := cs + [ChapterAt(hs, i, top, plain)];
    }
  }

  /** Every heading at the top level is a chapter. */
  lemma {:induction false} TopIsChapter(hs: seq<OutlineHeading>, upTo: nat, top: nat, plain: Text -> Text, i: nat) returns (c: nat)
    requires i < upTo <= |hs| && hs[i].level == top
    ensures c < |Chapters(hs, upTo, top, plain)| && Chapters(hs, upTo, top, plain)[c] == ChapterAt(hs, i, top, plain)
  {
    hide ChapterAt;
    if i == upTo - 1 {
      c := |Chapters(hs, upTo - 1, top, plain)|;
    } else {
      c := TopIsChapter(hs, upTo - 1, top, plain, i);
    }
  }

  /** And every chapter comes from one. */
  lemma {:induction false} ChapterIsTop(hs: seq<OutlineHeading>, upTo: nat, top: nat, plain: Text -> Text, c: nat) returns (i: nat)
    requires upTo <= |hs| && c < |Chapters(hs, upTo, top, plain)|
    ensures i < upTo && hs[i].level == top && Chapters(hs, upTo, top, plain)[c] == ChapterAt(hs, i, top, plain)
  {
    hide ChapterAt;
    if hs[upTo - 1].level == top && c == |Chapters(hs, upTo - 1, top, plain)| {
      i := upTo - 1;
    } else {
      i := ChapterIsTop(hs, upTo - 1, top, plain, c);
    }
  }

  // ---- The outline of a list of headings ------------------------------------

  ghost predicate AreTitles(hs: seq<OutlineHeading>) {
    forall h :: h in hs ==> IsHeadingTitle(h.title)
  }

  /** Taking the number off a title leaves a name. */
  ghost predicate LeavesNames(hs: seq<OutlineHeading>, plain: Text -> Text) {
    forall h :: h in hs ==> plain(h.title) != [] && IsTrimmed(plain(h.title))
  }

  lemma SomeChapter(kept: seq<OutlineHeading>, plain: Text -> Text)
    requires kept != []
    ensures Chapters(kept, |kept|, TopLevel(kept), plain) != []
  {
    var top := TopLevel(kept);
    assert exists h :: h in kept && h.level == top;
    var i :| 0 <= i < |kept| && kept[i].level == top;
    var c := TopIsChapter(kept, |kept|, top, plain, i);
  }

  /** Fewer than two headings are no outline. */
  function OutlineOf(hs: seq<OutlineHeading>, sectionCount: int, plain: Text -> Text, summarize: Text -> Option<Text>): seq<Section> {
    if |hs| < 2 then []
    else
      var kept := WithoutTitles(hs);
      SomeChapter(kept, plain);
      Outline(Chapters(kept, |kept|, TopLevel(kept), plain), sectionCount, summarize)
  }

  lemma ChildrenAreTitles(hs: seq<OutlineHeading>, i: nat, top: nat)
    requires AreTitles(hs) && i < |hs|
    ensures forall k :: 0 <= k < |Children(hs, i, top)| ==> IsHeadingTitle(Children(hs, i, top)[k])
  {
    hide IsHeadingTitle;
    var under := hs[i + 1..ChapterEnd(hs, i + 1, top)];
    forall k | 0 <= k < |Children(hs, i, top)| ensures IsHeadingTitle(Children(hs, i, top)[k]) {
      var t := Children(hs, i, top)[k];
      assert t in TitlesAt(under, TopLevel(under));
      var h :| h in under && h.title == t;
      assert h in hs;
    }
  }

  lemma ChaptersAreGood(hs: seq<OutlineHeading>, top: nat, plain: Text -> Text)
    requires AreTitles(hs) && LeavesNames(hs, plain)
    ensures forall c :: 0 <= c < |Chapters(hs, |hs|, top, plain)| ==> IsGoodChapter(Chapters(hs, |hs|, top, plain)[c])
  {
    hide Chapters, Children, IsHeadingTitle, IsTrimmed;
    forall c: nat | c < |Chapters(hs, |hs|, top, plain)| ensures IsGoodChapter(Chapters(hs, |hs|, top, plain)[c]) {
      var i := ChapterIsTop(hs, |hs|, top, plain, c);
      ChildrenAreTitles(hs, i, top);
      assert hs[i] in hs;
    }
  }

  /**
   With up to 144 headings at the top level, each of them is in the outline: as a
   section, as a lesson, or through all the headings directly below it.
   */
  lemma EveryTopHeadingIsPresent(hs: seq<OutlineHeading>, sectionCount: int, plain: Text -> Text, summarize: Text -> Option<Text>, i: nat)
    requires |hs| >= 2 && AreTitles(hs) && LeavesNames(hs, plain)
    requires i < |WithoutTitles(hs)| && WithoutTitles(hs)[i].level == TopLevel(WithoutTitles(hs))
    requires CountAt(WithoutTitles(hs), TopLevel(WithoutTitles(hs))) <= MAX_SECTIONS * MAX_LESSONS
    ensures var kept := WithoutTitles(hs);
      IsPresent(ChapterAt(kept, i, TopLevel(kept), plain), OutlineOf(hs, sectionCount, plain, summarize))
  {
    hide IsPresent, Outline, IsHeadingTitle, IsTrimmed, IsGoodChapter, Chapters, ChapterAt;
    var kept := WithoutTitles(hs);
    var top := TopLevel(kept);
    SomeChapter(kept, plain);
    ChaptersAreGood(kept, top, plain);
    ChaptersAreCounted(kept, top, plain);
    var c := TopIsChapter(kept, |kept|, top, plain, i);
    EveryChapterIsPresent(Chapters(kept, |kept|, top, plain), sectionCount, summarize, c);
  }

  lemma ChaptersAreCounted(hs: seq<OutlineHeading>, top: nat, plain: Text -> Text)
    ensures |Chapters(hs, |hs|, top, plain)| == CountAt(hs, top)
  {
    CountedUpTo(hs, |hs|, top, plain);
    assert hs[..|hs|] == hs;
  }

  lemma {:induction false} CountedUpTo(hs: seq<OutlineHeading>, upTo: nat, top: nat, plain: Text -> Text)
    requires upTo <= |hs|
    ensures |Chapters(hs, upTo, top, plain)| == CountAt(hs[..upTo], top)
  {
    hide ChapterAt;
    if upTo > 0 {
      CountedUpTo(hs, upTo - 1, top, plain);
      assert hs[..upTo][..upTo - 1] == hs[..upTo - 1];
    }
  }
}
