/**
 The outline made without the AI: how titles are cleaned, and the clamp that
 every outline passes, whoever made it.

 Main result: clamping twice is clamping once, and what passes unchanged is
 exactly what is within the limits (ClampIsIdempotent).
 */
module OfflineOutline {
  import opened Options
  import opened Texts

  const MAX_SECTIONS := 12
  const MAX_LESSONS := 12
  const MAX_TITLE := 160
  const MAX_SUMMARY := 500

  // ---- Titles ---------------------------------------------------------------

  /** Every run of whitespace as one space. */
  function SingleSpaced(t: Text): Text {
    if t == [] then []
    else
      var front, u := SingleSpaced(t[..|t| - 1]), t[|t| - 1];
      if !IsSpace(u) then front + [u]
      else if front != [] && front[|front| - 1] == SPACE then front
      else front + [SPACE]
  }

  function Cut(t: Text, n: nat): Text {
    if |t| <= n then t else t[..n]
  }

  function CleanTitle(t: Text): Text {
    Trim(Cut(Trim(SingleSpaced(t)), MAX_TITLE))
  }

  /** No whitespace but single spaces. */
  ghost predicate IsSpaced(t: Text) {
    && (forall i :: 0 <= i < |t| ==> IsSpace(t[i]) ==> t[i] == SPACE)
    && (forall i :: 0 <= i < |t| - 1 ==> !(t[i] == SPACE && t[i + 1] == SPACE))
  }

  lemma {:induction false} SingleSpacedIsSpaced(t: Text)
    ensures IsSpaced(SingleSpaced(t)) && |SingleSpaced(t)| <= |t|
  {
    if t != [] { SingleSpacedIsSpaced(t[..|t| - 1]); }
  }

  lemma {:induction false} SpacedIsUnchanged(t: Text)
    requires IsSpaced(t)
    ensures SingleSpaced(t) == t
  {
    if t != [] {
      var front := t[..|t| - 1];
      SpacedIsUnchanged(front);
      if front != [] { assert front[|front| - 1] == t[|t| - 2]; }
    }
  }

  lemma SliceIsSpaced(t: Text, i: nat, j: nat)
    requires IsSpaced(t) && i <= j <= |t|
    ensures IsSpaced(t[i..j])
  {
    hide IsSpace;
    var s := t[i..j];
    assert forall k :: 0 <= k < |s| ==> s[k] == t[i + k];
  }

  lemma TrimIsSpaced(t: Text)
    requires IsSpaced(t)
    ensures IsSpaced(Trim(t)) && IsTrimmed(Trim(t)) && |Trim(t)| <= |t|
  {
    TrimTrims(t);
    TrimStartIsSuffix(t);
    TrimEndIsPrefix(TrimStart(t));
    SliceIsSpaced(t, Leading(t), |t|);
    SliceIsSpaced(TrimStart(t), 0, |Trim(t)|);
    assert TrimStart(t)[0..|Trim(t)|] == Trim(t);
    assert t[Leading(t)..|t|] == t[Leading(t)..];
  }

  ghost predicate IsClean(t: Text) {
    IsSpaced(t) && IsTrimmed(t) && |t| <= MAX_TITLE
  }

  lemma CleanTitleIsClean(t: Text)
    ensures IsClean(CleanTitle(t))
    ensures IsClean(t) ==> CleanTitle(t) == t
  {
    hide SingleSpaced, Trim, IsSpaced, IsTrimmed;
    SingleSpacedIsSpaced(t);
    TrimIsSpaced(SingleSpaced(t));
    var once := Trim(SingleSpaced(t));
    CutIsSpaced(once, MAX_TITLE);
    TrimIsSpaced(Cut(once, MAX_TITLE));
    if IsClean(t) {
      SpacedIsUnchanged(t);
      TrimTrims(t);
    }
  }

  lemma CutIsSpaced(t: Text, n: nat)
    requires IsSpaced(t)
    ensures IsSpaced(Cut(t, n)) && |Cut(t, n)| <= n
  {
    if |t| > n {
      SliceIsSpaced(t, 0, n);
      assert t[0..n] == t[..n];
    }
  }

  // ---- Clamping -------------------------------------------------------------

  /** A value that is not a string is None. */
  datatype RawLesson = RawLesson(title: Option<Text>, summary: Option<Text>)

  datatype RawSection = RawSection(title: Option<Text>, lessons: seq<RawLesson>)

  datatype Lesson = Lesson(title: Text, summary: Option<Text>)

  datatype Section = Section(title: Text, free: bool, lessons: seq<Lesson>)

  function TitleOf(raw: Option<Text>): Text {
    if raw.None? then [] else CleanTitle(raw.value)
  }

  /** An empty summary is left out. */
  function SummaryOf(raw: Option<Text>): Option<Text> {
    if raw.None? then None
    else
      var s := Trim(Cut(Trim(raw.value), MAX_SUMMARY));
      if s == [] then None else Some(s)
  }

  /** The lessons with a title of at least two characters, cleaned up. */
  function GoodLessons(raw: seq<RawLesson>): seq<Lesson> {
    if raw == [] then []
    else
      var front, last := GoodLessons(raw[..|raw| - 1]), raw[|raw| - 1];
      if |TitleOf(last.title)| < 2 then front else front + [Lesson(TitleOf(last.title), SummaryOf(last.summary))]
  }

  function FirstFew<T>(items: seq<T>, n: nat): seq<T> {
    if |items| <= n then items else items[..n]
  }

  function GoodSections(raw: seq<RawSection>): seq<Section> {
    if raw == [] then []
    else
      var front, last := GoodSections(raw[..|raw| - 1]), raw[|raw| - 1];
      if |TitleOf(last.title)| < 2 then front
      else front + [Section(TitleOf(last.title), front == [], FirstFew(GoodLessons(last.lessons), MAX_LESSONS))]
  }

  /** The first 12 sections with a title, the first 12 lessons with a title of each, and one free preview. */
  function Clamped(raw: seq<RawSection>): seq<Section> {
    FirstFew(GoodSections(raw), MAX_SECTIONS)
  }

  lemma {:induction false} GoodLessonsGrow(raw: seq<RawLesson>, i: nat)
    requires i <= |raw|
    ensures GoodLessons(raw[..i]) <= GoodLessons(raw)
    decreases |raw|
  {
    if i < |raw| {
      GoodLessonsGrow(raw[..|raw| - 1], i);
      assert raw[..|raw| - 1][..i] == raw[..i];
    } else {
      assert raw[..i] == raw;
    }
  }

  lemma {:induction false} GoodSectionsGrow(raw: seq<RawSection>, i: nat)
    requires i <= |raw|
    ensures GoodSections(raw[..i]) <= GoodSections(raw)
    decreases |raw|
  {
    if i < |raw| {
      GoodSectionsGrow(raw[..|raw| - 1], i);
      assert raw[..|raw| - 1][..i] == raw[..i];
    } else {
      assert raw[..i] == raw;
    }
  }

  method ClampLessons(raw: seq<RawLesson>) returns (lessons: seq<Lesson>)
    ensures lessons == FirstFew(GoodLessons(raw), MAX_LESSONS)
  {
    hide TitleOf, SummaryOf;
    lessons := [];
    var i := 0;
    while i < |raw|
      invariant 0 <= i <= |raw| && |lessons| <= MAX_LESSONS
      invariant lessons == GoodLessons(raw[..i])
    {
      if |lessons| >= MAX_LESSONS { break; }
      assert raw[..i + 1][..i] == raw[..i];
      var title := TitleOf(raw[i].title);
      if |title| >= 2 {
        lessons := lessons + [Lesson(title, SummaryOf(raw[i].summary))];
      }
      i := i + 1;
    }
    GoodLessonsGrow(raw, i);
    assert raw[..|raw|] == raw;
  }

  method Clamp(raw: seq<RawSection>) returns (sections: seq<Section>)
    ensures sections == Clamped(raw)
  {
    hide TitleOf, GoodLessons;
    sections := [];
    var i := 0;
    while i < |raw|
      invariant 0 <= i <= |raw| && |sections| <= MAX_SECTIONS
      invariant sections == GoodSections(raw[..i])
    {
      if |sections| >= MAX_SECTIONS { break; }
      assert raw[..i + 1][..i] == raw[..i];
      var title := TitleOf(raw[i].title);
      if |title| >= 2 {
        var lessons := ClampLessons(raw[i].lessons);
        sections := sections + [Section(title, sections == [], lessons)];
      }
      i := i + 1;
    }
    GoodSectionsGrow(raw, i);
    assert raw[..|raw|] == raw;
  }

  // ---- Clamping is idempotent -----------------------------------------------

  function RawOfLessons(ls: seq<Lesson>): (raw: seq<RawLesson>)
    ensures |raw| == |ls| && forall i :: 0 <= i < |ls| ==> raw[i] == RawLesson(Some(ls[i].title), ls[i].summary)
  {
    if ls == [] then [] else RawOfLessons(ls[..|ls| - 1]) + [RawLesson(Some(ls[|ls| - 1].title), ls[|ls| - 1].summary)]
  }

  function RawOf(ss: seq<Section>): (raw: seq<RawSection>)
    ensures |raw| == |ss| && forall i :: 0 <= i < |ss| ==> raw[i] == RawSection(Some(ss[i].title), RawOfLessons(ss[i].lessons))
  {
    if ss == [] then [] else RawOf(ss[..|ss| - 1]) + [RawSection(Some(ss[|ss| - 1].title), RawOfLessons(ss[|ss| - 1].lessons))]
  }

  ghost predicate LessonIsFine(l: Lesson) {
    IsClean(l.title) && |l.title| >= 2 && SummaryOf(l.summary) == l.summary
  }

  ghost predicate SectionIsFine(s: Section) {
    IsClean(s.title) && |s.title| >= 2 && |s.lessons| <= MAX_LESSONS && forall i :: 0 <= i < |s.lessons| ==> LessonIsFine(s.lessons[i])
  }

  /** What the course service accepts without a complaint. */
  ghost predicate IsAcceptable(ss: seq<Section>) {
    && |ss| <= MAX_SECTIONS
    && (forall i :: 0 <= i < |ss| ==> SectionIsFine(ss[i]) && (ss[i].free <==> i == 0))
  }

  lemma SummaryIsFine(raw: Option<Text>)
    ensures SummaryOf(SummaryOf(raw)) == SummaryOf(raw)
  {
    hide Trim, IsTrimmed;
    if raw.Some? {
      var once := Trim(Cut(Trim(raw.value), MAX_SUMMARY));
      TrimTrims(Cut(Trim(raw.value), MAX_SUMMARY));
      TrimTrims(once);
    }
  }

  lemma {:induction false} GoodLessonsAreFine(raw: seq<RawLesson>)
    ensures forall i :: 0 <= i < |GoodLessons(raw)| ==> LessonIsFine(GoodLessons(raw)[i])
  {
    hide CleanTitle, IsClean, SummaryOf;
    if raw != [] {
      GoodLessonsAreFine(raw[..|raw| - 1]);
      var last := raw[|raw| - 1];
      if last.title.Some? { CleanTitleIsClean(last.title.value); }
      SummaryIsFine(last.summary);
    }
  }

  lemma {:induction false} GoodSectionsAreFine(raw: seq<RawSection>)
    ensures forall i :: 0 <= i < |GoodSections(raw)| ==> SectionIsFine(GoodSections(raw)[i]) && (GoodSections(raw)[i].free <==> i == 0)
  {
    hide CleanTitle, IsClean, LessonIsFine;
    if raw != [] {
      GoodSectionsAreFine(raw[..|raw| - 1]);
      var last := raw[|raw| - 1];
      if last.title.Some? { CleanTitleIsClean(last.title.value); }
      GoodLessonsAreFine(last.lessons);
    }
  }

  /** Whatever comes in, what comes out is acceptable. */
  lemma ClampedIsAcceptable(raw: seq<RawSection>)
    ensures IsAcceptable(Clamped(raw))
  {
    GoodSectionsAreFine(raw);
    hide SectionIsFine;
  }

  lemma {:induction false} FineLessonsStay(ls: seq<Lesson>)
    requires forall i :: 0 <= i < |ls| ==> LessonIsFine(ls[i])
    ensures GoodLessons(RawOfLessons(ls)) == ls
  {
    hide CleanTitle, SummaryOf, IsClean;
    if ls != [] {
      var front, last := ls[..|ls| - 1], ls[|ls| - 1];
      FineLessonsStay(front);
      CleanTitleIsClean(last.title);
      assert RawOfLessons(ls)[..|ls| - 1] == RawOfLessons(front);
      assert ls == front + [last];
    }
  }

  lemma {:induction false} FineSectionsStay(ss: seq<Section>)
    requires forall i :: 0 <= i < |ss| ==> SectionIsFine(ss[i]) && (ss[i].free <==> i == 0)
    ensures GoodSections(RawOf(ss)) == ss
  {
    hide SectionIsFine, GoodSections, RawOfLessons;
    NoSections();
    if ss != [] {
      var front, last := ss[..|ss| - 1], ss[|ss| - 1];
      FineSectionsStay(front);
      FineSectionStays(front, last);
      assert ss == front + [last];
    }
  }

  lemma NoSections()
    ensures GoodSections([]) == []
  {
  }

  lemma FineSectionStays(front: seq<Section>, last: Section)
    requires GoodSections(RawOf(front)) == front && SectionIsFine(last) && (last.free <==> front == [])
    ensures GoodSections(RawOf(front) + [RawSection(Some(last.title), RawOfLessons(last.lessons))]) == front + [last]
  {
    hide CleanTitle, IsClean, LessonIsFine, GoodLessons, RawOfLessons;
    CleanTitleIsClean(last.title);
    FineLessonsStay(last.lessons);
    var raw := RawOf(front) + [RawSection(Some(last.title), RawOfLessons(last.lessons))];
    assert raw[..|raw| - 1] == RawOf(front);
  }

  /** Clamping what was clamped changes nothing; more generally, exactly what is acceptable passes unchanged. */
  lemma ClampIsIdempotent(raw: seq<RawSection>, ss: seq<Section>)
    ensures Clamped(RawOf(Clamped(raw))) == Clamped(raw)
    ensures Clamped(RawOf(ss)) == ss <==> IsAcceptable(ss)
  {
    ClampedIsAcceptable(raw);
    FineSectionsStay(Clamped(raw));
    ClampedIsAcceptable(RawOf(ss));
    if IsAcceptable(ss) { FineSectionsStay(ss); }
  }
}
