/**
 Grouping a document's chapters into sections, and splitting sections with too
 many lessons, before the clamp. Main result: no chapter is lost
 (EveryChapterIsPresent).
 */
module OutlineGroups {
  import opened Options
  import opened Texts
  import opened Arithmetic
  import opened OfflineOutline
  import CanonicalJson

  /** A top-level heading: its title, the title without its number, and the headings directly below. */
  datatype Chapter = Chapter(title: Text, plain: Text, children: seq<Text>)

  // ---- Groups ---------------------------------------------------------------

  /** As many groups as asked for, and more when a chapter each would not fit. */
  function GroupCount(n: nat, sectionCount: int): (groups: nat)
    requires n > 0
    ensures 1 <= groups <= MAX_SECTIONS && groups <= n
    ensures n <= MAX_SECTIONS * MAX_LESSONS ==> n <= MAX_LESSONS * groups
  {
    var target := Max(1, Min(sectionCount, MAX_SECTIONS));
    Min(MAX_SECTIONS, Max(Min(n, target), (n + MAX_LESSONS - 1) / MAX_LESSONS))
  }

  /** Where group g starts among n chapters in `groups` groups; it ends where the next one starts. */
  function GroupStart(n: nat, groups: nat, g: nat): int
    requires groups > 0
  {
    g * n / groups
  }

  lemma GroupBounds(n: nat, groups: nat, g: nat)
    requires 0 < groups <= n && g < groups
    ensures 0 <= GroupStart(n, groups, g) < GroupStart(n, groups, g + 1) <= n
    ensures n <= MAX_LESSONS * groups ==> GroupStart(n, groups, g + 1) <= GroupStart(n, groups, g) + MAX_LESSONS
  {
    var q := GroupStart(n, groups, g);
    DivBounds(g * n, groups);
    DivAtLeast(g * n, groups, 0);
    assert (g + 1) * n == g * n + n;
    assert q * groups + groups == (q + 1) * groups;
    DivAtLeast((g + 1) * n, groups, q + 1);
    MulMono(g + 1, groups, n);
    assert groups * n == n * groups && n * groups + groups == (n + 1) * groups;
    DivLess((g + 1) * n, groups, n + 1);
    if n <= MAX_LESSONS * groups {
      assert (q + 1) * groups + MAX_LESSONS * groups == (q + 13) * groups;
      DivLess((g + 1) * n, groups, q + 13);
    }
  }

  lemma GroupEnds(n: nat, groups: nat)
    requires groups > 0
    ensures GroupStart(n, groups, 0) == 0 && GroupStart(n, groups, groups) == n
  {
    QuotientIs(0, groups, 0);
    assert groups * n == n * groups;
    QuotientIs(groups * n, groups, n);
  }

  /** Every chapter is in a group. */
  lemma {:induction false} GroupOf(n: nat, groups: nat, c: nat, upTo: nat) returns (g: nat)
    requires 0 < groups <= n && upTo <= groups && c < GroupStart(n, groups, upTo)
    ensures g < groups && GroupStart(n, groups, g) <= c < GroupStart(n, groups, g + 1)
  {
    hide GroupStart;
    GroupEnds(n, groups);
    g := upTo - 1;
    if c < GroupStart(n, groups, g) { g := GroupOf(n, groups, c, g); }
  }

  function Group(chapters: seq<Chapter>, groups: nat, g: nat): (group: seq<Chapter>)
    requires 0 < groups <= |chapters| && g < groups
    ensures group != []
    ensures |chapters| <= MAX_LESSONS * groups ==> |group| <= MAX_LESSONS
  {
    GroupBounds(|chapters|, groups, g);
    chapters[GroupStart(|chapters|, groups, g)..GroupStart(|chapters|, groups, g + 1)]
  }

  function FirstGroups(chapters: seq<Chapter>, groups: nat, g: nat): seq<Chapter>
    requires 0 < groups <= |chapters| && g <= groups
  {
    if g == 0 then [] else FirstGroups(chapters, groups, g - 1) + Group(chapters, groups, g - 1)
  }

  lemma {:induction false} FirstGroupsArePrefix(chapters: seq<Chapter>, groups: nat, g: nat)
    requires 0 < groups <= |chapters| && g <= groups
    ensures 0 <= GroupStart(|chapters|, groups, g) <= |chapters|
    ensures FirstGroups(chapters, groups, g) == chapters[..GroupStart(|chapters|, groups, g)]
  {
    GroupEnds(|chapters|, groups);
    if g > 0 {
      hide GroupStart;
      FirstGroupsArePrefix(chapters, groups, g - 1);
      GroupBounds(|chapters|, groups, g - 1);
    }
  }

  /** The groups, one after the other, are the chapters: none is lost, repeated or moved. */
  lemma GroupsPartition(chapters: seq<Chapter>, groups: nat)
    requires 0 < groups <= |chapters|
    ensures FirstGroups(chapters, groups, groups) == chapters
  {
    FirstGroupsArePrefix(chapters, groups, groups);
    GroupEnds(|chapters|, groups);
    hide GroupStart;
    assert chapters[..|chapters|] == chapters;
  }

  // ---- Sections -------------------------------------------------------------

  function Topics(c: Chapter): (ts: seq<Text>)
    ensures ts != []
  {
    if c.children == [] then [c.title] else c.children
  }

  function AllTopics(group: seq<Chapter>): seq<Text> {
    if group == [] then [] else AllTopics(group[..|group| - 1]) + Topics(group[|group| - 1])
  }

  function Titles(group: seq<Chapter>): (ts: seq<Text>)
    ensures |ts| == |group| && forall i :: 0 <= i < |group| ==> ts[i] == group[i].title
  {
    if group == [] then [] else Titles(group[..|group| - 1]) + [group[|group| - 1].title]
  }

  function Plains(group: seq<Chapter>): (ts: seq<Text>)
    ensures |ts| == |group| && forall i :: 0 <= i < |group| ==> ts[i] == group[i].plain
  {
    if group == [] then [] else Plains(group[..|group| - 1]) + [group[|group| - 1].plain]
  }

  function GroupTitle(plain: seq<Text>): Text
    requires |plain| >= 2
  {
    var last := plain[|plain| - 1];
    var listed := Join(plain[..|plain| - 1], Lit(", ")) + Lit(" & ") + last;
    if |listed| <= 120 then listed else plain[0] + [SPACE, 0x2013, SPACE] + last
  }

  function LessonsNamed(titles: seq<Text>, summarize: Text -> Option<Text>): (ls: seq<Lesson>)
    ensures |ls| == |titles| && forall i :: 0 <= i < |titles| ==> ls[i].title == titles[i]
  {
    if titles == [] then []
    else LessonsNamed(titles[..|titles| - 1], summarize) + [Lesson(titles[|titles| - 1], summarize(titles[|titles| - 1]))]
  }

  /** A lone chapter keeps its name and topics; several share a section. */
  function SectionOf(group: seq<Chapter>, summarize: Text -> Option<Text>): Section
    requires group != []
  {
    if |group| == 1 then Section(group[0].title, false, LessonsNamed(Topics(group[0]), summarize))
    else if |AllTopics(group)| <= MAX_LESSONS then Section(GroupTitle(Plains(group)), false, LessonsNamed(AllTopics(group), summarize))
    else
      var kept := if |group| <= MAX_LESSONS then group else group[..MAX_LESSONS];
      Section(GroupTitle(Plains(kept)), false, LessonsNamed(Titles(kept), summarize))
  }

  function SectionsOf(chapters: seq<Chapter>, groups: nat, upTo: nat, summarize: Text -> Option<Text>): (ss: seq<Section>)
    requires 0 < groups <= |chapters| && upTo <= groups
    ensures |ss| == upTo
  {
    if upTo == 0 then []
    else SectionsOf(chapters, groups, upTo - 1, summarize) + [SectionOf(Group(chapters, groups, upTo - 1), summarize)]
  }

  lemma {:induction false} SectionsAt(chapters: seq<Chapter>, groups: nat, upTo: nat, summarize: Text -> Option<Text>, g: nat)
    requires 0 < groups <= |chapters| && g < upTo <= groups
    ensures SectionsOf(chapters, groups, upTo, summarize)[g] == SectionOf(Group(chapters, groups, g), summarize)
  {
    hide SectionOf, Group;
    if g < upTo - 1 { SectionsAt(chapters, groups, upTo - 1, summarize, g); }
  }

  // ---- Splitting long sections ----------------------------------------------

  function CeilDiv(a: nat, b: nat): nat
    requires b > 0
  {
    (a + b - 1) / b
  }

  function PartTitle(base: Text, p: nat): Text {
    base + Lit(" (part ") + Lit(CanonicalJson.Digits(p)) + Lit(")")
  }

  /** In how many sections a section goes when there is room for `room` more. */
  function PartCount(s: Section, room: int): nat {
    Min(CeilDiv(|s.lessons|, MAX_LESSONS), 1 + Max(0, room))
  }

  function PartSize(s: Section, parts: nat): nat
    requires parts > 0
  {
    Min(MAX_LESSONS, CeilDiv(|s.lessons|, parts))
  }

  function Clip(i: nat, n: nat): (c: nat)
    ensures c <= n
  {
    if i < n then i else n
  }

  function Part(s: Section, parts: nat, p: nat): Section
    requires parts > 0
  {
    var size, n := PartSize(s, parts), |s.lessons|;
    Section(
      PartTitle(Trim(Cut(s.title, MAX_TITLE - 12)), p + 1), s.free,
      if Clip(p * size, n) <= Clip((p + 1) * size, n) then s.lessons[Clip(p * size, n)..Clip((p + 1) * size, n)] else [])
  }

  function FirstParts(s: Section, parts: nat, upTo: nat): (ps: seq<Section>)
    requires parts > 0
    ensures |ps| == upTo
  {
    if upTo == 0 then [] else FirstParts(s, parts, upTo - 1) + [Part(s, parts, upTo - 1)]
  }

  lemma {:induction false} FirstPartsAt(s: Section, parts: nat, upTo: nat)
    requires parts > 0
    ensures forall p: nat :: p < upTo ==> FirstParts(s, parts, upTo)[p] == Part(s, parts, p)
  {
    hide Part;
    if upTo > 0 { FirstPartsAt(s, parts, upTo - 1); }
  }

  function SplitOne(s: Section, room: int): (ps: seq<Section>)
    ensures ps != []
  {
    if PartCount(s, room) <= 1 then [s] else FirstParts(s, PartCount(s, room), PartCount(s, room))
  }

  function RoomAfter(s: Section, room: int): int {
    if PartCount(s, room) <= 1 then room else room - (PartCount(s, room) - 1)
  }

  function SplitLong(ss: seq<Section>, room: int): seq<Section> {
    if ss == [] then [] else SplitOne(ss[0], room) + SplitLong(ss[1..], RoomAfter(ss[0], room))
  }

  method SplitLongSections(ss: seq<Section>) returns (out: seq<Section>)
    ensures out == SplitLong(ss, MAX_SECTIONS - |ss|)
  {
    hide SplitOne, RoomAfter, SplitLong;
    var room := MAX_SECTIONS - |ss|;
    out := [];
    var i := 0;
    assert ss[0..] == ss;
    assert out + SplitLong(ss[0..], room) == SplitLong(ss, room);
    while i < |ss|
      invariant 0 <= i <= |ss|
      invariant out + SplitLong(ss[i..], room) == SplitLong(ss, MAX_SECTIONS - |ss|)
    {
      SplitStep(out, ss, i, room);
      var parts;
      parts, room := SplitSection(ss[i], room);
      out := out + parts;
      i := i + 1;
    }
    NothingToSplit(out, room);
    assert ss[i..] == [];
  }

  method SplitSection(s: Section, room: int) returns (ps: seq<Section>, left: int)
    ensures ps == SplitOne(s, room) && left == RoomAfter(s, room)
  {
    var parts := PartCount(s, room);
    if parts <= 1 { return [s], room; }
    ps, left := FirstParts(s, parts, parts), room - (parts - 1);
  }

  lemma SplitStep(out: seq<Section>, ss: seq<Section>, i: nat, room: int)
    requires i < |ss|
    ensures out + SplitLong(ss[i..], room) == (out + SplitOne(ss[i], room)) + SplitLong(ss[i + 1..], RoomAfter(ss[i], room))
  {
    hide SplitOne, RoomAfter;
    assert ss[i..][0] == ss[i] && ss[i..][1..] == ss[i + 1..];
  }

  lemma NothingToSplit(out: seq<Section>, room: int)
    ensures out + SplitLong([], room) == out
  {
  }

  /** Splitting never makes more sections than there is room for. */
  lemma {:induction false} SplitFits(ss: seq<Section>, room: int)
    ensures |SplitLong(ss, room)| <= |ss| + Max(0, room)
  {
    hide CeilDiv;
    if ss != [] {
      SplitFits(ss[1..], RoomAfter(ss[0], room));
    }
  }

  // ---- The whole outline ----------------------------------------------------

  /** Chapters to sections, long sections split, and everything clamped. */
  function Outline(chapters: seq<Chapter>, sectionCount: int, summarize: Text -> Option<Text>): seq<Section>
    requires chapters != []
  {
    var groups := GroupCount(|chapters|, sectionCount);
    Clamped(RawOf(SplitLong(SectionsOf(chapters, groups, groups, summarize), MAX_SECTIONS - groups)))
  }

  /** Titles as they come from a document's outline: trimmed, of two characters or more. */
  predicate IsHeadingTitle(t: Text) {
    IsTrimmed(t) && |t| >= 2
  }

  /** What the first section of a chapter that was split is called. */
  function FirstPartName(t: Text): Text {
    CleanTitle(PartTitle(Trim(Cut(t, MAX_TITLE - 12)), 1))
  }

  ghost predicate IsGoodChapter(c: Chapter) {
    && IsHeadingTitle(c.title)
    && (forall i :: 0 <= i < |c.children| ==> IsHeadingTitle(c.children[i]))
    && c.plain != [] && IsTrimmed(c.plain)
  }

  /** As a section of its own, under its clean name or as its first part. */
  ghost predicate IsSectionTitle(t: Text, out: seq<Section>) {
    exists i :: 0 <= i < |out| && (out[i].title == CleanTitle(t) || out[i].title == FirstPartName(t))
  }

  ghost predicate HasLesson(s: Section, t: Text) {
    exists i :: 0 <= i < |s.lessons| && s.lessons[i].title == t
  }

  ghost predicate IsLesson(t: Text, out: seq<Section>) {
    exists i :: 0 <= i < |out| && HasLesson(out[i], CleanTitle(t))
  }

  ghost predicate IsPresent(c: Chapter, out: seq<Section>) {
    || IsSectionTitle(c.title, out)
    || IsLesson(c.title, out)
    || (c.children != [] && forall i :: 0 <= i < |c.children| ==> IsLesson(c.children[i], out))
  }

  // ---- What a section holds before splitting and clamping -------------------

  /** How a section stands for one of its chapters. */
  ghost predicate StandsFor(s: Section, c: Chapter) {
    || s.title == c.title
    || (|s.lessons| <= MAX_LESSONS
        && (HasLesson(s, c.title) || (c.children != [] && forall i :: 0 <= i < |c.children| ==> HasLesson(s, c.children[i]))))
  }

  lemma NamedLessons(titles: seq<Text>, summarize: Text -> Option<Text>, s: Section, t: Text)
    requires s.lessons == LessonsNamed(titles, summarize) && t in titles
    ensures HasLesson(s, t)
  {
    var i :| 0 <= i < |titles| && titles[i] == t;
    assert s.lessons[i].title == t;
  }

  lemma {:induction false} TopicsAreListed(group: seq<Chapter>, c: Chapter)
    requires c in group
    ensures forall t :: t in Topics(c) ==> t in AllTopics(group)
  {
    if c != group[|group| - 1] {
      var i :| 0 <= i < |group| && group[i] == c;
      assert c == group[..|group| - 1][i];
      TopicsAreListed(group[..|group| - 1], c);
    }
  }

  lemma TopicsStand(group: seq<Chapter>, c: Chapter, s: Section, summarize: Text -> Option<Text>)
    requires c in group && |AllTopics(group)| <= MAX_LESSONS && s.lessons == LessonsNamed(AllTopics(group), summarize)
    ensures StandsFor(s, c)
  {
    hide AllTopics, HasLesson, LessonsNamed;
    TopicsAreListed(group, c);
    if c.children == [] {
      assert c.title in Topics(c);
      NamedLessons(AllTopics(group), summarize, s, c.title);
    } else {
      forall i | 0 <= i < |c.children| ensures HasLesson(s, c.children[i]) {
        assert c.children[i] in Topics(c);
        NamedLessons(AllTopics(group), summarize, s, c.children[i]);
      }
    }
  }

  lemma TitlesStand(group: seq<Chapter>, c: Chapter, s: Section, summarize: Text -> Option<Text>)
    requires c in group && |group| <= MAX_LESSONS && s.lessons == LessonsNamed(Titles(group), summarize)
    ensures StandsFor(s, c)
  {
    hide HasLesson, LessonsNamed;
    var i :| 0 <= i < |group| && group[i] == c;
    assert Titles(group)[i] == c.title;
    NamedLessons(Titles(group), summarize, s, c.title);
  }

  lemma SectionStandsForAll(group: seq<Chapter>, c: Chapter, summarize: Text -> Option<Text>)
    requires c in group && |group| <= MAX_LESSONS
    ensures StandsFor(SectionOf(group, summarize), c)
  {
    hide AllTopics, HasLesson, GroupTitle, LessonsNamed, Titles, Plains, Topics;
    var s := SectionOf(group, summarize);
    if |group| == 1 {
      assert c == group[0];
    } else if |AllTopics(group)| <= MAX_LESSONS {
      TopicsStand(group, c, s, summarize);
    } else {
      TitlesStand(group, c, s, summarize);
    }
  }

  // ---- What splitting keeps -------------------------------------------------

  /** A section that needs no splitting, or the first part of one that was split. */
  ghost predicate ComesFrom(p: Section, s: Section) {
    p == s || (|s.lessons| > MAX_LESSONS && p.title == PartTitle(Trim(Cut(s.title, MAX_TITLE - 12)), 1))
  }

  lemma SplitOneKeeps(s: Section, room: int)
    ensures ComesFrom(SplitOne(s, room)[0], s)
  {
    if |s.lessons| <= MAX_LESSONS {
      DivLess(|s.lessons| + MAX_LESSONS - 1, MAX_LESSONS, 2);
    }
    if PartCount(s, room) > 1 { FirstPartsAt(s, PartCount(s, room), PartCount(s, room)); }
    hide CeilDiv;
  }

  lemma {:induction false} SplitKeeps(ss: seq<Section>, room: int, k: nat) returns (j: nat)
    requires k < |ss|
    ensures j < |SplitLong(ss, room)| && ComesFrom(SplitLong(ss, room)[j], ss[k])
  {
    hide ComesFrom, SplitOne, RoomAfter;
    var first := SplitOne(ss[0], room);
    if k == 0 {
      SplitOneKeeps(ss[0], room);
      j := 0;
    } else {
      var i := SplitKeeps(ss[1..], RoomAfter(ss[0], room), k - 1);
      j := |first| + i;
    }
  }

  // ---- What clamping keeps --------------------------------------------------

  /** A section the clamp keeps, with its lessons when there are not too many. */
  ghost predicate Survives(p: Section) {
    |CleanTitle(p.title)| >= 2 && forall i :: 0 <= i < |p.lessons| ==> IsHeadingTitle(p.lessons[i].title)
  }

  lemma {:induction false} HeadingLessonsStay(ls: seq<Lesson>)
    requires forall i :: 0 <= i < |ls| ==> IsHeadingTitle(ls[i].title)
    ensures |GoodLessons(RawOfLessons(ls))| == |ls|
    ensures forall i :: 0 <= i < |ls| ==> GoodLessons(RawOfLessons(ls))[i].title == CleanTitle(ls[i].title)
  {
    hide CleanTitle, IsHeadingTitle, SummaryOf;
    if ls != [] {
      var front, last := ls[..|ls| - 1], ls[|ls| - 1];
      HeadingLessonsStay(front);
      HeadingTitleEnds(last.title);
      assert RawOfLessons(ls)[..|ls| - 1] == RawOfLessons(front);
    }
  }

  /** How a section comes out of the clamp. */
  ghost predicate ClampedTo(p: Section, q: Section) {
    && q.title == CleanTitle(p.title)
    && (|p.lessons| <= MAX_LESSONS ==> |q.lessons| == |p.lessons| && forall i :: 0 <= i < |p.lessons| ==> q.lessons[i].title == CleanTitle(p.lessons[i].title))
  }

  lemma {:induction false} SectionsSurvive(ss: seq<Section>)
    requires forall k :: 0 <= k < |ss| ==> Survives(ss[k])
    ensures |GoodSections(RawOf(ss))| == |ss|
    ensures forall k :: 0 <= k < |ss| ==> ClampedTo(ss[k], GoodSections(RawOf(ss))[k])
  {
    hide CleanTitle, IsHeadingTitle, GoodLessons, RawOfLessons;
    if ss != [] {
      var front, last := ss[..|ss| - 1], ss[|ss| - 1];
      SectionsSurvive(front);
      HeadingLessonsStay(last.lessons);
      assert RawOf(ss)[..|ss| - 1] == RawOf(front);
    }
  }

  // ---- Nothing is too short for the clamp -----------------------------------

  lemma {:induction false} SingleSpacedEnds(t: Text)
    requires t != [] && !IsSpace(t[0])
    ensures SingleSpaced(t) != [] && SingleSpaced(t)[0] == t[0]
    ensures !IsSpace(t[|t| - 1]) ==> SingleSpaced(t)[|SingleSpaced(t)| - 1] == t[|t| - 1]
    ensures |t| >= 2 && !IsSpace(t[|t| - 1]) ==> |SingleSpaced(t)| >= 2
  {
    hide IsSpace;
    if |t| > 1 {
      SingleSpacedEnds(t[..|t| - 1]);
    } else {
      assert t[..0] == [] && SingleSpaced(t[..0]) == [];
    }
  }

  /** A text of two characters or more between non-blank ends makes a title. */
  lemma CleanTitleIsLongEnough(t: Text)
    requires |t| >= 2 && !IsSpace(t[0]) && !IsSpace(t[|t| - 1])
    ensures |CleanTitle(t)| >= 2
  {
    var once := SingleSpaced(t);
    SingleSpacedEnds(t);
    SingleSpacedIsSpaced(t);
    TrimTrims(once);
    hide SingleSpaced;
    if |once| > MAX_TITLE {
      TrimOfSpaced(once[..MAX_TITLE]);
    } else {
      TrimTrims(once);
    }
  }

  lemma OneSpaceAtTheEnd(t: Text)
    requires IsSpaced(t)
    ensures |TrimEnd(t)| >= |t| - 1
  {
    if |t| >= 2 && IsSpace(t[|t| - 1]) {
      assert t[|t| - 2 + 1] == SPACE;
      assert !IsSpace(t[|t| - 2]);
      assert TrimEnd(t[..|t| - 1]) == t[..|t| - 1];
    }
  }

  lemma TrimOfSpaced(t: Text)
    requires |t| == MAX_TITLE && IsSpaced(t) && !IsSpace(t[0])
    ensures |Trim(t)| >= 2
  {
    assert TrimStart(t) == t;
    OneSpaceAtTheEnd(t);
  }

  lemma HeadingTitleEnds(t: Text)
    requires IsHeadingTitle(t)
    ensures |t| >= 2 && !IsSpace(t[0]) && !IsSpace(t[|t| - 1]) && |CleanTitle(t)| >= 2
  {
    TrimmedEnds(t);
    CleanTitleIsLongEnough(t);
  }

  lemma TrimmedEnds(t: Text)
    requires IsTrimmed(t) && t != []
    ensures !IsSpace(t[0]) && !IsSpace(t[|t| - 1])
  {
    hide IsSpace;
  }

  lemma BetweenEnds(a: Text, middle: Text, b: Text)
    requires a != [] && b != [] && IsTrimmed(a) && IsTrimmed(b)
    ensures |CleanTitle(a + middle + b)| >= 2
  {
    var t := a + middle + b;
    assert t[0] == a[0] && t[|t| - 1] == b[|b| - 1];
    CleanTitleIsLongEnough(t);
  }

  lemma {:induction false} JoinStarts(parts: seq<Text>, sep: Text)
    requires parts != [] && parts[0] != []
    ensures exists rest :: Join(parts, sep) == parts[0] + rest
  {
    if |parts| == 1 {
      assert Join(parts, sep) == parts[0] + [];
    } else {
      JoinStarts(parts[..|parts| - 1], sep);
      var rest :| Join(parts[..|parts| - 1], sep) == parts[0] + rest;
      assert Join(parts, sep) == parts[0] + (rest + sep + parts[|parts| - 1]);
    }
  }

  lemma GroupTitleIsLongEnough(plain: seq<Text>)
    requires |plain| >= 2 && forall i :: 0 <= i < |plain| ==> plain[i] != [] && IsTrimmed(plain[i])
    ensures |CleanTitle(GroupTitle(plain))| >= 2
  {
    hide CleanTitle, Lit, IsTrimmed;
    var first, last := plain[0], plain[|plain| - 1];
    JoinStarts(plain[..|plain| - 1], Lit(", "));
    var rest :| Join(plain[..|plain| - 1], Lit(", ")) == first + rest;
    assert Join(plain[..|plain| - 1], Lit(", ")) + Lit(" & ") + last == first + (rest + Lit(" & ")) + last;
    BetweenEnds(first, rest + Lit(" & "), last);
    BetweenEnds(first, [SPACE, 0x2013, SPACE], last);
  }

  lemma LastBracket()
    ensures Lit(")") != [] && IsTrimmed(Lit(")"))
  {
    assert Lit(")")[0] == ')' as int;
  }

  lemma PartTitleEnds(t: Text, p: nat)
    requires IsTrimmed(t) && t != []
    ensures |CleanTitle(PartTitle(t, p))| >= 2
  {
    LastBracket();
    hide Lit, CleanTitle, CanonicalJson.Digits;
    BetweenEnds(t, Lit(" (part ") + Lit(CanonicalJson.Digits(p)), Lit(")"));
    assert t + (Lit(" (part ") + Lit(CanonicalJson.Digits(p))) + Lit(")") == PartTitle(t, p);
  }

  /** A section that survives, and whose name survives a split. */
  ghost predicate IsSturdy(s: Section) {
    Survives(s) && (|s.lessons| > MAX_LESSONS ==> IsHeadingTitle(s.title))
  }

  lemma {:induction false} TopicsAreTitles(group: seq<Chapter>)
    requires forall i :: 0 <= i < |group| ==> IsGoodChapter(group[i])
    ensures forall i :: 0 <= i < |AllTopics(group)| ==> IsHeadingTitle(AllTopics(group)[i])
  {
    hide IsHeadingTitle;
    if group != [] { TopicsAreTitles(group[..|group| - 1]); }
  }

  lemma GroupSectionIsSturdy(group: seq<Chapter>, summarize: Text -> Option<Text>)
    requires group != [] && forall i :: 0 <= i < |group| ==> IsGoodChapter(group[i])
    ensures IsSturdy(SectionOf(group, summarize))
  {
    hide IsHeadingTitle, CleanTitle, GroupTitle, AllTopics, IsTrimmed, Topics, Plains, Titles, LessonsNamed;
    if |group| == 1 {
      HeadingTitleEnds(group[0].title);
      TopicsOfOne(group[0]);
    } else {
      var kept := if |group| <= MAX_LESSONS then group else group[..MAX_LESSONS];
      GroupTitleIsLongEnough(Plains(group));
      GroupTitleIsLongEnough(Plains(kept));
      TopicsAreTitles(group);
    }
  }

  lemma TopicsOfOne(c: Chapter)
    requires IsGoodChapter(c)
    ensures forall i :: 0 <= i < |Topics(c)| ==> IsHeadingTitle(Topics(c)[i])
  {
    hide IsHeadingTitle;
  }

  lemma PartIsSturdy(s: Section, parts: nat, p: nat)
    requires IsSturdy(s) && |s.lessons| > MAX_LESSONS && parts > 0
    ensures Survives(Part(s, parts, p))
  {
    hide CleanTitle, PartTitle, PartSize, Clip, Trim, IsTrimmed;
    NameStays(s.title);
    PartTitleEnds(Trim(Cut(s.title, MAX_TITLE - 12)), p + 1);
    hide IsHeadingTitle;
  }

  /** A title keeps its beginning when it is cut. */
  lemma NameStays(t: Text)
    requires IsHeadingTitle(t)
    ensures Trim(Cut(t, MAX_TITLE - 12)) != [] && IsTrimmed(Trim(Cut(t, MAX_TITLE - 12)))
  {
    var cut := Cut(t, MAX_TITLE - 12);
    TrimmedEnds(t);
    TrimTrims(cut);
    assert cut[0] == t[0];
    StartStays(cut);
  }

  lemma {:induction false} StartStays(t: Text)
    requires t != [] && !IsSpace(t[0])
    ensures Trim(t) != []
  {
    assert TrimStart(t) == t;
    EndStays(t);
  }

  lemma {:induction false} EndStays(t: Text)
    requires t != [] && !IsSpace(t[0])
    ensures TrimEnd(t) != []
  {
    if |t| > 1 && IsSpace(t[|t| - 1]) { EndStays(t[..|t| - 1]); }
  }

  lemma {:induction false} SplitSurvives(ss: seq<Section>, room: int)
    requires forall k :: 0 <= k < |ss| ==> IsSturdy(ss[k])
    ensures forall j :: 0 <= j < |SplitLong(ss, room)| ==> Survives(SplitLong(ss, room)[j])
  {
    hide Survives, PartCount, Part;
    if ss != [] {
      SplitSurvives(ss[1..], RoomAfter(ss[0], room));
      OneSplitSurvives(ss[0], room);
    }
  }

  lemma OneSplitSurvives(s: Section, room: int)
    requires IsSturdy(s)
    ensures forall j :: 0 <= j < |SplitOne(s, room)| ==> Survives(SplitOne(s, room)[j])
  {
    hide Survives, Part, CeilDiv;
    var parts := PartCount(s, room);
    if parts > 1 {
      ManyLessons(s, room);
      FirstPartsAt(s, parts, parts);
      forall p: nat | p < parts ensures Survives(Part(s, parts, p)) {
        PartIsSturdy(s, parts, p);
      }
    }
  }

  lemma ManyLessons(s: Section, room: int)
    requires PartCount(s, room) > 1
    ensures |s.lessons| > MAX_LESSONS
  {
    if |s.lessons| <= MAX_LESSONS {
      DivLess(|s.lessons| + MAX_LESSONS - 1, MAX_LESSONS, 2);
    }
  }

  // ---- No chapter is lost ---------------------------------------------------

  lemma ChapterIsInGroup(chapters: seq<Chapter>, groups: nat, i: nat) returns (g: nat)
    requires 0 < groups <= |chapters| && i < |chapters|
    ensures g < groups && chapters[i] in Group(chapters, groups, g)
    ensures forall c :: c in Group(chapters, groups, g) ==> c in chapters
  {
    GroupEnds(|chapters|, groups);
    hide GroupStart;
    g := GroupOf(|chapters|, groups, i, groups);
    GroupBounds(|chapters|, groups, g);
    var start := GroupStart(|chapters|, groups, g);
    assert Group(chapters, groups, g)[i - start] == chapters[i];
  }

  lemma AllSturdy(chapters: seq<Chapter>, groups: nat, summarize: Text -> Option<Text>)
    requires 0 < groups <= |chapters| && forall i :: 0 <= i < |chapters| ==> IsGoodChapter(chapters[i])
    ensures forall g :: 0 <= g < groups ==> IsSturdy(SectionsOf(chapters, groups, groups, summarize)[g])
  {
    hide IsGoodChapter, IsSturdy, SectionOf, GroupStart, SectionsOf;
    forall g | 0 <= g < groups ensures IsSturdy(SectionsOf(chapters, groups, groups, summarize)[g]) {
      SectionsAt(chapters, groups, groups, summarize, g);
      GroupBounds(|chapters|, groups, g);
      GroupSectionIsSturdy(Group(chapters, groups, g), summarize);
    }
  }

  /** From what a section says of a chapter, through splitting and clamping, to what the outline says. */
  lemma StaysPresent(c: Chapter, s: Section, p: Section, out: seq<Section>, j: nat)
    requires IsGoodChapter(c) && StandsFor(s, c) && ComesFrom(p, s) && j < |out| && ClampedTo(p, out[j])
    ensures IsPresent(c, out)
  {
    hide CleanTitle, PartTitle, IsHeadingTitle;
    if s.title == c.title {
      assert out[j].title == CleanTitle(c.title) || out[j].title == FirstPartName(c.title);
    } else {
      assert p == s;
      forall t | HasLesson(s, t) ensures HasLesson(out[j], CleanTitle(t)) {
        var i :| 0 <= i < |s.lessons| && s.lessons[i].title == t;
        assert out[j].lessons[i].title == CleanTitle(t);
      }
    }
  }

  /** A title of at most 148 characters is whole, and clean, in the name of a first part. */
  lemma FirstPartTitle(t: Text)
    requires IsHeadingTitle(t) && |t| <= MAX_TITLE - 12
    ensures FirstPartName(t) == PartTitle(CleanTitle(t), 1)
  {
    TrimTrims(t);
    PartSuffix();
    var suffix := Lit(" (part ") + Lit(CanonicalJson.Digits(1)) + Lit(")");
    hide Lit, IsTrimmed, IsSpaced;
    assert PartTitle(t, 1) == t + suffix;
    CleanOfTwo(t, suffix);
  }

  /** Cleaning a short title with something clean after it cleans the title. */
  lemma CleanOfTwo(t: Text, suffix: Text)
    requires IsHeadingTitle(t) && |t| + |suffix| <= MAX_TITLE
    requires |suffix| > 0 && IsSpaced(suffix) && !IsSpace(suffix[|suffix| - 1])
    ensures CleanTitle(t + suffix) == CleanTitle(t) + suffix
  {
    TrimmedEnds(t);
    SingleSpacedOfTwo(t, suffix);
    SingleSpacedEnds(t);
    var once := SingleSpaced(t);
    SingleSpacedIsSpaced(t);
    SingleSpacedIsSpaced(t + suffix);
    hide SingleSpaced, IsSpaced;
    TrimTrims(once);
    TrimTrims(once + suffix);
    hide Trim;
    assert IsTrimmed(once) && IsTrimmed(once + suffix);
    assert CleanTitle(t) == once;
  }

  lemma {:induction false} SingleSpacedOfTwo(t: Text, suffix: Text)
    requires t != [] && !IsSpace(t[|t| - 1]) && IsSpaced(suffix)
    ensures SingleSpaced(t + suffix) == SingleSpaced(t) + suffix
    decreases |suffix|
  {
    if suffix == [] {
      assert t + suffix == t;
    } else {
      var front, u := suffix[..|suffix| - 1], suffix[|suffix| - 1];
      assert (t + suffix)[..|t + suffix| - 1] == t + front;
      SingleSpacedOfTwo(t, front);
      if front == [] {
        LastStays(t);
      } else {
        assert front[|front| - 1] == suffix[|suffix| - 2];
      }
      assert SingleSpaced(t) + front + [u] == SingleSpaced(t) + suffix;
    }
  }

  lemma LastStays(t: Text)
    requires t != [] && !IsSpace(t[|t| - 1])
    ensures SingleSpaced(t) != [] && SingleSpaced(t)[|SingleSpaced(t)| - 1] == t[|t| - 1]
  {
  }

  lemma PartSuffix()
    ensures var suffix := Lit(" (part ") + Lit(CanonicalJson.Digits(1)) + Lit(")");
      |suffix| == 9 && IsSpaced(suffix) && suffix[0] == SPACE && !IsSpace(suffix[8])
  {
    hide Lit;
    var a, b, c := Lit(" (part "), Lit(CanonicalJson.Digits(1)), Lit(")");
    assert |" (part "| == 7 && |CanonicalJson.Digits(1)| == 1 && |")"| == 1;
    assert a[0] == ' ' as int && a[1] == '(' as int && a[2] == 'p' as int && a[3] == 'a' as int;
    assert a[4] == 'r' as int && a[5] == 't' as int && a[6] == ' ' as int;
    assert b[0] == '1' as int && c[0] == ')' as int;
  }

  /**
   With up to 144 chapters, whatever number of sections is asked for, every
   chapter is in the outline under its clean name: as a section, as a lesson, or
   through all its topics.
   */
  lemma EveryChapterIsPresent(chapters: seq<Chapter>, sectionCount: int, summarize: Text -> Option<Text>, i: nat)
    requires i < |chapters| <= MAX_SECTIONS * MAX_LESSONS
    requires forall k :: 0 <= k < |chapters| ==> IsGoodChapter(chapters[k])
    ensures IsPresent(chapters[i], Outline(chapters, sectionCount, summarize))
  {
    hide GroupCount, GroupStart, SectionOf, IsPresent, StandsFor, IsGoodChapter, IsSturdy, Survives, SplitLong, ComesFrom, ClampedTo, GoodSections, RawOf, SectionsOf, Group;
    var groups := GroupCount(|chapters|, sectionCount);
    var sections := SectionsOf(chapters, groups, groups, summarize);
    var split := SplitLong(sections, MAX_SECTIONS - groups);
    var g := ChapterIsInGroup(chapters, groups, i);
    SectionsAt(chapters, groups, groups, summarize, g);
    SectionStandsForAll(Group(chapters, groups, g), chapters[i], summarize);
    var j := SplitKeeps(sections, MAX_SECTIONS - groups, g);
    SplitFits(sections, MAX_SECTIONS - groups);
    AllSturdy(chapters, groups, summarize);
    SplitSurvives(sections, MAX_SECTIONS - groups);
    SectionsSurvive(split);
    StaysPresent(chapters[i], sections[g], split[j], Outline(chapters, sectionCount, summarize), j);
  }

  /** The outline is always one the course service accepts. */
  lemma OutlineIsAcceptable(chapters: seq<Chapter>, sectionCount: int, summarize: Text -> Option<Text>)
    requires chapters != []
    ensures IsAcceptable(Outline(chapters, sectionCount, summarize))
  {
    hide Clamped, IsAcceptable, GroupCount, SplitLong, RawOf, SectionsOf;
    var groups := GroupCount(|chapters|, sectionCount);
    ClampedIsAcceptable(RawOf(SplitLong(SectionsOf(chapters, groups, groups, summarize), MAX_SECTIONS - groups)));
  }

  // ---- Splitting keeps the lessons ------------------------------------------

  function LessonsIn(ps: seq<Section>): seq<Lesson> {
    if ps == [] then [] else LessonsIn(ps[..|ps| - 1]) + ps[|ps| - 1].lessons
  }

  /** Where the first `p` parts end. */
  function PartEnd(s: Section, parts: nat, p: nat): (end: nat)
    requires parts > 0
    ensures end <= |s.lessons|
  {
    Clip(p * PartSize(s, parts), |s.lessons|)
  }

  lemma {:induction false} PartsInOrder(s: Section, parts: nat, upTo: nat)
    requires parts > 0
    ensures LessonsIn(FirstParts(s, parts, upTo)) == s.lessons[..PartEnd(s, parts, upTo)]
  {
    NoParts(s, parts);
    hide Part, PartSize, PartEnd, LessonsIn, FirstParts;
    if upTo > 0 {
      PartsInOrder(s, parts, upTo - 1);
      LessonsOfOneMore(s, parts, upTo - 1);
      PartLessons(s, parts, upTo - 1);
      var from, to := PartEnd(s, parts, upTo - 1), PartEnd(s, parts, upTo);
      assert LessonsIn(FirstParts(s, parts, upTo)) == s.lessons[..from] + s.lessons[from..to];
      Slices(s.lessons, from, to);
    }
  }

  lemma Slices<T>(items: seq<T>, from: nat, to: nat)
    requires from <= to <= |items|
    ensures items[..from] + items[from..to] == items[..to]
  {
  }

  lemma OneMorePart(ps: seq<Section>, p: Section)
    ensures LessonsIn(ps + [p]) == LessonsIn(ps) + p.lessons
  {
    assert (ps + [p])[..|ps + [p]| - 1] == ps;
  }

  lemma LessonsOfOneMore(s: Section, parts: nat, p: nat)
    requires parts > 0
    ensures LessonsIn(FirstParts(s, parts, p + 1)) == LessonsIn(FirstParts(s, parts, p)) + Part(s, parts, p).lessons
  {
    hide Part, LessonsIn;
    OneMorePart(FirstParts(s, parts, p), Part(s, parts, p));
  }

  lemma NoParts(s: Section, parts: nat)
    requires parts > 0
    ensures PartEnd(s, parts, 0) == 0 && LessonsIn(FirstParts(s, parts, 0)) == []
  {
  }

  lemma PartLessons(s: Section, parts: nat, p: nat)
    requires parts > 0
    ensures PartEnd(s, parts, p) <= PartEnd(s, parts, p + 1)
    ensures Part(s, parts, p).lessons == s.lessons[PartEnd(s, parts, p)..PartEnd(s, parts, p + 1)]
  {
    hide PartSize;
    MulMono(p, p + 1, PartSize(s, parts));
  }

  lemma PartsCover(n: nat, parts: nat)
    requires parts > 0 && n <= MAX_LESSONS * parts
    ensures parts * Min(MAX_LESSONS, CeilDiv(n, parts)) >= n
  {
    var size := CeilDiv(n, parts);
    DivBounds(n + parts - 1, parts);
    assert (size + 1) * parts == parts * size + parts;
    assert MAX_LESSONS * parts == parts * MAX_LESSONS;
  }

  /** While there is room, a long section keeps all its lessons in order; without, it keeps the first ones. */
  lemma SplitKeepsLessons(s: Section, room: int)
    ensures LessonsIn(SplitOne(s, room)) <= s.lessons
    ensures |s.lessons| <= MAX_LESSONS * (1 + Max(0, room)) ==> LessonsIn(SplitOne(s, room)) == s.lessons
  {
    var parts := PartCount(s, room);
    if parts <= 1 {
      var one := [s];
      assert one[..0] == [];
      assert LessonsIn(one) == s.lessons;
    } else {
      PartsInOrder(s, parts, parts);
      if |s.lessons| <= MAX_LESSONS * (1 + Max(0, room)) {
        DivBounds(|s.lessons| + MAX_LESSONS - 1, MAX_LESSONS);
        PartsCover(|s.lessons|, parts);
        assert parts * PartSize(s, parts) >= |s.lessons|;
      }
    }
  }
}
