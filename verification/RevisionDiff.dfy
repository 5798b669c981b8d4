/**
 The before/after a reviewer decides on, and the rules a change set must meet.
 */
module RevisionDiff {
  import opened CourseRows
  import opened StagedEdits
  import opened Listing

  datatype MetaChange = MetaChange(field: Field, before: Val, after: Val)

  datatype NewSection = NewSection(id: Id, fields: Fields, lessons: seq<Id>)

  datatype SectionChange = SectionChange(id: Id, before: Fields, after: Fields)

  datatype LessonChange = LessonChange(id: Id, before: Fields, after: Fields, videoReplaced: bool)

  datatype Diff = Diff(
    metadata: seq<MetaChange>,
    sectionsAdded: seq<NewSection>,
    sectionsRemoved: seq<Id>,
    sectionsChanged: seq<SectionChange>,
    lessonsAdded: seq<Id>,
    lessonsRemoved: seq<Id>,
    lessonsChanged: seq<LessonChange>,
    notesAdded: seq<string>,
    assessments: seq<string>)

  predicate IsEmpty(d: Diff) {
    && d.metadata == [] && d.sectionsAdded == [] && d.sectionsRemoved == [] && d.sectionsChanged == []
    && d.lessonsAdded == [] && d.lessonsRemoved == [] && d.lessonsChanged == [] && d.notesAdded == [] && d.assessments == []
  }

  // ---- Computing the diff ---------------------------------------------------

  /** Prices are compared as numbers, everything else as stored. */
  predicate SameValue(f: Field, a: Val, b: Val) {
    if f == Price then NormPrice(a) == NormPrice(b) else a == b
  }

  function SectionRank(r: Rows): Id -> int {
    s => if s in r.sections then r.sections[s].order else 0
  }

  function LessonRank(r: Rows): Id -> int {
    l => if l in r.lessons then r.lessons[l].order else 0
  }

  function SectionsInOrder(r: Rows): seq<Id> {
    Listed(r.sections.Keys, SectionRank(r))
  }

  function LessonsInOrder(r: Rows, s: Id): seq<Id> {
    Listed(LessonsOf(r, s), LessonRank(r))
  }

  function Compared(fields: seq<Field>, values: Fields): Fields {
    map f | f in values && f in fields :: values[f]
  }

  /** What is compared of a lesson; VideoDuration is not. */
  const LESSON_COMPARED: seq<Field> := [Title, Summary, Duration, VideoKey]

  function WithMeta(r: Rows, f: Field, changes: seq<MetaChange>): seq<MetaChange> {
    var before := Get(r.course, f);
    var after := Get(Merged(r.course, r.pending), f);
    if f !in Overrides(r.pending) || SameValue(f, before, after) then changes else changes + [MetaChange(f, before, after)]
  }

  function MetaChanges(r: Rows, fields: seq<Field>): seq<MetaChange> {
    if fields == [] then [] else WithMeta(r, fields[|fields| - 1], MetaChanges(r, fields[..|fields| - 1]))
  }

  predicate Kept(r: Rows, l: Id) {
    l in r.lessons && r.lessons[l].mark != Removed
  }

  function KeptOf(r: Rows, ls: seq<Id>): seq<Id> {
    if ls == [] then []
    else
      var front := KeptOf(r, ls[..|ls| - 1]);
      if Kept(r, ls[|ls| - 1]) then front + [ls[|ls| - 1]] else front
  }

  predicate WasLive(r: Rows, l: Id) {
    l in r.lessons && r.lessons[l].mark != Added
  }

  function LiveOf(r: Rows, ls: seq<Id>): seq<Id> {
    if ls == [] then []
    else
      var front := LiveOf(r, ls[..|ls| - 1]);
      if WasLive(r, ls[|ls| - 1]) then front + [ls[|ls| - 1]] else front
  }

  function LessonBefore(l: Lesson): Fields {
    Compared(LESSON_COMPARED, l.live)
  }

  function LessonAfter(l: Lesson): Fields {
    Compared(LESSON_COMPARED, Merged(l.live, l.pending))
  }

  /** A video counts as replaced only when there is one afterwards. */
  function ChangeOf(id: Id, l: Lesson): LessonChange {
    LessonChange(
      id, LessonBefore(l), LessonAfter(l),
      Get(LessonBefore(l), VideoKey) != Get(LessonAfter(l), VideoKey) && Truthy(Get(LessonAfter(l), VideoKey)))
  }

  function WithLesson(r: Rows, l: Id, d: Diff): Diff {
    if l !in r.lessons then d
    else
      var row := r.lessons[l];
      match row.mark
      case Added => d.(lessonsAdded := d.lessonsAdded + [l])
      case Removed => d.(lessonsRemoved := d.lessonsRemoved + [l])
      case Plain => if LessonBefore(row) == LessonAfter(row) then d else d.(lessonsChanged := d.lessonsChanged + [ChangeOf(l, row)])
  }

  function WithLessons(r: Rows, ls: seq<Id>, d: Diff): Diff {
    if ls == [] then d else WithLesson(r, ls[|ls| - 1], WithLessons(r, ls[..|ls| - 1], d))
  }

  function SectionAfter(s: Section): Fields {
    Merged(s.live, s.pending)
  }

  function WithSectionItself(r: Rows, s: Id, d: Diff): Diff
    requires s in r.sections
  {
    var row := r.sections[s];
    if SectionAfter(row) == row.live then d
    else d.(sectionsChanged := d.sectionsChanged + [SectionChange(s, row.live, SectionAfter(row))])
  }

  function WithSection(r: Rows, s: Id, d: Diff): Diff {
    if s !in r.sections then d
    else
      var children := LessonsInOrder(r, s);
      var row := r.sections[s];
      match row.mark
      case Added => d.(sectionsAdded := d.sectionsAdded + [NewSection(s, SectionAfter(row), KeptOf(r, children))])
      case Removed => d.(sectionsRemoved := d.sectionsRemoved + [s], lessonsRemoved := d.lessonsRemoved + LiveOf(r, children))
      case Plain => WithLessons(r, children, WithSectionItself(r, s, d))
  }

  function WithSections(r: Rows, ss: seq<Id>, d: Diff): Diff {
    if ss == [] then d else WithSection(r, ss[|ss| - 1], WithSections(r, ss[..|ss| - 1], d))
  }

  function StartOfDiff(r: Rows, assessments: seq<string>): Diff {
    Diff(MetaChanges(r, COURSE_FIELDS), [], [], [], [], [], [], Alphabetical(r.stagedNotes.Keys), assessments)
  }

  function DiffOf(r: Rows, assessments: seq<string>): Diff {
    WithSections(r, SectionsInOrder(r), StartOfDiff(r, assessments))
  }

  method ComputeMeta(r: Rows) returns (metadata: seq<MetaChange>)
    ensures metadata == MetaChanges(r, COURSE_FIELDS)
  {
    metadata := [];
    for i := 0 to |COURSE_FIELDS|
      invariant metadata == MetaChanges(r, COURSE_FIELDS[..i])
    {
      assert COURSE_FIELDS[..i + 1][..i] == COURSE_FIELDS[..i];
      var f := COURSE_FIELDS[i];
      if f in Overrides(r.pending) {
        var before, after := Get(r.course, f), Get(Merged(r.course, r.pending), f);
        if !SameValue(f, before, after) {
          metadata := metadata + [MetaChange(f, before, after)];
        }
      }
    }
    assert COURSE_FIELDS[..|COURSE_FIELDS|] == COURSE_FIELDS;
  }

  method ComputeDiff(r: Rows, assessments: seq<string>) returns (d: Diff)
    ensures d == DiffOf(r, assessments)
  {
    hide WithSection, MetaChanges;
    var metadata := ComputeMeta(r);
    d := Diff(metadata, [], [], [], [], [], [], Alphabetical(r.stagedNotes.Keys), assessments);
    var sections := SectionsInOrder(r);
    ListedElements(r.sections.Keys, SectionRank(r));
    for i := 0 to |sections|
      invariant d == WithSections(r, sections[..i], StartOfDiff(r, assessments))
    {
      assert sections[..i + 1][..i] == sections[..i];
      var s := sections[i];
      assert s in sections;
      d := AddSection(r, s, d);
    }
    assert sections[..|sections|] == sections;
  }

  method AddSection(r: Rows, s: Id, start: Diff) returns (d: Diff)
    requires s in r.sections
    ensures d == WithSection(r, s, start)
  {
    d := start;
    var row := r.sections[s];
    var children := LessonsInOrder(r, s);
    ListedElements(LessonsOf(r, s), LessonRank(r));
    if row.mark == Added {
      var kept := Filter(r, children, true);
      d := d.(sectionsAdded := d.sectionsAdded + [NewSection(s, SectionAfter(row), kept)]);
      return;
    }
    if row.mark == Removed {
      // Learners lose only what they had: lessons of the section that were live.
      var live := Filter(r, children, false);
      d := d.(sectionsRemoved := d.sectionsRemoved + [s], lessonsRemoved := d.lessonsRemoved + live);
      return;
    }
    if SectionAfter(row) != row.live {
      d := d.(sectionsChanged := d.sectionsChanged + [SectionChange(s, row.live, SectionAfter(row))]);
    }
    for i := 0 to |children|
      invariant d == WithLessons(r, children[..i], WithSectionItself(r, s, start))
    {
      assert children[..i + 1][..i] == children[..i];
      var l := children[i];
      assert l in children;
      var lesson := r.lessons[l];
      if lesson.mark == Added {
        d := d.(lessonsAdded := d.lessonsAdded + [l]);
      } else if lesson.mark == Removed {
        d := d.(lessonsRemoved := d.lessonsRemoved + [l]);
      } else if LessonBefore(lesson) != LessonAfter(lesson) {
        d := d.(lessonsChanged := d.lessonsChanged + [ChangeOf(l, lesson)]);
      }
    }
    assert children[..|children|] == children;
  }

  /** The children that stay (of an added section), or that were live (of a removed one). */
  method Filter(r: Rows, ls: seq<Id>, staying: bool) returns (kept: seq<Id>)
    ensures kept == if staying then KeptOf(r, ls) else LiveOf(r, ls)
  {
    kept := [];
    for i := 0 to |ls|
      invariant kept == if staying then KeptOf(r, ls[..i]) else LiveOf(r, ls[..i])
    {
      assert ls[..i + 1][..i] == ls[..i];
      if (if staying then Kept(r, ls[i]) else WasLive(r, ls[i])) {
        kept := kept + [ls[i]];
      }
    }
    assert ls[..|ls|] == ls;
  }

  // ---- What downstream services are told ------------------------------------

  function LessonsOfNew(news: seq<NewSection>): seq<Id> {
    if news == [] then [] else LessonsOfNew(news[..|news| - 1]) + news[|news| - 1].lessons
  }

  function AddedLessonIds(d: Diff): seq<Id> {
    d.lessonsAdded + LessonsOfNew(d.sectionsAdded)
  }

  function ReplacedOf(changes: seq<LessonChange>): seq<Id> {
    if changes == [] then []
    else
      var last := changes[|changes| - 1];
      ReplacedOf(changes[..|changes| - 1]) + if last.videoReplaced then [last.id] else []
  }

  function ReplacedVideoIds(d: Diff): seq<Id> {
    ReplacedOf(d.lessonsChanged)
  }

  // ---- Publishability rules -------------------------------------------------

  predicate SomeSectionStays(r: Rows) {
    exists s :: s in r.sections && SectionStays(r, s)
  }

  predicate SomeLessonStays(r: Rows) {
    exists l :: l in r.lessons && LessonStays(r, l)
  }

  predicate SomePreviewStays(r: Rows) {
    exists s :: s in r.sections && SectionStays(r, s) && Truthy(Get(SectionAfter(r.sections[s]), FreePreview))
  }

  predicate PriceIsPositive(price: Val) {
    NormPrice(price).Some? && NormPrice(price).value != 0.0
  }

  /** The rules of a first submission on the course as it will be after an apply; true means valid. */
  predicate MergedIsValid(r: Rows) {
    var course := Merged(r.course, r.pending);
    && SomeSectionStays(r)
    && SomeLessonStays(r)
    && Truthy(Get(course, Thumbnail))
    && (Get(course, PricingType) == Text("paid") ==> PriceIsPositive(Get(course, Price)))
    && (Get(course, PricingType) == Text("freemium") ==> SomePreviewStays(r))
  }

  predicate SomeLesson(r: Rows) {
    exists l :: l in r.lessons && r.lessons[l].section in r.sections
  }

  predicate SomePreview(r: Rows) {
    exists s :: s in r.sections && Truthy(Get(r.sections[s].live, FreePreview))
  }

  /** The rules a draft must meet before its first submission; true means nothing blocks it. */
  predicate MaySubmit(r: Rows) {
    && r.sections != map[]
    && SomeLesson(r)
    && Truthy(Get(r.course, Thumbnail))
    && (Get(r.course, PricingType) == Text("paid") ==> Truthy(Get(r.course, Price)))
    && (Get(r.course, PricingType) == Text("freemium") ==> SomePreview(r))
  }
}
