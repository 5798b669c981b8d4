/**
 The database rows of one course: live columns, staged overrides and markers.

 A row's `pending` overrides wait for review; `mark` says whether the row was
 added or removed inside the open revision. Learners read live columns only.
 */
module CourseRows {
  import opened Options

  type Id = nat

  /** A column value. Prices are strings, as the numeric column returns them. */
  datatype Val = Null | Flag(b: bool) | Num(n: int) | Text(s: string)

  datatype Field =
    | Title | Description | Category | Language | Thumbnail | PricingType | Price
    | FreePreview
    | Summary | Duration | VideoKey | VideoDuration

  /** Columns by name; a missing key is a column that is not mentioned. */
  type Fields = map<Field, Val>

  const COURSE_FIELDS: seq<Field> := [Title, Description, Category, Language, Thumbnail, PricingType, Price]
  const SECTION_FIELDS: seq<Field> := [Title, FreePreview]
  const LESSON_FIELDS: seq<Field> := [Title, Summary, Duration, VideoKey, VideoDuration]

  datatype Mark = Plain | Added | Removed

  datatype Section = Section(order: int, live: Fields, mark: Mark, pending: Option<Fields>)

  datatype Lesson = Lesson(section: Id, order: int, live: Fields, mark: Mark, pending: Option<Fields>)

  /** Tutor notes are kept per title, as the texts of their chunks in chunk order. */
  type Notes = map<string, seq<string>>

  datatype Rows = Rows(
    course: Fields,
    pending: Option<Fields>,
    sections: map<Id, Section>,
    lessons: map<Id, Lesson>,
    notes: Notes,
    stagedNotes: Notes)

  // ---- Well-formed rows -----------------------------------------------------

  predicate Covers(fields: seq<Field>, live: Fields, pending: Option<Fields>) {
    && (forall f :: f in fields <==> f in live)
    && (pending.Some? ==> forall f :: f in pending.value ==> f in fields)
  }

  ghost predicate WellFormed(r: Rows) {
    && Covers(COURSE_FIELDS, r.course, r.pending)
    && (forall s :: s in r.sections ==> Covers(SECTION_FIELDS, r.sections[s].live, r.sections[s].pending))
    && (forall l :: l in r.lessons ==> Covers(LESSON_FIELDS, r.lessons[l].live, r.lessons[l].pending))
    && (forall l :: l in r.lessons ==> r.lessons[l].section in r.sections)
  }

  /** Every row id was handed out before `next`. */
  ghost predicate IdsBelow(r: Rows, next: Id) {
    && (forall s :: s in r.sections ==> s < next)
    && (forall l :: l in r.lessons ==> l < next)
  }

  // ---- Merging and staging of single rows -----------------------------------

  /** The overrides that matter: none and an empty set of them are the same. */
  function Overrides(pending: Option<Fields>): Fields {
    if pending.None? then map[] else pending.value
  }

  /** What the educator sees of a row. */
  function Merged(live: Fields, pending: Option<Fields>): Fields {
    live + Overrides(pending)
  }

  function Only(fields: seq<Field>, changes: Fields): Fields {
    map f | f in changes && f in fields :: changes[f]
  }

  /** Is `v` different from the live column `f`? A column that does not exist differs from everything. */
  predicate Differs(live: Fields, f: Field, v: Val) {
    f !in live || live[f] != v
  }

  /** The overrides after `changes`: a value back at its live one is no longer staged. */
  function StageFields(live: Fields, pending: Option<Fields>, changes: Fields): Option<Fields> {
    var kept := map f | f in Overrides(pending) && f !in changes :: Overrides(pending)[f];
    var next := kept + map f | f in changes && Differs(live, f, changes[f]) :: changes[f];
    if next == map[] then None else Some(next)
  }

  /** The same, one key at a time. */
  method StageFieldsLoop(live: Fields, pending: Option<Fields>, changes: Fields) returns (staged: Option<Fields>)
    ensures staged == StageFields(live, pending, changes)
  {
    var next := Overrides(pending);
    var todo := changes.Keys;
    while todo != {}
      invariant todo <= changes.Keys
      invariant forall f :: f in next <==>
        if f in changes && f !in todo then Differs(live, f, changes[f]) else f in Overrides(pending)
      invariant forall f :: f in next ==>
        next[f] == if f in changes && f !in todo then changes[f] else Overrides(pending)[f]
      decreases todo
    {
      var key :| key in todo;
      todo := todo - {key};
      if Differs(live, key, changes[key]) {
        next := next[key := changes[key]];
      } else {
        next := next - {key};
      }
    }
    ghost var spec := (map f | f in Overrides(pending) && f !in changes :: Overrides(pending)[f])
                    + map f | f in changes && Differs(live, f, changes[f]) :: changes[f];
    assert next == spec;
    staged := if next == map[] then None else Some(next);
  }

  /** Staging a change changes the working copy by exactly that change. */
  lemma StagingMerges(live: Fields, pending: Option<Fields>, changes: Fields)
    requires changes.Keys <= live.Keys
    ensures Merged(live, StageFields(live, pending, changes)) == Merged(live, pending) + changes
  {
    assert Merged(live, StageFields(live, pending, changes)).Keys == (Merged(live, pending) + changes).Keys;
  }

  /** No override repeats its live value, and having none is not kept as an empty set. */
  ghost predicate Minimal(live: Fields, pending: Option<Fields>) {
    pending.Some? ==> pending.value != map[] && forall f :: f in pending.value ==> Differs(live, f, pending.value[f])
  }

  lemma StagingIsMinimal(live: Fields, pending: Option<Fields>, changes: Fields)
    requires Minimal(live, pending)
    ensures Minimal(live, StageFields(live, pending, changes))
  {
  }

  /** With minimal overrides, "nothing is staged" and "the working copy is the live row" are the same. */
  lemma MinimalMeansChanged(live: Fields, pending: Option<Fields>)
    requires Minimal(live, pending)
    ensures pending.None? <==> Merged(live, pending) == live
  {
    if pending.Some? {
      var f :| f in pending.value;
      assert f in Merged(live, pending) && Merged(live, pending)[f] == pending.value[f];
    } else {
      assert Merged(live, pending) == live;
    }
  }

  // ---- Content trees --------------------------------------------------------

  datatype SectionContent = SectionContent(order: int, fields: Fields)

  datatype LessonContent = LessonContent(section: Id, order: int, fields: Fields)

  /** A course without staging: what is stored for learners, or what would be. */
  datatype Content = Content(course: Fields, sections: map<Id, SectionContent>, lessons: map<Id, LessonContent>)

  predicate SectionIsLive(r: Rows, s: Id) {
    s in r.sections && r.sections[s].mark != Added
  }

  predicate LessonIsLive(r: Rows, l: Id) {
    l in r.lessons && r.lessons[l].mark != Added && SectionIsLive(r, r.lessons[l].section)
  }

  predicate SectionStays(r: Rows, s: Id) {
    s in r.sections && r.sections[s].mark != Removed
  }

  predicate LessonStays(r: Rows, l: Id) {
    l in r.lessons && r.lessons[l].mark != Removed && SectionStays(r, r.lessons[l].section)
  }

  function LiveSection(s: Section): SectionContent {
    SectionContent(s.order, s.live)
  }

  function LiveLesson(l: Lesson): LessonContent {
    LessonContent(l.section, l.order, l.live)
  }

  function WorkingSection(s: Section): SectionContent {
    SectionContent(s.order, Merged(s.live, s.pending))
  }

  function WorkingLesson(l: Lesson): LessonContent {
    LessonContent(l.section, l.order, Merged(l.live, l.pending))
  }

  /** What learners are served from: live columns of every row that is not merely added. */
  function LiveContent(r: Rows): Content {
    Content(
      r.course,
      map s | s in r.sections && SectionIsLive(r, s) :: LiveSection(r.sections[s]),
      map l | l in r.lessons && LessonIsLive(r, l) :: LiveLesson(r.lessons[l]))
  }

  /** The educator's working copy without the rows staged for removal. */
  function WorkingContent(r: Rows): Content {
    Content(
      Merged(r.course, r.pending),
      map s | s in r.sections && SectionStays(r, s) :: WorkingSection(r.sections[s]),
      map l | l in r.lessons && LessonStays(r, l) :: WorkingLesson(r.lessons[l]))
  }

  // ---- The public page ------------------------------------------------------

  datatype SectionOnPage = SectionOnPage(order: int, title: Val, free: Val)

  datatype LessonOnPage = LessonOnPage(section: Id, order: int, title: Val, summary: Val, duration: Val, hasVideo: bool)

  /** What the course page shows of a course's content. */
  datatype Page = Page(
    title: Val, description: Val, category: Val, language: Val, thumbnail: Val, pricing: Val, price: Option<real>,
    sections: map<Id, SectionOnPage>, lessons: map<Id, LessonOnPage>)

  function Get(fields: Fields, f: Field): Val {
    if f in fields then fields[f] else Null
  }

  /** JavaScript truthiness of a column value. */
  predicate Truthy(v: Val) {
    match v
    case Null => false
    case Flag(b) => b
    case Num(n) => n != 0
    case Text(s) => s != ""
  }

  function DigitsValue(s: string): Option<real> {
    if s == "" then Some(0.0)
    else if '0' <= s[|s| - 1] <= '9' then
      var high := DigitsValue(s[..|s| - 1]);
      if high.None? then None else Some(high.value * 10.0 + (s[|s| - 1] as int - '0' as int) as real)
    else None
  }

  function FractionValue(s: string): Option<real> {
    if s == "" then Some(0.0)
    else if '0' <= s[0] <= '9' then
      var low := FractionValue(s[1..]);
      if low.None? then None else Some((low.value + (s[0] as int - '0' as int) as real) / 10.0)
    else None
  }

  function PointAt(s: string): nat
    ensures PointAt(s) <= |s|
  {
    if s == "" || s[0] == '.' then 0 else 1 + PointAt(s[1..])
  }

  /** A price string as a number: plain decimal notation, the only kind a numeric column returns. */
  function NormPrice(v: Val): Option<real> {
    if !v.Text? || v.s == "" then None
    else
      var p := PointAt(v.s);
      var whole := DigitsValue(v.s[..p]);
      var fraction := if p == |v.s| then Some(0.0) else FractionValue(v.s[p + 1..]);
      if whole.None? || fraction.None? || v.s == "." then None else Some(whole.value + fraction.value)
  }

  function PageOf(c: Content): Page {
    Page(
      Get(c.course, Title), Get(c.course, Description), Get(c.course, Category), Get(c.course, Language),
      Get(c.course, Thumbnail), Get(c.course, PricingType),
      if Truthy(Get(c.course, Price)) then NormPrice(Get(c.course, Price)) else None,
      map s | s in c.sections :: SectionOnPage(c.sections[s].order, Get(c.sections[s].fields, Title), Get(c.sections[s].fields, FreePreview)),
      map l | l in c.lessons :: LessonOnPage(
        c.lessons[l].section, c.lessons[l].order,
        Get(c.lessons[l].fields, Title), Get(c.lessons[l].fields, Summary), Get(c.lessons[l].fields, Duration),
        Truthy(Get(c.lessons[l].fields, VideoKey))))
  }
}
