/**
 The content edits of the course service: in place on a draft, staged on an
 approved course.

 Main results: a staged edit changes neither the live content nor what a
 discard would restore, so discarding undoes any run of staged edits exactly.
 */
module StagedEdits {
  import opened Options
  import opened CourseRows
  import opened Staging

  datatype SectionInput = SectionInput(fields: Fields, lessons: seq<Fields>)

  datatype NoteState = LiveNote | PendingNote

  datatype Edit =
    | EditCourse(changes: Fields)
    | AddSections(inputs: seq<SectionInput>)
    | EditSection(section: Id, changes: Fields)
    | DropSection(section: Id)
    | AddLesson(section: Id, input: Fields)
    | EditLesson(lesson: Id, changes: Fields)
    | DropLesson(lesson: Id)
    | AddNote(title: string, chunks: seq<string>)
    | DropNote(title: string, which: Option<NoteState>)

  /** Rows and the next free id after an edit; None when the edit is refused. */
  datatype Edited = Edited(rows: Rows, next: Id)

  /** Is the row an edit names there, and is there anything to insert? Checked before the edit gate. */
  predicate TargetExists(e: Edit, r: Rows) {
    match e
    case AddSections(inputs) => inputs != []
    case EditSection(s, _) => s in r.sections
    case DropSection(s) => s in r.sections
    case AddLesson(s, _) => s in r.sections
    case EditLesson(l, _) => l in r.lessons && r.lessons[l].section in r.sections
    case DropLesson(l) => l in r.lessons && r.lessons[l].section in r.sections
    case _ => true
  }

  /** Removing a note is the one edit that opens no revision. */
  predicate OpensRevision(e: Edit) {
    !e.DropNote?
  }

  // ---- New rows -------------------------------------------------------------

  function OrNull(v: Val): Val {
    if Truthy(v) then v else Null
  }

  function NewSectionFields(input: Fields): Fields {
    map[Title := Get(input, Title), FreePreview := Get(input, FreePreview)]
  }

  function NewLessonFields(input: Fields): Fields {
    map[
      Title := Get(input, Title),
      Summary := Get(input, Summary),
      Duration := if Get(input, Duration) == Null then Num(0) else Get(input, Duration),
      // '' means no video, like null.
      VideoKey := OrNull(Get(input, VideoKey)),
      VideoDuration := Get(input, VideoDuration)]
  }

  function MarkFor(staged: bool): Mark {
    if staged then Added else Plain
  }

  function PutSection(r: Rows, s: Id, row: Section): Rows {
    r.(sections := r.sections[s := row])
  }

  function PutLesson(r: Rows, l: Id, row: Lesson): Rows {
    r.(lessons := r.lessons[l := row])
  }

  function InsertLessons(staged: bool, inputs: seq<Fields>, section: Id, order: int, r: Rows, next: Id): Edited {
    if inputs == [] then Edited(r, next)
    else
      var row := Lesson(section, order, NewLessonFields(inputs[0]), MarkFor(staged), None);
      InsertLessons(staged, inputs[1..], section, order + 1, PutLesson(r, next, row), next + 1)
  }

  /** Insert one section and its lessons; ids are handed out in order from `next`. */
  function InsertSection(staged: bool, input: SectionInput, order: int, r: Rows, next: Id): Edited {
    var row := Section(order, NewSectionFields(input.fields), MarkFor(staged), None);
    InsertLessons(staged, input.lessons, next, 0, PutSection(r, next, row), next + 1)
  }

  function InsertSections(staged: bool, inputs: seq<SectionInput>, order: int, r: Rows, next: Id): Edited {
    if inputs == [] then Edited(r, next)
    else
      var first := InsertSection(staged, inputs[0], order, r, next);
      InsertSections(staged, inputs[1..], order + 1, first.rows, first.next)
  }

  function LessonsOf(r: Rows, s: Id): set<Id> {
    set l | l in r.lessons && r.lessons[l].section == s
  }

  // ---- Changes of existing rows ---------------------------------------------

  predicate PricingIsCoherent(course: Fields) {
    Get(course, PricingType) in {Text("paid"), Text("freemium")} ==> Truthy(Get(course, Price))
  }

  /**
   What an update writes to a lesson. With another video and no length of its
   own, it writes the length too: that of the live video when this is the live
   one, none otherwise.
   */
  function LessonChanges(lesson: Lesson, changes: Fields): Fields {
    var sent := Only(LESSON_FIELDS, changes);
    if VideoKey !in sent then sent
    else
      var key := OrNull(sent[VideoKey]);
      var keyed := sent[VideoKey := key];
      var effective := Get(Merged(lesson.live, lesson.pending), VideoKey);
      if key == effective || VideoDuration in sent then keyed
      else keyed[VideoDuration := if key == Get(lesson.live, VideoKey) then Get(lesson.live, VideoDuration) else Null]
  }

  function EditedLesson(staged: bool, lesson: Lesson, sectionMark: Mark, changes: Fields): Lesson {
    var touched := LessonChanges(lesson, changes);
    if !staged || lesson.mark == Added || sectionMark == Added then lesson.(live := lesson.live + touched)
    else lesson.(pending := StageFields(lesson.live, lesson.pending, touched))
  }

  function EditedSection(staged: bool, section: Section, changes: Fields): Section {
    var touched := Only(SECTION_FIELDS, changes);
    if !staged || section.mark == Added then section.(live := section.live + touched)
    else section.(pending := StageFields(section.live, section.pending, touched))
  }

  /** Removing a live section on an approved course drops its added lessons and marks the others. */
  function MarkSectionRemoved(r: Rows, s: Id): Rows
    requires s in r.sections
  {
    r.(lessons := map l | l in r.lessons && !(r.lessons[l].section == s && r.lessons[l].mark == Added) ::
                    if r.lessons[l].section == s then r.lessons[l].(mark := Removed) else r.lessons[l],
       sections := r.sections[s := r.sections[s].(mark := Removed)])
  }

  function DeleteSection(r: Rows, s: Id): Rows {
    r.(lessons := r.lessons - LessonsOf(r, s), sections := r.sections - {s})
  }

  /** Which of two notes with one title is removed when the request does not say: the pending one, if there is one. */
  function NoteToDrop(staged: bool, title: string, which: Option<NoteState>, r: Rows): Option<NoteState> {
    if !staged then Some(LiveNote)
    else if which.Some? then which
    else if title in r.stagedNotes then Some(PendingNote)
    else if title in r.notes then Some(LiveNote)
    else None
  }

  /** A draft's notes are all live, so there the title alone names the note. */
  function WithoutNote(staged: bool, title: string, which: Option<NoteState>, r: Rows): Rows {
    var target := NoteToDrop(staged, title, which, r);
    if !staged then r.(notes := r.notes - {title}, stagedNotes := r.stagedNotes - {title})
    else if target == Some(PendingNote) then r.(stagedNotes := r.stagedNotes - {title})
    else if target == Some(LiveNote) then r.(notes := r.notes - {title})
    else r
  }

  /** One edit behind the gate; None when it is refused. */
  function Edit1(staged: bool, e: Edit, r: Rows, next: Id): Option<Edited> {
    if !TargetExists(e, r) then None
    else match e
      case EditCourse(changes) =>
        var sent := Only(COURSE_FIELDS, changes);
        if !staged then Some(Edited(r.(course := r.course + sent), next))
        else
          var pending := StageFields(r.course, r.pending, sent);
          if (PricingType in sent || Price in sent) && !PricingIsCoherent(Merged(r.course, pending)) then None
          else Some(Edited(r.(pending := pending), next))
      case AddSections(inputs) =>
        Some(InsertSections(staged, inputs, |r.sections|, r, next))
      case EditSection(s, changes) =>
        Some(Edited(PutSection(r, s, EditedSection(staged, r.sections[s], changes)), next))
      case DropSection(s) =>
        if staged && r.sections[s].mark != Added then Some(Edited(MarkSectionRemoved(r, s), next))
        else Some(Edited(DeleteSection(r, s), next))
      case AddLesson(s, input) =>
        if staged && r.sections[s].mark == Removed then None
        else
          var row := Lesson(s, |LessonsOf(r, s)|, NewLessonFields(input), MarkFor(staged), None);
          Some(Edited(PutLesson(r, next, row), next + 1))
      case EditLesson(l, changes) =>
        var row := EditedLesson(staged, r.lessons[l], r.sections[r.lessons[l].section].mark, changes);
        Some(Edited(PutLesson(r, l, row), next))
      case DropLesson(l) =>
        if !staged || r.lessons[l].mark == Added || r.sections[r.lessons[l].section].mark == Added
        then Some(Edited(r.(lessons := r.lessons - {l}), next))
        else Some(Edited(PutLesson(r, l, r.lessons[l].(mark := Removed)), next))
      case AddNote(title, chunks) =>
        if chunks == [] then None
        else if staged then Some(Edited(r.(stagedNotes := r.stagedNotes[title := chunks]), next))
        else Some(Edited(r.(notes := r.notes[title := chunks]), next))
      case DropNote(title, which) =>
        Some(Edited(WithoutNote(staged, title, which, r), next))
  }

  // ---- What edits keep ------------------------------------------------------

  /** What a discard would restore, tutor notes aside. */
  function Base(r: Rows): Rows {
    Discarded(r).(notes := map[])
  }

  /** Ids keep their place: a row found in both keeps its order and its section, and new rows have new ids. */
  ghost predicate PlacesKept(r: Rows, q: Rows, next: Id) {
    && (forall s :: s in r.sections && s in q.sections ==> r.sections[s].order == q.sections[s].order)
    && (forall l :: l in r.lessons && l in q.lessons ==>
          r.lessons[l].order == q.lessons[l].order && r.lessons[l].section == q.lessons[l].section)
    && (forall s :: s in q.sections && s !in r.sections ==> s >= next)
    && (forall l :: l in q.lessons && l !in r.lessons ==> l >= next)
  }

  ghost predicate TidyRow(mark: Mark, live: Fields, pending: Option<Fields>) {
    if mark == Added then pending.None? else Minimal(live, pending)
  }

  /**
   Overrides hold only values that differ from live, added rows have none (they
   are edited in place), and everything inside an added section is itself added.
   */
  ghost predicate Tidy(r: Rows) {
    && Minimal(r.course, r.pending)
    && (forall s :: s in r.sections ==> TidyRow(r.sections[s].mark, r.sections[s].live, r.sections[s].pending))
    && (forall l :: l in r.lessons ==> TidyRow(r.lessons[l].mark, r.lessons[l].live, r.lessons[l].pending))
    && (forall l :: l in r.lessons && r.lessons[l].section in r.sections && r.sections[r.lessons[l].section].mark == Added
          ==> r.lessons[l].mark == Added)
  }

  /** Rows before and after a staged edit. */
  ghost predicate StagedStep(r: Rows, next: Id, q: Rows, after: Id) {
    && WellFormed(q)
    && next <= after && IdsBelow(q, after)
    && PlacesKept(r, q, next)
    && Base(q) == Base(r)
    && (Tidy(r) ==> Tidy(q))
  }

  predicate Survives(r: Rows, l: Id) {
    l in r.lessons && !LessonIsNew(r, l)
  }

  lemma SameBase(r: Rows, q: Rows)
    requires r.course == q.course
    requires forall s :: SectionIsLive(r, s) <==> SectionIsLive(q, s)
    requires forall s | SectionIsLive(r, s) :: s in q.sections && ResetSection(r.sections[s]) == ResetSection(q.sections[s])
    requires forall l :: Survives(r, l) <==> Survives(q, l)
    requires forall l | Survives(r, l) :: l in q.lessons && ResetLesson(r.lessons[l]) == ResetLesson(q.lessons[l])
    ensures Base(r) == Base(q)
  {
    var a, b := Discarded(r), Discarded(q);
    forall s ensures s in a.sections <==> s in b.sections {
      assert SectionIsLive(r, s) <==> SectionIsLive(q, s);
    }
    forall s | s in a.sections ensures a.sections[s] == b.sections[s] {
      assert SectionIsLive(r, s);
    }
    assert a.sections == b.sections;
    forall l ensures l in a.lessons <==> l in b.lessons {
      assert Survives(r, l) <==> Survives(q, l);
    }
    forall l | l in a.lessons ensures a.lessons[l] == b.lessons[l] {
      assert Survives(r, l);
    }
    assert a.lessons == b.lessons;
  }

  lemma StagedSteps(r: Rows, next: Id, q: Rows, mid: Id, p: Rows, after: Id)
    requires IdsBelow(r, next) && StagedStep(r, next, q, mid) && StagedStep(q, mid, p, after)
    ensures StagedStep(r, next, p, after)
  {
  }

  lemma OnlyKnown(fields: seq<Field>, changes: Fields, live: Fields, pending: Option<Fields>)
    requires Covers(fields, live, pending)
    ensures Covers(fields, live + Only(fields, changes), pending)
    ensures Covers(fields, live, StageFields(live, pending, Only(fields, changes)))
  {
  }

  lemma LessonChangesKnown(lesson: Lesson, changes: Fields)
    requires Covers(LESSON_FIELDS, lesson.live, lesson.pending)
    ensures forall f :: f in LessonChanges(lesson, changes) ==> f in LESSON_FIELDS
    ensures Covers(LESSON_FIELDS, lesson.live + LessonChanges(lesson, changes), lesson.pending)
    ensures Covers(LESSON_FIELDS, lesson.live, StageFields(lesson.live, lesson.pending, LessonChanges(lesson, changes)))
  {
  }

  lemma CourseEdit(changes: Fields, r: Rows, next: Id)
    requires WellFormed(r) && IdsBelow(r, next)
    ensures StagedStep(r, next, r.(pending := StageFields(r.course, r.pending, Only(COURSE_FIELDS, changes))), next)
  {
    OnlyKnown(COURSE_FIELDS, changes, r.course, r.pending);
    StagingKeepsMinimal(r.course, r.pending, Only(COURSE_FIELDS, changes));
    SameBase(r, r.(pending := StageFields(r.course, r.pending, Only(COURSE_FIELDS, changes))));
    hide StageFields, Only, Minimal, TidyRow, Base;
  }

  lemma StagingKeepsMinimal(live: Fields, pending: Option<Fields>, changes: Fields)
    ensures Minimal(live, pending) ==> Minimal(live, StageFields(live, pending, changes))
  {
  }

  lemma NewRowsCovered(input: Fields)
    ensures Covers(SECTION_FIELDS, NewSectionFields(input), None)
    ensures Covers(LESSON_FIELDS, NewLessonFields(input), None)
  {
  }

  function Later(a: Id, b: Id): Id {
    if a < b then b else a
  }

  /** What may be put in a section's place: a new row, or the same row with other staged values. */
  predicate FitsSection(s: Id, row: Section, r: Rows, next: Id) {
    if s !in r.sections then s >= next && row.mark == Added && row.pending.None?
    else
      var was := r.sections[s];
      row.order == was.order && (row.mark == Added <==> was.mark == Added) && (was.mark != Added ==> row.live == was.live)
  }

  lemma SectionPut(s: Id, row: Section, r: Rows, next: Id)
    requires WellFormed(r) && IdsBelow(r, next) && Covers(SECTION_FIELDS, row.live, row.pending) && FitsSection(s, row, r, next)
    requires s in r.sections ==>
      var was := r.sections[s]; TidyRow(was.mark, was.live, was.pending) ==> TidyRow(row.mark, row.live, row.pending)
    ensures StagedStep(r, next, PutSection(r, s, row), Later(next, s + 1))
  {
    hide WellFormed, IdsBelow, PlacesKept, Base, Covers, TidyRow;
    SectionPutBase(s, row, r, next);
    SectionPutShape(s, row, r, next);
    if Tidy(r) {
      if s !in r.sections { NewRowIsTidy(row); }
      SectionPutTidy(s, row, r);
    }
  }

  lemma NewRowIsTidy(row: Section)
    requires row.mark == Added && row.pending.None?
    ensures TidyRow(row.mark, row.live, row.pending)
  {
  }

  lemma SectionPutBase(s: Id, row: Section, r: Rows, next: Id)
    requires WellFormed(r) && FitsSection(s, row, r, next)
    ensures Base(PutSection(r, s, row)) == Base(r)
  {
    hide Covers, Base;
    var q := PutSection(r, s, row);
    forall l ensures Survives(r, l) <==> Survives(q, l) {
      if l in r.lessons { assert r.lessons[l].section in r.sections; }
    }
    SameBase(r, q);
  }

  lemma SectionPutShape(s: Id, row: Section, r: Rows, next: Id)
    requires WellFormed(r) && IdsBelow(r, next) && Covers(SECTION_FIELDS, row.live, row.pending) && FitsSection(s, row, r, next)
    ensures var q := PutSection(r, s, row); WellFormed(q) && IdsBelow(q, Later(next, s + 1)) && PlacesKept(r, q, next)
  {
    hide Covers;
  }

  lemma SectionPutTidy(s: Id, row: Section, r: Rows)
    requires WellFormed(r) && Tidy(r)
    requires TidyRow(row.mark, row.live, row.pending)
    requires s in r.sections ==> (row.mark == Added <==> r.sections[s].mark == Added)
    ensures Tidy(PutSection(r, s, row))
  {
  }

  lemma SectionEdit(s: Id, changes: Fields, r: Rows, next: Id)
    requires WellFormed(r) && IdsBelow(r, next) && s in r.sections
    ensures StagedStep(r, next, PutSection(r, s, EditedSection(true, r.sections[s], changes)), next)
  {
    var row := r.sections[s];
    OnlyKnown(SECTION_FIELDS, changes, row.live, row.pending);
    StagingKeepsMinimal(row.live, row.pending, Only(SECTION_FIELDS, changes));
    SectionPut(s, EditedSection(true, row, changes), r, next);
  }

  /** Writing one lesson row, likewise. */
  lemma LessonPut(l: Id, row: Lesson, r: Rows, next: Id)
    requires WellFormed(r) && IdsBelow(r, next) && Covers(LESSON_FIELDS, row.live, row.pending) && row.section in r.sections
    requires l !in r.lessons ==> l >= next && row.mark == Added && row.pending.None?
    requires l in r.lessons ==>
      var was := r.lessons[l];
      && row.order == was.order && row.section == was.section
      && (row.mark == Added <==> was.mark == Added) && (!LessonIsNew(r, l) ==> row.live == was.live)
      && (Tidy(r) ==> TidyRow(row.mark, row.live, row.pending))
    ensures StagedStep(r, next, PutLesson(r, l, row), Later(next, l + 1))
  {
    LessonPutBase(l, row, r);
    if Tidy(r) { LessonPutTidy(l, row, r); }
  }

  lemma LessonPutBase(l: Id, row: Lesson, r: Rows)
    requires WellFormed(r) && row.section in r.sections
    requires l !in r.lessons ==> row.mark == Added
    requires l in r.lessons ==>
      var was := r.lessons[l];
      && row.order == was.order && row.section == was.section
      && (row.mark == Added <==> was.mark == Added) && (!LessonIsNew(r, l) ==> row.live == was.live)
    ensures Base(PutLesson(r, l, row)) == Base(r)
  {
    var q := PutLesson(r, l, row);
    forall k ensures Survives(r, k) <==> Survives(q, k)
      ensures Survives(r, k) ==> ResetLesson(r.lessons[k]) == ResetLesson(q.lessons[k])
    {
    }
    SameBase(r, q);
  }

  lemma LessonPutTidy(l: Id, row: Lesson, r: Rows)
    requires WellFormed(r) && Tidy(r) && row.section in r.sections
    requires TidyRow(row.mark, row.live, row.pending)
    requires r.sections[row.section].mark == Added ==> row.mark == Added
    ensures Tidy(PutLesson(r, l, row))
  {
  }

  lemma LessonInsert(s: Id, order: int, input: Fields, r: Rows, next: Id)
    requires WellFormed(r) && IdsBelow(r, next) && s in r.sections
    ensures StagedStep(r, next, PutLesson(r, next, Lesson(s, order, NewLessonFields(input), Added, None)), next + 1)
  {
    NewRowsCovered(input);
    LessonPut(next, Lesson(s, order, NewLessonFields(input), Added, None), r, next);
  }

  lemma {:induction false} LessonInserts(inputs: seq<Fields>, s: Id, order: int, r: Rows, next: Id)
    requires WellFormed(r) && IdsBelow(r, next) && s in r.sections
    ensures var e := InsertLessons(true, inputs, s, order, r, next); StagedStep(r, next, e.rows, e.next)
    decreases |inputs|
  {
    if inputs != [] {
      var q := PutLesson(r, next, Lesson(s, order, NewLessonFields(inputs[0]), Added, None));
      LessonInsert(s, order, inputs[0], r, next);
      LessonInserts(inputs[1..], s, order + 1, q, next + 1);
      var e := InsertLessons(true, inputs, s, order, r, next);
      StagedSteps(r, next, q, next + 1, e.rows, e.next);
    }
  }

  lemma SectionInsert(input: SectionInput, order: int, r: Rows, next: Id)
    requires WellFormed(r) && IdsBelow(r, next)
    ensures var e := InsertSection(true, input, order, r, next); StagedStep(r, next, e.rows, e.next)
  {
    var row := Section(order, NewSectionFields(input.fields), Added, None);
    NewRowsCovered(input.fields);
    SectionPut(next, row, r, next);
    LessonInserts(input.lessons, next, 0, PutSection(r, next, row), next + 1);
    var e := InsertSection(true, input, order, r, next);
    StagedSteps(r, next, PutSection(r, next, row), next + 1, e.rows, e.next);
  }

  lemma {:induction false} SectionInserts(inputs: seq<SectionInput>, order: int, r: Rows, next: Id)
    requires WellFormed(r) && IdsBelow(r, next)
    ensures var e := InsertSections(true, inputs, order, r, next); StagedStep(r, next, e.rows, e.next)
    decreases |inputs|
  {
    if inputs != [] {
      var first := InsertSection(true, inputs[0], order, r, next);
      SectionInsert(inputs[0], order, r, next);
      SectionInserts(inputs[1..], order + 1, first.rows, first.next);
      var e := InsertSections(true, inputs, order, r, next);
      StagedSteps(r, next, first.rows, first.next, e.rows, e.next);
    }
  }

  lemma LessonEdit(l: Id, changes: Fields, r: Rows, next: Id)
    requires WellFormed(r) && IdsBelow(r, next) && l in r.lessons
    ensures StagedStep(r, next, PutLesson(r, l, EditedLesson(true, r.lessons[l], r.sections[r.lessons[l].section].mark, changes)), next)
  {
    var row := r.lessons[l];
    LessonChangesKnown(row, changes);
    StagingKeepsMinimal(row.live, row.pending, LessonChanges(row, changes));
    LessonPut(l, EditedLesson(true, row, r.sections[row.section].mark, changes), r, next);
  }

  lemma LessonMark(l: Id, r: Rows, next: Id)
    requires WellFormed(r) && IdsBelow(r, next) && l in r.lessons && !LessonIsNew(r, l)
    ensures StagedStep(r, next, PutLesson(r, l, r.lessons[l].(mark := Removed)), next)
  {
    LessonPut(l, r.lessons[l].(mark := Removed), r, next);
  }

  lemma LessonDelete(l: Id, r: Rows, next: Id)
    requires WellFormed(r) && IdsBelow(r, next) && l in r.lessons && LessonIsNew(r, l)
    ensures StagedStep(r, next, r.(lessons := r.lessons - {l}), next)
  {
    SameBase(r, r.(lessons := r.lessons - {l}));
  }

  lemma SectionDelete(s: Id, r: Rows, next: Id)
    requires WellFormed(r) && IdsBelow(r, next) && s in r.sections && r.sections[s].mark == Added
    ensures StagedStep(r, next, DeleteSection(r, s), next)
  {
    SameBase(r, DeleteSection(r, s));
    SectionDeleteTidy(s, r);
    hide Tidy, Base, Covers;
  }

  lemma SectionDeleteTidy(s: Id, r: Rows)
    ensures Tidy(r) ==> Tidy(DeleteSection(r, s))
  {
    hide TidyRow, Minimal;
  }

  lemma SectionMark(s: Id, r: Rows, next: Id)
    requires WellFormed(r) && IdsBelow(r, next) && s in r.sections && r.sections[s].mark != Added
    ensures StagedStep(r, next, MarkSectionRemoved(r, s), next)
  {
    var q := MarkSectionRemoved(r, s);
    forall l ensures Survives(r, l) <==> Survives(q, l) {
      if l in r.lessons { assert r.lessons[l].section in r.sections; }
    }
    SameBase(r, q);
    SectionMarkShape(s, r, next);
  }

  lemma SectionMarkShape(s: Id, r: Rows, next: Id)
    requires WellFormed(r) && IdsBelow(r, next) && s in r.sections && r.sections[s].mark != Added
    ensures var q := MarkSectionRemoved(r, s); WellFormed(q) && IdsBelow(q, next) && PlacesKept(r, q, next) && (Tidy(r) ==> Tidy(q))
  {
    hide Tidy;
    if Tidy(r) { SectionMarkTidy(s, r); }
  }

  lemma SectionMarkTidy(s: Id, r: Rows)
    requires Tidy(r) && s in r.sections && r.sections[s].mark != Added
    ensures Tidy(MarkSectionRemoved(r, s))
  {
    hide Minimal;
  }

  lemma NotesEdit(r: Rows, next: Id, notes: Notes, staged: Notes)
    requires WellFormed(r) && IdsBelow(r, next)
    ensures StagedStep(r, next, r.(notes := notes, stagedNotes := staged), next)
  {
    var q := r.(notes := notes, stagedNotes := staged);
    assert Discarded(q) == Discarded(r).(notes := notes);
  }

  /** Every staged edit leaves alone what a discard would restore. */
  lemma StagedEditKeepsBase(e: Edit, r: Rows, next: Id)
    requires WellFormed(r) && IdsBelow(r, next)
    ensures Edit1(true, e, r, next).Some? ==> StagedStep(r, next, Edit1(true, e, r, next).value.rows, Edit1(true, e, r, next).value.next)
  {
    hide StagedStep, PutSection, PutLesson, DeleteSection, MarkSectionRemoved, InsertSections, EditedSection, EditedLesson, WellFormed, IdsBelow, StageFields;
    if TargetExists(e, r) {
      match e
      case EditCourse(changes) => CourseEdit(changes, r, next);
      case AddSections(inputs) => SectionInserts(inputs, |r.sections|, r, next);
      case EditSection(s, changes) => SectionEdit(s, changes, r, next);
      case DropSection(s) =>
        if r.sections[s].mark != Added { SectionMark(s, r, next); } else { SectionDelete(s, r, next); }
      case AddLesson(s, input) => LessonInsert(s, |LessonsOf(r, s)|, input, r, next);
      case EditLesson(l, changes) => LessonEdit(l, changes, r, next);
      case DropLesson(l) =>
        if LessonIsNew(r, l) { LessonDelete(l, r, next); } else { LessonMark(l, r, next); }
      case AddNote(title, chunks) => NotesEdit(r, next, r.notes, r.stagedNotes[title := chunks]);
      case DropNote(title, which) =>
        var q := WithoutNote(true, title, which, r);
        NotesEdit(r, next, q.notes, q.stagedNotes);
        assert q == r.(notes := q.notes, stagedNotes := q.stagedNotes);
    }
  }

  lemma NotesAreNotContent(r: Rows, notes: Notes)
    ensures LiveContent(r.(notes := notes)) == LiveContent(r)
  {
    var q := r.(notes := notes);
    assert forall s :: SectionIsLive(q, s) <==> SectionIsLive(r, s);
    assert forall l :: LessonIsLive(q, l) <==> LessonIsLive(r, l);
  }

  /** ... and what learners see. */
  lemma BaseFixesLiveContent(r: Rows, q: Rows)
    requires WellFormed(r) && WellFormed(q) && Base(r) == Base(q)
    ensures LiveContent(r) == LiveContent(q)
  {
    DiscardKeepsLiveContent(r);
    DiscardKeepsLiveContent(q);
    NotesAreNotContent(Discarded(r), map[]);
    NotesAreNotContent(Discarded(q), map[]);
  }

  // ---- Discard undoes editing -----------------------------------------------

  /** A run of staged edits; refused ones change nothing. */
  function EditRun(edits: seq<Edit>, r: Rows, next: Id): Edited {
    if edits == [] then Edited(r, next)
    else
      var e := Edit1(true, edits[0], r, next);
      if e.None? then EditRun(edits[1..], r, next) else EditRun(edits[1..], e.value.rows, e.value.next)
  }

  /** Does the run remove a live note? That takes effect at once and is not undone. */
  predicate DropsLiveNote(edits: seq<Edit>, r: Rows, next: Id) {
    if edits == [] then false
    else
      var e := Edit1(true, edits[0], r, next);
      || (edits[0].DropNote? && NoteToDrop(true, edits[0].title, edits[0].which, r) == Some(LiveNote) && edits[0].title in r.notes)
      || if e.None? then DropsLiveNote(edits[1..], r, next) else DropsLiveNote(edits[1..], e.value.rows, e.value.next)
  }

  lemma {:induction false} EditRunKeepsBase(edits: seq<Edit>, r: Rows, next: Id)
    requires WellFormed(r) && IdsBelow(r, next)
    ensures var e := EditRun(edits, r, next);
      WellFormed(e.rows) && next <= e.next && IdsBelow(e.rows, e.next) && Base(e.rows) == Base(r) && (Tidy(r) ==> Tidy(e.rows))
    decreases |edits|
  {
    if edits != [] {
      StagedEditKeepsBase(edits[0], r, next);
      var e := Edit1(true, edits[0], r, next);
      if e.None? { EditRunKeepsBase(edits[1..], r, next); } else { EditRunKeepsBase(edits[1..], e.value.rows, e.value.next); }
    }
  }

  predicate SameButTree(r: Rows, q: Rows) {
    q == r.(sections := q.sections, lessons := q.lessons)
  }

  lemma {:induction false} LessonInsertsKeepRest(staged: bool, inputs: seq<Fields>, s: Id, order: int, r: Rows, next: Id)
    ensures SameButTree(r, InsertLessons(staged, inputs, s, order, r, next).rows)
    decreases |inputs|
  {
    if inputs != [] {
      LessonInsertsKeepRest(staged, inputs[1..], s, order + 1, PutLesson(r, next, Lesson(s, order, NewLessonFields(inputs[0]), MarkFor(staged), None)), next + 1);
    }
  }

  lemma {:induction false} InsertsKeepRest(staged: bool, inputs: seq<SectionInput>, order: int, r: Rows, next: Id)
    ensures SameButTree(r, InsertSections(staged, inputs, order, r, next).rows)
    decreases |inputs|
  {
    if inputs != [] {
      var row := Section(order, NewSectionFields(inputs[0].fields), MarkFor(staged), None);
      LessonInsertsKeepRest(staged, inputs[0].lessons, next, 0, PutSection(r, next, row), next + 1);
      var first := InsertSection(staged, inputs[0], order, r, next);
      InsertsKeepRest(staged, inputs[1..], order + 1, first.rows, first.next);
    }
  }

  lemma StagedEditKeepsNotes(e: Edit, r: Rows, next: Id)
    requires Edit1(true, e, r, next).Some?
    requires !(e.DropNote? && NoteToDrop(true, e.title, e.which, r) == Some(LiveNote) && e.title in r.notes)
    ensures Edit1(true, e, r, next).value.rows.notes == r.notes
  {
    if e.AddSections? {
      InsertsKeepRest(true, e.inputs, |r.sections|, r, next);
    }
    if e.DropNote? {
      assert r.notes - {e.title} == r.notes || e.title in r.notes;
    }
  }

  lemma {:induction false} EditRunKeepsNotes(edits: seq<Edit>, r: Rows, next: Id)
    ensures DropsLiveNote(edits, r, next) || EditRun(edits, r, next).rows.notes == r.notes
    decreases |edits|
  {
    if edits != [] && !DropsLiveNote(edits, r, next) {
      var e := Edit1(true, edits[0], r, next);
      if e.None? {
        EditRunKeepsNotes(edits[1..], r, next);
      } else {
        StagedEditKeepsNotes(edits[0], r, next);
        EditRunKeepsNotes(edits[1..], e.value.rows, e.value.next);
      }
    }
  }

  /** From a clean course, any run of staged edits is invisible to learners and is undone by a discard, row for row. */
  lemma DiscardUndoesEditing(edits: seq<Edit>, r: Rows, next: Id)
    requires WellFormed(r) && IdsBelow(r, next) && !HasStaged(r) && r.pending.None?
    requires !DropsLiveNote(edits, r, next)
    ensures Discarded(EditRun(edits, r, next).rows) == r
    ensures LiveContent(EditRun(edits, r, next).rows) == LiveContent(r)
  {
    EditRunKeepsBase(edits, r, next);
    EditRunKeepsNotes(edits, r, next);
    NothingStaged(r);
    Unstaged(r);
    var q := EditRun(edits, r, next).rows;
    BaseFixesLiveContent(q, r);
    assert Discarded(q) == Base(q).(notes := q.notes);
    assert Discarded(r) == Base(r).(notes := r.notes);
  }
}
