/**
 Making the staged rows of a course live, or throwing them away.

 The functions say what the two operations do to the rows; class CourseTables
 carries them out row by row, as the service does inside its transaction.
 */
module Staging {
  import opened Options
  import opened CourseRows

  predicate RowIsStaged(mark: Mark, pending: Option<Fields>) {
    mark != Plain || pending.Some?
  }

  /** Is there anything to submit or discard (assessments aside)? */
  predicate HasStaged(r: Rows) {
    || Overrides(r.pending) != map[]
    || (exists s :: s in r.sections && RowIsStaged(r.sections[s].mark, r.sections[s].pending))
    || (exists l :: l in r.lessons && RowIsStaged(r.lessons[l].mark, r.lessons[l].pending))
    || r.stagedNotes != map[]
  }

  /** A row whose staged values went live, and a row whose staged values were thrown away. */
  function SettledSection(s: Section): Section {
    Section(s.order, Merged(s.live, s.pending), Plain, None)
  }

  function SettledLesson(l: Lesson): Lesson {
    Lesson(l.section, l.order, Merged(l.live, l.pending), Plain, None)
  }

  function ResetSection(s: Section): Section {
    s.(mark := Plain, pending := None)
  }

  function ResetLesson(l: Lesson): Lesson {
    l.(mark := Plain, pending := None)
  }

  predicate LessonGoes(r: Rows, l: Id)
    requires l in r.lessons
  {
    var s := r.lessons[l].section;
    r.lessons[l].mark == Removed || (s in r.sections && r.sections[s].mark == Removed)
  }

  predicate LessonIsNew(r: Rows, l: Id)
    requires l in r.lessons
  {
    var s := r.lessons[l].section;
    r.lessons[l].mark == Added || (s in r.sections && r.sections[s].mark == Added)
  }

  function Applied(r: Rows): Rows {
    Rows(
      Merged(r.course, r.pending),
      None,
      map s | s in r.sections && r.sections[s].mark != Removed :: SettledSection(r.sections[s]),
      map l | l in r.lessons && !LessonGoes(r, l) :: SettledLesson(r.lessons[l]),
      r.notes + r.stagedNotes,
      map[])
  }

  function Discarded(r: Rows): Rows {
    Rows(
      r.course,
      None,
      map s | s in r.sections && r.sections[s].mark != Added :: ResetSection(r.sections[s]),
      map l | l in r.lessons && !LessonIsNew(r, l) :: ResetLesson(r.lessons[l]),
      r.notes,
      map[])
  }

  /** On a course that learners do not see, what is staged simply becomes the content. */
  function Folded(r: Rows): Rows {
    if HasStaged(r) then Applied(r) else r
  }

  // ---- What the two operations mean -----------------------------------------

  lemma MergeNothing(live: Fields)
    ensures Merged(live, None) == live
  {
  }

  lemma AppliedWellFormed(r: Rows)
    requires WellFormed(r)
    ensures WellFormed(Applied(r))
  {
    hide Covers, Merged, Overrides;
    CoversAfterSettling(COURSE_FIELDS, r.course, r.pending);
    forall s | s in r.sections ensures Covers(SECTION_FIELDS, SettledSection(r.sections[s]).live, None) {
      CoversAfterSettling(SECTION_FIELDS, r.sections[s].live, r.sections[s].pending);
    }
    forall l | l in r.lessons ensures Covers(LESSON_FIELDS, SettledLesson(r.lessons[l]).live, None) {
      CoversAfterSettling(LESSON_FIELDS, r.lessons[l].live, r.lessons[l].pending);
    }
  }

  lemma CoversAfterSettling(fields: seq<Field>, live: Fields, pending: Option<Fields>)
    requires Covers(fields, live, pending)
    ensures Covers(fields, Merged(live, pending), None)
  {
  }

  lemma AppliedUnstaged(r: Rows)
    ensures !HasStaged(Applied(r)) && !HasStaged(Discarded(r))
  {
  }

  lemma AppliedRows(r: Rows)
    requires WellFormed(r)
    ensures WellFormed(Applied(r))
    ensures !HasStaged(Applied(r))
  {
    hide Applied, WellFormed, HasStaged;
    AppliedWellFormed(r);
    AppliedUnstaged(r);
  }

  lemma DiscardedWellFormed(r: Rows)
    requires WellFormed(r)
    ensures WellFormed(Discarded(r))
  {
  }

  lemma DiscardedRows(r: Rows)
    requires WellFormed(r)
    ensures WellFormed(Discarded(r))
    ensures !HasStaged(Discarded(r))
  {
    hide Discarded, WellFormed, HasStaged;
    DiscardedWellFormed(r);
    AppliedUnstaged(r);
  }

  lemma SettledIsWorking(s: Section, l: Lesson)
    ensures LiveSection(SettledSection(s)) == WorkingSection(s) && LiveLesson(SettledLesson(l)) == WorkingLesson(l)
  {
  }

  lemma AppliedSectionsGoLive(r: Rows)
    requires WellFormed(r)
    ensures LiveContent(Applied(r)).sections == WorkingContent(r).sections
  {
    var a := LiveContent(Applied(r)).sections;
    var w := WorkingContent(r).sections;
    forall s ensures s in a <==> s in w {
      assert s in a <==> s in Applied(r).sections;
    }
    forall s | s in a ensures a[s] == w[s] {
      SettledIsWorking(r.sections[s], Lesson(0, 0, map[], Plain, None));
    }
  }

  lemma AppliedLessonStays(r: Rows, l: Id)
    requires WellFormed(r)
    ensures LessonIsLive(Applied(r), l) <==> LessonStays(r, l)
  {
    if l in r.lessons {
      assert r.lessons[l].section in r.sections;
    }
  }

  lemma AppliedLessonsGoLive(r: Rows)
    requires WellFormed(r)
    ensures LiveContent(Applied(r)).lessons == WorkingContent(r).lessons
  {
    var a := LiveContent(Applied(r)).lessons;
    var w := WorkingContent(r).lessons;
    forall l ensures l in a <==> l in w {
      AppliedLessonStays(r, l);
    }
    forall l | l in a ensures a[l] == w[l] {
      AppliedLessonStays(r, l);
      assert Applied(r).lessons[l] == SettledLesson(r.lessons[l]);
    }
  }

  /** Applying publishes the working copy, and leaves nothing staged. */
  lemma ApplyPublishesWorkingCopy(r: Rows)
    requires WellFormed(r)
    ensures LiveContent(Applied(r)) == WorkingContent(r)
    ensures !HasStaged(Applied(r)) && WellFormed(Applied(r))
  {
    AppliedRows(r);
    AppliedSectionsGoLive(r);
    AppliedLessonsGoLive(r);
  }

  lemma DiscardedLessonStaysLive(r: Rows, l: Id)
    requires WellFormed(r)
    ensures LessonIsLive(Discarded(r), l) <==> LessonIsLive(r, l)
  {
    if l in r.lessons {
      assert r.lessons[l].section in r.sections;
    }
  }

  /** Discarding leaves the live content alone, and leaves nothing staged. */
  lemma DiscardKeepsLiveContent(r: Rows)
    requires WellFormed(r)
    ensures LiveContent(Discarded(r)) == LiveContent(r)
    ensures !HasStaged(Discarded(r)) && WellFormed(Discarded(r))
  {
    DiscardedRows(r);
    DiscardedSectionsLive(r);
    DiscardedLessonsLive(r);
  }

  lemma DiscardedSectionsLive(r: Rows)
    ensures LiveContent(Discarded(r)).sections == LiveContent(r).sections
  {
    hide HasStaged, WellFormed;
  }

  lemma DiscardedLessonsLive(r: Rows)
    requires WellFormed(r)
    ensures LiveContent(Discarded(r)).lessons == LiveContent(r).lessons
  {
    hide HasStaged, WellFormed;
    var d := Discarded(r);
    var a := LiveContent(d).lessons;
    var w := LiveContent(r).lessons;
    forall l ensures l in a <==> l in w {
      DiscardedLessonStaysLive(r, l);
    }
    forall l | l in a ensures a[l] == w[l] {
      DiscardedLessonStaysLive(r, l);
      assert d.lessons[l] == ResetLesson(r.lessons[l]);
    }
  }

  lemma Unstaged(r: Rows)
    requires !HasStaged(r)
    ensures Overrides(r.pending) == map[] && r.stagedNotes == map[]
    ensures forall s :: s in r.sections ==> r.sections[s].mark == Plain && r.sections[s].pending == None
    ensures forall l :: l in r.lessons ==> r.lessons[l].mark == Plain && r.lessons[l].pending == None
  {
    forall s | s in r.sections ensures r.sections[s].mark == Plain && r.sections[s].pending == None {
      assert !RowIsStaged(r.sections[s].mark, r.sections[s].pending);
    }
    forall l | l in r.lessons ensures r.lessons[l].mark == Plain && r.lessons[l].pending == None {
      assert !RowIsStaged(r.lessons[l].mark, r.lessons[l].pending);
    }
  }

  /** With nothing staged, the working copy is the live content, and discarding changes no row. */
  lemma NothingStaged(r: Rows)
    requires WellFormed(r) && !HasStaged(r)
    ensures WorkingContent(r) == LiveContent(r)
    ensures Discarded(r) == r.(pending := None)
  {
    Unstaged(r);
    NothingToMerge(r);
    NothingToReset(r);
  }

  lemma NothingToReset(r: Rows)
    requires r.stagedNotes == map[]
    requires forall s :: s in r.sections ==> r.sections[s].mark == Plain && r.sections[s].pending == None
    requires forall l :: l in r.lessons ==> r.lessons[l].mark == Plain && r.lessons[l].pending == None
    ensures Discarded(r) == r.(pending := None)
  {
    assert Discarded(r).sections == r.sections;
    assert Discarded(r).lessons == r.lessons;
  }

  lemma NothingToMerge(r: Rows)
    requires Overrides(r.pending) == map[]
    requires forall s :: s in r.sections ==> r.sections[s].mark == Plain && r.sections[s].pending == None
    requires forall l :: l in r.lessons ==> r.lessons[l].mark == Plain && r.lessons[l].pending == None
    ensures WorkingContent(r) == LiveContent(r)
  {
    hide HasStaged, WellFormed;
    MergeNothing(r.course);
    forall s | s in r.sections ensures WorkingSection(r.sections[s]) == LiveSection(r.sections[s]) {
      MergeNothing(r.sections[s].live);
    }
    forall l | l in r.lessons ensures WorkingLesson(r.lessons[l]) == LiveLesson(r.lessons[l]) {
      MergeNothing(r.lessons[l].live);
    }
    assert WorkingContent(r).sections == LiveContent(r).sections;
    assert WorkingContent(r).lessons == LiveContent(r).lessons;
  }

  // ---- Row by row -----------------------------------------------------------

  /** Tables whose rows were settled, less those to go, are the applied rows. */
  lemma AppliedTables(r: Rows, sections: map<Id, Section>, lessons: map<Id, Lesson>, removed: set<Id>, deleted: set<Id>)
    requires sections.Keys == r.sections.Keys && lessons.Keys == r.lessons.Keys
    requires forall s :: s in removed <==> s in r.sections && r.sections[s].mark == Removed
    requires forall l :: l in deleted <==> l in r.lessons && LessonGoes(r, l)
    requires forall s :: s in sections ==> sections[s] == if s in removed then r.sections[s] else SettledSection(r.sections[s])
    requires forall l :: l in lessons ==> lessons[l] == if l in deleted then r.lessons[l] else SettledLesson(r.lessons[l])
    ensures Rows(Merged(r.course, r.pending), None, sections - removed, lessons - deleted, r.notes + r.stagedNotes, map[]) == Applied(r)
  {
    hide SettledSection, SettledLesson, Merged, LessonGoes;
    var q := Applied(r);
    assert sections - removed == q.sections;
    assert lessons - deleted == q.lessons;
  }

  lemma DiscardedTables(r: Rows, sections: map<Id, Section>, lessons: map<Id, Lesson>)
    requires forall s :: s in sections <==> s in r.sections && r.sections[s].mark != Added
    requires forall l :: l in lessons <==> l in r.lessons && !LessonIsNew(r, l)
    requires forall s :: s in sections ==> sections[s] == ResetSection(r.sections[s])
    requires forall l :: l in lessons ==> lessons[l] == ResetLesson(r.lessons[l])
    ensures sections == Discarded(r).sections && lessons == Discarded(r).lessons
  {
  }

  class CourseTables {
    var course: Fields
    var pending: Option<Fields>
    var sections: map<Id, Section>
    var lessons: map<Id, Lesson>
    var notes: Notes
    var stagedNotes: Notes

    function Contents(): Rows
      reads this
    {
      Rows(course, pending, sections, lessons, notes, stagedNotes)
    }

    constructor (r: Rows)
      ensures Contents() == r
    {
      course, pending, sections, lessons, notes, stagedNotes := r.course, r.pending, r.sections, r.lessons, r.notes, r.stagedNotes;
    }

    method Write(r: Rows)
      modifies this
      ensures Contents() == r
    {
      course, pending, sections, lessons, notes, stagedNotes := r.course, r.pending, r.sections, r.lessons, r.notes, r.stagedNotes;
    }

    /** Update every staged lesson that is kept; rows come in no particular order. */
    method SettleLessons(deleted: set<Id>)
      modifies this`lessons
      ensures lessons.Keys == old(lessons.Keys)
      ensures forall l :: l in lessons ==> lessons[l] == if l in deleted then old(lessons)[l] else SettledLesson(old(lessons)[l])
    {
      var todo := lessons.Keys;
      while todo != {}
        invariant todo <= lessons.Keys == old(lessons.Keys)
        invariant forall l :: l in lessons ==>
          lessons[l] == if l in todo || l in deleted then old(lessons)[l] else SettledLesson(old(lessons)[l])
        decreases todo
      {
        var l :| l in todo;
        todo := todo - {l};
        var row := lessons[l];
        MergeNothing(row.live);
        if l !in deleted && RowIsStaged(row.mark, row.pending) {
          lessons := lessons[l := SettledLesson(row)];
        }
      }
    }

    method SettleSections(deleted: set<Id>)
      modifies this`sections
      ensures sections.Keys == old(sections.Keys)
      ensures forall s :: s in sections ==> sections[s] == if s in deleted then old(sections)[s] else SettledSection(old(sections)[s])
    {
      var todo := sections.Keys;
      while todo != {}
        invariant todo <= sections.Keys == old(sections.Keys)
        invariant forall s :: s in sections ==>
          sections[s] == if s in todo || s in deleted then old(sections)[s] else SettledSection(old(sections)[s])
        decreases todo
      {
        var s :| s in todo;
        todo := todo - {s};
        var row := sections[s];
        MergeNothing(row.live);
        if s !in deleted && RowIsStaged(row.mark, row.pending) {
          sections := sections[s := SettledSection(row)];
        }
      }
    }

    method SettleCourse()
      modifies this`course, this`pending
      ensures course == Merged(old(course), old(pending)) && pending == None
    {
      MergeNothing(course);
      if pending.Some? {
        course, pending := course + pending.value, None;
      }
    }

    /** A pending note takes the place of the live one with its title. */
    method SettleNotes()
      modifies this`notes, this`stagedNotes
      ensures notes == old(notes) + old(stagedNotes) && stagedNotes == map[]
    {
      notes := (notes - stagedNotes.Keys) + stagedNotes;
      stagedNotes := map[];
    }

    /** The tables after an apply: kept rows settled, removed ones gone, pending notes in place. */
    method ApplyStagedState()
      requires forall l :: l in lessons ==> lessons[l].section in sections
      modifies this
      ensures Contents() == Applied(old(Contents()))
    {
      hide Applied, SettledSection, SettledLesson, Merged;
      ghost var r := Contents();
      var removedSections := set s | s in sections && sections[s].mark == Removed;
      var deletedLessons := set l | l in lessons && (lessons[l].mark == Removed || lessons[l].section in removedSections);
      assert forall l :: l in r.lessons ==> (l in deletedLessons <==> LessonGoes(r, l));
      SettleCourse();
      SettleLessons(deletedLessons);
      SettleSections(removedSections);
      AppliedTables(r, sections, lessons, removedSections, deletedLessons);
      // A lesson names its section, so lessons go first.
      lessons := lessons - deletedLessons;
      sections := sections - removedSections;
      SettleNotes();
    }

    method ResetLessons()
      modifies this`lessons
      ensures lessons.Keys == old(lessons.Keys)
      ensures forall l :: l in lessons ==> lessons[l] == ResetLesson(old(lessons)[l])
    {
      lessons := map l | l in lessons :: if RowIsStaged(lessons[l].mark, lessons[l].pending) then ResetLesson(lessons[l]) else lessons[l];
    }

    method ResetSections()
      modifies this`sections
      ensures sections.Keys == old(sections.Keys)
      ensures forall s :: s in sections ==> sections[s] == ResetSection(old(sections)[s])
    {
      sections := map s | s in sections :: if RowIsStaged(sections[s].mark, sections[s].pending) then ResetSection(sections[s]) else sections[s];
    }

    /** Throw away added rows, overrides, markers and pending notes. */
    method DiscardStagedState()
      requires forall l :: l in lessons ==> lessons[l].section in sections
      modifies this
      ensures Contents() == Discarded(old(Contents()))
    {
      ghost var r := Contents();
      var addedSections := set s | s in sections && sections[s].mark == Added;
      var droppedLessons := set l | l in lessons && (lessons[l].mark == Added || lessons[l].section in addedSections);
      assert forall l :: l in r.lessons ==> (l in droppedLessons <==> LessonIsNew(r, l));
      lessons := lessons - droppedLessons;
      sections := sections - addedSections;
      ResetLessons();
      ResetSections();
      DiscardedTables(r, sections, lessons);
      pending := None;
      stagedNotes := map[];
    }
  }
}
