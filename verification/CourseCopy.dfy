/** Duplicating a course: the educator's working copy under new ids, as a plain draft. */
module CourseCopy {
  import opened Options
  import opened CourseRows
  import opened Staging
  import opened Listing
  import opened RevisionDiff

  function SectionCopy(s: Section): Section {
    Section(s.order, Merged(s.live, s.pending), Plain, None)
  }

  function LessonCopy(l: Lesson, section: Id): Lesson {
    Lesson(section, l.order, Merged(l.live, l.pending), Plain, None)
  }

  const MAX_COPY_TITLE := 120

  /** The name of the copy; a title is text in every stored course. */
  function CopyTitle(title: Val): Val {
    if title.Text? then
      var name := title.s + " (copy)";
      Text(if |name| <= MAX_COPY_TITLE then name else name[..MAX_COPY_TITLE])
    else title
  }

  ghost predicate Injective(ids: map<Id, Id>) {
    forall a, b :: a in ids && b in ids && ids[a] == ids[b] ==> a == b
  }

  /** `ids` sends each section copied so far to its copy, and every section of the copy is one. */
  ghost predicate SectionsCopied(r: Rows, done: set<Id>, copy: map<Id, Section>, ids: map<Id, Id>, next: Id) {
    && (forall s :: s in ids <==> s in done && SectionStays(r, s))
    && Injective(ids)
    && (forall s :: s in ids ==> ids[s] < next && ids[s] in copy && copy[ids[s]] == SectionCopy(r.sections[s]))
    && (forall n :: n in copy ==> exists s :: s in ids && ids[s] == n)
  }

  /** Likewise for the lessons of these sections. */
  ghost predicate LessonsCopied(r: Rows, done: set<Id>, copy: map<Id, Lesson>, ids: map<Id, Id>, sectionIds: map<Id, Id>, next: Id) {
    && (forall l :: l in ids <==> l in done && LessonStays(r, l))
    && Injective(ids)
    && (forall l :: l in ids ==> ids[l] < next && ids[l] in copy && r.lessons[l].section in sectionIds)
    && (forall l :: l in ids ==> copy[ids[l]] == LessonCopy(r.lessons[l], sectionIds[r.lessons[l].section]))
    && (forall n :: n in copy ==> exists l :: l in ids && ids[l] == n)
  }

  method CopySections(r: Rows, next: Id) returns (copy: map<Id, Section>, ids: map<Id, Id>, after: Id)
    ensures SectionsCopied(r, r.sections.Keys, copy, ids, after) && next <= after
  {
    copy, ids, after := map[], map[], next;
    var order := SectionsInOrder(r);
    ListedElements(r.sections.Keys, SectionRank(r));
    hide Listed, SectionCopy, SectionsCopied;
    NothingCopied(r, next);
    ghost var done: set<Id> := {};
    for i := 0 to |order|
      invariant SectionsCopied(r, done, copy, ids, after) && next <= after
      invariant forall s :: s in done <==> s in order[..i]
    {
      var s := order[i];
      assert s in order && order[..i + 1] == order[..i] + [s];
      OneMoreSection(r, done, copy, ids, after, s);
      if r.sections[s].mark != Removed && s !in ids {
        copy := copy[after := SectionCopy(r.sections[s])];
        ids := ids[s := after];
        after := after + 1;
      }
      done := done + {s};
    }
    assert order[..|order|] == order;
    assert done == r.sections.Keys;
  }

  lemma NothingCopied(r: Rows, next: Id)
    ensures SectionsCopied(r, {}, map[], map[], next)
  {
  }

  lemma OneMoreSection(r: Rows, done: set<Id>, copy: map<Id, Section>, ids: map<Id, Id>, next: Id, s: Id)
    requires SectionsCopied(r, done, copy, ids, next) && s in r.sections
    ensures !SectionStays(r, s) || s in ids ==> SectionsCopied(r, done + {s}, copy, ids, next)
    ensures SectionStays(r, s) && s !in ids ==>
      SectionsCopied(r, done + {s}, copy[next := SectionCopy(r.sections[s])], ids[s := next], next + 1)
  {
    hide SectionCopy, SectionStays;
    if SectionStays(r, s) && s !in ids {
      var more, grown := copy[next := SectionCopy(r.sections[s])], ids[s := next];
      forall n | n in more ensures exists k :: k in grown && grown[k] == n {
        if n == next {
          assert s in grown && grown[s] == n;
        } else {
          var k :| k in ids && ids[k] == n;
          assert k in grown && grown[k] == n;
        }
      }
    }
  }

  method CopyLessons(r: Rows, sectionIds: map<Id, Id>, next: Id) returns (copy: map<Id, Lesson>, ids: map<Id, Id>, after: Id)
    requires forall s :: s in sectionIds <==> SectionStays(r, s)
    ensures LessonsCopied(r, r.lessons.Keys, copy, ids, sectionIds, after) && next <= after
  {
    hide LessonCopy;
    copy, ids, after := map[], map[], next;
    var todo := r.lessons.Keys;
    while todo != {}
      invariant todo <= r.lessons.Keys && next <= after
      invariant LessonsCopied(r, r.lessons.Keys - todo, copy, ids, sectionIds, after)
      decreases todo
    {
      var l :| l in todo;
      OneMoreLesson(r, r.lessons.Keys - todo, copy, ids, sectionIds, after, l);
      assert r.lessons.Keys - (todo - {l}) == r.lessons.Keys - todo + {l};
      todo := todo - {l};
      if r.lessons[l].mark != Removed && r.lessons[l].section in sectionIds {
        copy := copy[after := LessonCopy(r.lessons[l], sectionIds[r.lessons[l].section])];
        ids := ids[l := after];
        after := after + 1;
      }
    }
    assert r.lessons.Keys - todo == r.lessons.Keys;
  }

  lemma OneMoreLesson(r: Rows, done: set<Id>, copy: map<Id, Lesson>, ids: map<Id, Id>, sectionIds: map<Id, Id>, next: Id, l: Id)
    requires LessonsCopied(r, done, copy, ids, sectionIds, next) && l in r.lessons && l !in done
    requires forall s :: s in sectionIds <==> SectionStays(r, s)
    ensures !LessonStays(r, l) ==> LessonsCopied(r, done + {l}, copy, ids, sectionIds, next)
    ensures LessonStays(r, l) ==>
      LessonsCopied(r, done + {l}, copy[next := LessonCopy(r.lessons[l], sectionIds[r.lessons[l].section])], ids[l := next], sectionIds, next + 1)
  {
    hide LessonCopy, SectionStays;
    if LessonStays(r, l) {
      var more, grown := copy[next := LessonCopy(r.lessons[l], sectionIds[r.lessons[l].section])], ids[l := next];
      forall n | n in more ensures exists k :: k in grown && grown[k] == n {
        if n == next {
          assert l in grown && grown[l] == n;
        } else {
          var k :| k in ids && ids[k] == n;
          assert k in grown && grown[k] == n;
        }
      }
    }
  }

  // ---- What the copy holds --------------------------------------------------

  ghost predicate SectionsRenamed(c: Content, d: Content, ids: map<Id, Id>) {
    && Injective(ids) && (forall s :: s in ids <==> s in c.sections)
    && (forall s :: s in c.sections ==> ids[s] in d.sections && d.sections[ids[s]] == c.sections[s])
    && (forall n :: n in d.sections ==> exists s :: s in ids && ids[s] == n)
  }

  ghost predicate LessonsRenamed(c: Content, d: Content, sectionIds: map<Id, Id>, ids: map<Id, Id>) {
    && Injective(ids) && (forall l :: l in ids <==> l in c.lessons)
    && (forall l :: l in c.lessons ==> c.lessons[l].section in sectionIds && ids[l] in d.lessons)
    && (forall l :: l in c.lessons ==> d.lessons[ids[l]] == c.lessons[l].(section := sectionIds[c.lessons[l].section]))
    && (forall n :: n in d.lessons ==> exists l :: l in ids && ids[l] == n)
  }

  /** `d` is `c` with the sections and lessons under new names. */
  ghost predicate IsRenamed(c: Content, d: Content, sectionIds: map<Id, Id>, lessonIds: map<Id, Id>) {
    SectionsRenamed(c, d, sectionIds) && LessonsRenamed(c, d, sectionIds, lessonIds)
  }

  lemma CopiesAreLive(r: Rows, copy: Rows, sectionIds: map<Id, Id>, lessonIds: map<Id, Id>, a: Id, b: Id)
    requires WellFormed(r) && SectionsCopied(r, r.sections.Keys, copy.sections, sectionIds, a)
    requires LessonsCopied(r, r.lessons.Keys, copy.lessons, lessonIds, sectionIds, b)
    ensures forall n :: n in copy.sections ==> SectionIsLive(copy, n)
    ensures forall n :: n in copy.lessons ==> LessonIsLive(copy, n)
  {
    forall n | n in copy.sections ensures SectionIsLive(copy, n) {
      var s :| s in sectionIds && sectionIds[s] == n;
    }
    forall n | n in copy.lessons ensures LessonIsLive(copy, n) {
      var l :| l in lessonIds && lessonIds[l] == n;
      assert sectionIds[r.lessons[l].section] in copy.sections;
    }
  }

  lemma CopiedSectionsAreRenamed(r: Rows, copy: Rows, ids: map<Id, Id>, next: Id)
    requires SectionsCopied(r, r.sections.Keys, copy.sections, ids, next)
    requires forall n :: n in copy.sections ==> SectionIsLive(copy, n)
    ensures SectionsRenamed(WorkingContent(r), LiveContent(copy), ids)
  {
    hide SectionIsLive, SectionStays, LessonIsLive, LessonStays, Merged;
    StaysAreWorking(r);
    var c, d := WorkingContent(r), LiveContent(copy);
    forall s | s in c.sections ensures d.sections[ids[s]] == c.sections[s] {
      assert copy.sections[ids[s]] == SectionCopy(r.sections[s]);
    }
  }

  lemma CopiedLessonsAreRenamed(r: Rows, copy: Rows, sectionIds: map<Id, Id>, ids: map<Id, Id>, next: Id)
    requires LessonsCopied(r, r.lessons.Keys, copy.lessons, ids, sectionIds, next)
    requires forall n :: n in copy.lessons ==> LessonIsLive(copy, n)
    ensures LessonsRenamed(WorkingContent(r), LiveContent(copy), sectionIds, ids)
  {
    hide SectionIsLive, SectionStays, LessonIsLive, LessonStays, Merged;
    StaysAreWorking(r);
    var c, d := WorkingContent(r), LiveContent(copy);
    forall l | l in c.lessons ensures d.lessons[ids[l]] == c.lessons[l].(section := sectionIds[c.lessons[l].section]) {
      assert copy.lessons[ids[l]] == LessonCopy(r.lessons[l], sectionIds[r.lessons[l].section]);
    }
  }

  lemma CopyIsRenamed(r: Rows, copy: Rows, sectionIds: map<Id, Id>, lessonIds: map<Id, Id>, a: Id, b: Id)
    requires WellFormed(r) && SectionsCopied(r, r.sections.Keys, copy.sections, sectionIds, a)
    requires LessonsCopied(r, r.lessons.Keys, copy.lessons, lessonIds, sectionIds, b)
    ensures IsRenamed(WorkingContent(r), LiveContent(copy), sectionIds, lessonIds)
  {
    hide WellFormed, SectionsCopied, LessonsCopied, SectionIsLive, LessonIsLive, SectionsRenamed, LessonsRenamed;
    CopiesAreLive(r, copy, sectionIds, lessonIds, a, b);
    CopiedSectionsAreRenamed(r, copy, sectionIds, a);
    CopiedLessonsAreRenamed(r, copy, sectionIds, lessonIds, b);
  }

  lemma StaysAreWorking(r: Rows)
    ensures forall s :: s in WorkingContent(r).sections <==> SectionStays(r, s)
    ensures forall l :: l in WorkingContent(r).lessons <==> LessonStays(r, l)
    ensures forall s :: SectionStays(r, s) ==> s in r.sections
    ensures forall l :: LessonStays(r, l) ==> l in r.lessons
  {
  }

  /** Under new ids, the copy holds exactly what an apply of the staged work would make live, with a title of its own. */
  method Duplicate(r: Rows, next: Id) returns (copy: Rows, ghost sectionIds: map<Id, Id>, ghost lessonIds: map<Id, Id>, after: Id)
    requires WellFormed(r)
    ensures IsRenamed(LiveContent(Applied(r)), LiveContent(copy), sectionIds, lessonIds)
    ensures copy.course == Merged(r.course, r.pending)[Title := CopyTitle(Get(Merged(r.course, r.pending), Title))]
    ensures !HasStaged(copy) && copy.notes == map[]
  {
    var course := Merged(r.course, r.pending);
    var sections, ids, middle := CopySections(r, next);
    var lessons, lids;
    lessons, lids, after := CopyLessons(r, ids, middle);
    copy := Rows(course[Title := CopyTitle(Get(course, Title))], None, sections, lessons, map[], map[]);
    CopyIsRenamed(r, copy, ids, lids, middle, after);
    ApplyPublishesWorkingCopy(r);
    RenamedCourse(r, copy, ids, lids);
    CopyIsUnstaged(r, copy, ids, lids, middle, after);
    sectionIds, lessonIds := ids, lids;
  }

  lemma RenamedCourse(r: Rows, copy: Rows, sectionIds: map<Id, Id>, lessonIds: map<Id, Id>)
    requires IsRenamed(WorkingContent(r), LiveContent(copy), sectionIds, lessonIds) && LiveContent(Applied(r)) == WorkingContent(r)
    ensures IsRenamed(LiveContent(Applied(r)), LiveContent(copy), sectionIds, lessonIds)
  {
  }

  lemma CopyIsUnstaged(r: Rows, copy: Rows, sectionIds: map<Id, Id>, lessonIds: map<Id, Id>, a: Id, b: Id)
    requires SectionsCopied(r, r.sections.Keys, copy.sections, sectionIds, a)
    requires LessonsCopied(r, r.lessons.Keys, copy.lessons, lessonIds, sectionIds, b)
    requires copy.pending.None? && copy.stagedNotes == map[]
    ensures !HasStaged(copy)
  {
    hide SectionStays, LessonStays, Merged, Injective;
    forall n | n in copy.sections ensures !RowIsStaged(copy.sections[n].mark, copy.sections[n].pending) {
      var s :| s in sectionIds && sectionIds[s] == n;
    }
    forall n | n in copy.lessons ensures !RowIsStaged(copy.lessons[n].mark, copy.lessons[n].pending) {
      var l :| l in lessonIds && lessonIds[l] == n;
    }
  }
}
