/** What the diff of a staged state means for an apply. */
module DiffTheorems {
  import opened Options
  import opened CourseRows
  import opened Staging
  import opened StagedEdits
  import opened Listing
  import opened RevisionDiff

  // ---- Members of the lists -------------------------------------------------

  lemma {:induction false} FilterMembers(r: Rows, ls: seq<Id>)
    ensures forall x :: x in KeptOf(r, ls) <==> x in ls && Kept(r, x)
    ensures forall x :: x in LiveOf(r, ls) <==> x in ls && WasLive(r, x)
  {
    if ls != [] {
      FilterMembers(r, ls[..|ls| - 1]);
      assert ls == ls[..|ls| - 1] + [ls[|ls| - 1]];
    }
  }

  predicate LessonHas(r: Rows, l: Id, mark: Mark) {
    l in r.lessons && r.lessons[l].mark == mark
  }

  predicate LessonDiffers(r: Rows, l: Id) {
    LessonHas(r, l, Plain) && LessonBefore(r.lessons[l]) != LessonAfter(r.lessons[l])
  }

  predicate IsChangeAmong(r: Rows, ls: seq<Id>, c: LessonChange) {
    c.id in ls && LessonDiffers(r, c.id) && c == ChangeOf(c.id, r.lessons[c.id])
  }

  lemma {:induction false} LessonLists(r: Rows, ls: seq<Id>, d: Diff)
    ensures var e := WithLessons(r, ls, d);
      e == d.(lessonsAdded := e.lessonsAdded, lessonsRemoved := e.lessonsRemoved, lessonsChanged := e.lessonsChanged)
    ensures forall x :: x in WithLessons(r, ls, d).lessonsAdded <==> x in d.lessonsAdded || (x in ls && LessonHas(r, x, Added))
    ensures forall x :: x in WithLessons(r, ls, d).lessonsRemoved <==> x in d.lessonsRemoved || (x in ls && LessonHas(r, x, Removed))
    ensures forall c :: c in WithLessons(r, ls, d).lessonsChanged <==> c in d.lessonsChanged || IsChangeAmong(r, ls, c)
  {
    if ls != [] {
      LessonLists(r, ls[..|ls| - 1], d);
      assert ls == ls[..|ls| - 1] + [ls[|ls| - 1]];
    }
  }

  predicate SectionHas(r: Rows, s: Id, mark: Mark) {
    s in r.sections && r.sections[s].mark == mark
  }

  predicate SectionDiffers(r: Rows, s: Id) {
    SectionHas(r, s, Plain) && SectionAfter(r.sections[s]) != r.sections[s].live
  }

  predicate Within(r: Rows, l: Id, ss: seq<Id>, mark: Mark) {
    l in r.lessons && r.lessons[l].section in ss && SectionHas(r, r.lessons[l].section, mark)
  }

  /** A lesson that becomes visible on its own, in a section that stays. */
  predicate Appears(r: Rows, l: Id, ss: seq<Id>) {
    Within(r, l, ss, Plain) && r.lessons[l].mark == Added
  }

  predicate Disappears(r: Rows, l: Id, ss: seq<Id>) {
    || (Within(r, l, ss, Plain) && r.lessons[l].mark == Removed)
    || (Within(r, l, ss, Removed) && r.lessons[l].mark != Added)
  }

  predicate IsLessonChange(r: Rows, ss: seq<Id>, c: LessonChange) {
    Within(r, c.id, ss, Plain) && LessonDiffers(r, c.id) && c == ChangeOf(c.id, r.lessons[c.id])
  }

  predicate IsNewSection(r: Rows, ss: seq<Id>, n: NewSection) {
    n.id in ss && SectionHas(r, n.id, Added) && n == NewSection(n.id, SectionAfter(r.sections[n.id]), KeptOf(r, LessonsInOrder(r, n.id)))
  }

  predicate IsSectionChange(r: Rows, ss: seq<Id>, c: SectionChange) {
    c.id in ss && SectionDiffers(r, c.id) && c == SectionChange(c.id, r.sections[c.id].live, SectionAfter(r.sections[c.id]))
  }

  /** `e` is `d` with everything the sections `ss` contribute. */
  ghost predicate Extends(r: Rows, ss: seq<Id>, d: Diff, e: Diff) {
    && e.metadata == d.metadata && e.notesAdded == d.notesAdded && e.assessments == d.assessments
    && (forall n :: n in e.sectionsAdded <==> n in d.sectionsAdded || IsNewSection(r, ss, n))
    && (forall s :: s in e.sectionsRemoved <==> s in d.sectionsRemoved || (s in ss && SectionHas(r, s, Removed)))
    && (forall c :: c in e.sectionsChanged <==> c in d.sectionsChanged || IsSectionChange(r, ss, c))
    && (forall l :: l in e.lessonsAdded <==> l in d.lessonsAdded || Appears(r, l, ss))
    && (forall l :: l in e.lessonsRemoved <==> l in d.lessonsRemoved || Disappears(r, l, ss))
    && (forall c :: c in e.lessonsChanged <==> c in d.lessonsChanged || IsLessonChange(r, ss, c))
  }

  lemma ChildrenAre(r: Rows, s: Id)
    ensures forall l :: l in LessonsInOrder(r, s) <==> l in r.lessons && r.lessons[l].section == s
  {
    ListedElements(LessonsOf(r, s), LessonRank(r));
    assert forall l :: l in LessonsOf(r, s) <==> l in r.lessons && r.lessons[l].section == s;
  }

  lemma OneAddedSection(r: Rows, s: Id, d: Diff)
    requires SectionHas(r, s, Added)
    ensures Extends(r, [s], d, WithSection(r, s, d))
  {
  }

  lemma OneRemovedSection(r: Rows, s: Id, d: Diff)
    requires SectionHas(r, s, Removed)
    ensures Extends(r, [s], d, WithSection(r, s, d))
  {
    ChildrenAre(r, s);
    FilterMembers(r, LessonsInOrder(r, s));
    var e := WithSection(r, s, d);
    forall l ensures l in e.lessonsRemoved <==> l in d.lessonsRemoved || Disappears(r, l, [s]) {
    }
  }

  lemma PlainSectionAdds(r: Rows, s: Id, d: Diff)
    requires SectionHas(r, s, Plain)
    ensures forall l :: l in WithSection(r, s, d).lessonsAdded <==> l in d.lessonsAdded || Appears(r, l, [s])
    ensures forall l :: l in WithSection(r, s, d).lessonsRemoved <==> l in d.lessonsRemoved || Disappears(r, l, [s])
  {
    ChildrenAre(r, s);
    LessonLists(r, LessonsInOrder(r, s), WithSectionItself(r, s, d));
  }

  lemma PlainSectionChanges(r: Rows, s: Id, d: Diff)
    requires SectionHas(r, s, Plain)
    ensures forall c :: c in WithSection(r, s, d).lessonsChanged <==> c in d.lessonsChanged || IsLessonChange(r, [s], c)
  {
    var children := LessonsInOrder(r, s);
    ChildrenAre(r, s);
    LessonLists(r, children, WithSectionItself(r, s, d));
    forall c ensures IsChangeAmong(r, children, c) <==> IsLessonChange(r, [s], c) {
      assert c.id in children <==> c.id in r.lessons && r.lessons[c.id].section == s;
    }
  }

  lemma PlainSectionItself(r: Rows, s: Id, d: Diff)
    requires SectionHas(r, s, Plain)
    ensures var e := WithSection(r, s, d);
      && e.metadata == d.metadata && e.notesAdded == d.notesAdded && e.assessments == d.assessments
      && e.sectionsAdded == d.sectionsAdded && e.sectionsRemoved == d.sectionsRemoved
      && (forall c :: c in e.sectionsChanged <==> c in d.sectionsChanged || IsSectionChange(r, [s], c))
  {
    LessonLists(r, LessonsInOrder(r, s), WithSectionItself(r, s, d));
  }

  lemma OnePlainSection(r: Rows, s: Id, d: Diff)
    requires SectionHas(r, s, Plain)
    ensures Extends(r, [s], d, WithSection(r, s, d))
  {
    PlainSectionAdds(r, s, d);
    PlainSectionChanges(r, s, d);
    PlainSectionItself(r, s, d);
  }

  lemma OneSection(r: Rows, s: Id, d: Diff)
    ensures Extends(r, [s], d, WithSection(r, s, d))
  {
    if s in r.sections {
      match r.sections[s].mark
      case Added => OneAddedSection(r, s, d);
      case Removed => OneRemovedSection(r, s, d);
      case Plain => OnePlainSection(r, s, d);
    }
  }

  lemma ExtendsFurther(r: Rows, ss: seq<Id>, t: seq<Id>, d: Diff, e: Diff, f: Diff)
    requires Extends(r, ss, d, e) && Extends(r, t, e, f)
    ensures Extends(r, ss + t, d, f)
  {
  }

  lemma {:induction false} AllSections(r: Rows, ss: seq<Id>, d: Diff)
    ensures Extends(r, ss, d, WithSections(r, ss, d))
  {
    if ss != [] {
      var front, last := ss[..|ss| - 1], ss[|ss| - 1];
      AllSections(r, front, d);
      OneSection(r, last, WithSections(r, front, d));
      ExtendsFurther(r, front, [last], d, WithSections(r, front, d), WithSections(r, ss, d));
      assert ss == front + [last];
    }
  }

  lemma DiffMembers(r: Rows, assessments: seq<string>)
    ensures Extends(r, SectionsInOrder(r), StartOfDiff(r, assessments), DiffOf(r, assessments))
    ensures forall s :: s in SectionsInOrder(r) <==> s in r.sections
  {
    AllSections(r, SectionsInOrder(r), StartOfDiff(r, assessments));
    ListedElements(r.sections.Keys, SectionRank(r));
    assert forall s :: s in r.sections.Keys <==> s in r.sections;
  }

  lemma {:induction false} LessonsOfNewMembers(news: seq<NewSection>)
    ensures forall x :: x in LessonsOfNew(news) <==> exists n :: n in news && x in n.lessons
  {
    if news != [] {
      var front, last := news[..|news| - 1], news[|news| - 1];
      LessonsOfNewMembers(front);
      assert news == front + [last];
      forall x ensures x in LessonsOfNew(news) <==> exists n :: n in news && x in n.lessons {
        if x in LessonsOfNew(front) {
          var n :| n in front && x in n.lessons;
          assert n in news;
        }
        if x in last.lessons { assert last in news; }
      }
    }
  }

  // ---- Lesson ids account for the apply -------------------------------------

  /** Ids of lessons live before, as progress is counted over. */
  function LiveIds(r: Rows): set<Id> {
    set l | l in r.lessons && LessonIsLive(r, l)
  }

  lemma AddedIdsMeaning(r: Rows, assessments: seq<string>, l: Id)
    requires WellFormed(r)
    ensures l in AddedLessonIds(DiffOf(r, assessments)) <==>
      l in r.lessons && (Appears(r, l, [r.lessons[l].section]) || (SectionHas(r, r.lessons[l].section, Added) && r.lessons[l].mark != Removed))
  {
    hide DiffOf, MetaChanges, Alphabetical, SectionsInOrder, LessonsInOrder, LessonsOf, KeptOf, LessonsOfNew, SectionAfter, LessonDiffers, WellFormed;
    var d := DiffOf(r, assessments);
    DiffMembers(r, assessments);
    LessonsOfNewMembers(d.sectionsAdded);
    if l in LessonsOfNew(d.sectionsAdded) {
      var n :| n in d.sectionsAdded && l in n.lessons;
      ChildrenAre(r, n.id);
      FilterMembers(r, LessonsInOrder(r, n.id));
    }
    if l in r.lessons && SectionHas(r, r.lessons[l].section, Added) && r.lessons[l].mark != Removed {
      var s := r.lessons[l].section;
      ChildrenAre(r, s);
      FilterMembers(r, LessonsInOrder(r, s));
      var n := NewSection(s, SectionAfter(r.sections[s]), KeptOf(r, LessonsInOrder(r, s)));
      assert l in n.lessons;
      assert n in d.sectionsAdded;
    }
  }

  lemma DiffAccountsForLesson(r: Rows, assessments: seq<string>, l: Id)
    requires WellFormed(r)
    ensures var d := DiffOf(r, assessments);
      && (LessonStays(r, l) <==> (LessonIsLive(r, l) && l !in d.lessonsRemoved) || l in AddedLessonIds(d))
      && (l in d.lessonsRemoved ==> LessonIsLive(r, l))
      && (l in AddedLessonIds(d) ==> !LessonIsLive(r, l))
  {
    hide DiffOf, MetaChanges, Alphabetical, SectionsInOrder, AddedLessonIds, IsNewSection, IsSectionChange, IsLessonChange, Covers;
    DiffMembers(r, assessments);
    AddedIdsMeaning(r, assessments, l);
    if l in r.lessons {
      assert r.lessons[l].section in r.sections;
    }
  }

  /** Live lessons after an apply: those live before, less the removed ids, plus the added ids. */
  lemma DiffAccountsForApply(r: Rows, assessments: seq<string>)
    requires WellFormed(r)
    ensures var d := DiffOf(r, assessments);
      && LiveIds(Applied(r)) == (LiveIds(r) - set l | l in d.lessonsRemoved) + set l | l in AddedLessonIds(d)
      && (set l | l in d.lessonsRemoved) <= LiveIds(r)
      && (set l | l in AddedLessonIds(d)) !! LiveIds(r)
  {
    hide DiffOf, AddedLessonIds, Applied, LessonStays, WellFormed;
    var d := DiffOf(r, assessments);
    forall l
      ensures l in LiveIds(Applied(r)) <==> (l in LiveIds(r) && l !in d.lessonsRemoved) || l in AddedLessonIds(d)
      ensures l in d.lessonsRemoved ==> l in LiveIds(r)
      ensures l in AddedLessonIds(d) ==> l !in LiveIds(r)
    {
      DiffAccountsForLesson(r, assessments, l);
      AppliedLessonStays(r, l);
      assert l in LiveIds(Applied(r)) <==> LessonStays(r, l);
    }
  }

  /** The changed lists name exactly the rows that stay and differ in a compared column. */
  lemma ChangedListsAreExact(r: Rows, assessments: seq<string>)
    requires WellFormed(r)
    ensures var d := DiffOf(r, assessments);
      && (forall c :: c in d.lessonsChanged <==> c.id in r.lessons && IsLessonChange(r, [r.lessons[c.id].section], c))
      && (forall c :: c in d.sectionsChanged <==> c.id in r.sections && IsSectionChange(r, [c.id], c))
      && (forall s :: s in d.sectionsRemoved <==> SectionHas(r, s, Removed))
  {
    hide DiffOf, SectionsInOrder, IsNewSection, Appears, Disappears, LessonDiffers, SectionDiffers, ChangeOf, Covers;
    DiffMembers(r, assessments);
  }

  lemma {:induction false} ReplacedMembers(changes: seq<LessonChange>)
    ensures forall l :: l in ReplacedOf(changes) <==> exists c :: c in changes && c.videoReplaced && c.id == l
  {
    if changes != [] {
      var front, last := changes[..|changes| - 1], changes[|changes| - 1];
      ReplacedMembers(front);
      assert changes == front + [last];
      forall l ensures l in ReplacedOf(changes) <==> exists c :: c in changes && c.videoReplaced && c.id == l {
        if l in ReplacedOf(front) {
          var c :| c in front && c.videoReplaced && c.id == l;
          assert c in changes;
        }
        if last.videoReplaced && last.id == l { assert last in changes; }
      }
    }
  }

  /** Downstream services hear of a replaced video exactly when a lesson that stays gets a different, non-empty one. */
  lemma ReplacedVideosAreExact(r: Rows, assessments: seq<string>, l: Id)
    requires WellFormed(r)
    ensures l in ReplacedVideoIds(DiffOf(r, assessments)) <==>
      && LessonHas(r, l, Plain) && SectionHas(r, r.lessons[l].section, Plain)
      && var after := Get(Merged(r.lessons[l].live, r.lessons[l].pending), VideoKey);
         after != Get(r.lessons[l].live, VideoKey) && Truthy(after)
  {
    hide DiffOf, SectionsInOrder, IsNewSection, IsSectionChange, Appears, Disappears;
    var d := DiffOf(r, assessments);
    DiffMembers(r, assessments);
    ReplacedMembers(d.lessonsChanged);
    if LessonHas(r, l, Plain) && SectionHas(r, r.lessons[l].section, Plain) {
      var row := r.lessons[l];
      assert VideoKey in row.live;
      assert Get(LessonAfter(row), VideoKey) == Get(Merged(row.live, row.pending), VideoKey);
      assert Get(LessonBefore(row), VideoKey) == Get(row.live, VideoKey);
      if ChangeOf(l, row).videoReplaced {
        assert ChangeOf(l, row) in d.lessonsChanged;
      }
    }
  }

  // ---- Empty diffs ----------------------------------------------------------

  /** A course's content as a reviewer compares it: prices as numbers, video lengths left out. */
  datatype Reviewed = Reviewed(course: map<Field, Val>, price: Option<real>, sections: map<Id, SectionContent>, lessons: map<Id, LessonContent>)

  const PLAIN_COURSE_FIELDS: seq<Field> := [Title, Description, Category, Language, Thumbnail, PricingType]

  function ReviewedOf(c: Content): Reviewed {
    Reviewed(
      Compared(PLAIN_COURSE_FIELDS, c.course),
      NormPrice(Get(c.course, Price)),
      c.sections,
      map l | l in c.lessons :: c.lessons[l].(fields := Compared(LESSON_COMPARED, c.lessons[l].fields)))
  }

  predicate MetaDiffers(r: Rows, f: Field) {
    f in Overrides(r.pending) && !SameValue(f, Get(r.course, f), Get(Merged(r.course, r.pending), f))
  }

  /** The metadata list names exactly the columns that differ, with the live value before and the working value after. */
  lemma {:induction false} MetaMembers(r: Rows, fields: seq<Field>)
    ensures forall c :: c in MetaChanges(r, fields) <==>
      c.field in fields && MetaDiffers(r, c.field) && c == MetaChange(c.field, Get(r.course, c.field), Get(Merged(r.course, r.pending), c.field))
  {
    if fields != [] {
      MetaMembers(r, fields[..|fields| - 1]);
      assert fields == fields[..|fields| - 1] + [fields[|fields| - 1]];
    }
  }

  lemma NoMetaChange(r: Rows)
    requires WellFormed(r)
    ensures MetaChanges(r, COURSE_FIELDS) == [] <==> forall f :: f in COURSE_FIELDS ==> !MetaDiffers(r, f)
  {
    MetaMembers(r, COURSE_FIELDS);
    if MetaChanges(r, COURSE_FIELDS) != [] {
      var c := MetaChanges(r, COURSE_FIELDS)[0];
      assert c in MetaChanges(r, COURSE_FIELDS);
    } else {
      forall f | f in COURSE_FIELDS ensures !MetaDiffers(r, f) {
        assert MetaChange(f, Get(r.course, f), Get(Merged(r.course, r.pending), f)) !in MetaChanges(r, COURSE_FIELDS);
      }
    }
  }

  lemma MetaUnchanged(r: Rows)
    requires WellFormed(r)
    ensures (forall f :: f in COURSE_FIELDS ==> !MetaDiffers(r, f)) <==>
      && Compared(PLAIN_COURSE_FIELDS, Merged(r.course, r.pending)) == Compared(PLAIN_COURSE_FIELDS, r.course)
      && NormPrice(Get(Merged(r.course, r.pending), Price)) == NormPrice(Get(r.course, Price))
  {
    var after, before := Compared(PLAIN_COURSE_FIELDS, Merged(r.course, r.pending)), Compared(PLAIN_COURSE_FIELDS, r.course);
    assert after.Keys == before.Keys;
    if forall f :: f in COURSE_FIELDS ==> !MetaDiffers(r, f) {
      forall f | f in before ensures after[f] == before[f] {
        assert f in COURSE_FIELDS && !MetaDiffers(r, f);
      }
      assert !MetaDiffers(r, Price);
    }
    if after == before && NormPrice(Get(Merged(r.course, r.pending), Price)) == NormPrice(Get(r.course, Price)) {
      forall f | f in COURSE_FIELDS ensures !MetaDiffers(r, f) {
        if f != Price { assert f in PLAIN_COURSE_FIELDS && after[f] == before[f]; }
      }
    }
  }

  /** No row is added or removed, and no row that stays differs in a compared column. */
  ghost predicate TreeUnchanged(r: Rows) {
    && (forall s :: s in r.sections ==> SectionHas(r, s, Plain) && !SectionDiffers(r, s))
    && (forall l :: l in r.lessons ==> LessonIsSame(r, l))
  }

  predicate NoEntries(d: Diff) {
    && d.sectionsAdded == [] && d.sectionsRemoved == [] && d.sectionsChanged == []
    && d.lessonsAdded == [] && d.lessonsRemoved == [] && d.lessonsChanged == []
  }

  lemma NoEntriesNoChange(r: Rows, assessments: seq<string>)
    requires WellFormed(r) && NoEntries(DiffOf(r, assessments))
    ensures TreeUnchanged(r)
  {
    var d := DiffOf(r, assessments);
    DiffMembers(r, assessments);
    forall s | s in r.sections ensures SectionHas(r, s, Plain) && !SectionDiffers(r, s) {
      SectionListed(r, s, d);
    }
    forall l | l in r.lessons ensures LessonIsSame(r, l) {
      assert SectionHas(r, r.lessons[l].section, Plain);
      LessonListed(r, l, d);
    }
  }

  lemma EmptyOrListed<T>(xs: seq<T>)
    ensures xs == [] || exists x :: x in xs
  {
    if xs != [] { assert xs[0] in xs; }
  }

  lemma NoChangeNoEntries(r: Rows, assessments: seq<string>)
    requires WellFormed(r) && TreeUnchanged(r)
    ensures NoEntries(DiffOf(r, assessments))
  {
    hide DiffOf, SectionsInOrder, LessonsInOrder, LessonsOf, KeptOf, SectionAfter, WellFormed;
    var d := DiffOf(r, assessments);
    DiffMembers(r, assessments);
    EmptyOrListed(d.sectionsAdded);
    EmptyOrListed(d.sectionsRemoved);
    EmptyOrListed(d.sectionsChanged);
    EmptyOrListed(d.lessonsAdded);
    EmptyOrListed(d.lessonsRemoved);
    EmptyOrListed(d.lessonsChanged);
  }

  lemma SectionListed(r: Rows, s: Id, d: Diff)
    requires s in r.sections && s in SectionsInOrder(r)
    requires forall n :: IsNewSection(r, SectionsInOrder(r), n) ==> n in d.sectionsAdded
    requires forall c :: IsSectionChange(r, SectionsInOrder(r), c) ==> c in d.sectionsChanged
    requires forall k :: k in SectionsInOrder(r) && SectionHas(r, k, Removed) ==> k in d.sectionsRemoved
    requires d.sectionsAdded == [] && d.sectionsRemoved == [] && d.sectionsChanged == []
    ensures SectionHas(r, s, Plain) && !SectionDiffers(r, s)
  {
    var n := NewSection(s, SectionAfter(r.sections[s]), KeptOf(r, LessonsInOrder(r, s)));
    assert n !in d.sectionsAdded;
    assert !IsNewSection(r, SectionsInOrder(r), n);
    var c := SectionChange(s, r.sections[s].live, SectionAfter(r.sections[s]));
    assert c !in d.sectionsChanged;
    assert !IsSectionChange(r, SectionsInOrder(r), c);
    assert !SectionHas(r, s, Removed);
  }

  lemma LessonListed(r: Rows, l: Id, d: Diff)
    requires l in r.lessons && r.lessons[l].section in SectionsInOrder(r) && SectionHas(r, r.lessons[l].section, Plain)
    requires forall k :: Appears(r, k, SectionsInOrder(r)) ==> k in d.lessonsAdded
    requires forall k :: Disappears(r, k, SectionsInOrder(r)) ==> k in d.lessonsRemoved
    requires forall c :: IsLessonChange(r, SectionsInOrder(r), c) ==> c in d.lessonsChanged
    requires d.lessonsAdded == [] && d.lessonsRemoved == [] && d.lessonsChanged == []
    ensures LessonHas(r, l, Plain) && !LessonDiffers(r, l)
  {
    assert !Appears(r, l, SectionsInOrder(r));
    assert !Disappears(r, l, SectionsInOrder(r));
    var c := ChangeOf(l, r.lessons[l]);
    assert c !in d.lessonsChanged;
    assert !IsLessonChange(r, SectionsInOrder(r), c);
  }

  lemma SectionsUnchanged(r: Rows)
    requires WellFormed(r)
    ensures (forall s :: s in r.sections ==> SectionHas(r, s, Plain) && !SectionDiffers(r, s))
      <==> WorkingContent(r).sections == LiveContent(r).sections
  {
    var w, v := WorkingContent(r).sections, LiveContent(r).sections;
    if w == v {
      forall s | s in r.sections ensures SectionHas(r, s, Plain) && !SectionDiffers(r, s) {
        assert s in w <==> s in v;
        if s in w { assert w[s] == v[s]; }
      }
    }
    if forall s :: s in r.sections ==> SectionHas(r, s, Plain) && !SectionDiffers(r, s) {
      assert forall s :: s in r.sections ==> WorkingSection(r.sections[s]) == LiveSection(r.sections[s]);
      assert w == v;
    }
  }

  lemma LessonInViews(r: Rows, l: Id)
    requires WellFormed(r)
    requires forall s :: s in r.sections ==> SectionHas(r, s, Plain)
    ensures var w, v := ReviewedOf(WorkingContent(r)).lessons, ReviewedOf(LiveContent(r)).lessons;
      && (l in w <==> l in r.lessons && r.lessons[l].mark != Removed)
      && (l in v <==> l in r.lessons && r.lessons[l].mark != Added)
      && (l in w && l in v ==> (w[l] == v[l] <==> LessonBefore(r.lessons[l]) == LessonAfter(r.lessons[l])))
  {
    if l in r.lessons { assert SectionHas(r, r.lessons[l].section, Plain); }
  }

  predicate LessonIsSame(r: Rows, l: Id) {
    LessonHas(r, l, Plain) && !LessonDiffers(r, l)
  }

  lemma SameViewsSameLessons(r: Rows)
    requires WellFormed(r)
    requires forall s :: s in r.sections ==> SectionHas(r, s, Plain)
    requires ReviewedOf(WorkingContent(r)).lessons == ReviewedOf(LiveContent(r)).lessons
    ensures forall l :: l in r.lessons ==> LessonIsSame(r, l)
  {
    hide ReviewedOf, WorkingContent, LiveContent, WellFormed, LessonBefore, LessonAfter, SectionHas;
    forall l | l in r.lessons ensures LessonIsSame(r, l) {
      LessonInViews(r, l);
    }
  }

  lemma SameLessonsSameViews(r: Rows)
    requires WellFormed(r)
    requires forall s :: s in r.sections ==> SectionHas(r, s, Plain)
    requires forall l :: l in r.lessons ==> LessonIsSame(r, l)
    ensures ReviewedOf(WorkingContent(r)).lessons == ReviewedOf(LiveContent(r)).lessons
  {
    hide ReviewedOf, WorkingContent, LiveContent, WellFormed, LessonBefore, LessonAfter, SectionHas;
    var w, v := ReviewedOf(WorkingContent(r)).lessons, ReviewedOf(LiveContent(r)).lessons;
    forall l ensures l in w <==> l in v {
      LessonInViews(r, l);
      assert l in r.lessons ==> LessonIsSame(r, l);
    }
    forall l | l in w ensures w[l] == v[l] {
      LessonInViews(r, l);
      assert LessonIsSame(r, l);
    }
  }

  lemma LessonsUnchanged(r: Rows)
    requires WellFormed(r)
    requires forall s :: s in r.sections ==> SectionHas(r, s, Plain)
    ensures (forall l :: l in r.lessons ==> LessonIsSame(r, l))
      <==> ReviewedOf(WorkingContent(r)).lessons == ReviewedOf(LiveContent(r)).lessons
  {
    if ReviewedOf(WorkingContent(r)).lessons == ReviewedOf(LiveContent(r)).lessons { SameViewsSameLessons(r); }
    if forall l :: l in r.lessons ==> LessonIsSame(r, l) { SameLessonsSameViews(r); }
  }

  lemma EmptyParts(r: Rows)
    requires WellFormed(r)
    ensures IsEmpty(DiffOf(r, [])) <==>
      && (forall f :: f in COURSE_FIELDS ==> !MetaDiffers(r, f))
      && TreeUnchanged(r)
      && r.stagedNotes == map[]
  {
    DiffMembers(r, []);
    NoMetaChange(r);
    AlphabeticalElements(r.stagedNotes.Keys);
    assert Alphabetical(r.stagedNotes.Keys) == [] <==> r.stagedNotes == map[];
    if NoEntries(DiffOf(r, [])) { NoEntriesNoChange(r, []); }
    if TreeUnchanged(r) { NoChangeNoEntries(r, []); }
  }

  lemma TreeParts(r: Rows)
    requires WellFormed(r)
    ensures TreeUnchanged(r) <==>
      && ReviewedOf(WorkingContent(r)).sections == ReviewedOf(LiveContent(r)).sections
      && ReviewedOf(WorkingContent(r)).lessons == ReviewedOf(LiveContent(r)).lessons
  {
    SectionsUnchanged(r);
    if forall s :: s in r.sections ==> SectionHas(r, s, Plain) && !SectionDiffers(r, s) {
      LessonsUnchanged(r);
    }
  }

  /** With no assessments waiting, a diff is empty exactly when an apply changes nothing a reviewer compares and no note waits. */
  lemma EmptyDiffChangesNothing(r: Rows)
    requires WellFormed(r)
    ensures IsEmpty(DiffOf(r, [])) <==> ReviewedOf(LiveContent(Applied(r))) == ReviewedOf(LiveContent(r)) && r.stagedNotes == map[]
  {
    ApplyPublishesWorkingCopy(r);
    EmptyParts(r);
    MetaUnchanged(r);
    TreeParts(r);
  }

  lemma PlainFieldsReviewed(a: Fields, b: Fields, f: Field)
    requires Compared(PLAIN_COURSE_FIELDS, a) == Compared(PLAIN_COURSE_FIELDS, b) && f in PLAIN_COURSE_FIELDS
    ensures Get(a, f) == Get(b, f)
  {
    assert f in Compared(PLAIN_COURSE_FIELDS, a) <==> f in a;
    assert f in Compared(PLAIN_COURSE_FIELDS, b) <==> f in b;
  }

  lemma LessonReviewed(a: Fields, b: Fields, f: Field)
    requires Compared(LESSON_COMPARED, a) == Compared(LESSON_COMPARED, b) && f in LESSON_COMPARED
    ensures Get(a, f) == Get(b, f)
  {
    assert f in Compared(LESSON_COMPARED, a) <==> f in a;
    assert f in Compared(LESSON_COMPARED, b) <==> f in b;
  }

  lemma PriceOnPage(v: Val)
    ensures (if Truthy(v) then NormPrice(v) else None) == NormPrice(v)
  {
  }

  /** What a reviewer compares includes all the public page shows. */
  lemma ReviewedFixesPage(a: Content, b: Content)
    requires ReviewedOf(a) == ReviewedOf(b)
    ensures PageOf(a) == PageOf(b)
  {
    forall f | f in PLAIN_COURSE_FIELDS ensures Get(a.course, f) == Get(b.course, f) {
      PlainFieldsReviewed(a.course, b.course, f);
    }
    PriceOnPage(Get(a.course, Price));
    PriceOnPage(Get(b.course, Price));
    LessonsOnPage(a, b);
    assert PageOf(a).sections == PageOf(b).sections;
    assert Title in PLAIN_COURSE_FIELDS && Description in PLAIN_COURSE_FIELDS && Category in PLAIN_COURSE_FIELDS;
    assert Language in PLAIN_COURSE_FIELDS && Thumbnail in PLAIN_COURSE_FIELDS && PricingType in PLAIN_COURSE_FIELDS;
  }

  lemma LessonFieldsOnPage(a: Fields, b: Fields)
    requires Compared(LESSON_COMPARED, a) == Compared(LESSON_COMPARED, b)
    ensures Get(a, Title) == Get(b, Title) && Get(a, Summary) == Get(b, Summary)
    ensures Get(a, Duration) == Get(b, Duration) && Get(a, VideoKey) == Get(b, VideoKey)
  {
    hide Compared, Get;
    LessonReviewed(a, b, Title);
    LessonReviewed(a, b, Summary);
    LessonReviewed(a, b, Duration);
    LessonReviewed(a, b, VideoKey);
  }

  lemma LessonsOnPage(a: Content, b: Content)
    requires ReviewedOf(a).lessons == ReviewedOf(b).lessons
    ensures PageOf(a).lessons == PageOf(b).lessons
  {
    hide Compared, Get, Truthy, NormPrice;
    var x, y := ReviewedOf(a).lessons, ReviewedOf(b).lessons;
    forall l ensures l in a.lessons <==> l in b.lessons {
      assert l in x <==> l in y;
    }
    forall l | l in a.lessons ensures PageOf(a).lessons[l] == PageOf(b).lessons[l] {
      assert x[l] == y[l];
      LessonFieldsOnPage(a.lessons[l].fields, b.lessons[l].fields);
    }
  }

  /** An empty diff means an apply leaves the public course page as it is. */
  lemma EmptyDiffKeepsPage(r: Rows)
    requires WellFormed(r) && IsEmpty(DiffOf(r, []))
    ensures PageOf(LiveContent(Applied(r))) == PageOf(LiveContent(r))
  {
    EmptyDiffChangesNothing(r);
    ReviewedFixesPage(LiveContent(Applied(r)), LiveContent(r));
  }

  // ---- Publishability -------------------------------------------------------

  lemma SectionsAfterApply(r: Rows)
    requires WellFormed(r)
    ensures SomeSectionStays(r) <==> Applied(r).sections != map[]
  {
    var a := Applied(r).sections;
    assert forall s :: s in a <==> SectionStays(r, s);
    if a != map[] {
      var s :| s in a;
    }
  }

  lemma PreviewsAfterApply(r: Rows)
    requires WellFormed(r)
    ensures SomePreviewStays(r) <==> SomePreview(Applied(r))
  {
    var a := Applied(r).sections;
    assert forall s :: s in a <==> SectionStays(r, s);
    assert forall s :: s in a ==> a[s].live == SectionAfter(r.sections[s]);
  }

  lemma LessonsAfterApply(r: Rows)
    requires WellFormed(r)
    ensures SomeLessonStays(r) <==> SomeLesson(Applied(r))
  {
    var a := Applied(r);
    AppliedRows(r);
    if SomeLessonStays(r) {
      var l :| l in r.lessons && LessonStays(r, l);
      AppliedLessonStays(r, l);
      assert l in a.lessons && a.lessons[l].section in a.sections;
    }
    if SomeLesson(a) {
      var l :| l in a.lessons && a.lessons[l].section in a.sections;
      AppliedLessonStays(r, l);
      assert l in r.lessons && LessonStays(r, l);
    }
  }

  /**
   A change set is valid exactly when the course it produces could be submitted
   as a draft and, if it is paid, its price is a number other than zero. Prices
   that requests can bring always are (CoursePrices).
   */
  lemma ValidMergeIsSubmittable(r: Rows)
    requires WellFormed(r)
    ensures var course := Merged(r.course, r.pending);
      MergedIsValid(r) <==>
        MaySubmit(Applied(r)) && (Get(course, PricingType) == Text("paid") ==> PriceIsPositive(Get(course, Price)))
  {
    PriceOnPage(Get(Merged(r.course, r.pending), Price));
    SectionsAfterApply(r);
    PreviewsAfterApply(r);
    LessonsAfterApply(r);
    assert Applied(r).course == Merged(r.course, r.pending);
  }
}
