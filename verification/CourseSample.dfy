/**
 One course from its creation on: the steps that the statements over all runs
 are about do occur. An approval changes live content, and a coach decision that
 is delivered again after an unchanged resubmission acts again.
 */
module CourseSample {
  import opened Options
  import opened CourseRows
  import opened Staging
  import opened StagedEdits
  import opened ContentHash
  import opened RevisionDiff
  import opened DiffTheorems
  import opened CourseLifecycle
  import opened CourseInvariants
  import opened CourseDecisions
  import opened CoursePublication

  // ---- A small course -------------------------------------------------------

  const SAMPLE_COURSE: Fields := map[
    Title := Text("Maps"), Description := Null, Category := Null, Language := Null,
    Thumbnail := Text("maps.png"), PricingType := Text("free"), Price := Null]

  const SAMPLE_ROWS: Rows := Rows(
    SAMPLE_COURSE,
    Some(map[Title := Text("Atlases")]),
    map[0 := Section(0, map[Title := Text("One"), FreePreview := Flag(false)], Plain, None)],
    map[1 := Lesson(0, 0, map[Title := Text("Scale"), Summary := Null, Duration := Num(0), VideoKey := Null, VideoDuration := Null], Plain, None)],
    map[], map[])

  lemma SampleCovers()
    ensures Covers(COURSE_FIELDS, SAMPLE_COURSE, SAMPLE_ROWS.pending)
    ensures Covers(SECTION_FIELDS, SAMPLE_ROWS.sections[0].live, None)
    ensures Covers(LESSON_FIELDS, SAMPLE_ROWS.lessons[1].live, None)
  {
  }

  lemma SampleIsValid()
    ensures MergedIsValid(SAMPLE_ROWS)
  {
    assert 0 in SAMPLE_ROWS.sections && SectionStays(SAMPLE_ROWS, 0);
    assert 1 in SAMPLE_ROWS.lessons && LessonStays(SAMPLE_ROWS, 1);
    assert |"free"| == 4 && |"freemium"| == 8 && "free"[0] == 'f' && "paid"[0] == 'p';
  }

  lemma SampleDiffers()
    ensures !IsEmpty(DiffOf(SAMPLE_ROWS, []))
  {
    hide DiffOf, SectionsInOrder, MetaChanges;
    DiffMembers(SAMPLE_ROWS, []);
    MetaMembers(SAMPLE_ROWS, COURSE_FIELDS);
    assert |"Maps"| == 4 && |"Atlases"| == 7;
    assert MetaDiffers(SAMPLE_ROWS, Title);
    assert Title in COURSE_FIELDS;
    var c := MetaChange(Title, Get(SAMPLE_COURSE, Title), Get(Merged(SAMPLE_COURSE, SAMPLE_ROWS.pending), Title));
    assert c in MetaChanges(SAMPLE_ROWS, COURSE_FIELDS);
  }

  lemma SampleHash()
    ensures ContentHashOf(SAMPLE_ROWS, []) != ""
  {
    hide ContentMembers;
  }

  // ---- From its creation to a review ----------------------------------------

  function DraftOf(rows: Rows): State {
    State(Draft, false, None, None, rows, map[], 2, [])
  }

  function Untouched(): Rows {
    SAMPLE_ROWS.(pending := None)
  }

  const RETITLE: Edit := EditCourse(map[Title := Text("Atlases")])

  function Approval(): Decision {
    Decision(true, 2, Some(ContentHashOf(SAMPLE_ROWS, [])), Approve)
  }

  /** Submitted, approved, retitled as a staged edit, and the change set submitted. */
  function UntilReview(now: int): seq<Action> {
    [Submit, CourseReviewed(ApproveCourse, now), DoEdit(RETITLE), SubmitRevision(Some([]), false)]
  }

  lemma UntouchedRows()
    ensures DraftRows(Untouched(), 2) && !HasStaged(Untouched())
  {
    SampleCovers();
    CleanRows(Untouched(), 2);
    hide Covers, HasStaged;
  }

  lemma UntouchedMaySubmit()
    ensures MaySubmit(Untouched())
  {
    var r := Untouched();
    assert 1 in r.lessons && r.lessons[1].section in r.sections;
    assert 0 in r.sections;
    assert |"maps.png"| == 8 && |"free"| == 4 && |"freemium"| == 8 && "free"[0] == 'f' && "paid"[0] == 'p';
  }

  lemma Approved(s: State, now: int)
    requires s.status == CourseLifecycle.Submitted && s.publishedAt.None?
    ensures Step(s, CourseReviewed(ApproveCourse, now)) == Emit(s.(status := Published, publishedAt := Some(now)), CoursePublished)
  {
  }

  /** Column by column, what is staged after a change. */
  lemma StagedColumns(live: Fields, pending: Option<Fields>, changes: Fields)
    ensures var staged := Overrides(StageFields(live, pending, changes));
      && (forall f :: f in staged <==> if f in changes then Differs(live, f, changes[f]) else f in Overrides(pending))
      && (forall f :: f in staged ==> staged[f] == if f in changes then changes[f] else Overrides(pending)[f])
  {
    hide Differs;
  }

  lemma RetitleStages()
    ensures StageFields(SAMPLE_COURSE, None, Only(COURSE_FIELDS, map[Title := Text("Atlases")])) == SAMPLE_ROWS.pending
  {
    assert |"Maps"| == 4 && |"Atlases"| == 7;
    var changes: Fields := map[Title := Text("Atlases")];
    assert Title in COURSE_FIELDS;
    assert Only(COURSE_FIELDS, changes) == changes;
    assert Differs(SAMPLE_COURSE, Title, Text("Atlases"));
    StagedColumns(SAMPLE_COURSE, None, changes);
    assert Overrides(StageFields(SAMPLE_COURSE, None, changes)) == changes;
    assert Title in changes;
  }

  lemma Retitles(s: State)
    requires s.status == Published && s.rows == Untouched() && s.revisions == map[] && s.next == 2
    ensures Step(s, DoEdit(RETITLE)) == s.(rows := SAMPLE_ROWS, revisions := map[2 := Revision(Open, None)], next := 3)
  {
    hide StageFields, Only, Folded;
    RetitleStages();
    assert OpenRevision(s).None?;
    var withDraft := CreateRevision(s);
    assert withDraft == s.(revisions := map[2 := Revision(Open, None)], next := 3);
    var pending := SAMPLE_ROWS.pending;
    assert Get(Merged(SAMPLE_COURSE, pending), PricingType) == Text("free");
    assert |"free"| == 4 && |"freemium"| == 8 && "free"[0] == 'f' && "paid"[0] == 'p';
    assert SAMPLE_ROWS == Untouched().(pending := pending);
  }

  lemma SubmitsChanges(s: State)
    requires s.status == Published && !s.institution && s.rows == SAMPLE_ROWS && s.revisions == map[2 := Revision(Open, None)]
    ensures Step(s, SubmitRevision(Some([]), false)) ==
      Emit(s.(revisions := map[2 := Revision(AtOfficer, Some(Submission(ContentHashOf(SAMPLE_ROWS, []), [], false)))]),
           CourseRevisionSubmitted(2, ContentHashOf(SAMPLE_ROWS, []), []))
  {
    hide DiffOf, IsEmpty, MergedIsValid, ContentHashOf;
    SampleDiffers();
    SampleIsValid();
    assert OpenAmong(s.revisions, 2);
    var row := Revision(AtOfficer, Some(Submission(ContentHashOf(SAMPLE_ROWS, []), [], false)));
    assert s.revisions[2 := row] == map[2 := row];
  }

  lemma Applies(s: State, now: int)
    requires s.status == Published && s.rows == SAMPLE_ROWS
    requires s.revisions == map[2 := Revision(AtOfficer, Some(Submission(ContentHashOf(SAMPLE_ROWS, []), [], false)))]
    ensures Step(s, Deliver(Approval(), now)).rows == Applied(SAMPLE_ROWS)
  {
    hide ContentHashOf, DiffOf, Applied;
    SampleHash();
  }

  lemma TitleChanges()
    ensures LiveContent(Applied(SAMPLE_ROWS)) != LiveContent(SAMPLE_ROWS)
  {
    assert |"Maps"| == 4 && |"Atlases"| == 7;
    assert Get(LiveContent(Applied(SAMPLE_ROWS)).course, Title) == Text("Atlases");
    assert Get(LiveContent(SAMPLE_ROWS).course, Title) == Text("Maps");
  }

  /** Once the change set is submitted, its revision waits for the officer. */
  lemma UntilReviewWaits(now: int)
    ensures Initial(DraftOf(Untouched()))
    ensures var s := Run(DraftOf(Untouched()), UntilReview(now));
      && s.status == Published && !s.institution && s.rows == SAMPLE_ROWS
      && s.revisions == map[2 := Revision(AtOfficer, Some(Submission(ContentHashOf(SAMPLE_ROWS, []), [], false)))]
  {
    UntouchedRows();
    UntouchedMaySubmit();
    assert Initial(DraftOf(Untouched()));
    hide Run, Step, HasStaged, MaySubmit, DraftRows, ContentHashOf;
    var draft := DraftOf(Untouched());
    StepSubmits(draft);
    var submitted := Step(draft, Submit);
    Approved(submitted, now);
    var live := Step(submitted, CourseReviewed(ApproveCourse, now));
    Retitles(live);
    var edited := Step(live, DoEdit(RETITLE));
    SubmitsChanges(edited);
    RunOfFour(draft, Submit, CourseReviewed(ApproveCourse, now), DoEdit(RETITLE), SubmitRevision(Some([]), false));
  }

  /** From a new course to an approval that changes what learners see. */
  lemma RevisionGoesLive(now: int)
    ensures Initial(DraftOf(Untouched()))
    ensures var s := Run(DraftOf(Untouched()), UntilReview(now));
      IsLive(s.status) && LiveContent(Step(s, Deliver(Approval(), now)).rows) != LiveContent(s.rows)
  {
    hide Initial, Run, Step, LiveContent, ContentHashOf, Applied, Untouched, DraftOf;
    UntilReviewWaits(now);
    Applies(Run(DraftOf(Untouched()), UntilReview(now)), now);
    TitleChanges();
  }

  function Coaching(): Decision {
    Approval().(verdict := Coach)
  }

  lemma CoachingIsDecidable(s: State)
    requires s.revisions == map[2 := Revision(AtOfficer, Some(Submission(ContentHashOf(SAMPLE_ROWS, []), [], false)))]
    requires s.rows == SAMPLE_ROWS
    ensures Decidable(s, Coaching()) && StillHashes(s, Coaching())
  {
    hide ContentHashOf;
    SampleHash();
  }

  /** From the same new course: one coach decision that acts, and acts again after an unchanged resubmission. */
  lemma CoachedTwice(now: int)
    ensures Initial(DraftOf(Untouched()))
    ensures var s := Run(DraftOf(Untouched()), UntilReview(now));
      var t := Run(s, [Deliver(Coaching(), now), SubmitRevision(Some([]), false)]);
      Step(s, Deliver(Coaching(), now)) != s && Step(t, Deliver(Coaching(), now)) != t
  {
    hide Run, Step, Inv, Initial, ContentHashOf, DiffOf, IsEmpty, MergedIsValid, Decidable, StillHashes, Untouched, DraftOf;
    var s := Run(DraftOf(Untouched()), UntilReview(now));
    UntilReviewWaits(now);
    InitialInv(DraftOf(Untouched()));
    RunKeepsInv(DraftOf(Untouched()), UntilReview(now));
    CoachingIsDecidable(s);
    SampleDiffers();
    SampleIsValid();
    DecisionActsExactlyWhenDecidable(s, Coaching(), now);
    CoachRedeliveredActsAgain(s, Coaching(), now, false);
  }

  lemma RunOfFour(s: State, a: Action, b: Action, c: Action, d: Action)
    ensures Run(s, [a, b, c, d]) == Step(Step(Step(Step(s, a), b), c), d)
  {
    hide Step;
    assert [a, b, c, d][..3] == [a, b, c];
    RunOfThree(s, a, b, c);
    assert Run(s, [a, b, c, d]) == Step(Run(s, [a, b, c]), d);
  }
}
