/** What every step of a course's life keeps. */
module CourseInvariants {
  import opened Options
  import opened CourseRows
  import opened Staging
  import opened StagedEdits
  import opened ContentHash
  import opened RevisionDiff
  import opened CourseLifecycle

  // ---- Rows -----------------------------------------------------------------

  /** Nothing staged anywhere, not even an empty set of overrides. */
  ghost predicate Clean(r: Rows) {
    && r.pending.None? && r.stagedNotes == map[]
    && (forall s :: s in r.sections ==> r.sections[s].mark == Plain && r.sections[s].pending.None?)
    && (forall l :: l in r.lessons ==> r.lessons[l].mark == Plain && r.lessons[l].pending.None?)
  }

  lemma CleanIsTidy(r: Rows)
    ensures Clean(r) ==> Tidy(r) && !HasStaged(r)
    ensures Tidy(r) && !HasStaged(r) ==> Clean(r)
  {
    if Tidy(r) && !HasStaged(r) {
      Unstaged(r);
    }
  }

  lemma SettledRowsAreClean(r: Rows)
    ensures Clean(Applied(r)) && Clean(Discarded(r))
  {
  }

  lemma FoldedRows(r: Rows, next: Id)
    requires WellFormed(r) && Tidy(r) && IdsBelow(r, next)
    ensures WellFormed(Folded(r)) && Clean(Folded(r)) && IdsBelow(Folded(r), next)
  {
    if HasStaged(r) {
      AppliedRows(r);
      SettledRowsAreClean(r);
    } else {
      CleanIsTidy(r);
    }
  }

  // ---- Edits in place on a draft --------------------------------------------

  ghost predicate DraftRows(r: Rows, next: Id) {
    WellFormed(r) && Clean(r) && IdsBelow(r, next)
  }

  lemma PlainSectionPut(s: Id, row: Section, r: Rows, next: Id)
    requires DraftRows(r, next) && s <= next
    requires Covers(SECTION_FIELDS, row.live, row.pending) && row.mark == Plain && row.pending.None?
    ensures DraftRows(PutSection(r, s, row), if s < next then next else s + 1)
  {
  }

  lemma PlainLessonPut(l: Id, row: Lesson, r: Rows, next: Id)
    requires DraftRows(r, next) && l <= next && row.section in r.sections
    requires Covers(LESSON_FIELDS, row.live, row.pending) && row.mark == Plain && row.pending.None?
    ensures DraftRows(PutLesson(r, l, row), if l < next then next else l + 1)
  {
  }

  lemma {:induction false} PlainLessonInserts(inputs: seq<Fields>, s: Id, order: int, r: Rows, next: Id)
    requires DraftRows(r, next) && s in r.sections
    ensures var e := InsertLessons(false, inputs, s, order, r, next); DraftRows(e.rows, e.next) && next <= e.next
    decreases |inputs|
  {
    if inputs != [] {
      var row := Lesson(s, order, NewLessonFields(inputs[0]), Plain, None);
      NewRowsCovered(inputs[0]);
      PlainLessonPut(next, row, r, next);
      PlainLessonInserts(inputs[1..], s, order + 1, PutLesson(r, next, row), next + 1);
    }
  }

  lemma {:induction false} PlainSectionInserts(inputs: seq<SectionInput>, order: int, r: Rows, next: Id)
    requires DraftRows(r, next)
    ensures var e := InsertSections(false, inputs, order, r, next); DraftRows(e.rows, e.next) && next <= e.next
    decreases |inputs|
  {
    if inputs != [] {
      var row := Section(order, NewSectionFields(inputs[0].fields), Plain, None);
      NewRowsCovered(inputs[0].fields);
      PlainSectionPut(next, row, r, next);
      PlainLessonInserts(inputs[0].lessons, next, 0, PutSection(r, next, row), next + 1);
      var first := InsertSection(false, inputs[0], order, r, next);
      PlainSectionInserts(inputs[1..], order + 1, first.rows, first.next);
    }
  }

  lemma PlainSectionEdit(s: Id, changes: Fields, r: Rows, next: Id)
    requires DraftRows(r, next) && s in r.sections
    ensures DraftRows(PutSection(r, s, EditedSection(false, r.sections[s], changes)), next)
  {
    OnlyKnown(SECTION_FIELDS, changes, r.sections[s].live, r.sections[s].pending);
    PlainSectionPut(s, EditedSection(false, r.sections[s], changes), r, next);
  }

  lemma PlainLessonEdit(l: Id, changes: Fields, mark: Mark, r: Rows, next: Id)
    requires DraftRows(r, next) && l in r.lessons
    ensures DraftRows(PutLesson(r, l, EditedLesson(false, r.lessons[l], mark, changes)), next)
  {
    LessonChangesKnown(r.lessons[l], changes);
    PlainLessonPut(l, EditedLesson(false, r.lessons[l], mark, changes), r, next);
  }

  lemma PlainLessonInsert(s: Id, order: int, input: Fields, r: Rows, next: Id)
    requires DraftRows(r, next) && s in r.sections
    ensures DraftRows(PutLesson(r, next, Lesson(s, order, NewLessonFields(input), Plain, None)), next + 1)
  {
    NewRowsCovered(input);
    PlainLessonPut(next, Lesson(s, order, NewLessonFields(input), Plain, None), r, next);
  }

  lemma PlainCourseEdit(changes: Fields, r: Rows, next: Id)
    requires DraftRows(r, next)
    ensures DraftRows(r.(course := r.course + Only(COURSE_FIELDS, changes)), next)
  {
    OnlyKnown(COURSE_FIELDS, changes, r.course, r.pending);
  }

  lemma PlainSectionDrop(s: Id, r: Rows, next: Id)
    requires DraftRows(r, next)
    ensures DraftRows(DeleteSection(r, s), next)
  {
  }

  lemma PlainLessonDrop(l: Id, r: Rows, next: Id)
    requires DraftRows(r, next)
    ensures DraftRows(r.(lessons := r.lessons - {l}), next)
  {
  }

  lemma PlainNotes(notes: Notes, r: Rows, next: Id)
    requires DraftRows(r, next)
    ensures DraftRows(r.(notes := notes), next)
  {
  }

  lemma NothingToUnstage(title: string, r: Rows, next: Id)
    requires DraftRows(r, next)
    ensures r.stagedNotes == map[] && r.(stagedNotes := r.stagedNotes - {title}) == r
  {
    assert r.stagedNotes - {title} == map[];
  }

  /** An edit of a draft leaves a draft: nothing becomes staged. */
  lemma DirectEditKeepsDraft(e: Edit, r: Rows, next: Id)
    requires DraftRows(r, next)
    ensures Edit1(false, e, r, next).Some? ==>
      DraftRows(Edit1(false, e, r, next).value.rows, Edit1(false, e, r, next).value.next) && next <= Edit1(false, e, r, next).value.next
  {
    hide DraftRows, InsertSections, PutSection, PutLesson, DeleteSection, EditedSection, EditedLesson;
    if TargetExists(e, r) {
      match e
      case EditCourse(changes) => PlainCourseEdit(changes, r, next);
      case AddSections(inputs) => PlainSectionInserts(inputs, |r.sections|, r, next);
      case EditSection(s, changes) => PlainSectionEdit(s, changes, r, next);
      case DropSection(s) => PlainSectionDrop(s, r, next);
      case AddLesson(s, input) => PlainLessonInsert(s, |LessonsOf(r, s)|, input, r, next);
      case EditLesson(l, changes) => PlainLessonEdit(l, changes, r.sections[r.lessons[l].section].mark, r, next);
      case DropLesson(l) => PlainLessonDrop(l, r, next);
      case AddNote(title, chunks) => PlainNotes(r.notes[title := chunks], r, next);
      case DropNote(title, which) =>
        NothingToUnstage(title, r, next);
        PlainNotes(r.notes - {title}, r, next);
    }
  }

  // ---- Events ---------------------------------------------------------------

  predicate Closes(e: Event, r: Id, outcome: Outcome) {
    e.CourseRevisionClosed? && e.revision == r && e.outcome == outcome
  }

  function Closings(events: seq<Event>, r: Id, outcome: Outcome): nat {
    if events == [] then 0
    else Closings(events[..|events| - 1], r, outcome) + if Closes(events[|events| - 1], r, outcome) then 1 else 0
  }

  function Announcements(events: seq<Event>): nat {
    if events == [] then 0
    else Announcements(events[..|events| - 1]) + if events[|events| - 1].CoursePublished? then 1 else 0
  }

  lemma EmitCounts(s: State, e: Event)
    ensures forall r, o :: Closings(Emit(s, e).events, r, o) == Closings(s.events, r, o) + if Closes(e, r, o) then 1 else 0
    ensures Announcements(Emit(s, e).events) == Announcements(s.events) + if e.CoursePublished? then 1 else 0
  {
    assert (s.events + [e])[..|s.events + [e]| - 1] == s.events;
  }

  // ---- The invariant --------------------------------------------------------

  predicate IsClosed(status: RevisionStatus) {
    status in {Accepted, Rejected, Thrown}
  }

  function OutcomeOf(status: RevisionStatus): Outcome
    requires IsClosed(status)
  {
    match status
    case Accepted => WasApplied
    case Rejected => WasRejected
    case _ => WasDiscarded
  }

  predicate ClosedAmong(revisions: map<Id, Revision>, r: Id) {
    r in revisions && IsClosed(revisions[r].status)
  }

  predicate ClosedAs(revisions: map<Id, Revision>, r: Id, outcome: Outcome) {
    ClosedAmong(revisions, r) && OutcomeOf(revisions[r].status) == outcome
  }

  predicate IsUnpublished(status: Status) {
    status in {Draft, InstitutionReview}
  }

  ghost predicate RowsOk(rows: Rows, unpublished: bool, next: Id) {
    && WellFormed(rows) && Tidy(rows) && IdsBelow(rows, next)
    && (unpublished ==> !HasStaged(rows))
  }

  /** At most one revision is open, only on a live course; what is in review has a frozen submission. */
  ghost predicate RevisionsOk(revisions: map<Id, Revision>, live: bool, next: Id) {
    && (forall r :: r in revisions ==> r < next)
    && (forall q, r :: OpenAmong(revisions, q) && OpenAmong(revisions, r) ==> q == r)
    && (forall r :: OpenAmong(revisions, r) ==> live)
    && (forall r :: r in revisions && revisions[r].status in {AtInstitution, AtOfficer} ==> revisions[r].submission.Some?)
  }

  /** A revision that was applied, rejected or discarded has been announced as just that once; nothing else was announced. */
  ghost predicate ClosingsOk(events: seq<Event>, revisions: map<Id, Revision>) {
    forall r, o :: Closings(events, r, o) == if ClosedAs(revisions, r, o) then 1 else 0
  }

  /** The first publication is announced at most once, and not before it. */
  predicate AnnouncementsOk(events: seq<Event>, publishedAt: Option<int>) {
    Announcements(events) <= if publishedAt.None? then 0 else 1
  }

  ghost predicate Inv(s: State) {
    && RowsOk(s.rows, IsUnpublished(s.status), s.next)
    && RevisionsOk(s.revisions, IsLive(s.status), s.next)
    && ClosingsOk(s.events, s.revisions)
    && AnnouncementsOk(s.events, s.publishedAt)
  }

  /** A newly created course: a draft with plain rows. */
  ghost predicate Initial(s: State) {
    && s.status == Draft && s.publishedAt.None? && s.revisions == map[] && s.events == []
    && DraftRows(s.rows, s.next)
  }

  lemma InitialInv(s: State)
    requires Initial(s)
    ensures Inv(s)
  {
    CleanIsTidy(s.rows);
  }

  // ---- Small steps ----------------------------------------------------------

  /** Changing the status of one revision. */
  lemma RevisionMoves(revisions: map<Id, Revision>, live: bool, next: Id, r: Id, row: Revision)
    requires RevisionsOk(revisions, live, next) && r < next
    requires IsOpen(row.status) ==> live && forall q :: OpenAmong(revisions, q) ==> q == r
    requires row.status in {AtInstitution, AtOfficer} ==> row.submission.Some?
    ensures RevisionsOk(revisions[r := row], live, next)
  {
    var after := revisions[r := row];
    forall q | OpenAmong(after, q) ensures q == r || OpenAmong(revisions, q) {
    }
  }

  lemma SameClosings(events: seq<Event>, revisions: map<Id, Revision>, r: Id, row: Revision)
    requires ClosingsOk(events, revisions)
    requires !ClosedAmong(revisions, r) && !IsClosed(row.status)
    ensures ClosingsOk(events, revisions[r := row])
  {
    var after := revisions[r := row];
    forall q, o ensures Closings(events, q, o) == if ClosedAs(after, q, o) then 1 else 0 {
      assert ClosedAs(after, q, o) <==> ClosedAs(revisions, q, o);
    }
  }

  lemma OneMoreClosing(events: seq<Event>, revisions: map<Id, Revision>, r: Id, row: Revision, e: Event)
    requires ClosingsOk(events, revisions)
    requires !ClosedAmong(revisions, r) && IsClosed(row.status) && Closes(e, r, OutcomeOf(row.status))
    ensures ClosingsOk(events + [e], revisions[r := row])
    ensures Announcements(events + [e]) == Announcements(events)
  {
    var after := revisions[r := row];
    assert (events + [e])[..|events + [e]| - 1] == events;
    forall q, o ensures Closings(events + [e], q, o) == if ClosedAs(after, q, o) then 1 else 0 {
      assert q != r ==> (ClosedAs(after, q, o) <==> ClosedAs(revisions, q, o));
    }
  }

  /** A move between statuses without a closing event. */
  lemma QuietMove(s: State, r: Id, row: Revision)
    requires Inv(s) && r < s.next && !ClosedAmong(s.revisions, r) && !IsClosed(row.status)
    requires IsOpen(row.status) ==> IsLive(s.status) && forall q :: OpenAmong(s.revisions, q) ==> q == r
    requires row.status in {AtInstitution, AtOfficer} ==> row.submission.Some?
    ensures Inv(WithRevision(s, r, row))
  {
    RevisionMoves(s.revisions, IsLive(s.status), s.next, r, row);
    SameClosings(s.events, s.revisions, r, row);
    var t := WithRevision(s, r, row);
    assert RowsOk(t.rows, IsUnpublished(t.status), t.next);
    assert RevisionsOk(t.revisions, IsLive(t.status), t.next);
    assert ClosingsOk(t.events, t.revisions);
    assert AnnouncementsOk(t.events, t.publishedAt);
  }

  lemma QuietEvent(s: State, e: Event)
    requires Inv(s) && !e.CourseRevisionClosed? && !e.CoursePublished?
    ensures Inv(Emit(s, e))
  {
    EmitCounts(s, e);
  }

  /** A move that closes a revision for good, with its event and new rows. */
  lemma ClosingMove(s: State, r: Id, status: RevisionStatus, rows: Rows, e: Event)
    requires Inv(s) && r in s.revisions && !ClosedAmong(s.revisions, r) && IsClosed(status)
    requires DraftRows(rows, s.next) && Closes(e, r, OutcomeOf(status))
    ensures Inv(Emit(WithStatus(s, r, status).(rows := rows), e))
  {
    CleanIsTidy(rows);
    var row := s.revisions[r].(status := status);
    RevisionMoves(s.revisions, IsLive(s.status), s.next, r, row);
    OneMoreClosing(s.events, s.revisions, r, row, e);
  }

  lemma CreateKeepsInv(s: State)
    requires Inv(s) && IsLive(s.status) && OpenRevision(s).None?
    ensures Inv(CreateRevision(s))
  {
    var t := s.(next := s.next + 1);
    assert RevisionsOk(t.revisions, IsLive(t.status), t.next);
    QuietMove(t, s.next, Revision(Open, None));
    assert CreateRevision(s) == WithRevision(t, s.next, Revision(Open, None));
  }

  lemma NothingLeftOpen(revisions: map<Id, Revision>, live: bool, next: Id, r: Id, row: Revision)
    requires RevisionsOk(revisions, live, next) && OpenAmong(revisions, r) && row.status == Withdrawn
    ensures RevisionsOk(revisions[r := row], false, next)
  {
    var after := revisions[r := row];
    forall q ensures !OpenAmong(after, q) {
      assert q != r ==> (OpenAmong(after, q) <==> OpenAmong(revisions, q));
    }
  }

  /** Leaving the live states: the open revision is closed with the move. */
  lemma CloseKeepsInv(s: State, status: Status)
    requires Inv(s) && !IsLive(status) && status !in {Draft, InstitutionReview}
    ensures Inv(CloseOpenRevision(s.(status := status)))
  {
    var t := s.(status := status);
    match OpenRevision(t)
    case None =>
    case Some(r) =>
      var row := s.revisions[r].(status := Withdrawn);
      NothingLeftOpen(s.revisions, IsLive(s.status), s.next, r, row);
      SameClosings(s.events, s.revisions, r, row);
      EmitCounts(WithStatus(t, r, Withdrawn), CourseReviewWithdrawn(Some(r)));
  }

  lemma ToDraftKeepsInv(s: State)
    requires Inv(s) && !IsLive(s.status)
    ensures Inv(ToDraft(s))
  {
    FoldedRows(s.rows, s.next);
    CleanIsTidy(Folded(s.rows));
  }

  // ---- Every step keeps the invariant ---------------------------------------

  lemma FoldKeepsInv(s: State)
    requires Inv(s)
    ensures Inv(s.(rows := Folded(s.rows))) && DraftRows(Folded(s.rows), s.next)
  {
    FoldedRows(s.rows, s.next);
    CleanIsTidy(Folded(s.rows));
  }

  lemma RowsChangeKeepsInv(s: State, rows: Rows, next: Id)
    requires Inv(s) && s.next <= next
    requires WellFormed(rows) && Tidy(rows) && IdsBelow(rows, next)
    requires s.status in {Draft, InstitutionReview} ==> !HasStaged(rows)
    ensures Inv(s.(rows := rows, next := next))
  {
    assert RevisionsOk(s.revisions, IsLive(s.status), next);
  }

  lemma GateKeepsInv(s: State, opensRevision: bool)
    requires Inv(s)
    ensures var gate := EditGate(s, opensRevision);
      && Inv(gate.after)
      && (gate.Direct? ==> DraftRows(gate.after.rows, gate.after.next))
      && (gate.Staged? ==> IsLive(gate.after.status))
  {
    if s.status == Draft { FoldKeepsInv(s); }
    if IsLive(s.status) && OpenRevision(s).None? { CreateKeepsInv(s); }
  }

  lemma EditKeepsInv(s: State, e: Edit)
    requires Inv(s)
    ensures Inv(StepEdit(s, e))
  {
    hide Edit1, WellFormed, IdsBelow, Tidy, HasStaged, Clean, RevisionsOk, ClosingsOk, AnnouncementsOk;
    var gate := EditGate(s, OpensRevision(e));
    var t := gate.after;
    GateKeepsInv(s, OpensRevision(e));
    var edited := Edit1(gate.Staged?, e, t.rows, t.next);
    if TargetExists(e, s.rows) && !gate.Refused? && edited.Some? {
      if gate.Direct? {
        DirectEditKeepsDraft(e, t.rows, t.next);
        CleanIsTidy(edited.value.rows);
      } else {
        StagedEditKeepsBase(e, t.rows, t.next);
      }
      RowsChangeKeepsInv(t, edited.value.rows, edited.value.next);
    }
  }

  lemma SubmitKeepsInv(s: State)
    requires Inv(s)
    ensures Inv(StepSubmit(s))
  {
    if s.status == Draft {
      FoldKeepsInv(s);
      CleanIsTidy(Folded(s.rows));
      var folded := s.(rows := Folded(s.rows));
      if MaySubmit(folded.rows) && !s.institution {
        QuietEvent(folded.(status := CourseLifecycle.Submitted), CourseSubmitted);
      }
    }
  }

  lemma StatusStepsKeepInv(s: State, a: Action)
    requires Inv(s)
    requires a.InstitutionDecide? || a.InstitutionUnlist? || a.InstitutionRestore? || a.RestoreOwn? || a.WithdrawOwn? || a.UnpublishOwn?
          || a.RepublishOwn? || a.Appeal? || a.AdminUnlist? || a.AdminRestore?
    ensures Inv(Step(s, a))
  {
    hide WellFormed, Tidy, IdsBelow, HasStaged, ClosingsOk, Applied;
    if !IsLive(s.status) { ToDraftKeepsInv(s); }
    match a
    case InstitutionDecide(approved) =>
      if s.status == InstitutionReview { QuietEvent(s.(status := CourseLifecycle.Submitted), CourseSubmitted); }
    case WithdrawOwn =>
      if IsInReview(s.status) { QuietEvent(ToDraft(s), CourseReviewWithdrawn(None)); }
    case Appeal =>
      if s.status == Flagged { QuietEvent(s.(status := CourseLifecycle.Submitted), CourseAppealSubmitted); }
    case _ =>
  }

  lemma ArchiveKeepsInv(s: State)
    requires Inv(s)
    ensures Inv(StepArchive(s))
  {
    if s.status != Archived {
      if IsInReview(s.status) {
        QuietEvent(s, CourseReviewWithdrawn(None));
        CloseKeepsInv(Emit(s, CourseReviewWithdrawn(None)), Archived);
        assert Emit(s.(status := Archived), CourseReviewWithdrawn(None)) == Emit(s, CourseReviewWithdrawn(None)).(status := Archived);
      } else {
        CloseKeepsInv(s, Archived);
      }
    }
  }

  lemma CourseReviewedKeepsInv(s: State, verdict: OfficerAction, now: int)
    requires Inv(s)
    ensures Inv(StepCourseReviewed(s, verdict, now))
  {
    match verdict
    case ApproveCourse =>
      EmitCounts(s.(status := Published, publishedAt := Some(now)), CoursePublished);
    case CoachCourse =>
      if s.status in {CourseLifecycle.Submitted, UnderReview} { ToDraftKeepsInv(s); }
    case FlagCourse =>
      CloseKeepsInv(s, Flagged);
  }

  /** The state a submit works on: with a draft revision, created if none was open. */
  lemma WithDraftRevision(s: State, assessments: Option<seq<string>>)
    requires Inv(s) && SubmittedRevision(s, assessments).Some?
    ensures var r := SubmittedRevision(s, assessments).value;
      var created := if OpenRevision(s).Some? then s else CreateRevision(s);
      && Inv(created) && r in created.revisions && created.revisions[r].status == Open
      && (forall q :: OpenAmong(created.revisions, q) ==> q == r)
      && r < created.next && IsLive(created.status)
  {
    hide RowsOk, ClosingsOk, AnnouncementsOk, DiffOf, IsEmpty, MergedIsValid;
    var r := SubmittedRevision(s, assessments).value;
    if OpenRevision(s).None? {
      CreateKeepsInv(s);
      assert OpenAmong(CreateRevision(s).revisions, r);
    } else {
      assert OpenAmong(s.revisions, r);
    }
  }

  lemma SubmitRevisionKeepsInv(s: State, assessments: Option<seq<string>>, major: bool)
    requires Inv(s)
    ensures Inv(StepSubmitRevision(s, assessments, major))
  {
    hide Inv, DiffOf, IsEmpty, MergedIsValid, ContentHashOf;
    match SubmittedRevision(s, assessments)
    case None =>
    case Some(r) =>
      var created := if OpenRevision(s).Some? then s else CreateRevision(s);
      WithDraftRevision(s, assessments);
      var frozen := Submission(ContentHashOf(s.rows, assessments.value), assessments.value, major);
      if s.institution {
        QuietMove(created, r, Revision(AtInstitution, Some(frozen)));
      } else {
        QuietMove(created, r, Revision(AtOfficer, Some(frozen)));
        QuietEvent(WithRevision(created, r, Revision(AtOfficer, Some(frozen))), CourseRevisionSubmitted(r, frozen.hash, frozen.assessments));
      }
  }

  lemma WithdrawRevisionKeepsInv(s: State)
    requires Inv(s)
    ensures Inv(StepWithdrawRevision(s))
  {
    match OpenRevision(s)
    case None =>
    case Some(r) =>
      QuietMove(s, r, s.revisions[r].(status := Open));
      QuietEvent(WithStatus(s, r, Open), CourseReviewWithdrawn(Some(r)));
  }

  lemma DiscardedIsDraftRows(s: State)
    requires Inv(s)
    ensures DraftRows(Discarded(s.rows), s.next)
  {
    DiscardedRows(s.rows);
    SettledRowsAreClean(s.rows);
  }

  lemma AppliedIsDraftRows(s: State)
    requires Inv(s)
    ensures DraftRows(Applied(s.rows), s.next)
  {
    AppliedRows(s.rows);
    SettledRowsAreClean(s.rows);
  }

  lemma DiscardRevisionKeepsInv(s: State, assessmentsWait: Option<bool>)
    requires Inv(s)
    ensures Inv(StepDiscardRevision(s, assessmentsWait))
  {
    hide RowsOk, RevisionsOk, ClosingsOk, AnnouncementsOk, DraftRows, Discarded;
    match OpenRevision(s)
    case Some(r) =>
      DiscardedIsDraftRows(s);
      ClosingMove(s, r, Thrown, Discarded(s.rows), CourseRevisionClosed(r, WasDiscarded, [], [], [], []));
    case None =>
      if IsLive(s.status) {
        CreateKeepsInv(s);
        DiscardedIsDraftRows(CreateRevision(s));
        ClosingMove(CreateRevision(s), s.next, Thrown, Discarded(s.rows), CourseRevisionClosed(s.next, WasDiscarded, [], [], [], []));
      }
  }

  lemma InstitutionDecideRevisionKeepsInv(s: State, approved: bool)
    requires Inv(s)
    ensures Inv(StepInstitutionDecideRevision(s, approved))
  {
    match OpenRevision(s)
    case None =>
    case Some(r) =>
      if s.revisions[r].status == AtInstitution {
        QuietMove(s, r, s.revisions[r].(status := Open));
        QuietMove(s, r, s.revisions[r].(status := AtOfficer));
        var frozen := s.revisions[r].submission.value;
        QuietEvent(WithStatus(s, r, AtOfficer), CourseRevisionSubmitted(r, frozen.hash, frozen.assessments));
      }
  }

  lemma ReturnKeepsInv(s: State, d: Decision)
    requires Inv(s) && Decidable(s, d)
    ensures Inv(WithStatus(s, d.revision, Open)) && Inv(Emit(WithStatus(s, d.revision, Open), RevisionReturned(d.revision, d.hash.value)))
  {
    assert OpenAmong(s.revisions, d.revision);
    QuietMove(s, d.revision, s.revisions[d.revision].(status := Open));
    QuietEvent(WithStatus(s, d.revision, Open), RevisionReturned(d.revision, d.hash.value));
  }

  lemma ApplyKeepsInv(s: State, d: Decision, now: int)
    requires Inv(s) && Decidable(s, d)
    ensures Inv(ApplyRevision(s, d, now))
  {
    hide RowsOk, RevisionsOk, ClosingsOk, AnnouncementsOk, DiffOf, Applied, ContentHashOf;
    var frozen := s.revisions[d.revision].submission.value;
    var diff := DiffOf(s.rows, []);
    var told := if frozen.major then Emit(s, CourseUpdated(Get(Merged(s.rows.course, s.rows.pending), Title))) else s;
    QuietEvent(s, CourseUpdated(Get(Merged(s.rows.course, s.rows.pending), Title)));
    var dated := told.(lastMajorUpdate := if frozen.major then Some(now) else s.lastMajorUpdate);
    assert Inv(dated);
    AppliedIsDraftRows(s);
    var e := CourseRevisionClosed(d.revision, WasApplied, AddedLessonIds(diff), diff.lessonsRemoved, ReplacedVideoIds(diff), frozen.assessments);
    ClosingMove(dated, d.revision, Accepted, Applied(s.rows), e);
    assert ApplyRevision(s, d, now) == Emit(WithStatus(dated, d.revision, Accepted).(rows := Applied(s.rows)), e);
  }

  lemma RejectKeepsInv(s: State, d: Decision)
    requires Inv(s) && Decidable(s, d)
    ensures Inv(Emit(
      WithStatus(s, d.revision, Rejected).(rows := Discarded(s.rows)),
      CourseRevisionClosed(d.revision, WasRejected, [], [], [], s.revisions[d.revision].submission.value.assessments)))
  {
    DiscardedIsDraftRows(s);
    ClosingMove(s, d.revision, Rejected, Discarded(s.rows),
      CourseRevisionClosed(d.revision, WasRejected, [], [], [], s.revisions[d.revision].submission.value.assessments));
  }

  lemma RevisionReviewedKeepsInv(s: State, d: Decision, database: Database, now: int)
    requires Inv(s)
    ensures Inv(StepRevisionReviewed(s, d, database, now))
  {
    hide Inv, ApplyRevision, StillHashes;
    if d.hash.Some? { QuietEvent(s, RevisionReturned(d.revision, d.hash.value)); }
    if Decidable(s, d) {
      ReturnKeepsInv(s, d);
      ApplyKeepsInv(s, d, now);
      RejectKeepsInv(s, d);
    }
  }

  /** Every request, delivery and transaction keeps the invariant. */
  lemma StepKeepsInv(s: State, a: Action)
    requires Inv(s)
    ensures Inv(Step(s, a))
  {
    hide Inv;
    match a
    case DoEdit(e) => EditKeepsInv(s, e);
    case Submit => SubmitKeepsInv(s);
    case ArchiveOwn => ArchiveKeepsInv(s);
    case AdminArchive => ArchiveKeepsInv(s);
    case CourseReviewed(verdict, now) => CourseReviewedKeepsInv(s, verdict, now);
    case SubmitRevision(assessments, major) => SubmitRevisionKeepsInv(s, assessments, major);
    case WithdrawRevision => WithdrawRevisionKeepsInv(s);
    case DiscardRevision(assessmentsWait) => DiscardRevisionKeepsInv(s, assessmentsWait);
    case InstitutionDecideRevision(approved) => InstitutionDecideRevisionKeepsInv(s, approved);
    case RevisionReviewed(d, database, now) => RevisionReviewedKeepsInv(s, d, database, now);
    case _ => StatusStepsKeepInv(s, a);
  }

  lemma {:induction false} RunKeepsInv(s: State, actions: seq<Action>)
    requires Inv(s)
    ensures Inv(Run(s, actions))
  {
    if actions != [] {
      RunKeepsInv(s, actions[..|actions| - 1]);
      StepKeepsInv(Run(s, actions[..|actions| - 1]), actions[|actions| - 1]);
    }
  }
}
