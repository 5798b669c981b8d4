/** What a course's status guarantees over every run, and where its first publication escapes. */
module CoursePublication {
  import opened Options
  import opened CourseRows
  import opened Staging
  import opened StagedEdits
  import opened RevisionDiff
  import opened ContentHash
  import opened CourseLifecycle
  import opened CourseInvariants

  /**
   Over every run from a new course: a draft has nothing staged, at most one
   revision is open and only while the course is live, the first publication is
   announced at most once, and each revision that was applied, rejected or
   discarded is announced as just that exactly once, and nothing else is.
   */
  lemma LifecycleInvariant(s: State, actions: seq<Action>)
    requires Initial(s)
    ensures var t := Run(s, actions);
      && (t.status == Draft ==> !HasStaged(t.rows))
      && (forall q, r :: OpenAmong(t.revisions, q) && OpenAmong(t.revisions, r) ==> q == r)
      && (forall r :: OpenAmong(t.revisions, r) ==> IsLive(t.status))
      && Announcements(t.events) <= 1
      && (forall r, o :: Closings(t.events, r, o) == if ClosedAs(t.revisions, r, o) then 1 else 0)
  {
    InitialInv(s);
    RunKeepsInv(s, actions);
    hide Run, HasStaged;
  }

  // ---- The publication date -------------------------------------------------

  lemma StepKeepsPublishedAt(s: State, a: Action)
    requires s.publishedAt.Some?
    ensures Step(s, a).publishedAt == s.publishedAt
  {
    hide HasStaged, Applied, Discarded, MaySubmit, DiffOf, ContentHashOf, Edit1, TargetExists, IsEmpty, MergedIsValid;
  }

  lemma {:induction false} RunKeepsPublishedAt(s: State, actions: seq<Action>)
    requires s.publishedAt.Some?
    ensures Run(s, actions).publishedAt == s.publishedAt
  {
    if actions != [] {
      RunKeepsPublishedAt(s, actions[..|actions| - 1]);
      StepKeepsPublishedAt(Run(s, actions[..|actions| - 1]), actions[|actions| - 1]);
    }
  }

  // ---- Publication and its announcement -------------------------------------

  /** A live course has a publication date, and having one means having announced it. */
  predicate IsAnnounced(s: State) {
    && Announcements(s.events) == (if s.publishedAt.Some? then 1 else 0)
    && (IsLive(s.status) ==> s.publishedAt.Some?)
  }

  /** An administrator puts a flagged course live that was never approved. */
  predicate Bypasses(s: State, a: Action) {
    (a.AdminUnlist? || a.AdminRestore?) && s.status == Flagged && s.publishedAt.None?
  }

  predicate IsAboutRevision(a: Action) {
    a.SubmitRevision? || a.WithdrawRevision? || a.DiscardRevision? || a.InstitutionDecideRevision? || a.RevisionReviewed?
  }

  lemma ClosingIsQuiet(s: State)
    ensures Announcements(CloseOpenRevision(s).events) == Announcements(s.events)
    ensures CloseOpenRevision(s).status == s.status && CloseOpenRevision(s).publishedAt == s.publishedAt
  {
    hide Announcements;
    if OpenRevision(s).Some? { QuietAnnouncement(s.events, CourseReviewWithdrawn(OpenRevision(s))); }
  }

  lemma EventsAnnounce(s: State, a: Action)
    requires !(a.CourseReviewed? && a.verdict == ApproveCourse)
    ensures Announcements(Step(s, a).events) == Announcements(s.events)
  {
    hide Announcements, CloseOpenRevision, HasStaged, Applied, MaySubmit, EditGate, Edit1, TargetExists;
    hide StepSubmitRevision, StepWithdrawRevision, StepDiscardRevision, StepInstitutionDecideRevision, StepRevisionReviewed;
    if IsAboutRevision(a) {
      RevisionEventsAnnounce(s, a);
    } else {
      QuietAnnouncement(s.events, CourseSubmitted);
      QuietAnnouncement(s.events, CourseAppealSubmitted);
      QuietAnnouncement(s.events, CourseReviewWithdrawn(None));
      match a
      case DoEdit(e) => GateIsQuiet(s, OpensRevision(e));
      case CourseReviewed(_, _) => ClosingIsQuiet(s.(status := Flagged));
      case ArchiveOwn => ArchiveIsQuiet(s);
      case AdminArchive => ArchiveIsQuiet(s);
      case _ =>
    }
  }

  lemma GateIsQuiet(s: State, opensRevision: bool)
    ensures EditGate(s, opensRevision).after.events == s.events
    ensures EditGate(s, opensRevision).after.status == s.status && EditGate(s, opensRevision).after.publishedAt == s.publishedAt
  {
    hide Folded;
  }

  lemma ArchiveIsQuiet(s: State)
    ensures Announcements(StepArchive(s).events) == Announcements(s.events)
  {
    hide Announcements, CloseOpenRevision;
    var moved := s.(status := Archived);
    QuietAnnouncement(s.events, CourseReviewWithdrawn(None));
    ClosingIsQuiet(moved);
    ClosingIsQuiet(Emit(moved, CourseReviewWithdrawn(None)));
  }

  lemma RevisionEventsAnnounce(s: State, a: Action)
    requires IsAboutRevision(a)
    ensures Announcements(Step(s, a).events) == Announcements(s.events)
  {
    hide Announcements, SubmittedRevision, OpenRevision, StepRevisionReviewed, StepSubmitRevision, ContentHashOf, Discarded;
    match a
    case SubmitRevision(assessments, major) => SubmitIsQuiet(s, assessments, major);
    case WithdrawRevision =>
      if OpenRevision(s).Some? { QuietAnnouncement(s.events, CourseReviewWithdrawn(OpenRevision(s))); }
    case DiscardRevision(_) =>
      QuietAnnouncement(s.events, CourseRevisionClosed(s.next, WasDiscarded, [], [], [], []));
      if OpenRevision(s).Some? { QuietAnnouncement(s.events, CourseRevisionClosed(OpenRevision(s).value, WasDiscarded, [], [], [], [])); }
    case InstitutionDecideRevision(_) =>
      if OpenRevision(s).Some? {
        var r := OpenRevision(s).value;
        if s.revisions[r].submission.Some? {
          var frozen := s.revisions[r].submission.value;
          QuietAnnouncement(s.events, CourseRevisionSubmitted(r, frozen.hash, frozen.assessments));
        }
      }
    case RevisionReviewed(d, database, now) => DecisionIsQuiet(s, d, database, now);
  }

  lemma SubmitIsQuiet(s: State, assessments: Option<seq<string>>, major: bool)
    ensures Announcements(StepSubmitRevision(s, assessments, major).events) == Announcements(s.events)
  {
    hide Announcements, DiffOf, MergedIsValid, IsEmpty, OpenRevision, ContentHashOf;
    if SubmittedRevision(s, assessments).Some? {
      QuietAnnouncement(s.events, CourseRevisionSubmitted(SubmittedRevision(s, assessments).value, ContentHashOf(s.rows, assessments.value), assessments.value));
    }
  }

  lemma DecisionIsQuiet(s: State, d: Decision, database: Database, now: int)
    ensures Announcements(StepRevisionReviewed(s, d, database, now).events) == Announcements(s.events)
  {
    hide Announcements, Discarded, ApplyRevision, StillHashes;
    if d.hash.Some? { QuietAnnouncement(s.events, RevisionReturned(d.revision, d.hash.value)); }
    if Decidable(s, d) {
      ApplyIsQuiet(s, d, now);
      DecidableParts(s, d);
      QuietAnnouncement(s.events, CourseRevisionClosed(d.revision, WasRejected, [], [], [], s.revisions[d.revision].submission.value.assessments));
    }
  }

  lemma DecidableParts(s: State, d: Decision)
    requires Decidable(s, d)
    ensures d.revision in s.revisions && s.revisions[d.revision].submission.Some? && d.hash.Some?
  {
  }

  lemma ApplyIsQuiet(s: State, d: Decision, now: int)
    requires Decidable(s, d)
    ensures Announcements(ApplyRevision(s, d, now).events) == Announcements(s.events)
  {
    hide Announcements, Applied, DiffOf, AddedLessonIds, ReplacedVideoIds, Get, Merged;
    var frozen := s.revisions[d.revision].submission.value;
    var diff := DiffOf(s.rows, []);
    var updated := CourseUpdated(Get(Merged(s.rows.course, s.rows.pending), Title));
    var closed := CourseRevisionClosed(d.revision, WasApplied, AddedLessonIds(diff), diff.lessonsRemoved, ReplacedVideoIds(diff), frozen.assessments);
    QuietAnnouncement(s.events, updated);
    QuietAnnouncement(s.events, closed);
    QuietAnnouncement(s.events + [updated], closed);
  }

  lemma QuietAnnouncement(events: seq<Event>, e: Event)
    ensures Announcements(events + [e]) == Announcements(events) + if e.CoursePublished? then 1 else 0
  {
    assert (events + [e])[..|events + [e]| - 1] == events;
  }

  lemma StatusDates(s: State, a: Action)
    requires (IsLive(s.status) ==> s.publishedAt.Some?)
    ensures (IsLive(Step(s, a).status) ==> Step(s, a).publishedAt.Some?) <==> !Bypasses(s, a)
    ensures !(a.CourseReviewed? && a.verdict == ApproveCourse) ==> Step(s, a).publishedAt == s.publishedAt
  {
    if IsAboutRevision(a) {
      RevisionsKeepStatus(s, a);
    } else if IsMove(a) {
      MovesAndDates(s, a);
    } else {
      hide CloseOpenRevision, Folded, MaySubmit, EditGate, Edit1, TargetExists, StepArchive, StepRepublish, StepAppeal, Transition;
      hide StepSubmitRevision, StepWithdrawRevision, StepDiscardRevision, StepInstitutionDecideRevision, StepRevisionReviewed;
      match a
      case DoEdit(e) => GateIsQuiet(s, OpensRevision(e));
      case CourseReviewed(_, _) => ClosingIsQuiet(s.(status := Flagged));
      case ArchiveOwn => ArchiveKeepsDate(s);
      case AdminArchive => ArchiveKeepsDate(s);
      case _ =>
    }
  }

  /** Requests that do nothing but move the status. */
  predicate IsMove(a: Action) {
    || a.InstitutionUnlist? || a.InstitutionRestore? || a.UnpublishOwn? || a.RepublishOwn? || a.Appeal?
    || a.AdminUnlist? || a.AdminRestore?
  }

  lemma MovesAndDates(s: State, a: Action)
    requires IsMove(a) && (IsLive(s.status) ==> s.publishedAt.Some?)
    ensures (IsLive(Step(s, a).status) ==> Step(s, a).publishedAt.Some?) <==> !Bypasses(s, a)
    ensures Step(s, a).publishedAt == s.publishedAt
  {
    hide StepEdit, StepSubmit, StepArchive, StepRestore, StepWithdraw, StepCourseReviewed, StepInstitutionDecide;
    hide StepSubmitRevision, StepWithdrawRevision, StepDiscardRevision, StepInstitutionDecideRevision, StepRevisionReviewed;
  }

  lemma ArchiveKeepsDate(s: State)
    ensures StepArchive(s).status == Archived && StepArchive(s).publishedAt == s.publishedAt
  {
    hide CloseOpenRevision;
    ClosingIsQuiet(s.(status := Archived));
    ClosingIsQuiet(Emit(s.(status := Archived), CourseReviewWithdrawn(None)));
  }

  lemma RevisionsKeepStatus(s: State, a: Action)
    requires IsAboutRevision(a)
    ensures Step(s, a).status == s.status && Step(s, a).publishedAt == s.publishedAt
  {
    hide Decidable, StillHashes, SubmittedRevision, AddedLessonIds, ReplacedVideoIds, OpenRevision, Applied, Discarded, DiffOf, ContentHashOf;
    hide StepEdit, StepSubmit, StepArchive, StepRestore, StepWithdraw, StepCourseReviewed;
  }

  /** A step keeps publication and announcement together exactly when it is not such a restore. */
  lemma OnlyBypassesEscapeAnnouncement(s: State, a: Action)
    requires IsAnnounced(s)
    ensures IsAnnounced(Step(s, a)) <==> !Bypasses(s, a)
  {
    StatusDates(s, a);
    if a.CourseReviewed? && a.verdict == ApproveCourse {
      QuietAnnouncement(s.events, CoursePublished);
    } else {
      EventsAnnounce(s, a);
    }
  }

  predicate RunBypasses(s: State, actions: seq<Action>) {
    exists i | 0 <= i < |actions| :: Bypasses(Run(s, actions[..i]), actions[i])
  }

  lemma {:induction false} RunsAnnounce(s: State, actions: seq<Action>)
    requires Initial(s) && !RunBypasses(s, actions)
    ensures IsAnnounced(Run(s, actions))
  {
    if actions != [] {
      var front, a := actions[..|actions| - 1], actions[|actions| - 1];
      forall i | 0 <= i < |front| ensures !Bypasses(Run(s, front[..i]), front[i]) {
        assert front[..i] == actions[..i] && front[i] == actions[i];
      }
      assert !Bypasses(Run(s, actions[..|actions| - 1]), actions[|actions| - 1]);
      RunsAnnounce(s, front);
      OnlyBypassesEscapeAnnouncement(Run(s, front), a);
    }
  }

  lemma RunOfThree(s: State, a: Action, b: Action, c: Action)
    ensures Run(s, [a, b, c]) == Step(Step(Step(s, a), b), c)
  {
    hide Step;
    assert [a, b, c][..2] == [a, b] && [a, b][..1] == [a] && [a][..0] == [];
    assert Run(s, []) == s;
    assert Run(s, [a]) == Step(s, a);
    assert Run(s, [a, b]) == Step(Step(s, a), b);
  }

  lemma StepFlags(s: State, now: int)
    requires s.status == CourseLifecycle.Submitted && s.revisions == map[]
    ensures Step(s, CourseReviewed(FlagCourse, now)) == s.(status := Flagged)
  {
    assert OpenRevision(s.(status := Flagged)).None?;
  }

  lemma StepRestoresFlagged(s: State)
    requires s.status == Flagged
    ensures Step(s, AdminRestore) == s.(status := Published)
  {
  }

  /** A submitted course that is flagged and then restored is live without ever having been announced. */
  lemma FlaggedCourseGoesLiveUnannounced(s: State, now: int)
    requires Initial(s) && !s.institution && MaySubmit(s.rows)
    ensures var t := Run(s, [Submit, CourseReviewed(FlagCourse, now), AdminRestore]);
      t.status == Published && t.publishedAt.None? && Announcements(t.events) == 0
  {
    RunOfThree(s, Submit, CourseReviewed(FlagCourse, now), AdminRestore);
    CleanIsTidy(s.rows);
    assert Announcements([]) == 0;
    hide HasStaged, MaySubmit, Applied, Run, Edit1, Announcements, Step;
    var submitted := Step(s, Submit);
    StepSubmits(s);
    StepFlags(submitted, now);
    StepRestoresFlagged(Step(submitted, CourseReviewed(FlagCourse, now)));
    QuietAnnouncement([], CourseSubmitted);
    assert s.events + [CourseSubmitted] == [] + [CourseSubmitted];
  }

  // ---- First approvals ------------------------------------------------------

  /** A course that is neither a draft nor live keeps its rows until it becomes a draft again. */
  lemma ReviewFreezesRows(s: State, a: Action)
    requires Inv(s) && s.status != Draft && !IsLive(s.status) && Step(s, a).status != Draft
    ensures Step(s, a).rows == s.rows
  {
    NoneOpen(s);
    if IsAboutRevision(a) {
      NothingToDecide(s, a);
    } else {
      hide HasStaged, Applied, MaySubmit, Edit1, TargetExists, Inv, OpenRevision;
      hide StepSubmitRevision, StepWithdrawRevision, StepDiscardRevision, StepInstitutionDecideRevision, StepRevisionReviewed;
    }
  }

  /** With no revision open and learners not served, requests about revisions do nothing to the rows. */
  lemma NothingToDecide(s: State, a: Action)
    requires IsAboutRevision(a) && !IsLive(s.status) && forall r :: !OpenAmong(s.revisions, r)
    ensures Step(s, a).rows == s.rows
  {
    if a.RevisionReviewed? { DecidableIsOpen(s, a.decision); }
    hide Discarded, Applied, DiffOf, ContentHashOf, ApplyRevision, Decidable, HasStaged;
    hide StepEdit, StepSubmit, StepArchive, StepRestore, StepWithdraw, StepCourseReviewed;
  }

  lemma DecidableIsOpen(s: State, d: Decision)
    ensures Decidable(s, d) ==> OpenAmong(s.revisions, d.revision)
  {
  }

  lemma NoneOpen(s: State)
    requires Inv(s) && !IsLive(s.status)
    ensures forall r :: !OpenAmong(s.revisions, r)
  {
    hide RowsOk, ClosingsOk, AnnouncementsOk;
  }

  lemma StepSubmits(s: State)
    requires s.status == Draft && !HasStaged(s.rows) && MaySubmit(s.rows) && !s.institution
    ensures Step(s, Submit) == Emit(s.(status := CourseLifecycle.Submitted), CourseSubmitted)
  {
    hide HasStaged, MaySubmit;
  }

  lemma StepWithdraws(s: State)
    requires s.status == CourseLifecycle.Submitted && !HasStaged(s.rows)
    ensures Step(s, WithdrawOwn) == Emit(s.(status := Draft), CourseReviewWithdrawn(None))
  {
    hide HasStaged;
  }

  lemma Retitled(s: State, title: Val)
    requires s.status == Draft && DraftRows(s.rows, s.next) && MaySubmit(s.rows)
    ensures var t := Step(s, DoEdit(EditCourse(map[Title := title])));
      && t == s.(rows := s.rows.(course := s.rows.course[Title := title]))
      && DraftRows(t.rows, t.next) && MaySubmit(t.rows)
  {
    hide DraftRows, HasStaged, MaySubmit, Clean, Tidy;
    var e := EditCourse(map[Title := title]);
    CleanRows(s.rows, s.next);
    DirectEditKeepsDraft(e, s.rows, s.next);
    RetitledRows(s.rows, title);
    RetitledMaySubmit(s.rows, title);
  }

  lemma RetitledRows(r: Rows, title: Val)
    ensures r.course + Only(COURSE_FIELDS, map[Title := title]) == r.course[Title := title]
  {
  }

  lemma RetitledMaySubmit(r: Rows, title: Val)
    requires MaySubmit(r)
    ensures MaySubmit(r.(course := r.course[Title := title]))
  {
    var q := r.(course := r.course[Title := title]);
    assert SomeLesson(q) by {
      var l :| l in r.lessons && r.lessons[l].section in r.sections;
      assert l in q.lessons;
    }
    if SomePreview(r) {
      var s :| s in r.sections && Truthy(Get(r.sections[s].live, FreePreview));
      assert s in q.sections;
    }
  }

  lemma FirstApproval(s: State, now: int)
    requires s.status == CourseLifecycle.Submitted && s.publishedAt.None?
    ensures var t := Step(s, CourseReviewed(ApproveCourse, now)); t.status == Published && t.rows == s.rows
  {
  }

  function LateApproval(title: Val, now: int): seq<Action> {
    [Submit, WithdrawOwn, DoEdit(EditCourse(map[Title := title])), Submit, CourseReviewed(ApproveCourse, now)]
  }

  lemma RunOfFive(s: State, a: Action, b: Action, c: Action, d: Action, e: Action)
    ensures Run(s, [a, b, c, d, e]) == Step(Step(Step(Step(Step(s, a), b), c), d), e)
  {
    hide Step;
    var all := [a, b, c, d, e];
    assert all[..4] == [a, b, c, d] && [a, b, c, d][..3] == [a, b, c];
    RunOfThree(s, a, b, c);
    assert Run(s, [a, b, c, d]) == Step(Run(s, [a, b, c]), d);
    assert Run(s, all) == Step(Run(s, all[..4]), e);
  }

  /**
   A first approval names no submission: given for a first version, it publishes
   whatever was submitted since the course was withdrawn and edited.
   */
  lemma LateApprovalPublishesLaterEdits(s: State, title: Val, now: int)
    requires Initial(s) && !s.institution && MaySubmit(s.rows)
    ensures var t := Run(s, LateApproval(title, now));
      t.status == Published && LiveContent(t.rows).course == s.rows.course[Title := title]
  {
    hide Run, Step, HasStaged, MaySubmit, Edit1, DraftRows, LiveContent;
    CleanRows(s.rows, s.next);
    var one := Step(s, Submit);
    StepSubmits(s);
    var two := Step(one, WithdrawOwn);
    StepWithdraws(one);
    var three := Step(two, DoEdit(EditCourse(map[Title := title])));
    Retitled(two, title);
    CleanRows(three.rows, three.next);
    var four := Step(three, Submit);
    StepSubmits(three);
    FirstApproval(four, now);
    LiveCourse(four.rows);
    RunOfFive(s, Submit, WithdrawOwn, DoEdit(EditCourse(map[Title := title])), Submit, CourseReviewed(ApproveCourse, now));
  }

  lemma LiveCourse(r: Rows)
    ensures LiveContent(r).course == r.course
  {
  }

  lemma CleanRows(r: Rows, next: Id)
    requires DraftRows(r, next)
    ensures !HasStaged(r)
  {
    CleanIsTidy(r);
  }
}
