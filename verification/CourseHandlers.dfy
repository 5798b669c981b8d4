/**
 The course and revision services: handlers that update the rows, the status,
 the revisions and the outbox in the order the transactions do.

 Every handler is proved to take exactly the step of CourseLifecycle, so what is
 proved about runs of steps holds of any sequence of calls.
 */
module CourseHandlers {
  import opened Options
  import opened CourseRows
  import opened Staging
  import opened StagedEdits
  import opened ContentHash
  import opened RevisionDiff
  import opened CourseLifecycle
  import opened CourseInvariants

  class CourseService {
    const tables: CourseTables
    const institution: bool
    var status: Status
    var publishedAt: Option<int>
    var lastMajorUpdate: Option<int>
    var revisions: map<Id, Revision>
    var next: Id
    var outbox: seq<Event>

    function Snapshot(): State
      reads this, tables
    {
      State(status, institution, publishedAt, lastMajorUpdate, tables.Contents(), revisions, next, outbox)
    }

    ghost predicate Valid()
      reads this, tables
    {
      Inv(Snapshot())
    }

    /** A new course is a draft with nothing staged. */
    constructor (ofInstitution: bool, rows: Rows, firstFree: Id)
      requires DraftRows(rows, firstFree)
      ensures Valid() && fresh(tables)
      ensures Snapshot() == State(Draft, ofInstitution, None, None, rows, map[], firstFree, [])
    {
      tables := new CourseTables(rows);
      institution := ofInstitution;
      status, publishedAt, lastMajorUpdate := Draft, None, None;
      revisions, next, outbox := map[], firstFree, [];
      new;
      assert Initial(Snapshot());
      InitialInv(Snapshot());
    }

    // ---- Shared steps -------------------------------------------------------

    method EmitEvent(e: Event)
      modifies this`outbox
      ensures outbox == old(outbox) + [e]
    {
      outbox := outbox + [e];
    }

    /** The conditional status update: moves only out of one of `from`. */
    method MoveStatus(from: set<Status>, to: Status) returns (moved: bool)
      modifies this`status
      ensures moved == (old(status) in from)
      ensures status == if moved then to else old(status)
    {
      moved := status in from;
      if moved { status := to; }
    }

    method UpdateRevision(r: Id, row: Revision)
      modifies this`revisions
      ensures revisions == old(revisions)[r := row]
    {
      revisions := revisions[r := row];
    }

    method FindOpenRevision() returns (open: Option<Id>)
      ensures open == OpenRevision(Snapshot())
    {
      open := OpenRevision(Snapshot());
    }

    method CreateDraftRevision() returns (r: Id)
      modifies this`revisions, this`next
      ensures r == old(next) && Snapshot() == CreateRevision(old(Snapshot()))
    {
      r := next;
      next := next + 1;
      UpdateRevision(r, Revision(Open, None));
    }

    method FoldStaged()
      requires WellFormed(tables.Contents())
      modifies tables
      ensures tables.Contents() == Folded(old(tables.Contents()))
    {
      if HasStaged(tables.Contents()) {
        tables.ApplyStagedState();
      }
    }

    method MoveToDraft(from: set<Status>) returns (moved: bool)
      requires WellFormed(tables.Contents())
      modifies this`status, tables
      ensures moved == (old(status) in from)
      ensures Snapshot() == if moved then ToDraft(old(Snapshot())) else old(Snapshot())
    {
      moved := MoveStatus(from, Draft);
      if moved { FoldStaged(); }
    }

    method CloseRevision()
      modifies this`revisions, this`outbox
      ensures Snapshot() == CloseOpenRevision(old(Snapshot()))
    {
      var open := FindOpenRevision();
      if open.Some? {
        UpdateRevision(open.value, revisions[open.value].(status := Withdrawn));
        EmitEvent(CourseReviewWithdrawn(Some(open.value)));
      }
    }

    // ---- Status of the course -----------------------------------------------

    method SubmitCourse()
      requires Valid()
      modifies this, tables
      ensures Snapshot() == StepSubmit(old(Snapshot()))
    {
      InvParts(Snapshot());
      hide Inv, WellFormed, Folded, MaySubmit;
      if status != Draft { return; }
      FoldStaged();
      if !MaySubmit(tables.Contents()) { return; }
      if institution {
        status := InstitutionReview;
      } else {
        status := CourseLifecycle.Submitted;
        EmitEvent(CourseSubmitted);
      }
    }

    method DecideForInstitution(approved: bool)
      requires Valid()
      modifies this, tables
      ensures Snapshot() == StepInstitutionDecide(old(Snapshot()), approved)
    {
      InvParts(Snapshot());
      if !institution { return; }
      if approved {
        var moved := MoveStatus({InstitutionReview}, CourseLifecycle.Submitted);
        if moved { EmitEvent(CourseSubmitted); }
      } else {
        var moved := MoveToDraft({InstitutionReview});
      }
    }

    method Archive()
      modifies this, tables
      ensures Snapshot() == StepArchive(old(Snapshot()))
    {
      if status == Archived { return; }
      var previous := status;
      var moved := MoveStatus({previous}, Archived);
      if IsInReview(previous) {
        EmitEvent(CourseReviewWithdrawn(None));
      }
      CloseRevision();
    }

    method Withdraw()
      requires Valid()
      modifies this, tables
      ensures Snapshot() == StepWithdraw(old(Snapshot()))
    {
      InvParts(Snapshot());
      var moved := MoveToDraft({CourseLifecycle.Submitted, UnderReview, InstitutionReview});
      if moved { EmitEvent(CourseReviewWithdrawn(None)); }
    }

    method Restore()
      requires Valid()
      modifies this, tables
      ensures Snapshot() == StepRestore(old(Snapshot()))
    {
      InvParts(Snapshot());
      var moved := MoveToDraft({Archived});
    }

    method Republish(now: int)
      modifies this
      ensures Snapshot() == StepRepublish(old(Snapshot()), now)
    {
      var date := if publishedAt.Some? then publishedAt else Some(now);
      var moved := MoveStatus({Unlisted}, Published);
      if moved { publishedAt := date; }
    }

    method AppealFlag()
      modifies this
      ensures Snapshot() == StepAppeal(old(Snapshot()))
    {
      var moved := MoveStatus({Flagged}, CourseLifecycle.Submitted);
      if moved { EmitEvent(CourseAppealSubmitted); }
    }

    method OnCourseReviewed(verdict: OfficerAction, now: int)
      requires Valid()
      modifies this, tables
      ensures Snapshot() == StepCourseReviewed(old(Snapshot()), verdict, now)
    {
      InvParts(Snapshot());
      match verdict
      case ApproveCourse =>
        var firstPublish := publishedAt.None?;
        var moved := MoveStatus({CourseLifecycle.Submitted, UnderReview, Flagged}, Published);
        if moved && firstPublish {
          publishedAt := Some(now);
          EmitEvent(CoursePublished);
        }
      case CoachCourse =>
        var moved := MoveToDraft({CourseLifecycle.Submitted, UnderReview});
      case FlagCourse =>
        var moved := MoveStatus({CourseLifecycle.Submitted, UnderReview, Published, Unlisted}, Flagged);
        if moved { CloseRevision(); }
    }

    // ---- Content edits ------------------------------------------------------

    /** Every write passes here; `staged` says whether it goes to the change set. */
    method PassEditGate(opensRevision: bool) returns (passed: bool, staged: bool)
      requires Valid()
      modifies this, tables
      ensures var gate := EditGate(old(Snapshot()), opensRevision);
        passed == !gate.Refused? && staged == gate.Staged? && Snapshot() == gate.after
    {
      InvParts(Snapshot());
      passed, staged := false, false;
      if status == Draft {
        FoldStaged();
        return true, false;
      }
      if !IsLive(status) { return; }
      var open := FindOpenRevision();
      if open.Some? {
        passed := revisions[open.value].status == Open;
        staged := passed;
        return;
      }
      if opensRevision {
        var r := CreateDraftRevision();
      }
      return true, true;
    }

    method Edit(e: Edit)
      requires Valid()
      modifies this, tables
      ensures Snapshot() == StepEdit(old(Snapshot()), e)
    {
      if !TargetExists(e, tables.Contents()) { return; }
      var passed, staged := PassEditGate(OpensRevision(e));
      if !passed { return; }
      var edited := Edit1(staged, e, tables.Contents(), next);
      if edited.Some? {
        tables.Write(edited.value.rows);
        next := edited.value.next;
      }
    }

    // ---- Revisions ----------------------------------------------------------

    /** `assessments` are those waiting in the outcomes service, or None when it does not answer. */
    method SubmitChanges(assessments: Option<seq<string>>, major: bool)
      requires Valid()
      modifies this
      ensures Snapshot() == StepSubmitRevision(old(Snapshot()), assessments, major)
    {
      hide Inv, DiffOf, ContentHashOf, IsEmpty, MergedIsValid, OpenRevision;
      if !IsLive(status) { return; }
      var open := FindOpenRevision();
      if open.Some? && revisions[open.value].status != Open { return; }
      if assessments.None? { return; }
      var state := tables.Contents();
      var diff := ComputeDiff(state, assessments.value);
      if IsEmpty(diff) { return; }
      if !MergedIsValid(state) { return; }
      var r;
      if open.Some? {
        r := open.value;
      } else {
        r := CreateDraftRevision();
      }
      var hash := ContentHashOf(state, assessments.value);
      var to := if institution then AtInstitution else AtOfficer;
      UpdateRevision(r, Revision(to, Some(Submission(hash, assessments.value, major))));
      if to == AtOfficer {
        EmitEvent(CourseRevisionSubmitted(r, hash, assessments.value));
      }
    }

    method WithdrawChanges()
      modifies this
      ensures Snapshot() == StepWithdrawRevision(old(Snapshot()))
    {
      var open := FindOpenRevision();
      if open.None? || revisions[open.value].status == Open { return; }
      UpdateRevision(open.value, revisions[open.value].(status := Open));
      EmitEvent(CourseReviewWithdrawn(open));
    }

    method DiscardChanges(assessmentsWait: Option<bool>)
      requires Valid()
      modifies this, tables
      ensures Snapshot() == StepDiscardRevision(old(Snapshot()), assessmentsWait)
    {
      InvParts(Snapshot());
      var open := FindOpenRevision();
      var r;
      if open.None? {
        if !IsLive(status) { return; }
        if !(HasStaged(tables.Contents()) || assessmentsWait == Some(true)) { return; }
        r := CreateDraftRevision();
      } else {
        r := open.value;
      }
      if revisions[r].status != Open { return; }
      UpdateRevision(r, revisions[r].(status := Thrown));
      tables.DiscardStagedState();
      EmitEvent(CourseRevisionClosed(r, WasDiscarded, [], [], [], []));
    }

    method DecideChangesForInstitution(approved: bool)
      modifies this
      ensures Snapshot() == StepInstitutionDecideRevision(old(Snapshot()), approved)
    {
      var open := FindOpenRevision();
      if open.None? || !institution || revisions[open.value].status != AtInstitution { return; }
      var r := open.value;
      if !approved {
        UpdateRevision(r, revisions[r].(status := Open));
        return;
      }
      var submission := revisions[r].submission;
      UpdateRevision(r, revisions[r].(status := AtOfficer));
      if submission.Some? {
        EmitEvent(CourseRevisionSubmitted(r, submission.value.hash, submission.value.assessments));
      }
    }

    // ---- Decisions ----------------------------------------------------------

    /**
     One transaction: claim the revision, check that the staged rows are still
     those submitted, copy them live. True when the approval was applied or stale.
     */
    method ApplyInTransaction(d: Decision, now: int) returns (matches: bool)
      requires Valid() && Decidable(Snapshot(), d)
      modifies this, tables
      ensures matches == StillHashes(old(Snapshot()), d)
      ensures Snapshot() == if matches then ApplyRevision(old(Snapshot()), d, now) else WithStatus(old(Snapshot()), d.revision, Open)
    {
      InvParts(Snapshot());
      CopiedIsApplied(Snapshot(), d, now);
      hide Inv, ContentHashOf, WellFormed, CopiedLive, ApplyRevision, OpenRevision;
      ghost var before := Snapshot();
      var claimed := revisions[d.revision];
      UpdateRevision(d.revision, claimed.(status := Accepted));
      assert Snapshot() == WithStatus(before, d.revision, Accepted);
      var frozen := claimed.submission.value;
      matches := ContentHashOf(tables.Contents(), frozen.assessments) == frozen.hash;
      if matches {
        CopyLive(d.revision, frozen, now);
      } else {
        UpdateRevision(d.revision, claimed.(status := Open));
        ClaimUndone(before.revisions, d.revision, claimed.(status := Accepted), claimed.(status := Open));
      }
    }

    method CopyLive(r: Id, frozen: Submission, now: int)
      requires WellFormed(tables.Contents())
      modifies this`lastMajorUpdate, this`outbox, tables
      ensures Snapshot() == CopiedLive(old(Snapshot()), r, frozen, now)
    {
      hide DiffOf, AddedLessonIds, ReplacedVideoIds, Applied, Get, Merged;
      // The title and the diff are those of the working copy, so they come before the apply.
      var state := tables.Contents();
      var title := Get(Merged(state.course, state.pending), Title);
      var diff := ComputeDiff(state, []);
      tables.ApplyStagedState();
      if frozen.major {
        lastMajorUpdate := Some(now);
        EmitEvent(CourseUpdated(title));
      }
      EmitEvent(CourseRevisionClosed(r, WasApplied, AddedLessonIds(diff), diff.lessonsRemoved, ReplacedVideoIds(diff), frozen.assessments));
    }

    method ReturnUnapplied(d: Decision, database: Database)
      requires d.hash.Some?
      modifies this
      ensures Snapshot() ==
        if database != IsDown && !Decidable(old(Snapshot()), d) then old(Snapshot())
        else if database == IsDown then Emit(old(Snapshot()), RevisionReturned(d.revision, d.hash.value))
        else Emit(WithStatus(old(Snapshot()), d.revision, Open), RevisionReturned(d.revision, d.hash.value))
    {
      if database != IsDown {
        if !Decidable(Snapshot(), d) { return; }
        UpdateRevision(d.revision, revisions[d.revision].(status := Open));
      }
      EmitEvent(RevisionReturned(d.revision, d.hash.value));
    }

    method ApplyApproval(d: Decision, database: Database, now: int)
      requires Valid() && d.onThisCourse && d.verdict == Approve && d.hash.Some? && d.hash.value != ""
      modifies this, tables
      ensures Snapshot() == StepRevisionReviewed(old(Snapshot()), d, database, now)
    {
      if database != Works {
        ReturnUnapplied(d, database);
        return;
      }
      if !Decidable(Snapshot(), d) { return; }
      var matches := ApplyInTransaction(d, now);
      if !matches {
        EmitEvent(RevisionReturned(d.revision, d.hash.value));
      }
    }

    method RejectChanges(d: Decision)
      requires Valid() && d.verdict == Reject
      modifies this, tables
      ensures Snapshot() == StepRevisionReviewed(old(Snapshot()), d, Works, 0)
    {
      InvParts(Snapshot());
      if !Decidable(Snapshot(), d) { return; }
      var claimed := revisions[d.revision];
      UpdateRevision(d.revision, claimed.(status := Rejected));
      tables.DiscardStagedState();
      EmitEvent(CourseRevisionClosed(d.revision, WasRejected, [], [], [], claimed.submission.value.assessments));
    }

    method OnRevisionReviewed(d: Decision, database: Database, now: int)
      requires Valid()
      modifies this, tables
      ensures Snapshot() == StepRevisionReviewed(old(Snapshot()), d, database, now)
    {
      if !d.onThisCourse || d.hash.None? || d.hash.value == "" { return; }
      match d.verdict
      case Approve => ApplyApproval(d, database, now);
      case Coach =>
        if database == Works && Decidable(Snapshot(), d) {
          UpdateRevision(d.revision, revisions[d.revision].(status := Open));
        }
      case Reject =>
        if database == Works { RejectChanges(d); }
      case Unknown =>
    }

    // ---- Any request --------------------------------------------------------

    /** Whatever arrives, the service takes the step of the model and keeps its invariant. */
    method Handle(a: Action)
      requires Valid()
      modifies this, tables
      ensures Snapshot() == Step(old(Snapshot()), a)
      ensures Valid()
    {
      hide Inv, StepEdit, StepSubmit, StepInstitutionDecide, StepArchive, StepRestore, StepWithdraw, StepRepublish, StepAppeal, StepCourseReviewed,
        StepSubmitRevision, StepWithdrawRevision, StepDiscardRevision, StepInstitutionDecideRevision, StepRevisionReviewed;
      ghost var before := Snapshot();
      match a {
        case DoEdit(e) => Edit(e);
        case Submit => SubmitCourse();
        case InstitutionDecide(approved) => DecideForInstitution(approved);
        case InstitutionUnlist => if institution { var _ := MoveStatus({Published}, Unlisted); }
        case InstitutionRestore => if institution { var _ := MoveStatus({Unlisted}, Published); }
        case ArchiveOwn => Archive();
        case RestoreOwn => Restore();
        case WithdrawOwn => Withdraw();
        case UnpublishOwn => var _ := MoveStatus({Published}, Unlisted);
        case RepublishOwn(now) => Republish(now);
        case Appeal => AppealFlag();
        case AdminUnlist => var _ := MoveStatus({Published, Flagged}, Unlisted);
        case AdminRestore => var _ := MoveStatus({Unlisted, Flagged}, Published);
        case AdminArchive => Archive();
        case CourseReviewed(verdict, now) => OnCourseReviewed(verdict, now);
        case SubmitRevision(assessments, major) => SubmitChanges(assessments, major);
        case WithdrawRevision => WithdrawChanges();
        case DiscardRevision(assessmentsWait) => DiscardChanges(assessmentsWait);
        case InstitutionDecideRevision(approved) => DecideChangesForInstitution(approved);
        case RevisionReviewed(d, database, now) => OnRevisionReviewed(d, database, now);
      }
      StepKeepsInv(before, a);
    }
  }

  /** The rows live, the date set and the events told, for a revision already claimed. */
  function CopiedLive(s: State, r: Id, frozen: Submission, now: int): State {
    var diff := DiffOf(s.rows, []);
    var told := if frozen.major then s.events + [CourseUpdated(Get(Merged(s.rows.course, s.rows.pending), Title))] else s.events;
    s.(rows := Applied(s.rows), lastMajorUpdate := if frozen.major then Some(now) else s.lastMajorUpdate,
       events := told + [CourseRevisionClosed(r, WasApplied, AddedLessonIds(diff), diff.lessonsRemoved, ReplacedVideoIds(diff), frozen.assessments)])
  }

  lemma CopiedIsApplied(s: State, d: Decision, now: int)
    requires Decidable(s, d)
    ensures d.revision in s.revisions && s.revisions[d.revision].submission.Some?
    ensures CopiedLive(WithStatus(s, d.revision, Accepted), d.revision, s.revisions[d.revision].submission.value, now) == ApplyRevision(s, d, now)
  {
    hide DiffOf, Applied, AddedLessonIds, ReplacedVideoIds, Get, Merged, ContentHashOf;
  }

  lemma ClaimUndone(revisions: map<Id, Revision>, r: Id, claimed: Revision, row: Revision)
    ensures revisions[r := claimed][r := row] == revisions[r := row]
  {
  }

  lemma InvParts(s: State)
    requires Inv(s)
    ensures WellFormed(s.rows)
    ensures forall l :: l in s.rows.lessons ==> s.rows.lessons[l].section in s.rows.sections
  {
  }
}
