/**
 The life of one course: its status, its staged revisions and the decisions on
 them, as one atomic step per request, event delivery or transaction.
 */
module CourseLifecycle {
  import opened Options
  import opened CourseRows
  import opened Staging
  import opened StagedEdits
  import opened ContentHash
  import Listing
  import opened RevisionDiff

  datatype Status = Draft | InstitutionReview | Submitted | UnderReview | Published | Unlisted | Flagged | Archived

  datatype RevisionStatus = Open | AtInstitution | AtOfficer | Accepted | Rejected | Withdrawn | Thrown

  /** What a submission freezes: the hash names it, the assessments are decided on with it. */
  datatype Submission = Submission(hash: Hash, assessments: seq<string>, major: bool)

  datatype Revision = Revision(status: RevisionStatus, submission: Option<Submission>)

  datatype Outcome = WasApplied | WasRejected | WasDiscarded

  datatype Event =
    | CourseSubmitted
    | CoursePublished
    | CourseAppealSubmitted
    | CourseReviewWithdrawn(withdrawn: Option<Id>)
    | CourseRevisionSubmitted(revision: Id, hash: Hash, assessments: seq<string>)
    | CourseRevisionClosed(revision: Id, outcome: Outcome, added: seq<Id>, removed: seq<Id>, replaced: seq<Id>, assessments: seq<string>)
    | CourseUpdated(title: Val)
    | RevisionReturned(revision: Id, hash: Hash)

  datatype State = State(
    status: Status,
    institution: bool,
    publishedAt: Option<int>,
    lastMajorUpdate: Option<int>,
    rows: Rows,
    revisions: map<Id, Revision>,
    next: Id,
    events: seq<Event>)

  datatype Verdict = Approve | Coach | Reject | Unknown

  /** A quality officer's decision on a revision, as the event carries it. */
  datatype Decision = Decision(onThisCourse: bool, revision: Id, hash: Option<Hash>, verdict: Verdict)

  /** What the database does during a decision: works, fails until the approval is returned, or fails throughout. */
  datatype Database = Works | FailsToApply | IsDown

  datatype OfficerAction = ApproveCourse | CoachCourse | FlagCourse

  datatype Action =
    | DoEdit(edit: Edit)
    | Submit
    | InstitutionDecide(approved: bool)
    | InstitutionUnlist
    | InstitutionRestore
    | ArchiveOwn
    | RestoreOwn
    | WithdrawOwn
    | UnpublishOwn
    | RepublishOwn(now: int)
    | Appeal
    | AdminUnlist
    | AdminRestore
    | AdminArchive
    | CourseReviewed(verdict: OfficerAction, now: int)
    | SubmitRevision(assessments: Option<seq<string>>, major: bool)
    | WithdrawRevision
    | DiscardRevision(assessmentsWait: Option<bool>)
    | InstitutionDecideRevision(approved: bool)
    | RevisionReviewed(decision: Decision, database: Database, now: int)

  predicate IsLive(status: Status) {
    status in {Published, Unlisted}
  }

  predicate IsInReview(status: Status) {
    status in {Submitted, UnderReview, InstitutionReview}
  }

  predicate IsOpen(status: RevisionStatus) {
    status in {Open, AtInstitution, AtOfficer}
  }

  predicate OpenAmong(revisions: map<Id, Revision>, r: Id) {
    r in revisions && IsOpen(revisions[r].status)
  }

  // ---- The open revision ----------------------------------------------------

  function OpenRevisions(s: State): set<Id> {
    set r | r in s.revisions && IsOpen(s.revisions[r].status)
  }

  /** The least of the open revisions; the invariant says that there is one at most. */
  function OpenRevision(s: State): (o: Option<Id>)
    ensures o.Some? ==> OpenAmong(s.revisions, o.value)
    ensures o.None? ==> forall r :: !OpenAmong(s.revisions, r)
  {
    if OpenRevisions(s) == {} then
      assert forall r :: OpenAmong(s.revisions, r) ==> r in OpenRevisions(s);
      None
    else Some(Listing.Least(OpenRevisions(s), ById))
  }

  function WithRevision(s: State, r: Id, row: Revision): State {
    s.(revisions := s.revisions[r := row])
  }

  function WithStatus(s: State, r: Id, status: RevisionStatus): State
    requires r in s.revisions
  {
    WithRevision(s, r, s.revisions[r].(status := status))
  }

  function Emit(s: State, e: Event): State {
    s.(events := s.events + [e])
  }

  /** A new draft revision with a fresh id. */
  function CreateRevision(s: State): State {
    WithRevision(s, s.next, Revision(Open, None)).(next := s.next + 1)
  }

  /** Once a course is not live, no revision of it is open; rows are not touched. */
  function CloseOpenRevision(s: State): State {
    match OpenRevision(s)
    case None => s
    case Some(r) => Emit(WithStatus(s, r, Withdrawn), CourseReviewWithdrawn(Some(r)))
  }

  /** A draft again, with whatever was staged as its content. */
  function ToDraft(s: State): State {
    s.(status := Draft, rows := Folded(s.rows))
  }

  // ---- Content edits --------------------------------------------------------

  datatype Gate = Refused(after: State) | Direct(after: State) | Staged(after: State)

  function EditGate(s: State, opensRevision: bool): Gate {
    if s.status == Draft then Direct(s.(rows := Folded(s.rows)))
    else if !IsLive(s.status) then Refused(s)
    else match OpenRevision(s)
      case Some(r) => if s.revisions[r].status == Open then Staged(s) else Refused(s)
      case None => Staged(if opensRevision then CreateRevision(s) else s)
  }

  function StepEdit(s: State, e: Edit): State {
    if !TargetExists(e, s.rows) then s
    else
      var gate := EditGate(s, OpensRevision(e));
      if gate.Refused? then gate.after
      else
        var edited := Edit1(gate.Staged?, e, gate.after.rows, gate.after.next);
        if edited.None? then gate.after else gate.after.(rows := edited.value.rows, next := edited.value.next)
  }

  // ---- First submission and the course's own status -------------------------

  function StepSubmit(s: State): State {
    if s.status != Draft then s
    else
      var folded := s.(rows := Folded(s.rows));
      if !MaySubmit(folded.rows) then folded
      else if s.institution then folded.(status := InstitutionReview)
      else Emit(folded.(status := Submitted), CourseSubmitted)
  }

  function StepInstitutionDecide(s: State, approved: bool): State {
    if !s.institution || s.status != InstitutionReview then s
    else if approved then Emit(s.(status := Submitted), CourseSubmitted)
    else ToDraft(s)
  }

  function Transition(s: State, from: set<Status>, to: Status): State {
    if s.status in from then s.(status := to) else s
  }

  /** Archiving withdraws a first-time submission and closes an open revision. */
  function StepArchive(s: State): State {
    if s.status == Archived then s
    else
      var moved := s.(status := Archived);
      CloseOpenRevision(if IsInReview(s.status) then Emit(moved, CourseReviewWithdrawn(None)) else moved)
  }

  function StepRestore(s: State): State {
    if s.status == Archived then ToDraft(s) else s
  }

  function StepWithdraw(s: State): State {
    if IsInReview(s.status) then Emit(ToDraft(s), CourseReviewWithdrawn(None)) else s
  }

  function StepRepublish(s: State, now: int): State {
    if s.status != Unlisted then s
    else s.(status := Published, publishedAt := if s.publishedAt.Some? then s.publishedAt else Some(now))
  }

  function StepAppeal(s: State): State {
    if s.status == Flagged then Emit(s.(status := Submitted), CourseAppealSubmitted) else s
  }

  function StepCourseReviewed(s: State, verdict: OfficerAction, now: int): State {
    match verdict
    case ApproveCourse =>
      if s.status in {Submitted, UnderReview, Flagged} then
        if s.publishedAt.Some? then s.(status := Published)
        else Emit(s.(status := Published, publishedAt := Some(now)), CoursePublished)
      else s
    case CoachCourse =>
      if s.status in {Submitted, UnderReview} then ToDraft(s) else s
    case FlagCourse =>
      if s.status in {Submitted, UnderReview, Published, Unlisted} then CloseOpenRevision(s.(status := Flagged)) else s
  }

  // ---- Revisions ------------------------------------------------------------

  /** The revision a submit acts on, when the submit goes through: the open draft or a new one. */
  function SubmittedRevision(s: State, assessments: Option<seq<string>>): Option<Id> {
    var open := OpenRevision(s);
    if !IsLive(s.status) || assessments.None? then None
    else if open.Some? && s.revisions[open.value].status != Open then None
    else if IsEmpty(DiffOf(s.rows, assessments.value)) || !MergedIsValid(s.rows) then None
    else Some(if open.Some? then open.value else s.next)
  }

  function StepSubmitRevision(s: State, assessments: Option<seq<string>>, major: bool): State {
    match SubmittedRevision(s, assessments)
    case None => s
    case Some(r) =>
      var created := if OpenRevision(s).Some? then s else CreateRevision(s);
      var frozen := Submission(ContentHashOf(s.rows, assessments.value), assessments.value, major);
      if s.institution then WithRevision(created, r, Revision(AtInstitution, Some(frozen)))
      else Emit(WithRevision(created, r, Revision(AtOfficer, Some(frozen))), CourseRevisionSubmitted(r, frozen.hash, frozen.assessments))
  }

  function StepWithdrawRevision(s: State): State {
    match OpenRevision(s)
    case None => s
    case Some(r) =>
      if s.revisions[r].status in {AtInstitution, AtOfficer} then Emit(WithStatus(s, r, Open), CourseReviewWithdrawn(Some(r))) else s
  }

  function Discard(s: State, r: Id): State
    requires r in s.revisions
  {
    Emit(WithStatus(s, r, Thrown).(rows := Discarded(s.rows)), CourseRevisionClosed(r, WasDiscarded, [], [], [], []))
  }

  /** Without an open revision, a discard needs a live course and something to discard. */
  function StepDiscardRevision(s: State, assessmentsWait: Option<bool>): State {
    match OpenRevision(s)
    case Some(r) => if s.revisions[r].status == Open then Discard(s, r) else s
    case None =>
      if IsLive(s.status) && (HasStaged(s.rows) || assessmentsWait == Some(true)) then Discard(CreateRevision(s), s.next) else s
  }

  function StepInstitutionDecideRevision(s: State, approved: bool): State {
    match OpenRevision(s)
    case None => s
    case Some(r) =>
      if !s.institution || s.revisions[r].status != AtInstitution then s
      else if !approved then WithStatus(s, r, Open)
      else match s.revisions[r].submission
        case None => WithStatus(s, r, AtOfficer)
        case Some(frozen) => Emit(WithStatus(s, r, AtOfficer), CourseRevisionSubmitted(r, frozen.hash, frozen.assessments))
  }

  /** The decision meets its revision in the officer's hands, under the hash it was given for. */
  predicate Decidable(s: State, d: Decision) {
    && d.onThisCourse && d.hash.Some? && d.hash.value != "" && d.verdict != Unknown
    && d.revision in s.revisions
    && s.revisions[d.revision].status == AtOfficer
    && s.revisions[d.revision].submission.Some?
    && s.revisions[d.revision].submission.value.hash == d.hash.value
  }

  /** Do the staged rows still hash to what was frozen at submit? */
  predicate StillHashes(s: State, d: Decision)
    requires Decidable(s, d)
  {
    var frozen := s.revisions[d.revision].submission.value;
    ContentHashOf(s.rows, frozen.assessments) == frozen.hash
  }

  /** Copy the staged state live and close the revision, in one transaction. */
  function ApplyRevision(s: State, d: Decision, now: int): State
    requires Decidable(s, d)
  {
    var frozen := s.revisions[d.revision].submission.value;
    var diff := DiffOf(s.rows, []);
    var applied := WithStatus(s, d.revision, Accepted).(
      rows := Applied(s.rows),
      lastMajorUpdate := if frozen.major then Some(now) else s.lastMajorUpdate);
    var told := if frozen.major then Emit(applied, CourseUpdated(Get(Merged(s.rows.course, s.rows.pending), Title))) else applied;
    Emit(told, CourseRevisionClosed(d.revision, WasApplied, AddedLessonIds(diff), diff.lessonsRemoved, ReplacedVideoIds(diff), frozen.assessments))
  }

  function StepRevisionReviewed(s: State, d: Decision, database: Database, now: int): State {
    if !Decidable(s, d) then
      // With the database unreachable, nobody can tell that the revision has moved on.
      if d.onThisCourse && d.verdict == Approve && d.hash.Some? && d.hash.value != "" && database == IsDown then Emit(s, RevisionReturned(d.revision, d.hash.value)) else s
    else match d.verdict
      case Approve =>
        match database {
          case Works =>
            if StillHashes(s, d) then ApplyRevision(s, d, now)
            else Emit(WithStatus(s, d.revision, Open), RevisionReturned(d.revision, d.hash.value))
          case FailsToApply => Emit(WithStatus(s, d.revision, Open), RevisionReturned(d.revision, d.hash.value))
          case IsDown => Emit(s, RevisionReturned(d.revision, d.hash.value))
        }
      case Coach => if database == Works then WithStatus(s, d.revision, Open) else s
      case Reject =>
        if database != Works then s
        else Emit(
          WithStatus(s, d.revision, Rejected).(rows := Discarded(s.rows)),
          CourseRevisionClosed(d.revision, WasRejected, [], [], [], s.revisions[d.revision].submission.value.assessments))
      case Unknown => s
  }

  function Step(s: State, a: Action): State {
    match a
    case DoEdit(e) => StepEdit(s, e)
    case Submit => StepSubmit(s)
    case InstitutionDecide(approved) => StepInstitutionDecide(s, approved)
    case InstitutionUnlist => if s.institution then Transition(s, {Published}, Unlisted) else s
    case InstitutionRestore => if s.institution then Transition(s, {Unlisted}, Published) else s
    case ArchiveOwn => StepArchive(s)
    case RestoreOwn => StepRestore(s)
    case WithdrawOwn => StepWithdraw(s)
    case UnpublishOwn => Transition(s, {Published}, Unlisted)
    case RepublishOwn(now) => StepRepublish(s, now)
    case Appeal => StepAppeal(s)
    case AdminUnlist => Transition(s, {Published, Flagged}, Unlisted)
    case AdminRestore => Transition(s, {Unlisted, Flagged}, Published)
    case AdminArchive => StepArchive(s)
    case CourseReviewed(verdict, now) => StepCourseReviewed(s, verdict, now)
    case SubmitRevision(assessments, major) => StepSubmitRevision(s, assessments, major)
    case WithdrawRevision => StepWithdrawRevision(s)
    case DiscardRevision(assessmentsWait) => StepDiscardRevision(s, assessmentsWait)
    case InstitutionDecideRevision(approved) => StepInstitutionDecideRevision(s, approved)
    case RevisionReviewed(d, database, now) => StepRevisionReviewed(s, d, database, now)
  }

  function Run(s: State, actions: seq<Action>): State {
    if actions == [] then s else Step(Run(s, actions[..|actions| - 1]), actions[|actions| - 1])
  }
}
