/**
 Safety of a course's life over every run: any requests, in any order, and
 decisions delivered any number of times, late or out of order.
 */
module CourseRuns {
  import opened Options
  import opened CourseRows
  import opened Staging
  import opened StagedEdits
  import opened ContentHash
  import opened HashOutcome
  import opened RevisionDiff
  import opened CourseLifecycle
  import opened CourseInvariants

  // ---- What one step leaves alone -------------------------------------------

  predicate InReview(revisions: map<Id, Revision>, r: Id) {
    r in revisions && revisions[r].status in {AtInstitution, AtOfficer}
  }

  /** Revisions are never removed, new ones have new ids, and one that has ended never changes again. */
  ghost predicate Proceeds(before: map<Id, Revision>, after: map<Id, Revision>, next: Id) {
    && (forall r :: r in before ==> r in after)
    && (forall r :: r in after && r !in before ==> r >= next)
    && (forall r :: r in before && !IsOpen(before[r].status) ==> after[r] == before[r])
  }

  lemma OneRevisionProceeds(before: map<Id, Revision>, r: Id, row: Revision, next: Id)
    requires r in before ==> IsOpen(before[r].status)
    requires r !in before ==> r >= next
    ensures Proceeds(before, before[r := row], next)
  {
  }

  lemma CloseProceeds(s: State)
    ensures Proceeds(s.revisions, CloseOpenRevision(s).revisions, s.next)
  {
    var open := OpenRevision(s);
    if open.Some? {
      OneRevisionProceeds(s.revisions, open.value, s.revisions[open.value].(status := Withdrawn), s.next);
    }
  }

  lemma SubmitRevisionProceeds(s: State, assessments: Option<seq<string>>, major: bool)
    requires Inv(s)
    ensures Proceeds(s.revisions, StepSubmitRevision(s, assessments, major).revisions, s.next)
  {
    hide RowsOk, ClosingsOk, AnnouncementsOk, DiffOf, IsEmpty, MergedIsValid, ContentHashOf;
    match SubmittedRevision(s, assessments)
    case None =>
    case Some(r) =>
      var frozen := Submission(ContentHashOf(s.rows, assessments.value), assessments.value, major);
      var created := if OpenRevision(s).Some? then s else CreateRevision(s);
      OneRevisionProceeds(s.revisions, r, Revision(AtInstitution, Some(frozen)), s.next);
      OneRevisionProceeds(s.revisions, r, Revision(AtOfficer, Some(frozen)), s.next);
      assert created.revisions[r := Revision(AtInstitution, Some(frozen))] == s.revisions[r := Revision(AtInstitution, Some(frozen))];
      assert created.revisions[r := Revision(AtOfficer, Some(frozen))] == s.revisions[r := Revision(AtOfficer, Some(frozen))];
  }

  lemma DiscardProceeds(s: State, assessmentsWait: Option<bool>)
    requires Inv(s)
    ensures Proceeds(s.revisions, StepDiscardRevision(s, assessmentsWait).revisions, s.next)
  {
    hide RowsOk, ClosingsOk, AnnouncementsOk, Discarded, HasStaged;
    match OpenRevision(s)
    case Some(r) => OneRevisionProceeds(s.revisions, r, s.revisions[r].(status := Thrown), s.next);
    case None =>
      OneRevisionProceeds(s.revisions, s.next, Revision(Thrown, None), s.next);
      assert s.revisions[s.next := Revision(Open, None)][s.next := Revision(Thrown, None)] == s.revisions[s.next := Revision(Thrown, None)];
  }

  lemma DecisionProceeds(s: State, d: Decision, database: Database, now: int)
    requires Inv(s)
    ensures Proceeds(s.revisions, StepRevisionReviewed(s, d, database, now).revisions, s.next)
  {
    hide Inv, ContentHashOf, DiffOf, Applied, Discarded;
    if Decidable(s, d) {
      var row := s.revisions[d.revision];
      OneRevisionProceeds(s.revisions, d.revision, row.(status := Open), s.next);
      OneRevisionProceeds(s.revisions, d.revision, row.(status := Accepted), s.next);
      OneRevisionProceeds(s.revisions, d.revision, row.(status := Rejected), s.next);
    }
  }

  lemma EditProceeds(s: State, e: Edit)
    requires Inv(s)
    ensures Proceeds(s.revisions, StepEdit(s, e).revisions, s.next)
  {
    hide RowsOk, ClosingsOk, AnnouncementsOk, Folded, Edit1, TargetExists;
    OneRevisionProceeds(s.revisions, s.next, Revision(Open, None), s.next);
  }

  lemma ReviewMovesProceed(s: State, approved: bool)
    requires Inv(s)
    ensures Proceeds(s.revisions, StepWithdrawRevision(s).revisions, s.next)
    ensures Proceeds(s.revisions, StepInstitutionDecideRevision(s, approved).revisions, s.next)
  {
    hide Inv;
    match OpenRevision(s)
    case None =>
    case Some(r) =>
      OneRevisionProceeds(s.revisions, r, s.revisions[r].(status := Open), s.next);
      OneRevisionProceeds(s.revisions, r, s.revisions[r].(status := AtOfficer), s.next);
  }

  /** An applied, rejected, discarded or withdrawn revision stays exactly that, whatever happens next. */
  lemma StepKeepsEndedRevisions(s: State, a: Action)
    requires Inv(s)
    ensures Proceeds(s.revisions, Step(s, a).revisions, s.next) && s.next <= Step(s, a).next
  {
    hide HasStaged, Applied, Discarded, MaySubmit, DiffOf, ContentHashOf;
    StepKeepsNext(s, a);
    match a
    case DoEdit(e) => EditProceeds(s, e);
    case ArchiveOwn => ArchiveProceeds(s);
    case AdminArchive => ArchiveProceeds(s);
    case CourseReviewed(verdict, now) => CloseProceeds(s.(status := Flagged));
    case SubmitRevision(assessments, major) => SubmitRevisionProceeds(s, assessments, major);
    case WithdrawRevision => ReviewMovesProceed(s, true);
    case DiscardRevision(assessmentsWait) => DiscardProceeds(s, assessmentsWait);
    case InstitutionDecideRevision(approved) => ReviewMovesProceed(s, approved);
    case RevisionReviewed(d, database, now) => DecisionProceeds(s, d, database, now);
    case _ =>
  }

  lemma ArchiveProceeds(s: State)
    ensures Proceeds(s.revisions, StepArchive(s).revisions, s.next)
  {
    var moved := s.(status := Archived);
    CloseProceeds(moved);
    CloseProceeds(Emit(moved, CourseReviewWithdrawn(None)));
  }

  lemma StepKeepsNext(s: State, a: Action)
    requires Inv(s)
    ensures s.next <= Step(s, a).next
  {
    hide RevisionsOk, ClosingsOk, AnnouncementsOk, HasStaged, Applied, Discarded, MaySubmit, DiffOf, ContentHashOf;
    if a.DoEdit? { EditKeepsNext(s, a.edit); }
  }

  lemma EditKeepsNext(s: State, e: Edit)
    requires Inv(s)
    ensures s.next <= StepEdit(s, e).next
  {
    hide WellFormed, IdsBelow, Edit1, Tidy, HasStaged, RevisionsOk, ClosingsOk, AnnouncementsOk;
    GateKeepsInv(s, OpensRevision(e));
    var gate := EditGate(s, OpensRevision(e));
    if gate.Direct? {
      DirectEditKeepsDraft(e, gate.after.rows, gate.after.next);
    }
    if gate.Staged? {
      StagedEditKeepsBase(e, gate.after.rows, gate.after.next);
    }
  }

  // ---- Live content ---------------------------------------------------------

  lemma StagedEditKeepsLive(s: State, e: Edit)
    requires Inv(s) && IsLive(s.status)
    ensures Base(StepEdit(s, e).rows) == Base(s.rows) && PlacesKept(s.rows, StepEdit(s, e).rows, s.next)
  {
    hide WellFormed, IdsBelow, Edit1, Tidy, HasStaged, RevisionsOk, ClosingsOk, AnnouncementsOk, Base;
    GateKeepsInv(s, OpensRevision(e));
    var gate := EditGate(s, OpensRevision(e));
    if gate.Staged? {
      StagedEditKeepsBase(e, gate.after.rows, gate.after.next);
      PlacesFromEarlier(s.rows, StepEdit(s, e).rows, gate.after.next, s.next);
    }
  }

  lemma PlacesFromEarlier(r: Rows, q: Rows, later: Id, next: Id)
    requires PlacesKept(r, q, later) || r == q
    requires next <= later
    ensures PlacesKept(r, q, next)
  {
  }

  /** Does this step apply a revision? */
  predicate Approves(s: State, a: Action) {
    a.RevisionReviewed? && a.database == Works && a.decision.verdict == Approve && Decidable(s, a.decision) && StillHashes(s, a.decision)
  }

  predicate Rejects(s: State, a: Action) {
    a.RevisionReviewed? && a.database == Works && a.decision.verdict == Reject && Decidable(s, a.decision)
  }

  /** The rows of a live course change by an edit, an approved or rejected revision, or a discard. */
  lemma LiveRowsChange(s: State, a: Action)
    requires Inv(s) && IsLive(s.status) && !a.DoEdit?
    ensures
      || Step(s, a).rows == s.rows
      || (Approves(s, a) && Step(s, a) == ApplyRevision(s, a.decision, a.now))
      || (Step(s, a).rows == Discarded(s.rows) && (a.DiscardRevision? || Rejects(s, a)))
  {
    hide Inv, HasStaged, Applied, Discarded, MaySubmit, DiffOf, ContentHashOf, ApplyRevision, SubmittedRevision, OpenRevision;
  }

  lemma OneOpen(s: State, r: Id)
    requires Inv(s)
    ensures OpenAmong(s.revisions, r) ==> OpenRevision(s) == Some(r) && r < s.next && IsLive(s.status)
  {
    hide RowsOk, ClosingsOk, AnnouncementsOk;
  }

  lemma NoneOpenAfterDiscard(s: State, a: Action, r: Id)
    requires Inv(s) && r in s.revisions && (a.DiscardRevision? || Rejects(s, a)) && Step(s, a).rows != s.rows
    ensures !OpenAmong(Step(s, a).revisions, r)
  {
    hide RowsOk, ClosingsOk, AnnouncementsOk, HasStaged, Discarded, ContentHashOf, OpenRevisions;
    OneOpen(s, r);
    if Rejects(s, a) {
      OneOpen(s, a.decision.revision);
    }
  }

  lemma NoneOpenAfterApply(s: State, d: Decision, now: int, r: Id)
    requires Inv(s) && Decidable(s, d) && r in s.revisions
    ensures !OpenAmong(ApplyRevision(s, d, now).revisions, r)
  {
    hide RowsOk, RevisionsOk, ClosingsOk, AnnouncementsOk, DiffOf, Applied, ContentHashOf;
    OneOpen(s, r);
    OneOpen(s, d.revision);
  }

  /** As long as a revision stays open, what a discard would restore stays the same. */
  lemma StepKeepsBase(s: State, a: Action, r: Id)
    requires Inv(s) && r in s.revisions && OpenAmong(Step(s, a).revisions, r)
    ensures Base(Step(s, a).rows) == Base(s.rows) && PlacesKept(s.rows, Step(s, a).rows, s.next)
  {
    StepKeepsEndedRevisions(s, a);
    assert OpenAmong(s.revisions, r);
    assert IsLive(s.status);
    hide Inv, Step, Base, ApplyRevision, Discarded, Proceeds, OpenAmong;
    if a.DoEdit? {
      EditStep(s, a.edit);
      StagedEditKeepsLive(s, a.edit);
    } else {
      LiveRowsChange(s, a);
      if Approves(s, a) && Step(s, a) == ApplyRevision(s, a.decision, a.now) { NoneOpenAfterApply(s, a.decision, a.now, r); }
      if Step(s, a).rows != s.rows && (a.DiscardRevision? || Rejects(s, a)) { NoneOpenAfterDiscard(s, a, r); }
      PlacesFromEarlier(s.rows, s.rows, s.next, s.next);
    }
  }

  lemma EditStep(s: State, e: Edit)
    ensures Step(s, DoEdit(e)) == StepEdit(s, e)
  {
  }

  /** What learners see of a live course changes only when a revision is applied, and then to the working copy. */
  lemma StepKeepsLiveContent(s: State, a: Action)
    requires Inv(s) && IsLive(s.status) && LiveContent(Step(s, a).rows) != LiveContent(s.rows)
    ensures Approves(s, a) && LiveContent(Step(s, a).rows) == WorkingContent(s.rows)
  {
    InvRows(s);
    StepKeepsInv(s, a);
    InvRows(Step(s, a));
    hide Inv, Step, Base, ApplyRevision, LiveContent, WorkingContent, WellFormed, Discarded;
    if a.DoEdit? {
      EditStep(s, a.edit);
      StagedEditKeepsLive(s, a.edit);
      BaseFixesLiveContent(s.rows, Step(s, a).rows);
    } else {
      LiveRowsChange(s, a);
      DiscardKeepsLiveContent(s.rows);
      if Approves(s, a) {
        AppliedRevisionRows(s, a.decision, a.now);
        ApplyPublishesWorkingCopy(s.rows);
      }
    }
  }

  lemma InvRows(s: State)
    requires Inv(s)
    ensures WellFormed(s.rows) && Tidy(s.rows) && IdsBelow(s.rows, s.next)
  {
  }

  lemma AppliedRevisionRows(s: State, d: Decision, now: int)
    requires Decidable(s, d)
    ensures ApplyRevision(s, d, now).rows == Applied(s.rows)
  {
    hide DiffOf, Applied, ContentHashOf;
  }

  // ---- The log of submissions -----------------------------------------------

  /** A submission as it was made: of which revision, what was frozen, and the rows it was made of. */
  datatype LogEntry = LogEntry(revision: Id, submission: Submission, rows: Rows)

  datatype World = World(state: State, log: seq<LogEntry>)

  function EntryOf(s: State, assessments: seq<string>, major: bool, r: Id): LogEntry {
    LogEntry(r, Submission(ContentHashOf(s.rows, assessments), assessments, major), s.rows)
  }

  function Logged(s: State, a: Action): seq<LogEntry> {
    if a.SubmitRevision? && SubmittedRevision(s, a.assessments).Some?
    then [EntryOf(s, a.assessments.value, a.major, SubmittedRevision(s, a.assessments).value)]
    else []
  }

  function Advance(w: World, a: Action): World {
    World(Step(w.state, a), w.log + Logged(w.state, a))
  }

  function History(s: State, actions: seq<Action>): World {
    if actions == [] then World(s, []) else Advance(History(s, actions[..|actions| - 1]), actions[|actions| - 1])
  }

  lemma {:induction false} HistoryRuns(s: State, actions: seq<Action>)
    ensures History(s, actions).state == Run(s, actions)
  {
    if actions != [] { HistoryRuns(s, actions[..|actions| - 1]); }
  }

  /** Over the same live rows as when it was submitted, with the same places and only ids handed out since. */
  ghost predicate StillOver(e: LogEntry, rows: Rows, next: Id) {
    IdsBelow(e.rows, next) && Base(e.rows) == Base(rows) && SamePlaces(e.rows, rows)
  }

  ghost predicate EntryOk(e: LogEntry, s: State) {
    && e.revision in s.revisions
    && WellFormed(e.rows) && Tidy(e.rows)
    && e.submission.hash == ContentHashOf(e.rows, e.submission.assessments)
    && (OpenAmong(s.revisions, e.revision) ==> StillOver(e, s.rows, s.next))
  }

  function SubmissionOf(s: State, r: Id): Option<Submission> {
    if r in s.revisions then s.revisions[r].submission else None
  }

  ghost predicate Witnessed(log: seq<LogEntry>, s: State, r: Id) {
    exists e :: e in log && e.revision == r && SubmissionOf(s, r) == Some(e.submission)
  }

  ghost predicate LogOk(w: World) {
    && (forall e :: e in w.log ==> EntryOk(e, w.state))
    && (forall r :: InReview(w.state.revisions, r) ==> Witnessed(w.log, w.state, r))
  }

  lemma StillOverLater(e: LogEntry, r: Rows, next: Id, q: Rows, after: Id)
    requires StillOver(e, r, next) && next <= after && Base(q) == Base(r) && PlacesKept(r, q, next)
    ensures StillOver(e, q, after)
  {
    hide Base;
  }

  lemma EntryStaysOk(e: LogEntry, s: State, a: Action)
    requires Inv(s) && EntryOk(e, s)
    ensures EntryOk(e, Step(s, a))
  {
    StepKeepsEndedRevisions(s, a);
    hide Inv, Step, WellFormed, Tidy, StillOver, Base, ContentHashOf, PlacesKept;
    if OpenAmong(Step(s, a).revisions, e.revision) {
      StepKeepsBase(s, a, e.revision);
      StillOverLater(e, s.rows, s.next, Step(s, a).rows, Step(s, a).next);
    }
  }

  lemma SubmitFreezes(s: State, assessments: Option<seq<string>>, major: bool, r: Id)
    requires Inv(s) && SubmittedRevision(s, assessments) == Some(r)
    ensures var t := StepSubmitRevision(s, assessments, major);
      && r in t.revisions && InReview(t.revisions, r) && t.rows == s.rows
      && t.revisions[r].submission == Some(EntryOf(s, assessments.value, major, r).submission)
      && (forall q :: q != r ==> (q in t.revisions <==> q in s.revisions))
      && (forall q :: q != r && q in s.revisions ==> t.revisions[q] == s.revisions[q])
  {
    hide Inv, DiffOf, IsEmpty, MergedIsValid, ContentHashOf;
  }

  /** What is in review was in review with the same submission. */
  ghost predicate CarriesReview(before: map<Id, Revision>, after: map<Id, Revision>) {
    forall r :: InReview(after, r) ==> InReview(before, r) && after[r].submission == before[r].submission
  }

  lemma OneRevisionCarries(before: map<Id, Revision>, r: Id, row: Revision)
    requires row.status in {AtInstitution, AtOfficer} ==> InReview(before, r) && row.submission == before[r].submission
    ensures CarriesReview(before, before[r := row])
  {
  }

  lemma CloseCarries(s: State)
    ensures CarriesReview(s.revisions, CloseOpenRevision(s).revisions)
  {
    var open := OpenRevision(s);
    if open.Some? { OneRevisionCarries(s.revisions, open.value, s.revisions[open.value].(status := Withdrawn)); }
  }

  lemma ArchiveCarries(s: State)
    ensures CarriesReview(s.revisions, StepArchive(s).revisions)
  {
    var moved := s.(status := Archived);
    CloseCarries(moved);
    CloseCarries(Emit(moved, CourseReviewWithdrawn(None)));
  }

  lemma EditCarries(s: State, e: Edit)
    ensures CarriesReview(s.revisions, StepEdit(s, e).revisions)
  {
    hide Folded, Edit1, TargetExists;
    OneRevisionCarries(s.revisions, s.next, Revision(Open, None));
  }

  lemma DiscardCarries(s: State, assessmentsWait: Option<bool>)
    ensures CarriesReview(s.revisions, StepDiscardRevision(s, assessmentsWait).revisions)
  {
    hide Discarded, HasStaged;
    match OpenRevision(s)
    case Some(r) => OneRevisionCarries(s.revisions, r, s.revisions[r].(status := Thrown));
    case None =>
      OneRevisionCarries(s.revisions, s.next, Revision(Thrown, None));
      assert s.revisions[s.next := Revision(Open, None)][s.next := Revision(Thrown, None)] == s.revisions[s.next := Revision(Thrown, None)];
  }

  lemma DecisionCarries(s: State, d: Decision, database: Database, now: int)
    ensures CarriesReview(s.revisions, StepRevisionReviewed(s, d, database, now).revisions)
  {
    hide ContentHashOf, DiffOf, Applied, Discarded;
    if Decidable(s, d) {
      var row := s.revisions[d.revision];
      OneRevisionCarries(s.revisions, d.revision, row.(status := Open));
      OneRevisionCarries(s.revisions, d.revision, row.(status := Accepted));
      OneRevisionCarries(s.revisions, d.revision, row.(status := Rejected));
    }
  }

  lemma ReviewMovesCarry(s: State, approved: bool)
    ensures CarriesReview(s.revisions, StepWithdrawRevision(s).revisions)
    ensures CarriesReview(s.revisions, StepInstitutionDecideRevision(s, approved).revisions)
  {
    match OpenRevision(s)
    case None =>
    case Some(r) =>
      OneRevisionCarries(s.revisions, r, s.revisions[r].(status := Open));
      if InReview(s.revisions, r) { OneRevisionCarries(s.revisions, r, s.revisions[r].(status := AtOfficer)); }
  }

  /** Apart from a submit, no step puts anything into review or changes what is frozen there. */
  lemma StepCarriesReview(s: State, a: Action)
    requires !a.SubmitRevision?
    ensures CarriesReview(s.revisions, Step(s, a).revisions)
  {
    hide HasStaged, Applied, Discarded, MaySubmit, DiffOf, ContentHashOf;
    match a
    case DoEdit(e) => EditCarries(s, e);
    case ArchiveOwn => ArchiveCarries(s);
    case AdminArchive => ArchiveCarries(s);
    case CourseReviewed(verdict, now) => CloseCarries(s.(status := Flagged));
    case WithdrawRevision => ReviewMovesCarry(s, true);
    case DiscardRevision(assessmentsWait) => DiscardCarries(s, assessmentsWait);
    case InstitutionDecideRevision(approved) => ReviewMovesCarry(s, approved);
    case RevisionReviewed(d, database, now) => DecisionCarries(s, d, database, now);
    case _ =>
  }

  lemma ReviewCarries(s: State, a: Action, r: Id)
    requires Inv(s) && InReview(Step(s, a).revisions, r)
    ensures
      || (InReview(s.revisions, r) && SubmissionOf(Step(s, a), r) == SubmissionOf(s, r))
      || (a.SubmitRevision? && SubmittedRevision(s, a.assessments) == Some(r)
          && SubmissionOf(Step(s, a), r) == Some(EntryOf(s, a.assessments.value, a.major, r).submission))
  {
    if a.SubmitRevision? {
      hide Inv, SubmittedRevision, EntryOf;
      SubmitStep(s, a.assessments, a.major);
      if SubmittedRevision(s, a.assessments).Some? {
        SubmitFreezes(s, a.assessments, a.major, SubmittedRevision(s, a.assessments).value);
      }
    } else {
      hide Inv, Step;
      StepCarriesReview(s, a);
    }
  }

  lemma NewEntryOk(s: State, assessments: Option<seq<string>>, major: bool, r: Id)
    requires Inv(s) && SubmittedRevision(s, assessments) == Some(r)
    ensures EntryOk(EntryOf(s, assessments.value, major, r), StepSubmitRevision(s, assessments, major))
  {
    hide Inv, WellFormed, Tidy, Base, ContentHashOf, SubmittedRevision, StepSubmitRevision;
    InvRows(s);
    SubmittedWithAssessments(s, assessments);
    SubmitFreezes(s, assessments, major, r);
    SubmitStep(s, assessments, major);
    StepKeepsNext(s, SubmitRevision(assessments, major));
    StillOverItself(s.rows, s.next, StepSubmitRevision(s, assessments, major).next, EntryOf(s, assessments.value, major, r));
  }

  lemma StillOverItself(rows: Rows, next: Id, later: Id, e: LogEntry)
    requires IdsBelow(rows, next) && next <= later && e.rows == rows
    ensures StillOver(e, rows, later)
  {
  }

  lemma AdvanceKeepsLog(w: World, a: Action)
    requires Inv(w.state) && LogOk(w)
    ensures LogOk(Advance(w, a))
  {
    var s, t := w.state, Advance(w, a);
    hide Inv, Step, EntryOk, SubmittedRevision, EntryOf;
    forall e | e in t.log ensures EntryOk(e, t.state) {
      if e in w.log {
        EntryStaysOk(e, s, a);
      } else {
        assert e in Logged(s, a);
        SubmittedWithAssessments(s, a.assessments);
        NewEntryOk(s, a.assessments, a.major, SubmittedRevision(s, a.assessments).value);
        SubmitStep(s, a.assessments, a.major);
      }
    }
    forall r | InReview(t.state.revisions, r) ensures Witnessed(t.log, t.state, r) {
      ReviewCarries(s, a, r);
      if InReview(s.revisions, r) && SubmissionOf(t.state, r) == SubmissionOf(s, r) {
        var e :| e in w.log && e.revision == r && SubmissionOf(s, r) == Some(e.submission);
        assert e in t.log;
      } else {
        LoggedNow(s, a.assessments, a.major, r);
        assert a.assessments.Some? by { SubmittedWithAssessments(s, a.assessments); }
        assert EntryOf(s, a.assessments.value, a.major, r) in t.log;
      }
    }
  }

  lemma SubmitStep(s: State, assessments: Option<seq<string>>, major: bool)
    ensures Step(s, SubmitRevision(assessments, major)) == StepSubmitRevision(s, assessments, major)
  {
  }

  lemma SubmittedWithAssessments(s: State, assessments: Option<seq<string>>)
    ensures SubmittedRevision(s, assessments).Some? ==> assessments.Some?
  {
  }

  lemma LoggedNow(s: State, assessments: Option<seq<string>>, major: bool, r: Id)
    requires SubmittedRevision(s, assessments) == Some(r)
    ensures Logged(s, SubmitRevision(assessments, major)) == [EntryOf(s, assessments.value, major, r)]
    ensures EntryOf(s, assessments.value, major, r).revision == r
  {
    hide SubmittedRevision;
  }

  lemma {:induction false} HistoryOk(s: State, actions: seq<Action>)
    requires Initial(s)
    ensures Inv(History(s, actions).state) && LogOk(History(s, actions))
  {
    InitialInv(s);
    if actions != [] {
      var w := History(s, actions[..|actions| - 1]);
      HistoryOk(s, actions[..|actions| - 1]);
      StepKeepsInv(w.state, actions[|actions| - 1]);
      AdvanceKeepsLog(w, actions[|actions| - 1]);
    }
  }

  // ---- Whole-run safety -----------------------------------------------------

  lemma ApprovedMatchesEntry(w: World, d: Decision, e: LogEntry)
    requires Inv(w.state) && LogOk(w) && Decidable(w.state, d) && StillHashes(w.state, d)
    requires e in w.log && e.revision == d.revision && Some(e.submission.hash) == d.hash
    ensures WorkingContent(w.state.rows) == WorkingContent(e.rows)
  {
    InvRows(w.state);
    assert EntryOk(e, w.state);
    var frozen := w.state.revisions[d.revision].submission.value;
    hide Inv, LogOk, WellFormed, Tidy, WorkingContent, ContentHashOf, Base;
    HashFixesOutcome(e.rows, e.submission.assessments, w.state.rows, frozen.assessments);
  }

  lemma ApprovedHasEntry(w: World, d: Decision)
    requires LogOk(w) && Decidable(w.state, d)
    ensures exists e :: e in w.log && e.revision == d.revision && Some(e.submission.hash) == d.hash
  {
    hide EntryOk;
    assert InReview(w.state.revisions, d.revision);
    assert Witnessed(w.log, w.state, d.revision);
  }

  /**
   Whatever happened before, in whatever order: when the content learners see of
   a live course changes, the step is an approval, its hash is that of a
   submission of the approved revision, and what goes live is exactly the merged
   content at every such submission.
   */
  lemma OnlySubmittedContentGoesLive(s: State, actions: seq<Action>, a: Action)
    requires Initial(s) && IsLive(Run(s, actions).status)
    requires LiveContent(Step(Run(s, actions), a).rows) != LiveContent(Run(s, actions).rows)
    ensures a.RevisionReviewed? && a.decision.verdict == Approve
    ensures var log := History(s, actions).log;
      && (exists e :: e in log && e.revision == a.decision.revision && Some(e.submission.hash) == a.decision.hash)
      && (forall e :: e in log && e.revision == a.decision.revision && Some(e.submission.hash) == a.decision.hash
            ==> LiveContent(Step(Run(s, actions), a).rows) == WorkingContent(e.rows))
  {
    var w := History(s, actions);
    HistoryRuns(s, actions);
    HistoryOk(s, actions);
    hide Inv, LogOk, Step, LiveContent, WorkingContent, Run, History;
    StepKeepsLiveContent(w.state, a);
    ApprovedHasEntry(w, a.decision);
    forall e | e in w.log && e.revision == a.decision.revision && Some(e.submission.hash) == a.decision.hash
      ensures LiveContent(Step(w.state, a).rows) == WorkingContent(e.rows)
    {
      ApprovedMatchesEntry(w, a.decision, e);
    }
  }

  // ---- The hash check of an approval ----------------------------------------

  /** What is in review still hashes to what was frozen at its submission. */
  ghost predicate IsFrozen(s: State) {
    forall r :: InReview(s.revisions, r) ==>
      s.revisions[r].submission.Some? &&
      ContentHashOf(s.rows, s.revisions[r].submission.value.assessments) == s.revisions[r].submission.value.hash
  }

  lemma GateRefusesInReview(s: State, e: Edit, r: Id)
    requires Inv(s) && InReview(s.revisions, r)
    ensures StepEdit(s, e) == s
  {
    OneOpen(s, r);
    hide Inv, Edit1, TargetExists, Folded;
  }

  /** As long as a revision is in review, nothing moves the rows. */
  lemma ReviewKeepsRows(s: State, a: Action, r: Id)
    requires Inv(s) && InReview(s.revisions, r) && InReview(Step(s, a).revisions, r)
    ensures Step(s, a).rows == s.rows
  {
    OneOpen(s, r);
    assert OpenAmong(Step(s, a).revisions, r);
    hide Inv, Step, ApplyRevision, StepEdit;
    if a.DoEdit? {
      GateRefusesInReview(s, a.edit, r);
      EditStep(s, a.edit);
    } else {
      LiveRowsChange(s, a);
      if Step(s, a).rows != s.rows {
        if Approves(s, a) && Step(s, a) == ApplyRevision(s, a.decision, a.now) {
          NoneOpenAfterApply(s, a.decision, a.now, r);
        } else {
          NoneOpenAfterDiscard(s, a, r);
        }
      }
    }
  }

  lemma StepKeepsFrozen(s: State, a: Action)
    requires Inv(s) && IsFrozen(s)
    ensures IsFrozen(Step(s, a))
  {
    hide Inv, Step, ContentHashOf, SubmittedRevision;
    StepKeepsSubmissions(s, a);
    forall r | InReview(Step(s, a).revisions, r)
      ensures var frozen := Step(s, a).revisions[r].submission;
        frozen.Some? && ContentHashOf(Step(s, a).rows, frozen.value.assessments) == frozen.value.hash
    {
      ReviewCarries(s, a, r);
      if InReview(s.revisions, r) && SubmissionOf(Step(s, a), r) == SubmissionOf(s, r) {
        ReviewKeepsRows(s, a, r);
      } else {
        SubmittedWithAssessments(s, a.assessments);
        SubmitFreezes(s, a.assessments, a.major, r);
        SubmitStep(s, a.assessments, a.major);
      }
    }
  }

  lemma StepKeepsSubmissions(s: State, a: Action)
    requires Inv(s)
    ensures forall r :: InReview(Step(s, a).revisions, r) ==> Step(s, a).revisions[r].submission.Some?
  {
    StepKeepsInv(s, a);
    hide Step, RowsOk, ClosingsOk, AnnouncementsOk;
  }

  lemma {:induction false} RunKeepsFrozen(s: State, actions: seq<Action>)
    requires Initial(s)
    ensures Inv(Run(s, actions)) && IsFrozen(Run(s, actions))
  {
    hide Inv, Step;
    if actions == [] {
      InitialInv(s);
    } else {
      RunKeepsFrozen(s, actions[..|actions| - 1]);
      StepKeepsInv(Run(s, actions[..|actions| - 1]), actions[|actions| - 1]);
      StepKeepsFrozen(Run(s, actions[..|actions| - 1]), actions[|actions| - 1]);
    }
  }

  /**
   With handlers taken whole, the hash check never fails: an approval that meets
   its revision applies it, over every run, unless the database fails.
   */
  lemma ApprovalsPassTheHashCheck(s: State, actions: seq<Action>, d: Decision, now: int)
    requires Initial(s) && Decidable(Run(s, actions), d)
    ensures StillHashes(Run(s, actions), d)
    ensures d.verdict == Approve ==>
      Step(Run(s, actions), RevisionReviewed(d, Works, now)) == ApplyRevision(Run(s, actions), d, now)
  {
    hide Run, Inv, Step, ContentHashOf, ApplyRevision, IsFrozen, Decidable, StillHashes;
    RunKeepsFrozen(s, actions);
    FrozenStillHashes(Run(s, actions), d);
    if d.verdict == Approve { ApproveApplies(Run(s, actions), d, now); }
  }

  lemma FrozenStillHashes(s: State, d: Decision)
    requires IsFrozen(s) && Decidable(s, d)
    ensures StillHashes(s, d)
  {
    hide ContentHashOf;
    assert InReview(s.revisions, d.revision);
  }

  lemma ApproveApplies(s: State, d: Decision, now: int)
    requires Decidable(s, d) && StillHashes(s, d) && d.verdict == Approve
    ensures Step(s, RevisionReviewed(d, Works, now)) == ApplyRevision(s, d, now)
  {
    hide ContentHashOf, ApplyRevision, StillHashes, Decidable;
    hide StepEdit, StepSubmit, StepArchive, StepRestore, StepWithdraw, StepCourseReviewed;
  }
}
