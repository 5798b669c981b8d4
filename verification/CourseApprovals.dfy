/**
 What an officer's approval of a course publishes. It names no submission, so it
 publishes whatever was handed to review last: main results
 ReviewHoldsLastHandover, and exactly when that is the version the approval was
 given for (ApprovalPublishesItsVersionExactly).
 */
module CourseApprovals {
  import opened Staging
  import opened StagedEdits
  import opened RevisionDiff
  import opened CourseLifecycle
  import opened CourseInvariants
  import opened CoursePublication

  /** In review or flagged: neither the educator's nor the learners'. */
  predicate IsHeld(status: Status) {
    status !in {Draft, Archived} && !IsLive(status)
  }

  /** Statuses in which an approval acts. */
  predicate AwaitsApproval(status: Status) {
    status in {CourseLifecycle.Submitted, UnderReview, Flagged}
  }

  /** A submit that goes through, or the flagging of a live course. */
  predicate HandsOver(s: State, a: Action) {
    || (a == Submit && s.status == Draft && Step(s, a).status != Draft)
    || (a.CourseReviewed? && a.verdict == FlagCourse && IsLive(s.status))
  }

  predicate HandsOverAt(s: State, actions: seq<Action>, i: nat)
    requires i < |actions|
  {
    HandsOver(Run(s, actions[..i]), actions[i])
  }

  /** Action `i` handed the course over, and none after it did. */
  ghost predicate LastHandover(s: State, actions: seq<Action>, i: nat) {
    i < |actions| && HandsOverAt(s, actions, i) && forall j: nat :: i < j < |actions| ==> !HandsOverAt(s, actions, j)
  }

  // ---- One step -------------------------------------------------------------

  lemma RevisionsHandNothingOver(s: State, a: Action)
    requires IsAboutRevision(a)
    ensures Step(s, a).status == s.status
  {
    RevisionsKeepStatus(s, a);
  }

  /** A course comes to be held by a handover and in no other way. */
  lemma OnlyHandoversHold(s: State, a: Action)
    requires !IsHeld(s.status) && IsHeld(Step(s, a).status)
    ensures HandsOver(s, a)
  {
    if IsAboutRevision(a) {
      RevisionsHandNothingOver(s, a);
    } else {
      hide CloseOpenRevision, Folded, MaySubmit, EditGate, Edit1, TargetExists, StepArchive;
      hide StepSubmitRevision, StepWithdrawRevision, StepDiscardRevision, StepInstitutionDecideRevision, StepRevisionReviewed;
      match a
      case DoEdit(e) => GateIsQuiet(s, OpensRevision(e));
      case CourseReviewed(_, _) => ClosingIsQuiet(s.(status := Flagged));
      case ArchiveOwn => ArchiveKeepsDate(s);
      case AdminArchive => ArchiveKeepsDate(s);
      case _ =>
    }
  }

  /** Flagging takes the course as it is. */
  lemma FlaggingKeepsRows(s: State, now: int)
    ensures Step(s, CourseReviewed(FlagCourse, now)).rows == s.rows
  {
    hide OpenRevision;
  }

  lemma ApprovalActs(s: State, now: int)
    ensures Step(s, CourseReviewed(ApproveCourse, now)) != s <==> AwaitsApproval(s.status)
    ensures AwaitsApproval(s.status) ==> Step(s, CourseReviewed(ApproveCourse, now)).status == Published
    ensures Step(s, CourseReviewed(ApproveCourse, now)).rows == s.rows
  {
  }

  // ---- Over every run -------------------------------------------------------

  lemma LastHandoverLater(s: State, actions: seq<Action>, i: nat)
    requires actions != [] && LastHandover(s, actions[..|actions| - 1], i)
    requires !HandsOverAt(s, actions, |actions| - 1)
    ensures LastHandover(s, actions, i) && actions[..|actions| - 1][..i + 1] == actions[..i + 1]
  {
    hide HandsOver, Run;
    var front := actions[..|actions| - 1];
    assert front[..i] == actions[..i] && front[..i + 1] == actions[..i + 1];
    forall j: nat | i < j < |actions| ensures !HandsOverAt(s, actions, j) {
      if j < |front| {
        assert front[..j] == actions[..j];
        assert !HandsOverAt(s, front, j);
      }
    }
  }

  /** A course that is held has the rows of its last handover, whatever happened before and since. */
  lemma {:induction false} ReviewHoldsLastHandover(s: State, actions: seq<Action>) returns (i: nat)
    requires Initial(s) && IsHeld(Run(s, actions).status)
    ensures LastHandover(s, actions, i) && Run(s, actions).rows == Run(s, actions[..i + 1]).rows
  {
    hide Step, HandsOver, Inv, RowsOk;
    var n := |actions| - 1;
    var front := actions[..n];
    var before := Run(s, front);
    assert actions[..|actions|] == actions;
    if IsHeld(before.status) {
      i := ReviewHoldsLastHandover(s, front);
      InitialInv(s);
      RunKeepsInv(s, front);
      HeldIsNotHandedOver(before, actions[n]);
      ReviewFreezesRows(before, actions[n]);
      LastHandoverLater(s, actions, i);
    } else {
      OnlyHandoversHold(before, actions[n]);
      i := n;
    }
  }

  lemma HeldIsNotHandedOver(s: State, a: Action)
    requires IsHeld(s.status)
    ensures !HandsOver(s, a)
  {
  }

  lemma HandoverWithin(s: State, earlier: seq<Action>, later: seq<Action>, i: nat)
    requires LastHandover(s, earlier + later, i) && i < |earlier|
    ensures LastHandover(s, earlier, i) && earlier[..i + 1] == (earlier + later)[..i + 1]
  {
    hide HandsOver, Run;
    var all := earlier + later;
    assert earlier[..i] == all[..i] && earlier[..i + 1] == all[..i + 1];
    forall j: nat | i < j < |earlier| ensures !HandsOverAt(s, earlier, j) {
      assert earlier[..j] == all[..j];
      assert !HandsOverAt(s, all, j);
    }
  }

  lemma OneLastHandover(s: State, actions: seq<Action>, i: nat, j: nat)
    requires LastHandover(s, actions, i) && LastHandover(s, actions, j)
    ensures i == j
  {
    hide HandsOverAt;
  }

  /**
   An approval given for the version held after `earlier` and delivered after
   `later`, when it acts, publishes that version if and only if the course was
   not handed over again in between, or the last time with the very same rows.
   */
  lemma ApprovalPublishesItsVersionExactly(s: State, earlier: seq<Action>, later: seq<Action>, now: int)
    requires Initial(s) && AwaitsApproval(Run(s, earlier).status) && AwaitsApproval(Run(s, earlier + later).status)
    ensures var given := Run(s, earlier).rows;
      var published := Step(Run(s, earlier + later), CourseReviewed(ApproveCourse, now));
      && published.status == Published
      && (published.rows == given <==>
            forall i: nat :: |earlier| <= i && LastHandover(s, earlier + later, i) ==> Run(s, (earlier + later)[..i + 1]).rows == given)
  {
    hide Run, Step, LastHandover, Initial;
    var all := earlier + later;
    ApprovalActs(Run(s, all), now);
    var i := ReviewHoldsLastHandover(s, all);
    forall j: nat | LastHandover(s, all, j) ensures j == i {
      OneLastHandover(s, all, i, j);
    }
    if i < |earlier| {
      var k := ReviewHoldsLastHandover(s, earlier);
      HandoverWithin(s, earlier, later, i);
      OneLastHandover(s, earlier, i, k);
    }
  }

  /** So an approval of a live course that was flagged publishes the rows it was flagged with. */
  lemma FlaggedRowsAreHeld(s: State, actions: seq<Action>, i: nat)
    requires Initial(s) && IsHeld(Run(s, actions).status)
    requires LastHandover(s, actions, i) && actions[i] != Submit
    ensures Run(s, actions).rows == Run(s, actions[..i]).rows
  {
    RunOfPrefix(s, actions, i);
    hide Run, LastHandover, Initial, Step;
    var k := ReviewHoldsLastHandover(s, actions);
    OneLastHandover(s, actions, i, k);
    FlaggingKeepsRows(Run(s, actions[..i]), actions[i].now);
  }

  lemma RunOfPrefix(s: State, actions: seq<Action>, i: nat)
    requires LastHandover(s, actions, i) && actions[i] != Submit
    ensures i < |actions| && actions[i].CourseReviewed? && actions[i].verdict == FlagCourse
    ensures Run(s, actions[..i + 1]) == Step(Run(s, actions[..i]), actions[i])
  {
    hide Step;
    assert actions[..i + 1][..i] == actions[..i];
  }
}
