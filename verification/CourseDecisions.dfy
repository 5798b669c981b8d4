/** What a decision does when it is delivered twice, late, or after the revision has moved on. */
module CourseDecisions {
  import opened Options
  import opened CourseRows
  import opened Staging
  import opened ContentHash
  import opened RevisionDiff
  import opened CourseLifecycle
  import opened CourseInvariants
  import opened CourseRuns

  function Deliver(d: Decision, now: int): Action {
    RevisionReviewed(d, Works, now)
  }

  // ---- Decisions on revisions -----------------------------------------------

  lemma ActedOn(s: State, d: Decision, now: int)
    requires Decidable(s, d)
    ensures var t := Step(s, Deliver(d, now));
      d.revision in t.revisions && t.revisions[d.revision].status in {Open, Accepted, CourseLifecycle.Rejected}
  {
    hide ContentHashOf, DiffOf, Applied, Discarded;
  }

  /** A delivered decision changes something exactly when its revision is with the officer under the hash decided on. */
  lemma DecisionActsExactlyWhenDecidable(s: State, d: Decision, now: int)
    ensures Step(s, Deliver(d, now)) != s <==> Decidable(s, d)
  {
    hide ContentHashOf, DiffOf, Applied, Discarded;
    if Decidable(s, d) {
      ActedOn(s, d, now);
    }
  }

  /** Delivering an acted-on decision once more, at once, changes nothing. */
  lemma ImmediateRedeliveryIsInert(s: State, d: Decision, now: int, later: int)
    ensures Step(Step(s, Deliver(d, now)), Deliver(d, later)) == Step(s, Deliver(d, now))
  {
    DecisionActsExactlyWhenDecidable(s, d, now);
    DecisionActsExactlyWhenDecidable(Step(s, Deliver(d, now)), d, later);
    DecisionActsExactlyWhenDecidable(s, d, later);
    if Decidable(s, d) { ActedOn(s, d, now); }
  }

  lemma {:induction false} RunKeepsEndedRevision(s: State, actions: seq<Action>, r: Id)
    requires Inv(s) && r in s.revisions && !IsOpen(s.revisions[r].status)
    ensures r in Run(s, actions).revisions && Run(s, actions).revisions[r] == s.revisions[r]
  {
    if actions != [] {
      var front := actions[..|actions| - 1];
      RunKeepsEndedRevision(s, front, r);
      RunKeepsInv(s, front);
      StepKeepsEndedRevisions(Run(s, front), actions[|actions| - 1]);
    }
  }

  /** Once a revision has ended, no decision on it has any effect, however much later it arrives. */
  lemma EndedRevisionsIgnoreDecisions(s: State, actions: seq<Action>, d: Decision, now: int)
    requires Inv(s) && d.revision in s.revisions && !IsOpen(s.revisions[d.revision].status)
    ensures Step(Run(s, actions), Deliver(d, now)) == Run(s, actions)
  {
    RunKeepsEndedRevision(s, actions, d.revision);
    DecisionActsExactlyWhenDecidable(Run(s, actions), d, now);
  }

  /** Does the last of these actions submit the decided revision with the decided hash again? */
  predicate Resubmits(s: State, a: Action, d: Decision) {
    && a.SubmitRevision? && SubmittedRevision(s, a.assessments) == Some(d.revision)
    && Some(EntryOf(s, a.assessments.value, a.major, d.revision).submission.hash) == d.hash
  }

  ghost predicate ResubmittedWithin(s: State, actions: seq<Action>, d: Decision) {
    exists i | 0 <= i < |actions| :: Resubmits(Run(s, actions[..i]), actions[i], d)
  }

  predicate AwaitsDecision(s: State, d: Decision) {
    InReview(s.revisions, d.revision) && s.revisions[d.revision].submission.Some? && Some(s.revisions[d.revision].submission.value.hash) == d.hash
  }

  lemma OneMoreAction(s: State, actions: seq<Action>, d: Decision)
    requires actions != []
    ensures ResubmittedWithin(s, actions[..|actions| - 1], d) ==> ResubmittedWithin(s, actions, d)
    ensures Resubmits(Run(s, actions[..|actions| - 1]), actions[|actions| - 1], d) ==> ResubmittedWithin(s, actions, d)
  {
    hide Resubmits, Run;
    var front := actions[..|actions| - 1];
    if ResubmittedWithin(s, front, d) {
      var i :| 0 <= i < |front| && Resubmits(Run(s, front[..i]), front[i], d);
      assert front[..i] == actions[..i] && front[i] == actions[i];
    }
  }

  lemma {:induction false} AwaitsOnlyAfterResubmission(s: State, actions: seq<Action>, d: Decision)
    requires Inv(s) && !AwaitsDecision(s, d)
    ensures AwaitsDecision(Run(s, actions), d) ==> ResubmittedWithin(s, actions, d)
  {
    if actions != [] && AwaitsDecision(Run(s, actions), d) {
      var front, a := actions[..|actions| - 1], actions[|actions| - 1];
      AwaitsOnlyAfterResubmission(s, front, d);
      RunKeepsInv(s, front);
      OneMoreAction(s, actions, d);
      ReviewCarries(Run(s, front), a, d.revision);
      hide Step, Inv, ResubmittedWithin;
    }
  }

  /** A decision acted on once acts again only if the same revision was submitted again with the very same hash. */
  lemma RedeliveryActsOnlyAfterSameResubmission(s: State, d: Decision, now: int, actions: seq<Action>, later: int)
    requires Inv(s) && Decidable(s, d)
    ensures var t := Step(s, Deliver(d, now));
      Step(Run(t, actions), Deliver(d, later)) != Run(t, actions) ==> ResubmittedWithin(t, actions, d)
  {
    var t := Step(s, Deliver(d, now));
    ActedOn(s, d, now);
    StepKeepsInv(s, Deliver(d, now));
    hide Inv, Step, ResubmittedWithin, Run;
    DecisionActsExactlyWhenDecidable(Run(t, actions), d, later);
    AwaitsOnlyAfterResubmission(t, actions, d);
  }

  // ---- A sent-back revision, submitted again unchanged ----------------------

  /** Coaching sends the revision back to the educator and touches nothing else. */
  lemma CoachSendsBack(s: State, d: Decision, now: int)
    requires Decidable(s, d) && d.verdict == Coach
    ensures Step(s, Deliver(d, now)) == WithStatus(s, d.revision, Open)
  {
    hide ContentHashOf, DiffOf, Applied, Discarded;
  }

  /**
   The counterpart of the lemma above, so redelivery is not harmless in general:
   a coached revision that is submitted again unchanged is sent back a second
   time by the same decision.
   */
  lemma CoachRedeliveredActsAgain(s: State, d: Decision, now: int, major: bool)
    requires Inv(s) && Decidable(s, d) && d.verdict == Coach && StillHashes(s, d) && !s.institution
    requires !IsEmpty(DiffOf(s.rows, s.revisions[d.revision].submission.value.assessments)) && MergedIsValid(s.rows)
    ensures var resubmit := SubmitRevision(Some(s.revisions[d.revision].submission.value.assessments), major);
      var t := Run(s, [Deliver(d, now), resubmit]);
      Step(t, Deliver(d, now)) != t
  {
    hide Inv, DiffOf, IsEmpty, MergedIsValid, ContentHashOf, Run, SubmittedRevision;
    var assessments := s.revisions[d.revision].submission.value.assessments;
    var resubmit := SubmitRevision(Some(assessments), major);
    var coached := Step(s, Deliver(d, now));
    StepKeepsInv(s, Deliver(d, now));
    CoachSendsBack(s, d, now);
    OneOpen(s, d.revision);
    assert OpenAmong(coached.revisions, d.revision);
    OneOpen(coached, d.revision);
    SubmitsTheOpenOne(coached, assessments, d.revision);
    SubmitFreezes(coached, Some(assessments), major, d.revision);
    SubmitStep(coached, Some(assessments), major);
    RunOfTwo(s, Deliver(d, now), resubmit);
    hide Step;
    AtOfficerAfterSubmit(coached, Some(assessments), major, d.revision);
    DecisionActsExactlyWhenDecidable(Run(s, [Deliver(d, now), resubmit]), d, now);
  }

  lemma SubmitsTheOpenOne(s: State, assessments: seq<string>, r: Id)
    requires OpenRevision(s) == Some(r) && s.revisions[r].status == Open && IsLive(s.status)
    requires !IsEmpty(DiffOf(s.rows, assessments)) && MergedIsValid(s.rows)
    ensures SubmittedRevision(s, Some(assessments)) == Some(r)
  {
    hide DiffOf, IsEmpty, MergedIsValid, OpenRevision;
  }

  lemma AtOfficerAfterSubmit(s: State, assessments: Option<seq<string>>, major: bool, r: Id)
    requires SubmittedRevision(s, assessments) == Some(r) && !s.institution
    ensures r in StepSubmitRevision(s, assessments, major).revisions && StepSubmitRevision(s, assessments, major).revisions[r].status == AtOfficer
  {
    hide DiffOf, IsEmpty, MergedIsValid, ContentHashOf;
  }

  lemma RunOfTwo(s: State, a: Action, b: Action)
    ensures Run(s, [a, b]) == Step(Step(s, a), b)
  {
    hide Step;
    assert [a, b][..1] == [a] && [a][..0] == [];
    assert Run(s, [a]) == Step(Run(s, []), a);
  }
}
