/**
 The prices a course can hold. A request brings no price or a number of at least
 one, and no step makes up another, so that on every state a course can reach
 the rules for staged changes and those for a first submission are the same.
 */
module CoursePrices {
  import opened Options
  import opened CourseRows
  import opened Staging
  import opened StagedEdits
  import opened RevisionDiff
  import opened DiffTheorems
  import opened ContentHash
  import opened CourseLifecycle
  import opened CourseInvariants

  /** No price, or a numeral of at least one. */
  predicate PriceFits(v: Val) {
    v == Null || (NormPrice(v).Some? && NormPrice(v).value >= 1.0)
  }

  predicate PricesFit(course: Fields, pending: Option<Fields>) {
    && PriceFits(Get(course, Price))
    && (Price in Overrides(pending) ==> PriceFits(Overrides(pending)[Price]))
  }

  /** What a request may bring: the input check lets no other price through. */
  predicate IsReceivable(a: Action) {
    a.DoEdit? && a.edit.EditCourse? && Price in a.edit.changes ==> PriceFits(a.edit.changes[Price])
  }

  // ---- Edits ----------------------------------------------------------------

  lemma {:induction false} InsertsKeepPrices(staged: bool, inputs: seq<SectionInput>, order: int, r: Rows, next: Id)
    ensures var q := InsertSections(staged, inputs, order, r, next).rows; q.course == r.course && q.pending == r.pending
    decreases |inputs|
  {
    if inputs != [] {
      var row := Section(order, NewSectionFields(inputs[0].fields), MarkFor(staged), None);
      LessonInsertsKeepPrices(staged, inputs[0].lessons, next, 0, PutSection(r, next, row), next + 1);
      hide InsertLessons;
      var first := InsertSection(staged, inputs[0], order, r, next);
      InsertsKeepPrices(staged, inputs[1..], order + 1, first.rows, first.next);
    }
  }

  lemma {:induction false} LessonInsertsKeepPrices(staged: bool, inputs: seq<Fields>, section: Id, order: int, r: Rows, next: Id)
    ensures var q := InsertLessons(staged, inputs, section, order, r, next).rows; q.course == r.course && q.pending == r.pending
    decreases |inputs|
  {
    if inputs != [] {
      var row := Lesson(section, order, NewLessonFields(inputs[0]), MarkFor(staged), None);
      LessonInsertsKeepPrices(staged, inputs[1..], section, order + 1, PutLesson(r, next, row), next + 1);
    }
  }

  lemma MetadataKeepsPrices(changes: Fields, course: Fields, pending: Option<Fields>)
    requires PricesFit(course, pending) && (Price in changes ==> PriceFits(changes[Price]))
    ensures PricesFit(course + Only(COURSE_FIELDS, changes), pending)
    ensures PricesFit(course, StageFields(course, pending, Only(COURSE_FIELDS, changes)))
  {
    hide PriceFits;
  }

  lemma EditKeepsPrices(staged: bool, e: Edit, r: Rows, next: Id)
    requires PricesFit(r.course, r.pending) && IsReceivable(DoEdit(e)) && Edit1(staged, e, r, next).Some?
    ensures var q := Edit1(staged, e, r, next).value.rows; PricesFit(q.course, q.pending)
  {
    hide PricesFit, PriceFits, InsertSections, EditedSection, EditedLesson, StageFields, Only, NewLessonFields;
    match e
    case EditCourse(changes) => MetadataKeepsPrices(changes, r.course, r.pending);
    case AddSections(inputs) => InsertsKeepPrices(staged, inputs, |r.sections|, r, next);
    case _ =>
  }

  // ---- Every step -----------------------------------------------------------

  /** Applying, discarding and folding take prices from where they are. */
  lemma SettlingKeepsPrices(r: Rows)
    requires PricesFit(r.course, r.pending)
    ensures PricesFit(Applied(r).course, Applied(r).pending) && PricesFit(Discarded(r).course, Discarded(r).pending)
    ensures PricesFit(Folded(r).course, Folded(r).pending)
  {
    hide PriceFits, HasStaged;
  }

  lemma EditStepKeepsPrices(s: State, e: Edit)
    requires PricesFit(s.rows.course, s.rows.pending) && IsReceivable(DoEdit(e))
    ensures PricesFit(StepEdit(s, e).rows.course, StepEdit(s, e).rows.pending)
  {
    hide PricesFit, IsReceivable, Edit1, Folded, TargetExists, OpenRevision;
    SettlingKeepsPrices(s.rows);
    var gate := EditGate(s, OpensRevision(e));
    if Edit1(gate.Staged?, e, gate.after.rows, gate.after.next).Some? {
      EditKeepsPrices(gate.Staged?, e, gate.after.rows, gate.after.next);
    }
  }

  /** A step that is not an edit leaves the rows, or applies, discards or folds them. */
  lemma RowsSettle(s: State, a: Action)
    requires !a.DoEdit?
    ensures Step(s, a).rows in {s.rows, Applied(s.rows), Discarded(s.rows), Folded(s.rows)}
  {
    hide Applied, Discarded, Folded, MaySubmit, OpenRevision, SubmittedRevision, Decidable, StillHashes, DiffOf, ContentHashOf, HasStaged;
    hide AddedLessonIds, ReplacedVideoIds, Get, Merged;
  }

  lemma StepKeepsPrices(s: State, a: Action)
    requires PricesFit(s.rows.course, s.rows.pending) && IsReceivable(a)
    ensures PricesFit(Step(s, a).rows.course, Step(s, a).rows.pending)
  {
    hide PricesFit, StepEdit, Applied, Discarded, Folded;
    if a.DoEdit? {
      EditStepKeepsPrices(s, a.edit);
    } else {
      hide Step;
      RowsSettle(s, a);
      SettlingKeepsPrices(s.rows);
    }
  }

  lemma {:induction false} RunKeepsPrices(s: State, actions: seq<Action>)
    requires PricesFit(s.rows.course, s.rows.pending) && forall i :: 0 <= i < |actions| ==> IsReceivable(actions[i])
    ensures PricesFit(Run(s, actions).rows.course, Run(s, actions).rows.pending)
  {
    hide PricesFit, Step, IsReceivable;
    if actions != [] {
      RunKeepsPrices(s, actions[..|actions| - 1]);
      StepKeepsPrices(Run(s, actions[..|actions| - 1]), actions[|actions| - 1]);
    }
  }

  // ---- The two sets of rules ------------------------------------------------

  lemma FittingPrice(course: Fields, pending: Option<Fields>)
    requires PricesFit(course, pending)
    ensures var price := Get(Merged(course, pending), Price); Truthy(price) <==> PriceIsPositive(price)
  {
  }

  /**
   On every state a course can reach, staged changes pass the merge rules if and
   only if the course they produce passes the rules of a first submission.
   */
  lemma MergeRulesAreSubmissionRules(s: State, actions: seq<Action>)
    requires Initial(s) && PricesFit(s.rows.course, s.rows.pending)
    requires forall i :: 0 <= i < |actions| ==> IsReceivable(actions[i])
    ensures var r := Run(s, actions).rows; MergedIsValid(r) <==> MaySubmit(Applied(r))
  {
    hide Run, IsReceivable, PricesFit, PriceIsPositive, SomeSectionStays, SomeLessonStays, SomePreviewStays, SomeLesson, SomePreview;
    var r := Run(s, actions).rows;
    InitialInv(s);
    RunKeepsInv(s, actions);
    RunKeepsPrices(s, actions);
    FittingPrice(r.course, r.pending);
    RowsAreWellFormed(Run(s, actions));
    ValidMergeIsSubmittable(r);
    AppliedCourse(r);
    hide Applied, Merged, Get, Inv;
  }

  lemma AppliedCourse(r: Rows)
    ensures Applied(r).course == Merged(r.course, r.pending)
  {
  }

  lemma RowsAreWellFormed(s: State)
    requires Inv(s)
    ensures WellFormed(s.rows)
  {
  }
}
