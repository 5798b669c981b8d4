# A verified model of the course platform

Dafny models of the parts of the platform where a mistake would be hardest to see, with proofs of what they promise.

| part | files |
|---|---|
| Staged revisions of a live course: rows, edits, apply and discard, diff, content hash, the course's life under every run, the service object | `CourseRows`, `Staging`, `StagedEdits`, `RevisionDiff`, `DiffTheorems`, `CanonicalJson`, `Listing`, `ContentHash`, `HashOutcome`, `CourseLifecycle`, `CourseInvariants`, `CourseRuns`, `CourseDecisions`, `CoursePublication`, `CourseApprovals`, `CoursePrices`, `CourseSample`, `CourseHandlers`, `CourseCopy` |
| Document digest and offline outline | `Texts`, `DigestText`, `DigestBudget`, `Digest`, `OutlineRoundTrip`, `OfflineOutline`, `OutlineGroups`, `OutlineChapters` |
| Word diff | `WordDiff` |
| Resumable upload | `MultipartLayout`, `UploadMachine`, `UploadGuarantees` |
| Refresh tokens | `RefreshTokens` |
| Note chunker | `ChunkText` |

`dafny verify dfyconfig.toml` checks the project; no proof needs a special flag or limit.

## How the models read

* **A course** is one aggregate: its live columns, `pending` overrides, `added`/`removed` markers, tutor notes by title, revision rows and outbox. A step is one request, one event delivery or one transaction, taken whole; decisions may be delivered any number of times, in any order, at any time. Fresh ids come from a counter. What learners are served is `LiveContent`, what the educator sees is `WorkingContent`.
* **The content hash** is the canonical JSON text itself: SHA-256 is taken to be injective on the texts it is given. A number is given by the numeral it prints as and a date by its text; strings hold no lone surrogates, so section 7 of RFC 8259 decides how they print. Names are sorted by one fixed total order where the service sorts by locale or by code unit.
* **Prices** are the decimal numerals a numeric column returns. What requests may bring is part of the statements about prices only: none, or a numeral of at least 1.
* **The database** during a decision works, fails until the approval is handed back, or is down throughout; an approval handed back is the outbox entry `RevisionReturned`.
* **Texts with a length** (digest, word diff, chunker, outline) are sequences of UTF-16 code units, as in JavaScript. A document reaches the digest as lines, each marked as a table-of-contents entry or not, and headings with their places.
* **An upload** is every run ever started, each going on when what it waits for arrives; a run whose token was stopped only lets go of its request. The sessions it worked on live on the server with the number of complete requests that were never answered; any of these may be carried out later, in two steps (the storage puts the file together, then the session is marked), whether or not the browser still waits. How often a run tries again is left to what it hears.
* **Redis** keys carry the second at which they expire; a handler is one step.

Where the same operation is both a method and a function, the method's contract ties it to the function, and the lemmas are about the function: `CourseHandlers.CourseService`, `UploadMachine.ResumableUpload` and `RefreshTokens.AuthSessions` are proved to take exactly the steps whose runs the theorems are about.

## Where the code and its promises part

Beside each of these, the exact condition under which the promise holds is proved; all but the last but one also have an example as a lemma.

* A decision on a revision is not harmless when it is delivered again after the same revision was coached and submitted again unchanged: the hash is the same, so it acts again (`CourseDecisions`).
* A flagged course that was never approved goes live without a publication date and without `CoursePublished` when an administrator restores or unlists it (`CoursePublication`).
* First approvals name no submission, so a late one publishes later edits (`CoursePublication`); it publishes the version it was given for exactly when nothing was handed to review since, or last the very same rows (`CourseApprovals`).
* An upload cancelled before it is started can be started, and then succeeds; a session found complete in a resume record can be cancelled before its status is read; and an upload whose complete request lost its connection can be cancelled once the server reports the session gone, although that request may still complete and attach it (`UploadGuarantees`).
* The number of sessions that signing out everywhere reports also counts tokens that have expired (`RefreshTokens`).
* Logging out with a token that was rotated twice leaves the login its live token (`RefreshTokens`).
* A digest of lines without any text is said to be truncated when little room is left (`Digest.Render`, whose contract is exact).
* A heading whose title is untrimmed, has a line break, begins with markdown marks or is the excerpts' header is not read back (`OutlineRoundTrip`).

## Model

| member | source | states |
|---|---|---|
| CourseRuns.OnlySubmittedContentGoesLive | api/services/course/src/revision.service.ts:339-400 | over every run from a new course, when the content learners see of a live course changes, the step is an approval, a submission of that revision with exactly the approval's hash is on record, and what went live is the merged content at every such submission |
| CourseSample.RevisionGoesLive | api/services/course/src/revision.service.ts:339-400 | such a change does occur: from a new course to an approved revision in five steps |
| CourseRuns.StepKeepsLiveContent | api/services/course/src/revision.service.ts:339-400 | one step: live content of a live course changes only by an approved, still decidable revision whose rows still hash to the frozen hash, and then becomes the working copy |
| CourseRuns.StepKeepsBase | api/services/course/src/course.service.ts:397-413 | as long as a revision stays open, no step changes what a discard would restore, nor moves a row that is known by its id |
| CourseRuns.StepKeepsEndedRevisions | api/services/course/src/course.service.ts:1001-1011 | an applied, rejected, discarded or withdrawn revision row never changes again, revision rows are never removed, and new ones get new ids |
| CourseRuns.StepCarriesReview | api/services/course/src/revision.service.ts:231-246 | apart from a submit, no step puts a revision into review or changes what was frozen there |
| CourseRuns.HistoryOk | api/services/course/src/revision.service.ts:169-190 | every revision in review has a submission on record that was made over the same live rows it is still over |
| CourseRuns.ApprovalsPassTheHashCheck | api/services/course/src/revision.service.ts:339-400 | with handlers taken whole, over every run: an approval that meets its revision finds the rows it was given for, so the hash check never sends it back |
| CourseDecisions.DecisionActsExactlyWhenDecidable | api/services/course/src/revision.service.ts:521-523 | a delivered decision changes something if and only if the revision of this course is with the officer under the hash decided on |
| CourseDecisions.ImmediateRedeliveryIsInert | api/services/course/src/revision.service.ts:339-400 | delivering any decision twice in a row is delivering it once |
| CourseDecisions.EndedRevisionsIgnoreDecisions | api/services/course/src/revision.service.ts:521-534 | once a revision has ended, a decision on it changes nothing, however many steps later it arrives |
| CourseDecisions.RedeliveryActsOnlyAfterSameResubmission | api/services/course/src/revision.service.ts:455-476 | a decision that was acted on acts again later only if the same revision was submitted again in between with the very same hash |
| CourseDecisions.CoachRedeliveredActsAgain | api/services/course/src/revision.service.ts:455-476 | and then it does: a coached revision submitted again unchanged is sent back a second time by the same coach decision |
| CourseSample.CoachedTwice | api/services/course/src/revision.service.ts:455-476 | a run from a new course in which this happens |
| CoursePublication.LifecycleInvariant | api/services/course/src/course.service.ts:200-320 | over every run: a draft has nothing staged, at most one revision is open and only while the course is live, CoursePublished is emitted at most once, and CourseRevisionClosed exactly once for each applied, rejected or discarded revision, with that outcome, and otherwise never |
| CoursePublication.RunKeepsPublishedAt | api/services/course/src/course.service.ts:211-228 | once set, the publication date never changes |
| CoursePublication.OnlyBypassesEscapeAnnouncement | api/services/course/src/course.service.ts:1071-1098 | a step keeps "live means dated and announced once" if and only if it is not an administrator unlisting or restoring a flagged course that was never approved |
| CoursePublication.RunsAnnounce | api/services/course/src/course.service.ts:200-320 | over every run without such a step, a live course has its date and exactly one CoursePublished |
| CoursePublication.FlaggedCourseGoesLiveUnannounced | api/services/course/src/course.service.ts:1071-1098 | submit, flag, administrator restore: the course is published with no date and no announcement |
| CourseApprovals.ReviewHoldsLastHandover | api/services/course/src/course.service.ts:200-242 | over every run from a new course: a course in review or flagged has the rows of its last handover, which is a submit that went through or the flagging of a live course |
| CourseApprovals.ApprovalPublishesItsVersionExactly | api/services/course/src/course.service.ts:200-242 | an approval that acts publishes the version it was given for if and only if nothing was handed over since, or the last handover had the very same rows |
| CourseApprovals.FlaggedRowsAreHeld | api/services/course/src/course.service.ts:200-275 | a course flagged while live keeps the rows it was flagged with until an approval publishes them again |
| CoursePublication.LateApprovalPublishesLaterEdits | api/services/course/src/course.service.ts:200-211 | first approvals carry no hash: one given for a first version publishes what was submitted after a withdraw and an edit |
| CourseInvariants.StepKeepsInv | api/services/course/src/course.service.ts:397-446 | every request, delivery and transaction keeps the invariant behind these statements (rows well-formed and tidy, one open revision, frozen submissions, closing and publishing counted) |
| CourseInvariants.RunKeepsInv | api/services/course/src/course.service.ts:397-446 | the same over every run |
| CourseInvariants.DirectEditKeepsDraft | api/services/course/src/course.service.ts:448-675 | an edit of a draft stages nothing |
| Staging.ApplyPublishesWorkingCopy | api/services/course/src/staging.ts:57-116 | after an apply the live tree is the merged tree without removed rows and nothing is staged |
| Staging.DiscardKeepsLiveContent | api/services/course/src/staging.ts:119-137 | a discard leaves the live tree as it was and nothing staged |
| Staging.NothingStaged | api/services/course/src/staging.ts:41-54 | with nothing staged the working copy is the live content and a discard changes no row |
| Staging.CourseTables.ApplyStagedState | api/services/course/src/staging.ts:57-116 | row by row, with lessons deleted before their sections, the tables become the applied rows |
| Staging.CourseTables.DiscardStagedState | api/services/course/src/staging.ts:119-137 | likewise the discarded rows |
| StagedEdits.DiscardUndoesEditing | api/services/course/src/course.service.ts:448-675 | from a clean live course, any finite run of staged edits that removes no live note changes nothing learners see, and a discard restores every row exactly |
| StagedEdits.StagedEditKeepsBase | api/services/course/src/course.service.ts:448-675 | every single staged edit keeps what a discard would restore, keeps rows well-formed and tidy, and gives new rows new ids |
| StagedEdits.BaseFixesLiveContent | api/services/course/src/course.service.ts:1263-1305 | what a discard would restore determines what learners see |
| CourseRows.StageFieldsLoop | api/services/course/src/course.service.ts:91-101 | the loop over changed keys computes the new overrides: a value back at its live one is no longer staged |
| CourseRows.StagingMerges | api/services/course/src/course.service.ts:91-101 | staging changes alters the working copy by exactly these changes |
| CourseRows.StagingIsMinimal | api/services/course/src/course.service.ts:91-101 | overrides never hold a value equal to the live one, and no empty set of them is kept |
| CourseRows.MinimalMeansChanged | api/services/course/src/staging.ts:41-54 | hence a row has overrides if and only if its working copy differs |
| CanonicalJson.CanonicalTextIsMeaning | api/services/course/src/revision-diff.ts:414-425 | two JSON values have the same canonical text if and only if they mean the same, key order and members without a value aside |
| HashOutcome.HashFixesStaging | api/services/course/src/revision-diff.ts:443-481 | equal hashes come from equal overrides, markers, added rows, note sizes and sets of assessments |
| HashOutcome.HashFixesOutcome | api/services/course/src/revision-diff.ts:443-481 | over the same live rows, equal hashes mean an apply publishes the same course |
| RevisionDiff.ComputeDiff | api/services/course/src/revision-diff.ts:195-286 | the loops over metadata, sections and lessons compute the diff in tree order |
| RevisionDiff.AddSection | api/services/course/src/revision-diff.ts:195-286 | one section's part of the diff, by its marker |
| DiffTheorems.DiffAccountsForApply | api/services/course/src/revision-diff.ts:351-357 | live lessons after an apply are those before, less the removed ids, plus the added ids; removed ids were live and added ids were not |
| DiffTheorems.ChangedListsAreExact | api/services/course/src/revision-diff.ts:195-286 | the changed lists name exactly the rows that stay and differ in a compared column, with the values before and after |
| DiffTheorems.MetaMembers | api/services/course/src/revision-diff.ts:195-215 | the metadata list names exactly the staged columns that differ, prices compared as numbers |
| DiffTheorems.ReplacedVideosAreExact | api/services/course/src/revision-diff.ts:260-286 | a video is reported as replaced exactly when a lesson that stays gets a different, non-empty one |
| DiffTheorems.EmptyDiffChangesNothing | api/services/course/src/revision-diff.ts:288-300 | with no assessments waiting, the diff is empty if and only if an apply changes nothing a reviewer compares and no note waits |
| DiffTheorems.EmptyDiffKeepsPage | api/services/course/src/course.service.ts:1263-1305 | an empty diff means an apply leaves the public course page unchanged |
| DiffTheorems.ValidMergeIsSubmittable | api/services/course/src/revision-diff.ts:396-409 | for any rows: a staged state passes the merge rules if and only if the applied course passes the rules of a first submission and a paid course has a price other than zero |
| CoursePrices.RunKeepsPrices | api/services/course/src/course.service.ts:448-475 | requests bring no price or one of at least 1, and every run keeps stored and staged prices so |
| CoursePrices.MergeRulesAreSubmissionRules | api/services/course/src/course.service.ts:707-718 | hence on every state a course can reach, staged changes pass the merge rules if and only if the applied course passes the rules of a first submission |
| CourseCopy.Duplicate | api/services/course/src/course.service.ts:904-937 | a duplicate holds, under new ids, exactly what an apply would make live, with a title of its own and nothing staged |
| CourseHandlers.CourseService.Handle | api/services/course/src/course.service.ts:200-320 | whatever arrives, the service object takes exactly the model's step and keeps the invariant |
| CourseHandlers.CourseService.ApplyInTransaction | api/services/course/src/revision.service.ts:339-400 | claim, hash check, copy live, dates and events in the order of the transaction are the apply step, or send the revision back when the hash no longer matches |
| CourseHandlers.CourseService.PassEditGate | api/services/course/src/course.service.ts:397-413 | the gate of every content edit: direct on a draft, staged on a live course whose revision is not in review, refused otherwise |
| Digest.BuildDigest | web/src/lib/outline-source.ts:634-648 | for every document and every pair of budgets the digest is within both, its estimate is that of its text, and when it lists headings they are a subsequence of the document's and the text is their outline followed by excerpts; not truncated means all headings are listed and every excerpt is whole (or that the text is the whole document), and truncated means that something is left out, or that the lines hold no text |
| Digest.NextBudgetShrinks | web/src/lib/outline-source.ts:639-644 | a digest over the token budget leads to a smaller character budget, never below a useful one |
| Digest.Render | web/src/lib/outline-source.ts:585-628 | at one budget the digest fits it; truncated, exactly, means not all headings with their whole texts (or not the whole document), or lines without text and little room |
| Digest.RenderEntries | web/src/lib/outline-source.ts:606-617 | under each caption stands an excerpt of that entry's text within its share, and the whole text when nothing is cut |
| Digest.BodyFitsLength | web/src/lib/outline-source.ts:508-533 | the tidied text of an entry is never longer than the length it competes for room with |
| Digest.ExcerptEntries | web/src/lib/outline-source.ts:518-533 | the loops over boundaries give the opening and one entry per heading with text, in order |
| Digest.BodyEndsAtNext | web/src/lib/outline-source.ts:518-533 | a heading's text ends at the first later boundary further down, or with the document |
| DigestBudget.PickedInOrder | web/src/lib/outline-source.ts:483-486 | even picking keeps the order, and the first item |
| DigestBudget.FitOutline | web/src/lib/outline-source.ts:489-499 | the outline block fits its share, is a subsequence of the headings, and is all of them when they fit |
| DigestBudget.Allocate | web/src/lib/outline-source.ts:543-557 | the shares are max-min fair: everybody gets their whole text or the minimum, anybody cut short gets within one character of anybody else; the budget is kept, and used up if anybody is cut short; the pick is the largest for which the minimum fits |
| DigestBudget.ShareOut | web/src/lib/outline-source.ts:543-557 | the loop that shares the pool, shortest first |
| DigestText.EstimateTokens | web/src/lib/outline-source.ts:80-84 | the token estimate, rounded up exactly |
| DigestText.TokensBound | web/src/lib/outline-source.ts:645 | a character costs between a quarter and two thirds of a token |
| DigestText.TrimToSentence | web/src/lib/outline-source.ts:440-451 | a cut is within its limit: a beginning of the text that ends a sentence when that keeps half the limit, and otherwise a beginning with an ellipsis |
| DigestText.ExcerptOf | web/src/lib/outline-source.ts:469-479 | an excerpt is within its limit, whole when it fits, cut once when it is not much longer, and else made of cuts from places that go forward from the start |
| DigestText.WindowExcerpts | web/src/lib/outline-source.ts:560-579 | within the budget: the whole text, or a cut of its opening and numbered windows, each a cut of the rest, from places that go forward; truncated exactly when the text is longer |
| OutlineRoundTrip.NormalizeLevels | web/src/lib/outline-source.ts:393-404 | levels are 1 to 3, start at 1 and never jump by more than one; no heading repeats the one before; the headings keep their order, and only repeated and too deep ones go |
| OutlineRoundTrip.RoundTrip | api/packages/ai/src/index.ts:275-287 | reading a rendered digest gives back exactly its headings and levels if and only if every title is a trimmed non-empty line without markdown marks that is not the excerpts' header |
| OutlineRoundTrip.ExcerptsTitleIsNotReadBack | api/packages/ai/src/index.ts:275-287 | a heading titled like the excerpts' header, among any others, is not |
| OutlineRoundTrip.OutlineHeadings | api/packages/ai/src/index.ts:275-287 | the reading loop computes the outline block's headings |
| OfflineOutline.Clamp | api/packages/ai/src/index.ts:224-236 | the clamp keeps the first 12 good sections and lessons, with one free preview |
| OfflineOutline.ClampIsIdempotent | api/packages/ai/src/index.ts:217-236 | clamping is idempotent, and an outline passes unchanged if and only if it is within the limits |
| OfflineOutline.ClampedIsAcceptable | api/packages/ai/src/index.ts:217-236 | whatever the model sends, what comes out is within the limits |
| OutlineGroups.GroupsPartition | api/packages/ai/src/index.ts:366-369 | the groups are consecutive and together are all chapters, in order |
| OutlineGroups.EveryChapterIsPresent | api/packages/ai/src/index.ts:335-409 | with up to 144 chapters and any requested number of sections, every chapter with a trimmed title of two characters or more is in the outline under its clean name as a section, as a lesson, or through all its topics |
| OutlineGroups.FirstPartTitle | api/packages/ai/src/index.ts:397-409 | a title of at most 148 characters is whole in the name of the first section of a chapter that was split |
| OutlineChapters.PassTitles | api/packages/ai/src/index.ts:343-350 | the loop passes over lone titles: what is left are the headings at or below the new top level, and no lone title is among them |
| OutlineChapters.FindChapters | api/packages/ai/src/index.ts:351-361 | the loop over headings makes a chapter of each at the top level, with the headings directly below it |
| OutlineChapters.EveryTopHeadingIsPresent | api/packages/ai/src/index.ts:335-390 | with up to 144 headings left at the top level, each is in the outline as a section, as a lesson, or through all headings directly below it |
| OutlineGroups.OutlineIsAcceptable | api/packages/ai/src/index.ts:335-409 | the outline is always within the limits |
| OutlineGroups.SplitLongSections | api/packages/ai/src/index.ts:397-409 | the loop with its remaining room splits long sections |
| OutlineGroups.SplitFits | api/packages/ai/src/index.ts:397-409 | splitting never makes more sections than there is room for |
| OutlineGroups.SplitKeepsLessons | api/packages/ai/src/index.ts:397-409 | while there is room a split section keeps all its lessons in order, otherwise the first ones |
| WordDiff.Diff | web/src/lib/qa.ts:624-661 | the diff is null if and only if the table would be too large or a 16-bit cell could overflow; otherwise it is the one described below |
| WordDiff.DiffSpellsAfter | web/src/lib/qa.ts:618-623 | same and added segments spell the new text exactly |
| WordDiff.DiffSpellsBefore | web/src/lib/qa.ts:618-623 | same and deleted segments spell the old text up to whitespace runs |
| WordDiff.DiffIsMinimal | web/src/lib/qa.ts:618-623 | the tokens of the same segments are as many as a longest common subsequence of the token lists has |
| WordDiff.DiffSegmentsAlternate | web/src/lib/qa.ts:640-644 | no two neighbouring segments share an operation |
| WordDiff.FillTable | web/src/lib/qa.ts:633-638 | the 16-bit table holds the subsequence lengths, without overflow |
| WordDiff.LcsIsLongest | web/src/lib/qa.ts:634-638 | no common subsequence is longer than the table says |
| WordDiff.TokensAlternate | web/src/lib/qa.ts:625-626 | the tokens spell the text and alternate between whitespace and words |
| MultipartLayout.PartsTile | web/src/lib/upload.ts:81-92 | the part ranges tile the file without gap or overlap and are as long as the part lengths say, all but the last full |
| MultipartLayout.EveryByteInOnePart | web/src/lib/upload.ts:81-92 | every byte is in exactly one part |
| MultipartLayout.MissingParts | web/src/lib/upload.ts:98-109 | the missing parts are the ascending complement of the exactly-sized listed ones, and the bytes counted as done are those of the stored parts |
| UploadMachine.SettlesOnce | web/src/lib/upload.ts:1149-1190 | under every interleaving of callers, browser, server and runs, the promise settles at most once, and exactly when a started upload is done or failed |
| UploadMachine.OneLiveToken | web/src/lib/upload.ts:683-707 | of all runs ever started, at most one token is not stopped |
| UploadMachine.TerminalPhasesAreFinal | web/src/lib/upload.ts:633-679 | done and failed are left if and only if a valid upload that failed before it was started is started |
| UploadMachine.OverForGood | web/src/lib/upload.ts:633-679 | a started upload that is done or failed stays so through every later event |
| UploadGuarantees.CancelRespectsWaiting | web/src/lib/upload.ts:663-664 | while the browser waits for a complete, cancel does nothing |
| UploadGuarantees.OnlyTheseStepsUncover | web/src/lib/upload.ts:747-806 | what uncovers it, exactly: a live run is told that the session is lost or short of parts while an earlier complete without an answer may still be carried out, or takes up a session that is completed or may be |
| UploadGuarantees.CancelActsTooEarlyExactly | web/src/lib/upload.ts:663-679 | over every life: while a complete may take effect, cancel acts if and only if such a step came before and no complete was sent since |
| UploadGuarantees.LostCompleteOutlivesCancel | api/services/course/src/upload.service.ts:256-292 | a connection lost while the server finishes: cancel is accepted, and the session is completed after all |
| UploadGuarantees.CancelledIsNeverAttached | web/src/lib/upload.ts:663-679 | after a cancel that took effect while no complete may, this upload never completes a session |
| UploadGuarantees.CancelledIsAttachedExactly | web/src/lib/upload.ts:663-679 | after a cancel that took effect, the upload can still come to be completed if and only if a complete may take effect |
| UploadGuarantees.CancelBeforeStartIsForgotten | web/src/lib/upload.ts:633-679 | cancel, start, store: the cancelled upload is done |
| UploadGuarantees.AdoptedSessionIsCancelled | web/src/lib/upload.ts:808-823 | a session that was complete when taken up from a resume record can still be cancelled before its status is read |
| UploadGuarantees.HandPauseStays | web/src/lib/upload.ts:645-654 | an upload paused by hand stays paused through everything but resume and cancel |
| UploadGuarantees.OfflinePauseEnds | web/src/lib/upload.ts:1263-1269 | an upload that went off line, finalizing or not, stays paused and goes on once the browser is back, whatever came between but resume and cancel |
| UploadMachine.NextIsGood | web/src/lib/upload.ts:747-806 | whatever a live run hears, it leaves promise, session and requests in flight in order |
| UploadMachine.StepInv | web/src/lib/upload.ts:683-806 | every event keeps the invariant |
| UploadMachine.ResumableUpload.Handle | web/src/lib/upload.ts:570-679 | the object takes exactly the model's step |
| UploadMachine.ResumableUpload.CancelUpload | web/src/lib/upload.ts:663-679 | cancel on the object |
| RefreshTokens.LiveTokensAreIndexed | api/services/auth/src/auth.service.ts:508-515 | after every run from an empty store each live token is in its user's index, which lives at least as long |
| RefreshTokens.OneTokenPerLogin | api/services/auth/src/auth.service.ts:277-308 | each login has at most one live token |
| RefreshTokens.RetryGivesTheSameSuccessor | api/services/auth/src/auth.service.ts:310-329 | a retry with a rotated token gives the very successor or nothing, changes nothing, and works exactly while the pointer and the successor live and the user is active |
| RefreshTokens.RetryInGraceWorks | api/services/auth/src/auth.service.ts:310-329 | undisturbed, a retry works for exactly 30 seconds |
| RefreshTokens.SignOutEverywhereIsFinal | api/services/auth/src/auth.service.ts:487-495 | after signing out everywhere no token minted before, and no grace pointer, ever gives that user a session again |
| RefreshTokens.LogoutIsFinal | api/services/auth/src/auth.service.ts:467-481 | a token that was logged out never gives a session again, rotated or not |
| RefreshTokens.LogoutEndsLoginExactly | api/services/auth/src/auth.service.ts:467-481 | a logout leaves its login no live token if and only if the live one, if any, was the token given or the one it still points to |
| RefreshTokens.LoginSurvivesOldLogout | api/services/auth/src/auth.service.ts:467-481 | rotated twice, then logged out with the first token: the third is live |
| RefreshTokens.CountIsExactWithoutExpired | api/services/auth/src/auth.service.ts:487-495 | the number of sessions reported as ended is never below the number of the user's live tokens, and equal to it if and only if no indexed token has expired |
| RefreshTokens.ExpiredTokensAreCounted | api/services/auth/src/auth.service.ts:487-495 | two logins six days apart: later one session is live and two are reported |
| RefreshTokens.RunInv | api/services/auth/src/auth.service.ts:277-515 | every request keeps the invariant behind these statements |
| RefreshTokens.AuthSessions.RefreshSession | api/services/auth/src/auth.service.ts:277-308 | the handler rotates, or answers a retry |
| RefreshTokens.AuthSessions.LogoutToken | api/services/auth/src/auth.service.ts:467-481 | the handler logs out a token and the successor it still reaches |
| RefreshTokens.AuthSessions.RevokeAllSessions | api/services/auth/src/auth.service.ts:487-495 | the handler drops every indexed token and counts them |
| ChunkText.Chunk | api/services/course/src/course-extras.service.ts:15-42 | chunks hold every non-whitespace character in order; none is empty, untrimmed or longer than the size, for every text and size of at least 1 |

## Left out

- Interleavings inside one handler: each request, delivery and transaction is one step, so row locks and the conditional updates' races are not modelled beyond their guards.
- HTTP, DTO validation, authorisation, TypeORM, SQL, S3 and the event bus; e-mails and notifications, among them `CourseUnlisted`, `CourseArchived` and `CourseSubmittedToInstitution`.
- Review feedback columns, decision notes, change-log text, search cache, ratings, enrolled counts, names.
- Tutor note bodies under the hash (the code hashes title, size and chunk count) and removing a live note under discard (it takes effect at once); both are stated as such.
- Edits of rows are modelled on values (`StagedEdits.Edit1`) and written to the tables in one go; only applying and discarding are modelled row by row. The handlers of `CourseHandlers.CourseService` beside those listed are each proved to take one step of the model.
- Metadata prices in the diff are shown as numbers by the service; the model lists the stored values and compares them as numbers.
- Finding headings (bookmarks, font sizes, patterns, page furniture) and `matchKey`: headings and lines are the input, and the comparison key of `NormalizeLevels` is any function.
- Products with 0.4 and 0.97 are taken exactly, not in binary floating point.
- The fallback of `outlineHeadings` for texts without an outline block, `withImpliedChapters`, the heading equal to the course title, `excerptSummaries` and the number prefix dropped in `groupTitle`: the list of headings, a naming and a summary function are the input.
- OutlineGroups.EveryChapterIsPresent: states presence by chapter; a lone chapter whose topics outnumber the sections left keeps its name and loses its last topics, as the code does.
- Speed meter, backoff delays, URL signing, the number of retries and resume records of the upload beyond the session they name; other pages working on the same session once it was taken up.
- UploadGuarantees.CancelActsTooEarlyExactly: a complete may take effect as long as it was not answered; that a lost request never arrived at the server is not known to the model either.
- CanonicalJson.CanonicalTextIsMeaning: strings are Unicode texts, so lone surrogates are not covered; 0 and -0, which print alike, are one number.
- RevisionDiff.ComputeDiff: lists lessons by their ids; the titles and summaries shown beside them are columns of the same rows.
- Password checks, verification links, access tokens.
