# HOJ teaching backend: a verified model

HOJ runs courses on top of an online judge. Its backend writes to two databases at once: the course database, which has
transactions, and the judge database `jol`, which has none, plus a directory of test files per problem. What keeps the
three consistent is the order of the steps and a few named locks. This project models that protocol, and the parts of the
backend around it where arithmetic, encodings or loops decide what teachers and students see, and proves what they
promise.

`dafny verify dfyconfig.toml` checks everything.

## How it is organised

Tables and machine:

- `Values`, `Tables`: the rows of both databases and the test directory, and every statement as a function of them.
- `Machine`: the assignment lifecycle as a step machine. Any number of requests (practise, submit, publish, deploy, edit,
  remove, delete a course) interleave statement by statement; a request may stop after any statement, by an error or a
  crash, and then its locks are free, its judge rows and files stay, and its open transaction is lost.
- `Locks`, `Integrity`, `Sources`, `Visibility`, `VisibleRuns`: what every run of that machine keeps. Each is a
  rely/guarantee argument: what a request has learnt, what a step may do to others, and that the two fit.
- `Reopening`: what breaks what students see, exactly; `Safety`: in which states that can come; `Overlap`: a run that
  does. `Requeue`: a run behind the exception in `Sources`. `Runs`: how such runs are put together.
- `Handing`: what grades rest on in every run, and a run after which the student's page and the export disagree.
  `Erasures`: a run after which the progress page and the export do.

Whole operations, as methods on a `Store` that holds both databases:

- `Stores`, `Relinking`: writing a problem; rebuilding the links of a batch.
- `Authoring`: publishing, attempt after attempt, each cut off anywhere.
- `AssignmentEdit`: editing an assignment.
- `CourseDeletion`: deleting an offering, cut off anywhere and run again.
- `Snapshots`: the paged backup that comes before deletions and edits.

Around them:

- `Rounding`, `Grading`, `WeightSettings`: one grade computed in four places, and the form that sets its weights.
- `Search`, `Sorting`, `Ranking`: escaped search, dense ranks, pages.
- `Sets`, `Decimals`, `Csv`, `TestFiles`: sizes of sets; the grade sheet against an RFC 4180 reader; test files written and read back.
- `Trials`: the throttle on trial runs, over all interleavings.
- `LegacyPasswords`, `Migration`: the one-way password migration and the login that reads its result.
- `Selection`, `ProblemBank`: basket composition and the slug index.

## What came out of it

Some promises hold only under conditions the code does not establish. Each has a statement of its own:

- Students may see a published problem whose tests have just been emptied (`Overlap.StudentsSeeEmptyProblem`): a
  deployment publishes its fresh draft without that draft's publish lock, and a teacher who pressed "publish" on it in the
  meantime goes on to write its problems again. The step at fault is the one that takes the offering lock and asks only
  whether the offering is active: a publication breaks what students see exactly when they see a problem under its key at
  that step (`Reopening.EntryBreaksExactly`, `VisibleRuns.StudentsSeeCompleteProblems`), and it can come to that from
  exactly the states with an active offering (`Safety.SafeExactly`). Reading the draft again there would do
  (`Reopening.RereadingSuffices`).
- A removal cut between sources and solutions, and an edit of the same assignment after it, leave a solution without source
  for the judge to pick up (`Requeue.SourcelessQueued`).
- A course deletion leaves a knowledge tag pointing at an erased problem exactly when the tag belongs to a course that
  lives on in another offering (`CourseDeletion.DanglingTags`, `CourseDeletion.TagLeftBehind`).
- The progress page leaves out linked problems whose row is gone, and so weighs differently from the export exactly when
  such a problem has weight (`Grading.ProgressAgrees`), as after a deletion that is cut
  (`Erasures.ErasedProblemDiffers`). The student's page differs exactly when a problem that has weight is hidden, or passed
  only by submissions released but not yet promoted (`Grading.PageAgrees`), as after a request that stops in between
  (`Handing.PromotionLost`).
- 100 points are shown exactly when the missing weight is at most one twenty-thousandth of the whole, which need not be
  zero (`Rounding.FullMarks`).
- The backup sorts by the first column alone, so that it is complete for certain exactly when no page ends between rows
  of equal keys (`Snapshots.CompleteWhenClean`); otherwise one row may be lost for its neighbour, written twice
  (`Snapshots.DumpMayRepeat`).
- Two names can look the same in the grade sheet: `=x` and `'=x` (`Csv.GuardClashes`).
- Slugs repaired in a basket are distinct exactly when no random suffix hits an earlier slug (`Selection.RepairSlugs`).

## Model

| member | source | states |
|---|---|---|
| Locks.LocksRise | backend/src/authoring.rs:267-288 | whatever a request holds lies strictly below the lock it asks for, and it holds one lock per level (publish, offering, problem) at most |
| Locks.ActKeepsLocks | backend/src/authoring.rs:267-288 | every action, crashes included, keeps the lock table equal to what the program points of all requests say |
| Locks.RunKeepsLocks | backend/src/authoring.rs:267-288 | the lock table is right in every state of every run |
| Locks.WaitChainsEnd | backend/src/routes/drafts.rs:114-150 | no circle of waiting requests: a chain of waits has at most four requests, all different |
| Locks.SomeoneSteps | backend/src/routes/batches.rs:279-296 | from any request a chain of waits leads to one whose next step is enabled, so nothing deadlocks |
| Integrity.StepKeepsIntegrity | backend/src/hustoj.rs:108-142 | one step of any request keeps solutions off deleted problems, and what the other requests count on |
| Integrity.ActKeepsIntegrity | backend/src/assignment_edit.rs:52-59 | so does every action: requests starting, stopping, crashing, verdicts, new drafts |
| Integrity.RunKeepsIntegrity | backend/src/course_deletion.rs:77-92 | in every state of every run the tables are sound and each request's knowledge still holds |
| Integrity.NothingDangles | backend/src/hustoj.rs:108-122 | in every state of every run no solution refers to a deleted problem, because check-then-insert and count-then-delete share the problem lock |
| Sources.ActKeepsTwoPhase | backend/src/hustoj.rs:113-138 | every action keeps solutions past the placeholder result complete, up to those whose deletion has begun |
| Sources.RunKeepsTwoPhase | backend/src/assignment_edit.rs:100-115 | so does every run, with edits that rejudge and deletions in between |
| Sources.QueuedAreComplete | backend/src/hustoj.rs:113-138 | a solution the judge may pick up has both source rows and, in a course, its submission row, unless its deletion was cut short after its source was gone |
| Sources.UncutRunsAreComplete | backend/src/assignment_edit.rs:41-46 | without such a cut there is no exception |
| Sources.NothingTorn | backend/src/assignment_edit.rs:41-46 | the exception set stays empty in runs that cut no deletion between sources and solutions |
| Requeue.SourcelessQueued | backend/src/assignment_edit.rs:94-116 | the exception is real: a removal cut there and an edit of the same assignment lead to a queued solution without source |
| VisibleRuns.ProblemComplete | backend/src/authoring.rs:80-107 | a problem whose last test has been written counts as complete, with exactly the document's tests |
| VisibleRuns.ActKeepsOrder | backend/src/authoring.rs:80-107 | every action, overlapping publications included, keeps rows and keys in order, linked problems written under keys of their offering, and every request's progress true |
| VisibleRuns.RunKeepsOrder | backend/src/authoring.rs:80-107 | so does every run; above all each source has one row |
| VisibleRuns.ActKeepsSeen | backend/src/authoring.rs:111-114 | every action keeps every open link complete, unless it is a publication passing its status check while students see a problem under its key |
| VisibleRuns.PathKeepsSeen | backend/src/assignment_edit.rs:94-113 | so does every sequence of such actions |
| VisibleRuns.StudentsSeeCompleteProblems | backend/src/authoring.rs:118-162 | in every state of every run up to the first publication that starts so, a link of a batch in an offering that is not archived leads to a problem that exists, is visible and has its whole test list on disk |
| Reopening.ReopeningBreaks | backend/src/authoring.rs:117-126 | the converse, from every state a run can reach: a publication at that step, with students seeing a problem under its key, comes by its own steps to empty that problem's tests or to hide it |
| Reopening.EntryBreaksExactly | backend/src/authoring.rs:111-116 | while what students see is complete, a publication that passes its status check can lead to an incomplete problem, with no other such start, exactly when students see a problem under its key |
| Safety.SafeExactly | backend/src/authoring.rs:109-116 | while what students see is complete, it stays complete whatever comes exactly when no offering is active: into an active one, a deployment and a request for its draft can be sent from any state |
| Reopening.RereadingSuffices | backend/src/routes/drafts.rs:182-187 | a publication that finds its draft unpublished at that step is harmless |
| Reopening.RereadRunsSeen | backend/src/routes/drafts.rs:182-187 | so with the draft read again there, students see complete problems in every run |
| Overlap.StudentsSeeEmptyProblem | backend/src/routes/problem_sets.rs:442-453 | such a start happens: a run of 26 actions without a crash leads from an orderly state to a published, visible problem with no tests |
| Overlap.TakeoverReopens | backend/src/routes/teacher_library.rs:285-306 | in it, the teacher's request stands at that step with the problem open to students |
| Stores.Store.SyncProblem | backend/src/authoring.rs:80-107 | the row of the source is found and rewritten or made hidden; its tests are exactly the document's; nothing else changes |
| Stores.Store.WriteTests | backend/src/hustoj.rs:266-279 | clearing and writing one by one leaves exactly the given tests |
| Relinking.RelinkedRows | backend/src/authoring.rs:133-149 | the rebuilt links of a batch are the problems in order, numbered 1 to n, with their scores; links of other batches stay |
| Authoring.MaxSeq | backend/src/authoring.rs:65-68 | the highest number of an offering's batches |
| Authoring.EnsureBatch | backend/src/authoring.rs:40-77 | finds the one batch of the key, or inserts it unpublished behind all others of its offering; beaten to the number, it tries again, and gives up exactly after three times; numbers stay unique, keys have one batch |
| Authoring.WriteProblem | backend/src/authoring.rs:80-107 | cut off after any statement, only rows and tests under the key have changed and each source has one row; not cut off, the problem is rewritten |
| Authoring.WriteProblems | backend/src/authoring.rs:119-123 | all problems of the document are written, one different problem per slug |
| Authoring.Attempt | backend/src/authoring.rs:109-162 | an attempt refused or cut off shows nothing to students; a whole one publishes exactly the document; a published draft is returned as it is; given enough statements it is not cut |
| Authoring.PublishWithRetries | backend/src/routes/drafts.rs:177-209 | over any number of attempts, cut off anywhere, with the draft edited in between: all that succeed name the one batch of the key, the first to succeed decides what is shown and linked, after every later one the databases are what they were after it, before it students see nothing, and the first unhindered one succeeds |
| Authoring.Commit | backend/src/authoring.rs:133-160 | the transaction: refused, with nothing changed, exactly when the offering is no longer active or the draft is gone; otherwise its statements together are the machine's one commit step |
| AssignmentEdit.MoveSubmissions | backend/src/assignment_edit.rs:100-100 | exactly the submissions of the replaced problem point at the new one and wait |
| AssignmentEdit.WriteItem | backend/src/assignment_edit.rs:96-103 | a problem whose content is unchanged is kept; a changed one is written afresh, shown, and takes the submissions |
| AssignmentEdit.WriteDocument | backend/src/assignment_edit.rs:95-103 | the loop over the document: old rows untouched, fresh problems complete, submissions moved, rejudges collected |
| AssignmentEdit.NewIdsDistinct | backend/src/assignment_edit.rs:95-103 | new problem ids are pairwise distinct |
| AssignmentEdit.Commit | backend/src/assignment_edit.rs:107-113 | the transaction's statements are the machine's one commit step |
| AssignmentEdit.JoinedIsRepaired | backend/src/assignment_edit.rs:111-111 | the join points every submission at the one link of its solution's problem |
| AssignmentEdit.CleanProblem | backend/src/assignment_edit.rs:52-59 | an authored problem without link, solution or tag goes with its tests; any other keeps both and gets exact counters |
| AssignmentEdit.CleanUp | backend/src/assignment_edit.rs:114-116 | cleaning several problems cleans each by the state before, and touches no other |
| AssignmentEdit.RecountUsers | backend/src/assignment_edit.rs:60-60 | the counters of the given users are exact, those of others unchanged |
| AssignmentEdit.Update | backend/src/assignment_edit.rs:82-117 | refused exactly when busy, closed, stale or keeping foreign or repeated problems, and then nothing changes; otherwise: links numbered 1 to n with distinct problems, every submission linked to its solution's problem, unchanged problems' solutions untouched, changed ones' moved and queued, dropped ones' gone, replaced problems erased unless referred to, counters exact, everything else as before |
| AssignmentEdit.ReweighingKeepsSolutions | backend/src/assignment_edit.rs:96-103 | an edit that only reorders or reweighs touches no solution, id or verdict |
| CourseDeletion.Remove | backend/src/course_deletion.rs:14-113 | refused exactly while judging is going on; whole, it leads to the closed form of a deletion; cut off after any statement, the state still leads there, in no more statements; left enough, it is not cut |
| CourseDeletion.RemoveWithRetries | backend/src/course_deletion.rs:58-109 | cut off any number of times anywhere and run again, the deletion finishes once it is left enough statements, no more than the first attempt needed, and the final state is that of one uninterrupted deletion |
| CourseDeletion.PurgeJudge | backend/src/course_deletion.rs:59-72 | archives first, then drops sources, then solutions; wherever it is cut, exactly those statements have happened |
| CourseDeletion.EraseProblem | backend/src/course_deletion.rs:83-85 | tests go before the row, and a cut between the two loses nothing |
| CourseDeletion.CleanProblem | backend/src/course_deletion.rs:77-92 | an orphan is erased, any other problem tallied, and the deletion still comes to the same |
| CourseDeletion.RecountUsers | backend/src/course_deletion.rs:73-76 | users are recounted one by one, and the deletion still comes to the same |
| CourseDeletion.FinalState | backend/src/course_deletion.rs:93-109 | the offering is gone and deleting again changes nothing |
| CourseDeletion.SharedProblemsSurvive | backend/src/course_deletion.rs:81-89 | a problem others link, solve or tag, or that is not authored, keeps its row up to counters, and its tests |
| CourseDeletion.OthersSurvive | backend/src/course_deletion.rs:93-100 | solutions and submissions of others, and other offerings, stay as they are |
| CourseDeletion.CountersExact | backend/src/course_deletion.rs:73-89 | the counters of users and problems concerned are exact afterwards |
| CourseDeletion.NothingLinksToErased | backend/src/course_deletion.rs:81-85 | no link and no solution refers to an erased problem |
| CourseDeletion.DanglingTags | backend/src/course_deletion.rs:81-104 | a tag is left on an erased problem exactly when it is of this course and the course has another offering |
| CourseDeletion.TagLeftBehind | backend/src/course_deletion.rs:81-104 | it happens: with a course taught twice, deleting the one offering leaves a tag on an erased problem |
| Snapshots.Snapshot | backend/src/course_deletion.rs:121-139 | the offset loop writes the pages up to the first empty one |
| Snapshots.CompleteWhenClean | backend/src/course_deletion.rs:126-137 | the dump holds exactly the rows, whatever order ties come in, exactly when no page ends between equal keys |
| Snapshots.DumpIsComplete | backend/src/course_deletion.rs:126-137 | then every row is written once |
| Snapshots.DumpMayRepeat | backend/src/course_deletion.rs:126-137 | otherwise the queries may return orders for which one row of the dump is replaced by its neighbour: it is lost, the other written twice |
| Snapshots.UniqueKeysAreClean | backend/src/course_deletion.rs:126-126 | a unique first column suffices |
| Rounding.Nearest | backend/src/routes/student_progress.rs:95-96 | a grade is the nearest hundredth, half up |
| Rounding.ScoreBounds | backend/src/routes/student_progress.rs:49-49 | a grade lies between 0 and 100 |
| Rounding.ScoreMonotone | backend/src/routes/offerings.rs:347-350 | more passed weight never lowers it |
| Rounding.FullMarks | backend/src/routes/student_progress.rs:93-97 | it shows 100 exactly when the missing weight is at most one twenty-thousandth of the total |
| Rounding.FullMarksMeanAll | backend/src/document.rs:88-91 | and exactly when all is passed, if no scored problem is lighter than that |
| Rounding.ContributionsAddUp | frontend/src/lib/grading.ts:13-16 | k rounded contributions differ from the rounded sum by at most (k+1)/2 hundredths |
| Grading.WeightsZero | backend/src/routes/offerings.rs:332-333 | a sum of weights is zero exactly when each is |
| Grading.BestDecides | backend/src/routes/student_progress.rs:78-83 | the best submission is accepted exactly when some submission is, and still judged exactly when all are |
| Grading.RosterAgrees | backend/src/routes/student_progress.rs:42-51 | the roster's totals are the export's |
| Grading.ProgressAgrees | backend/src/routes/student_progress.rs:72-97 | the progress page's totals are the export's exactly when no problem with weight has lost its row |
| Grading.PageAgrees | backend/src/routes/batches.rs:132-180 | the student's page has the export's totals exactly when every problem with weight is visible and not passed by unpromoted submissions alone |
| Grading.FourWays | frontend/src/lib/grading.ts:3-11 | then all four show the same grade |
| Grading.GradeInRange | backend/src/routes/offerings.rs:347-350 | whatever the tables hold, no more is passed than there is, and the grade lies between 0 and 100 |
| Grading.AnotherSubmission | backend/src/routes/offerings.rs:347-350 | no submission lowers a grade, and only the first promoted accepted one of a problem changes it |
| Grading.AllPassedLabel | backend/src/routes/offerings.rs:365-365 | the sheet says "all passed" exactly when the passed weight is the whole weight and there is any |
| Grading.Progress | backend/src/routes/student_progress.rs:86-97 | rows are grouped by batch in order, and each batch gets its total, grade and contributions |
| Grading.GradeCard | backend/src/routes/student_progress.rs:93-97 | one batch: passed weight, grade, contributions of passed problems only |
| Grading.CardAddsUp | backend/src/routes/student_progress.rs:94-96 | contributions shown add up to the grade shown within (k+1)/2 hundredths |
| Grading.CardTotals | backend/src/routes/student_progress.rs:72-92 | the card's totals are those of the tables |
| Handing.RunKeepsHanded | backend/src/hustoj.rs:113-138 | in every state of every run a submission names its batch's offering and its solution's user |
| Handing.GradesAgreeInRuns | backend/src/routes/student_progress.rs:42-51 | so in every state of every run the roster counts what the export counts |
| Erasures.ErasedProblemDiffers | backend/src/course_deletion.rs:77-91 | from every state at rest with an idle offering that alone knows a problem with weight, its deletion, stopped once it has erased the problem, makes the progress page and the export differ for every student |
| Handing.PromotionLost | backend/src/hustoj.rs:133-138 | from every state at rest with a weighted problem open, a request that stops between release and promotion makes the student's page and the export differ, unless the student had passed before |
| WeightSettings.Settings | backend/src/routes/batches.rs:440-465 | accepted exactly when every linked problem is named once and no other, all weights are valid and some required one is positive; then exactly those weights are set |
| WeightSettings.CountsDecide | backend/src/routes/batches.rs:449-454 | comparing two counts and one inclusion decides that the form is one-to-one |
| WeightSettings.FullMarksReachable | backend/src/routes/batches.rs:458-460 | after an accepted form, passing everything gives 100 |
| Search.ThreeReplacements | backend/src/routes/student_progress.rs:30-31 | the three successive replacements are one character-wise escape |
| Search.LikeLiteral | backend/src/routes/question_ranking.rs:30-30 | an escaped text matches itself and nothing else |
| Search.SearchIsLiteral | backend/src/routes/student_progress.rs:30-32 | LIKE with the pattern holds exactly when the text contains what was searched for |
| Sorting.SortedUnique | backend/src/hustoj.rs:241-241 | there is one way to put given elements in a total order |
| Ranking.FiltersAgree | backend/src/routes/question_ranking.rs:31-54 | the raw and the coalesced filter select the same students |
| Ranking.CountAgrees | backend/src/routes/question_ranking.rs:31-32 | the separate count is the number of students the list's filter keeps |
| Ranking.WindowRanks | backend/src/routes/question_ranking.rs:51-53 | the dense rank is one more than the number of distinct better grades |
| Ranking.RankFollowsGrade | backend/src/routes/question_ranking.rs:51-53 | better grades rank strictly before, equal grades together |
| Ranking.RanksAreDense | backend/src/routes/question_ranking.rs:51-53 | no rank is left out |
| Ranking.RanksIgnoreSearch | backend/src/routes/question_ranking.rs:54-54 | every listed student has the rank within the whole class |
| Ranking.PagesCover | backend/src/routes/question_ranking.rs:33-34 | the pages from first to last, put together, are the list |
| Ranking.NoEmptyPage | backend/src/routes/student_progress.rs:35-36 | whatever page is asked for, the one shown is empty only when the list is |
| Ranking.TotalIsListed | backend/src/routes/question_ranking.rs:31-32 | the total is the length of the sorted, ranked and filtered list |
| Ranking.ListingIs | backend/src/routes/question_ranking.rs:51-56 | the list holds every student searched for, as often as the class does, in the order of grade, number and user |
| Ranking.AnswerIs | backend/src/routes/question_ranking.rs:24-60 | all of this for one answer: its pages make up the ordered list of exactly the students searched for, with the right total and the ranks of the whole class |
| Csv.CellRoundTrip | backend/src/routes/offerings.rs:354-359 | a cell reads back as the guarded value |
| Csv.LinesRoundTrip | backend/src/routes/offerings.rs:364-369 | the lines read back as one record per row |
| Csv.HeaderRoundTrip | backend/src/routes/offerings.rs:363-363 | the unquoted header reads back as its fields |
| Csv.ExportGrades | backend/src/routes/offerings.rs:361-372 | for every content of names and titles the sheet reads as the header and one record per row, each field the guarded value |
| Csv.RecordsAreSafe | backend/src/routes/offerings.rs:354-358 | every record has eight fields, none of which a spreadsheet takes for a formula |
| Csv.GuardClashes | backend/src/routes/offerings.rs:354-358 | two values look the same exactly when one is the other, risky, behind an apostrophe |
| Csv.NumbersAreSafe | backend/src/routes/offerings.rs:366-366 | numbers and grades are never guarded |
| Decimals.NumericOrder | backend/src/hustoj.rs:241-241 | fewer bytes first, then by first difference, is numeric order on decimals of any length |
| TestFiles.NamesAreNumbered | backend/src/hustoj.rs:261-264 | the written names are numbered cases, and each input leads to its output |
| TestFiles.FirstNamesListed | backend/src/hustoj.rs:241-241 | "1.in" to "n.in" are in order as they stand |
| TestFiles.Directory.WriteLocal | backend/src/hustoj.rs:266-279 | succeeds exactly when no directory is in the way; then old cases are gone and the new ones there; other files stay |
| TestFiles.Directory.RemoveNumbered | backend/src/hustoj.rs:268-273 | removes the numbered files and nothing else |
| TestFiles.Directory.ReadLocal | backend/src/hustoj.rs:234-259 | reads exactly when there are at most 100 inputs, all readable with their outputs; then in order |
| TestFiles.RoundTrip | backend/src/hustoj.rs:234-279 | what was written is read back exactly when nothing foreign ends in ".in", no link stands for an output, there are at most 100 tests and each is at most 1 MiB |
| TestFiles.WriteThenRead | backend/src/hustoj.rs:234-279 | the same as one run on a directory |
| Trials.ActKeepsThrottle | backend/src/hustoj.rs:161-190 | whatever happens, trials of a user stay three seconds apart, at most one is unfinished and young, and a passed check stays right until the insert |
| Trials.RunsAreThrottled | backend/src/hustoj.rs:145-190 | so it is in every run |
| Trials.CheckDecides | backend/src/hustoj.rs:162-171 | a request passes exactly when no trial of the user is unfinished and young, or younger than three seconds |
| Trials.BlockedTenMinutes | backend/src/hustoj.rs:163-165 | once the newest trial is ten minutes old, whatever became of it, the user passes |
| Trials.QueuedTrialsAreComplete | backend/src/hustoj.rs:174-188 | a trial the judge may take has its source, the copy of it and its input |
| LegacyPasswords.UnhexHex | teacher-management/backend/tool/migrate-legacy.ts:195-204 | decoding undoes encoding |
| LegacyPasswords.WrapReads | teacher-management/backend/src/identity/password.rs:49-70 | the login reads from a wrapped record what the migration put into it; the record is wrapped and not legacy |
| LegacyPasswords.WrapKeepsPassword | teacher-management/backend/src/identity/password.rs:70-76 | a wrapped record accepts the password of the legacy one, and exactly those passwords whose digests derive to the same |
| LegacyPasswords.LegacyRefused | teacher-management/backend/src/identity/password.rs:48-53 | the login accepts no unwrapped record |
| LegacyPasswords.WrappedIsRead | teacher-management/backend/tool/migrate-legacy.ts:28-29 | whatever the migration passes as wrapped the login can read, and the converse but for a plus sign |
| LegacyPasswords.WrappedIsLonger | teacher-management/backend/tool/migrate-legacy.ts:131-138 | counting by length counts legacy records |
| Migration.Users.NextPage | teacher-management/backend/tool/migrate-legacy.ts:69-82 | the first 128 users past the cursor, by rising id, none left out |
| Migration.Users.ConvertPasswords | teacher-management/backend/tool/migrate-legacy.ts:188-245 | sees every user once by rising id while rewriting; whole, all legacy passwords are wrapped; stopped, exactly those up to a cursor |
| Migration.Users.UpdateLegacy | teacher-management/backend/tool/migrate-legacy.ts:191-219 | one statement wraps the legacy passwords of a page and leaves the rest |
| Migration.Users.Preflight | teacher-management/backend/tool/migrate-legacy.ts:118-139 | passes exactly when every password is legacy or wrapped, and counts the legacy ones; its comparison by length never fails |
| Migration.Migrate | teacher-management/backend/tool/migrate-legacy.ts:319-333 | stopped any number of times and run again: nothing touched unless all passwords are known, in the end none is legacy, and each was wrapped once at most |
| Migration.NotLegacyAfter | teacher-management/backend/tool/migrate-legacy.ts:191-204 | a wrapped password is never wrapped again |
| Migration.LoginsSurvive | teacher-management/backend/tool/migrate-legacy.ts:195-204 | every password that was right before the migration is right after it |
| Selection.SwapRemovedOffers | backend/src/routes/problem_sets.rs:299-300 | `swap_remove` leaves all other problems on offer |
| Selection.Compose | backend/src/routes/problem_sets.rs:285-322 | fails exactly when a set is missing, a problem is asked for more often than held, or none or more than 100 are chosen; otherwise each item gets a problem of its set and slug, in order |
| Selection.ComposeIsLookup | backend/src/routes/problem_sets.rs:299-301 | with unique slugs each chosen problem is the plain lookup of its item |
| Selection.AvailableIsFound | backend/src/routes/problem_sets.rs:299-301 | with unique slugs it fails exactly for a missing or repeated item |
| Selection.RepairSlugs | backend/src/routes/problem_sets.rs:325-336 | every slug becomes valid; free ones are only cleaned; all are distinct exactly when no random suffix hits an earlier slug |
| ProblemBank.BuildIndex | backend/src/problem_bank.rs:367-372 | every slug leads to the first set that holds it |
| ProblemBank.FindIsScan | backend/src/problem_bank.rs:396-404 | looking up the index gives the first match over all sets in order |
| ProblemBank.IdsAreUnique | backend/src/problem_bank.rs:318-356 | categories and standalone sets have different ids |

## Left out

- Sources.QueuedAreComplete: excepts solutions whose deletion was cut between sources and solutions, since an edit that follows may queue them again (`Requeue.SourcelessQueued`).
- Authoring.PublishWithRetries: attempts run one after the other, as the publish lock makes them; overlapping ones are the machine's subject.
- AssignmentEdit.Update: uninterrupted; edits that stop midway appear in the machine only, where they matter for what students see and for sources.
- Safety.SafeExactly: the machine has no step that makes an offering active; creating offerings and changing their status by hand are left out.
- Selection.Compose: takes a list of items; an empty one goes to another branch (problem_sets.rs:304-320), which takes the chosen slugs of one set, or its first 15 problems, and is left out.
- Migration.Users.Preflight: checks the passwords only; that the known migrations have run and the three counts of ambiguous submissions and files (migrate-legacy.ts:83-117) are left out.
- Migration.Users.ConvertPasswords: is stopped between pages; within a page the rewriting is one statement. Other writers are stopped, as the tool demands, so its checks against them are not modelled.
- Trials.RunsAreThrottled: times are those of the database column, in whole seconds; a session that loses its lock without its process dying is not modelled.
- A statement on several MyISAM rows is one step; one test case is one step; a user's counters are recounted in the whole operations only, not in the machine.
- Waiting for a lock for 30 seconds and giving up, a stale revision of an edit in the machine, and any database or file error are all a request that stops.
- Claiming a legacy batch in `ensure_batch`, `archive_course` and status changes of an offering by hand lie outside the lock discipline and are not modelled.
- Titles, due dates, languages, AI settings, `read_only` and `source_ref` texts of batches and drafts; the payload of drafts (a document is an argument instead); statement, samples and knowledge of a problem are one text.
- Management code, roles, ownership and course roles: access checks are taken as passed, except for the status of the offering.
- Backups write nothing the databases depend on; only the paging is modelled. Compile and run-time feedback, similarity and AI tables of the judge are left out.
- Weights are exact hundredths and grades exact quotients; the tolerance of `valid_score` and binary floating point are left out. Collation is plain equality, searches are trimmed already.
- The `required` column is the set of waived links; unique keys of the schema (offering and user, batch and problem, batch and sequence, authoring key) are assumed where named.
- SHA-256 and PBKDF2 are functions of the right sizes; the document revision is the document itself; UUIDs are fresh values; salts are arguments.
- The schema upgrade and file repair of the migration, building the bank's tree and syllabus, YAML and JSON parsing.
- Docker variants of the test-file functions, HTTP, sessions, exports to documents and all user interface.
