# Disaster-preparedness learning backend — a Dafny model

This project models the core of a backend for a disaster-preparedness learning platform.

- **Teachers and their students.** Teachers create student accounts and manage only their own students; an admin may manage any student.
- **Courses.** Teachers author courses; students enrol in them.
- **Module quizzes.** Students answer a module's quiz. Each submission is graded, stored as a numbered attempt, and a pass credits the module to the student's course progress and total score.
- **Games.** Three preparedness games exist: an interactive story, a scenario game and an emergency-kit builder. Each keeps one progress entry per game in the user record. Points go both to that entry and to the user's total score. A statistics view derives a rank and achievements from them.
- **Storage.** Documents live in a database, with a flat-file JSON document store as fallback.

## Modules

| file | module | what it holds |
|---|---|---|
| `base.dfy` | `Base` | `Option`, `Reply` (a payload or an HTTP status), identifiers, the "present and non-empty" request field |
| `js.dfy` | `Js` | JSON values with JavaScript strict equality, `toLowerCase` (ASCII), `trim` (ECMAScript white space and line terminators), `includes` |
| `filedb.dfy` | `FileDb` | the flat-file store: class `FileDB` over a map from collection name to file contents |
| `quiz_question.dfy` | `QuizQuestions` | question types, defaults and the pre-save check of a quiz question |
| `quiz_attempt.dfy` | `QuizAttempts` | the rounded percentage and the 60% pass rule of a quiz-attempt document (class `QuizAttemptDoc`) |
| `attempt.dfy` | `Attempts` | attempt documents: status values, the pass/fail label, the best attempt, attempt numbering |
| `models.dfy` | `Models` | users, courses, modules and class `Database`, which holds one map per collection |
| `course_controller.dfy` | `CourseController` | course create/update/delete, enrolment, grading of a quiz submission, pass decision, progress credit |
| `game_controller.dfy` | `GameController` | story, scenario and kit games, score bookkeeping, statistics |
| `user_controller.dfy` | `UserController` | creating, listing, updating, deleting student accounts and resetting their passwords |

Request handlers are methods on a `Database`. Each one states its reply and the new contents of every collection. Each one keeps the database invariant `Database.Valid`:
- attempts are numbered consecutively per user and module;
- every user has at most one game-progress entry per game type, with levels in 1..10.

Clocks, generated ids and password hashes are method parameters.

## Model

| member | source | states |
|---|---|---|
| FileDb.Filter | src/config/filedb.js:60-67 | the result holds exactly the stored documents that match every key of the query, and is no longer than the input |
| FileDb.Reject | src/config/filedb.js:91-93 | the result holds exactly the documents that fail the query |
| FileDb.FindIndex | src/config/filedb.js:77-79 | -1 iff no document matches; otherwise the index of a matching document with no match before it |
| FileDb.FilterConcat | src/config/filedb.js:60-67 | filtering distributes over concatenation, so stored order is kept |
| FileDb.FilterAllMatching | src/config/filedb.js:60-67 | when every document matches, `find` returns the whole collection |
| FileDb.EmptyQueryMatches | src/config/filedb.js:56-58 | the empty query matches every document |
| FileDb.PartitionSizes | src/config/filedb.js:89-93 | the documents `delete` keeps and the ones `find` returns add up to the collection |
| FileDb.RejectShrinksIffMatch | src/config/filedb.js:95 | `delete` removes something exactly when some document matches |
| FileDb.FilterHeadIsFirstMatch | src/config/filedb.js:70-79 | `findOne` finds something iff `update`'s search does, and they pick the same document |
| FileDb.Overlay | src/config/filedb.js:82 | the merged document has the keys of both plus `updatedAt`; update fields win over stored ones, and `updatedAt` is the new stamp |
| FileDb.FileDB.ReadCollection | src/config/filedb.js:20-32 | a missing or unparsable file reads as an empty collection; otherwise the parsed array |
| FileDb.FileDB.Find | src/config/filedb.js:54-68 | the matching documents of the collection as read; the empty query returns everything |
| FileDb.FileDB.FindOne | src/config/filedb.js:70-73 | null iff nothing matches, else the first match |
| FileDb.FileDB.Insert | src/config/filedb.js:45-52 | the document gets the new `_id` and `createdAt` and is appended to the collection as read; nothing else changes |
| FileDb.FileDB.Update | src/config/filedb.js:75-87 | no match: null and no write; otherwise only the first match is replaced by the overlay, which is returned |
| FileDb.FileDB.Delete | src/config/filedb.js:89-100 | answers true iff some document matches; then exactly the non-matching documents stay, in order, else nothing is written |
| FileDb.EmptyQueryUpdateHitsFirst | src/config/filedb.js:77-79 | an update with the empty query rewrites the first document |
| FileDb.EmptyQueryDeleteEmpties | src/config/filedb.js:91-93 | a delete with the empty query empties the collection |
| QuizQuestions.ParseQuestionType | src/models/QuizQuestion.js:8-11 | an absent type defaults to multiple-choice; a given string is accepted iff it is one of the four enumerated names, and parses back to that name |
| QuizQuestions.TypeNameRoundTrip | src/models/QuizQuestion.js:10 | every question type's name parses back to that type |
| QuizQuestions.NewQuestion | src/models/QuizQuestion.js:4-22 | a question is created iff its text is non-empty, every option text is non-empty and its type is valid; marks default to 1; text, options, correct answer, module and order are kept as given |
| QuizQuestions.NewQuestionRebuilds | src/models/QuizQuestion.js:4-22 | building a question from a valid stored question's own fields gives that question back |
| QuizQuestions.HasCorrectOption | src/models/QuizQuestion.js:52 | true iff some option is marked correct |
| QuizQuestions.ValidateForSave | src/models/QuizQuestion.js:50-58 | saving succeeds iff the question is not multiple-choice/true-false or has a correct option |
| QuizQuestions.SeveralCorrectOptionsAccepted | src/models/QuizQuestion.js:50-58 | more than one correct option is accepted |
| QuizQuestions.NonChoiceAlwaysSaved | src/models/QuizQuestion.js:51 | fill-blank and drag-drop questions are always saved |
| QuizQuestions.DefaultQuestionNeedsCorrectOption | src/models/QuizQuestion.js:50-58 | a question with the default type and no correct option is refused at save |
| QuizAttempts.RoundedPercentage | src/models/QuizAttempt.js:45 | the result is the percentage rounded half up: `p - 1/2 <= 100 t / m < p + 1/2` |
| QuizAttempts.PassIffRawAtLeast59Point5 | src/models/QuizAttempt.js:43-48 | the attempt passes iff the raw percentage is at least 59.5 |
| QuizAttempts.RawFiftyNinePointFivePasses | src/models/QuizAttempt.js:45-46 | 119 of 200 marks rounds to 60 and passes |
| QuizAttempts.QuizAttemptDoc.constructor | src/models/QuizAttempt.js:20-35 | a new document has percentage 0 and is not passed |
| QuizAttempts.QuizAttemptDoc.PreSave | src/models/QuizAttempt.js:43-48 | with positive max marks the percentage is recomputed and `passed` holds iff the raw percentage is at least 59.5; otherwise nothing changes |
| Attempts.ParseStatus | src/models/Attempt.js:54-58 | an absent status is "completed"; a given one is accepted iff it is one of the four enumerated values, and then becomes the status of that spelling |
| Attempts.StatusNameRoundTrip | src/models/Attempt.js:54-58 | each status's spelling parses back to that status |
| Attempts.ResultLabel | src/models/Attempt.js:76-78 | "Pass" iff the attempt passed, else "Fail" |
| Attempts.BestAttempt | src/models/Attempt.js:81-83 | none iff the user has no attempt on the module; otherwise one of theirs, and no other of theirs sorts before it (highest score, then latest) |
| Attempts.AppendKeepsNumbering | src/controllers/courseController.js:208-225 | appending an attempt numbered one past the user's count on the module keeps every attempt numbered after its predecessors |
| Attempts.CountFor | src/controllers/courseController.js:208-211 | `countDocuments({ userId, moduleId })` never exceeds the number of attempts |
| Attempts.AttemptsFor | src/controllers/courseController.js:208-211 | the user's attempts on the module are exactly those stored for that user and module, and there are `CountFor` of them |
| Attempts.NumbersAreConsecutive | src/models/Attempt.js:63-66 | under that numbering, a user's attempts on a module are numbered 1, 2, 3, … in order |
| Models.Database.constructor | src/models/User.js:25-38 | an empty database satisfies the invariant |
| CourseController.CourseGuard | src/controllers/courseController.js:300-307 | 404 iff the course is missing; 403 iff the requester is neither its creator nor an admin; otherwise the request proceeds |
| CourseController.CreateCourse | src/controllers/courseController.js:15-28 | students get 403; a missing title or description or an out-of-range category or difficulty gives 500; otherwise the course is stored with the requester as creator and schema defaults, and only the course map changes |
| CourseController.ApplyPatch | src/controllers/courseController.js:309-313 | every field the body carries (title, description, category, difficulty, `isPublished`, creator, modules, enrolments) replaces the stored one; every other field is kept |
| CourseController.DescriptivePatchKeepsOwnership | src/controllers/courseController.js:309-313 | a patch of the descriptive fields alone keeps creator, modules and enrolments, so the guard answers as before |
| CourseController.PatchCanHandOverCourse | src/controllers/courseController.js:304-313 | a patch naming a new creator locks the old (non-admin) creator out with 403 and lets the new one in |
| CourseController.PatchIdempotent | src/controllers/courseController.js:309-313 | applying the same patch twice equals applying it once |
| CourseController.UpdateCourse | src/controllers/courseController.js:298-313 | guard errors leave the store unchanged; an invalid patch gives 500; otherwise only this course is replaced by the patched one |
| CourseController.DeleteCourse | src/controllers/courseController.js:329-340 | guard errors leave the store unchanged; otherwise exactly this course is removed |
| CourseController.FirstModule | src/controllers/courseController.js:135 | none iff the course has no modules, else its first |
| CourseController.EnrolledUser | src/controllers/courseController.js:128-137 | the course is appended to the enrolments with a fresh progress entry, and no other field of the user changes |
| CourseController.EnrollInCourse | src/controllers/courseController.js:112-139 | missing course: 404; already enrolled: 400; both with no change. Otherwise the student is added to the course. If the user record is gone the course write stays and the reply is 500, else the user is enrolled |
| CourseController.FirstCorrectIndex | src/controllers/courseController.js:183 | -1 iff no option is correct, else the first correct option |
| CourseController.GradeAnswer | src/controllers/courseController.js:182-187 | grading throws iff a fill-blank question or answer lacks its text; drag-drop answers are never correct |
| CourseController.ChoiceCorrectIff | src/controllers/courseController.js:182-184 | a choice answer is correct iff some option is correct and the selected text equals the first correct option's text |
| CourseController.SavedChoiceQuestionIsAnswerable | src/controllers/courseController.js:182-184 | every choice question that passed its pre-save check can be answered correctly |
| CourseController.FillBlankCorrectIff | src/controllers/courseController.js:185-186 | with both texts present, a fill-blank answer is correct iff the two agree after lower-casing and trimming |
| CourseController.FillBlankIgnoresCaseAndSpaces | src/controllers/courseController.js:185-186 | an answer that spells the canonical answer up to the case of ASCII letters, between runs of white space, is graded correct |
| CourseController.SameUpToCaseAndSpaces | src/controllers/courseController.js:186 | two such strings normalize to the same text |
| CourseController.NormalizesTo | src/controllers/courseController.js:186 | lower-casing then trimming a string that holds `t` (up to case) between white-space runs gives exactly `t` |
| Js.TrimIsInnerSlice | src/controllers/courseController.js:186 | `trim` returns a contiguous slice of its input whose outside is all white space |
| Js.TrimBetween | src/controllers/courseController.js:186 | `trim` of a string with white space only before `i` and from `j` on, and non-white ends at `i` and `j - 1`, is the slice from `i` to `j` |
| Js.Trim | src/controllers/courseController.js:186 | `trim` returns a string no longer than its input, empty or with non-white-space ends |
| Js.ToLower | src/controllers/courseController.js:186 | `toLowerCase` keeps the length and lower-cases each ASCII letter in place |
| Js.StrictEqualsIsPrimitiveEquality | src/config/filedb.js:60-67 | `===` holds iff both sides are the same primitive value; a parsed object or array equals nothing |
| Js.ContainsAt | src/controllers/gameController.js:741-755 | `includes` finds a word that occurs at some position |
| Js.ContainsFound | src/controllers/gameController.js:741-755 | `includes` finds a word only where it occurs at some position |
| CourseController.Record | src/controllers/courseController.js:189-201 | a recorded answer earns either nothing or the question's full marks, and is correct iff it was graded correct |
| CourseController.Known | src/controllers/courseController.js:175-176 | only answers to existing questions are kept |
| CourseController.ProcessTotals | src/controllers/courseController.js:170-202 | the total is the sum of the marks of the answered, existing questions; the obtained marks are the sum over the records |
| CourseController.ProcessRecordsKnown | src/controllers/courseController.js:174-201 | there is one record per answer to an existing question, in order, each recording that answer |
| CourseController.ProcessFailsIffSomeThrows | src/controllers/courseController.js:174-187 | grading fails iff some answer to an existing question throws |
| CourseController.ObtainedWithinTotal | src/controllers/courseController.js:178-192 | with non-negative marks, 0 <= obtained <= total |
| CourseController.GradeAnswers | src/controllers/courseController.js:170-202 | the grading loop computes exactly the tally `Process` specifies |
| CourseController.NoneStaysNone | src/controllers/courseController.js:174-202 | once an answer throws, later answers cannot rescue the submission |
| CourseController.Threshold | src/controllers/courseController.js:205 | a missing or zero passing score means 70, else the stored one |
| CourseController.Percentage | src/controllers/courseController.js:204 | with positive total, percentage × total = 100 × obtained; else 0 |
| CourseController.PassedIff | src/controllers/courseController.js:204-205 | with positive total, pass iff 100 × obtained >= threshold × total; with no marks, pass iff the threshold is at most 0 |
| CourseController.BothRightPasses | src/controllers/courseController.js:204-205 | 20 of 20 marks is 100% and passes at 70 |
| CourseController.HalfRightFails | src/controllers/courseController.js:204-205 | 10 of 20 marks is 50% and fails at 70 |
| CourseController.ProgressIndex | src/controllers/courseController.js:231 | -1 iff the user has no entry for the course; otherwise the first such entry |
| CourseController.CreditModule | src/controllers/courseController.js:229-244 | no entry, or the module already completed: user unchanged. Otherwise the module is appended to that entry, the percentage becomes completed/total × 100, the total score rises by the obtained marks, and nothing else changes |
| CourseController.CreditIdempotent | src/controllers/courseController.js:233 | passing the same module again changes nothing |
| CourseController.SameCoursesSameIndex | src/controllers/courseController.js:231 | rewriting entries without changing their course ids keeps the entry found |
| CourseController.CreditKeepsModulesDistinct | src/controllers/courseController.js:233-234 | completed modules stay free of duplicates |
| CourseController.EnrolThenPass | src/controllers/courseController.js:229-244 | right after enrolment, passing a module credits it as the only completed module, at 100/moduleCount percent |
| CourseController.FirstIndexAfterAppend | src/controllers/courseController.js:231 | the entry appended at enrolment is the one found |
| CourseController.ModuleCountPositive | src/controllers/courseController.js:237 | the module count of a module's course is never 0, so the progress division is defined |
| CourseController.SubmitQuizAttempt | src/controllers/courseController.js:156-245 | missing module or course: 404, no change; missing answers, grading that throws, a missing `timeTaken` or an invalid status: 500, no change. Otherwise the attempt is appended, numbered one past the user's earlier attempts on the module. A pass credits the user through `CreditModule`; a missing user after the write gives 500. Courses, modules and questions never change, and the invariant is kept |
| CourseController.NewAttempt | src/controllers/courseController.js:218-231 | the attempt carries the graded answers, the obtained and total marks, the given number and the user, module and course ids |
| CourseController.RecordAttempt | src/controllers/courseController.js:207-244 | the attempt is appended with number one past the user's earlier attempts on the module; a fail replies with it and leaves users alone; a pass without the user gives 500, a pass with the user credits the module to that user only; courses, modules and questions are unchanged and the invariant is kept |
| CourseController.StoreAttempt | src/controllers/courseController.js:213-226 | `Attempt.create` appends exactly the new attempt, numbered one past the user's earlier attempts on the module, keeps the store's invariant and changes nothing else |
| CourseController.StoreCredit | src/controllers/courseController.js:243 | `user.save()` replaces only the credited user, by `CreditModule` of the stored record, keeps the invariant and changes nothing else |
| GameController.GameIndex | src/controllers/gameController.js:253 | -1 iff there is no entry of the type; otherwise the first one |
| GameController.IndexAfterAppend | src/controllers/gameController.js:259-264 | a new entry appended for a missing type is found at the end |
| GameController.IndexAfterReplace | src/controllers/gameController.js:256-257 | updating an entry in place keeps every type's position |
| GameController.CountAfterAppend | src/controllers/gameController.js:849-851 | appending adds one to the count of its type only |
| GameController.CountAfterReplace | src/controllers/gameController.js:849-851 | updating an entry in place keeps every count |
| GameController.NoIndexNoCount | src/controllers/gameController.js:849-851 | no entry found means a count of 0 |
| GameController.AppendFreshKeepsWellFormed | src/controllers/gameController.js:259-264 | adding an entry for a missing type keeps at most one entry per type and levels in 1..10 |
| GameController.ReplaceKeepsWellFormed | src/controllers/gameController.js:256-257 | updating an entry in place with a level in 1..10 keeps the same |
| GameController.EntryScore | src/controllers/gameController.js:311 | the story entry's score, or 0 without one |
| GameController.StoryVisitEffect | src/controllers/gameController.js:253-265 | opening the story game raises the existing entry's level by one, capped at 10, and its score by 5, or adds a level-1 entry worth 5; other entries stay, and at most one entry per type is kept |
| GameController.StoryLevelStaysCapped | src/controllers/gameController.js:256 | at level 10 the level stays 10 and the score still rises by 5 |
| GameController.EnsureEntryIdempotent | src/controllers/gameController.js:469-478 | opening the scenario or kit game adds its entry at most once |
| GameController.EnsureEntryKeepsWellFormed | src/controllers/gameController.js:667-676 | opening a game keeps at most one entry per type |
| GameController.AwardPointsEffect | src/controllers/gameController.js:530-534 | with an entry of the type, its score and the total score both move by the points, its level is kept and the time stamped; without one the user is unchanged; nothing else changes |
| GameController.PointsForChoice | src/controllers/gameController.js:298 | 10 iff the choice is strictly the number 1; 5 iff strictly the number 2; -5 otherwise |
| GameController.ChoiceMustBeANumber | src/controllers/gameController.js:298 | the strings "1" and "2" earn -5; the numbers earn 10 and 5 |
| GameController.ChoiceFeedbackByOutcome | src/controllers/gameController.js:312 | choice 1 reads "Excellent choice!", choice 2 "Good thinking!", anything else "Let's learn from this choice!" |
| GameController.StoryChoiceNeverLowersScore | src/controllers/gameController.js:300-302 | a story choice never lowers the entry's score or the total score |
| GameController.ScenarioPointsAppend | src/controllers/gameController.js:510-520 | scenario points and the count of essential items add up over concatenation |
| GameController.UnscoredItemIgnored | src/controllers/gameController.js:510-520 | an item of an unscored category changes neither points nor counters |
| GameController.CountCategory | src/controllers/gameController.js:511-519 | the `correctItems` and `incorrectItems` counters never exceed the number of items |
| GameController.CountCategoryExtremes | src/controllers/gameController.js:511-519 | a counter is 0 iff no item has its category, and equals the number of items iff every item has it |
| GameController.CorrectPlusIncorrectAtMostAll | src/controllers/gameController.js:510-520 | correct plus incorrect items never exceed the items selected |
| GameController.ScoreScenarioItems | src/controllers/gameController.js:506-520 | the loop's score and counters equal the specified sums and counts |
| GameController.TimeBonus | src/controllers/gameController.js:523 | 10 iff under 180 s; 5 iff 180..239 s; 0 from 240 s or with no time given |
| GameController.ScenarioFeedbackBands | src/controllers/gameController.js:546 | the verdict is "Excellent!" iff the score is above 40, "Good job!" iff it is in 21..40, "Keep learning!" otherwise |
| GameController.FloodScenarioExample | test_examples.js:171-175 | the two flood items at 180 s score 23 with "Good job!" |
| GameController.AnyNamed | src/controllers/gameController.js:747-755 | true iff some item's lower-cased name contains the word |
| GameController.EvaluateAppend | src/controllers/gameController.js:735-756 | one more item adds its days to water or food and sets the flags its name triggers; the essential count rises iff it is essential |
| GameController.AddWaterOnly | src/controllers/gameController.js:741-743 | an item whose name holds "water" and no other keyword adds exactly its days to the water total and changes nothing else |
| GameController.AddFoodOnly | src/controllers/gameController.js:744-746 | an item whose name holds "food" and no other keyword adds exactly its days to the food total and changes nothing else |
| GameController.AddFlashlightOnly | src/controllers/gameController.js:747-749 | an item whose name holds "flashlight" and no other keyword sets the flashlight flag and changes nothing else |
| GameController.WaterBottlesWords | src/controllers/gameController.js:741-755 | the lower-case name "water bottles" triggers the water check and none of the others |
| GameController.CannedFoodWords | src/controllers/gameController.js:741-755 | the lower-case name "canned food" triggers the food check and none of the others |
| GameController.FlashlightWords | src/controllers/gameController.js:741-755 | the lower-case name "flashlight" triggers the flashlight check and none of the others |
| GameController.ScanKitItem | src/controllers/gameController.js:741-755 | one item's keyword checks update the evaluation as specified |
| GameController.ScanCommutes | src/controllers/gameController.js:735-756 | the evaluation does not depend on the order the items are looked at, and a flag once set stays set |
| GameController.EssentialCount | src/controllers/gameController.js:736-739 | `essentialsCovered` never exceeds the number of items |
| GameController.EssentialCountExtremes | src/controllers/gameController.js:736-739 | `essentialsCovered` is 0 iff no item is essential, and equals the number of items iff every item is |
| GameController.EvaluateKitItems | src/controllers/gameController.js:735-756 | the loop counts essentials, scores 10 per essential and builds the specified evaluation |
| GameController.SurvivalIsScarcer | src/controllers/gameController.js:759 | the survival days are those of the scarcer of water and food |
| GameController.SurvivalBonus | src/controllers/gameController.js:762-763 | 20 iff 3 days or more; 10 iff 1..2 days; 0 otherwise |
| GameController.FlagBonus | src/controllers/gameController.js:765-767 | each of the flashlight, first-aid and radio flags is worth 10 on its own; the bonus is 0 iff no flag is set and 30 iff all three are |
| GameController.BudgetAdjustment | src/controllers/gameController.js:769-772 | +15 iff the cost is 80..100; -10 iff over 100; 0 below 80 or with no cost |
| GameController.KitScoreBounds | src/controllers/gameController.js:735-772 | the kit score lies in -10 .. 10 × items + 65 and is negative only when over budget |
| GameController.EmptyKitOverBudget | src/controllers/gameController.js:769-772 | an empty kit over budget scores -10 |
| GameController.ApplyKitRules | src/controllers/gameController.js:759-772 | the rules after the loop add the survival, flag and budget bonuses |
| GameController.Grade | src/controllers/gameController.js:812 | A iff 70+, B iff 50..69, C iff 30..49, D below 30 |
| GameController.KitFeedback | src/controllers/gameController.js:775-791 | three lines; each says the good thing iff its condition holds (3+ days, 4+ essentials, cost at most 100) |
| GameController.SampleKitExample | test_examples.js:201-206 | items named water bottles, canned food and flashlight (in any letter case) with a cost of 50 give 3 water days, 7 food days, a flashlight, score 60 and grade B |
| GameController.Rank | src/controllers/gameController.js:844-846 | Expert iff 1000+, Advanced iff 500..999, Intermediate iff 200..499, Beginner below |
| GameController.Achievements | src/controllers/gameController.js:849-856 | each achievement is listed iff its count or score threshold is met; nothing else is listed, and the listed ones follow the fixed order Story Master, Scenario Expert, Kit Builder, Century Club (so none twice) |
| GameController.BadgeNamesDistinct | src/controllers/gameController.js:853-856 | the four achievements are reported under four different names |
| GameController.MasteryAchievementsUnreachable | src/controllers/gameController.js:849-854 | with at most one entry per type, "Story Master" and "Scenario Expert" are never earned |
| GameController.GetStoryGame | src/controllers/gameController.js:251-265 | a missing user gives 500; otherwise the user's entries become the story visit's result and the reply is the story level |
| GameController.ProcessStoryChoice | src/controllers/gameController.js:293-312 | a missing user gives 500; otherwise the user gains the non-negative part of the choice's points (when there is a story entry), and the reply carries the points, the entry score and the feedback |
| GameController.OpenGame | src/controllers/gameController.js:467-478 | a missing user gives 500; otherwise the scenario or kit entry exists afterwards, and the reply is its level |
| GameController.SubmitScenarioResponse | src/controllers/gameController.js:503-536 | missing items or a missing user give 500 with no change; otherwise the scenario score is computed and its non-negative part awarded |
| GameController.ScoreKit | src/controllers/gameController.js:735-792 | score, evaluation, survival days and feedback computed by the loop and rules are exactly those of the specification functions `KitScore`, `Evaluate`, `SurvivalDays` and `KitFeedback` |
| GameController.StoreAward | src/controllers/gameController.js:530-535 | only this user's record changes, to the awarded user, and the invariant is kept |
| GameController.EvaluateKit | src/controllers/gameController.js:718-800 | missing items or a missing user give 500 with no change; otherwise the kit score, feedback and grade are computed and the score (even a negative one) awarded |
| GameController.GetGameStats | src/controllers/gameController.js:833-856 | a missing user gives 500; otherwise the reply holds the user's total score, number of entries, the entries themselves, the rank and the achievements, and never the two mastery badges |
| UserController.Lookup | src/controllers/userController.js:103 | some iff the id is stored, with that user |
| UserController.StudentGuard | src/controllers/userController.js:105-115 | 404 iff the user is missing or not a student; 403 iff it is a student the requester neither created nor administers; otherwise the request proceeds |
| UserController.GuardIgnoresOtherTeachers | src/controllers/userController.js:110-115 | the creator and any admin pass, a non-admin who is not the creator gets 403 |
| UserController.NewStudent | src/controllers/userController.js:29-37 | a new account is a student created by the requester, storing only the password hash, with no progress |
| UserController.CreateKeepsEmailsDistinct | src/controllers/userController.js:19-22 | refusing an email in use keeps emails unique |
| UserController.NewDob | src/controllers/userController.js:120 | an update writes a date only for a non-empty `dob`, and then exactly its cast; none when the cast rejects it |
| UserController.CreateStudentAccount | src/controllers/userController.js:12-37 | a missing field gives 400 before any lookup; an email in use gives 400; a `dob` that does not cast to a date gives 500; all leave the store unchanged. Success happens exactly otherwise, and adds exactly the new student with the cast date; the other collections and email uniqueness are kept |
| UserController.MyStudents | src/controllers/userController.js:64-67 | exactly the students whose creator is the requester |
| UserController.ListedStudentsPassGuard | src/controllers/userController.js:64-67 | every listed student passes the requester's guard |
| UserController.CreatedStudentIsListed | src/controllers/userController.js:29-37 | a student the requester creates joins the requester's list, and nothing else does |
| UserController.OthersStudentsNotListed | src/controllers/userController.js:64-67 | an account created by someone else leaves the requester's list unchanged |
| UserController.UpdateKeepsIdentity | src/controllers/userController.js:118-121 | an update keeps role, creator, password hash, progress and score, so the guard answers as before |
| UserController.UpdateSetsGivenFields | src/controllers/userController.js:118-121 | each non-empty field takes the new value (for `dob`, the cast date); each missing or empty one keeps the old |
| UserController.UpdateIdempotent | src/controllers/userController.js:118-121 | repeating an update changes nothing; an empty update changes nothing |
| UserController.UpdateKeepsEmailsDistinct | src/models/User.js:5 | setting an email no other account has keeps emails unique |
| UserController.AssignFields | src/controllers/userController.js:118-121 | the four guarded assignments produce the record `ApplyUpdate` describes |
| UserController.UpdateStudent | src/controllers/userController.js:103-123 | guard errors leave the store unchanged; a given `dob` that does not cast to a date, or an email another account has, gives 500 with no change; success happens exactly otherwise, and only this student changes, to the updated record with the cast date |
| UserController.DeletedStudentIsGone | src/controllers/userController.js:164 | after deletion the guard answers 404 and the student leaves the creator's list |
| UserController.DeleteStudent | src/controllers/userController.js:150-164 | guard errors leave the store unchanged; otherwise exactly this user is removed |
| UserController.SetPassword | src/controllers/userController.js:202 | only the password hash changes, to the new one |
| UserController.ResetStudentPassword | src/controllers/userController.js:182-203 | a missing new password gives 400 before any lookup; guard errors follow; all leave the store unchanged. Otherwise only this student's hash changes |
| UserController.ResetKeepsLists | src/controllers/userController.js:202 | a password reset leaves every teacher's list unchanged |

Definitions with no contract of their own are given their meaning by the rows above:
`Js.StrictEquals` by `Js.StrictEqualsIsPrimitiveEquality`; `Js.Contains` by `Js.ContainsAt` and `Js.ContainsFound`;
`FileDb.Matches` (src/config/filedb.js:60-67, 78, 92) by `FileDb.Filter`, `FileDb.EmptyQueryMatches` and `FileDb.FindIndex`;
`Attempts.StatusName` by `Attempts.ParseStatus` and `Attempts.StatusNameRoundTrip`;
`Attempts.SortsBefore` (src/models/Attempt.js:82) by `Attempts.BestAttempt`;
`CourseController.Step` and `CourseController.Process` (src/controllers/courseController.js:170-202) by `CourseController.ProcessTotals`, `CourseController.ProcessRecordsKnown`, `CourseController.ProcessFailsIffSomeThrows`, `CourseController.NoneStaysNone` and `CourseController.GradeAnswers`;
`CourseController.IsPassed` (src/controllers/courseController.js:205) by `CourseController.PassedIff`;
`CourseController.ModuleCount` (src/controllers/courseController.js:237) by `CourseController.ModuleCountPositive`;
`CourseController.Gradable` by `CourseController.SubmitQuizAttempt`;
`GameController.StoryVisit` by `GameController.StoryVisitEffect` and `GameController.StoryLevelStaysCapped`;
`GameController.EnsureEntry` by `GameController.EnsureEntryIdempotent` and `GameController.EnsureEntryKeepsWellFormed`;
`GameController.AwardPoints` by `GameController.AwardPointsEffect`;
`GameController.ScenarioPoints` and `GameController.ScenarioScore` (src/controllers/gameController.js:510-524) by `GameController.ScenarioPointsAppend`, `GameController.UnscoredItemIgnored`, `GameController.TimeBonus` and `GameController.ScoreScenarioItems`;
`GameController.ScenarioFeedback` by `GameController.ScenarioFeedbackBands`;
`GameController.ChoiceFeedback` by `GameController.ChoiceFeedbackByOutcome`;
`GameController.Scanned` and `GameController.Evaluate` by `GameController.EvaluateAppend`, `GameController.ScanCommutes` and `GameController.EvaluateKitItems`;
`GameController.KitScore` by `GameController.KitScoreBounds`, `GameController.ScoreKit` and `GameController.SampleKitExample`;
`GameController.SurvivalDays` by `GameController.SurvivalIsScarcer`;
`GameController.BadgeName` and `GameController.BadgeOrder` by `GameController.BadgeNamesDistinct` and `GameController.Achievements`;
`UserController.ApplyUpdate` by `UserController.UpdateKeepsIdentity`, `UserController.UpdateSetsGivenFields`, `UserController.UpdateIdempotent` and `UserController.AssignFields`;
`UserController.DobRejected` by `UserController.NewDob`, `UserController.CreateStudentAccount` and `UserController.UpdateStudent`;
`UserController.MayManage` by `UserController.StudentGuard`;
`UserController.EmailTakenByOther` by `UserController.UpdateKeepsEmailsDistinct` and `UserController.UpdateStudent`;
`UserController.CreateFieldsGiven` (src/controllers/userController.js:12) and `UserController.EmailTaken` (src/controllers/userController.js:19) by `UserController.CreateStudentAccount` and `UserController.CreateKeepsEmailsDistinct`;
`UserController.EmailsDistinct` by `UserController.CreateKeepsEmailsDistinct` and `UserController.UpdateKeepsEmailsDistinct`;
`CourseController.Normalize` (src/controllers/courseController.js:186) by `CourseController.FillBlankCorrectIff`, `CourseController.NormalizesTo`, `CourseController.SameUpToCaseAndSpaces` and `CourseController.FillBlankIgnoresCaseAndSpaces`;
`CourseController.MayCreateCourse` (src/controllers/courseController.js:15-17), `CourseController.OrDefault`, `Models.IsCategory` and `Models.IsDifficulty` by `CourseController.CreateCourse`;
`CourseController.PatchValid` by `CourseController.UpdateCourse`;
`CourseController.SumMarks`, `CourseController.SumObtained` and `CourseController.Records` by `CourseController.ProcessTotals` and `CourseController.ProcessRecordsKnown`;
`CourseController.AttemptRecorded` by `CourseController.RecordAttempt` and `CourseController.SubmitQuizAttempt`;
`Models.CountGames` (src/controllers/gameController.js:849-851) by `GameController.CountAfterAppend`, `GameController.CountAfterReplace`, `GameController.NoIndexNoCount`, `GameController.Achievements` and `GameController.MasteryAchievementsUnreachable`;
`Models.GamesWellFormed` by `GameController.AppendFreshKeepsWellFormed`, `GameController.ReplaceKeepsWellFormed` and `GameController.EnsureEntryKeepsWellFormed`;
`Attempts.IsFor` by `Attempts.CountFor` and `Attempts.AttemptsFor`; `Attempts.WellNumbered` by `Attempts.AppendKeepsNumbering` and `Attempts.NumbersAreConsecutive`;
`QuizQuestions.OptionTextsGiven` by `QuizQuestions.NewQuestion`; `QuizQuestions.IsChoice` by `QuizQuestions.ValidateForSave`;
`GameController.Scored` by `GameController.UnscoredItemIgnored`;
`GameController.NameHas`, `GameController.IsFood` and `GameController.Keywords` (src/controllers/gameController.js:741-755) by `GameController.AnyNamed`, `GameController.EvaluateAppend` and `GameController.AddWaterOnly`, `GameController.AddFoodOnly`, `GameController.AddFlashlightOnly`;
`GameController.WaterDays` and `GameController.FoodDays` (src/controllers/gameController.js:741-746) by `GameController.EvaluateAppend`, `GameController.AddWaterOnly`, `GameController.AddFoodOnly` and `GameController.EvaluateKitItems`;
`GameController.ScoreOf` (src/controllers/gameController.js:762-772) by `GameController.ApplyKitRules`, `GameController.KitScoreBounds` and `GameController.SampleKitExample`.

## Left out

- GameController.TimeBonus: `None` stands for a `timeTaken` the request does not carry. An explicit JSON `null` compares as 0 in the program (`null < 180` holds, so it earns 10), and a value of another JSON type (a string, say) is converted before comparing. Neither case is modelled: the time is a number or absent.
- GameController.KitFeedback: `None` stands for a missing `totalCost`. An explicit `null` compares as 0 in the program, so `null <= 100` holds and the budget line reads "within budget", while the model gives the over-budget line. Costs of other JSON types are not modelled either. `BudgetAdjustment` is unaffected, since a `null` cost gives 0 there as a missing one does.
- CourseController.Record: for a choice question with no correct option, the program stores `isCorrect` as `undefined` (the short-circuited `correctOption && …`), which the schema leaves unset. The model stores `false`. The marks, 0 in both, agree.
- Floating point: percentages, progress percentages and the budget ratio are exact rationals. The model does not reproduce binary rounding, e.g. 0.57 × 100 printing as 56.99999999999999. `CourseController.Percentage` and `CourseController.IsPassed` can therefore differ from the program on inputs where a float rounds across the threshold.
- Case folding is ASCII only: `toLowerCase` on non-ASCII letters is the identity here.
- Password hashing (bcrypt) and token handling (JWT) are replaced by parameters: the hash the program computes arrives as `passwordHash` or `newHash`.
- File-system and database failures: a failed read other than a missing or unparsable file, a failed write, a lost connection. The catch-all 500 for those is not modelled. The `writeCollection` result is ignored by the store, as in the program.
- Routing, the authentication middleware, response shaping (populated references, selected fields, message texts), and `getAllStudents` are not part of this model. `UserController.MyStudents` returns ids; the handler's projection that drops `passwordHash` is not modelled. src/controllers/authController.js is not part of this model.
- The static content tables of the games (stories, scenarios, kit sets per disaster type, and the fallback for an unknown disaster type) are data, not logic, and are left out.
- `CourseController.UpdateCourse`: the body fields modelled are title, description, category, difficulty, `isPublished`, the creator, the module list and the enrolments; the remaining schema fields (target age, duration, tags, thumbnail, module count) are not, nor their cast errors.
- CourseController.CreateCourse: only title, description, category and difficulty are read from the body; the schema's other fields take their defaults, and the cast errors a malformed value for them would raise (500) are not modelled.
- Identifiers are natural numbers. A malformed ObjectId in a path or body makes `findById` throw a cast error, which the handlers answer with 500 rather than the 404 of their guards (for example UserController.UpdateStudent, UserController.DeleteStudent, UserController.ResetStudentPassword, CourseController.SubmitQuizAttempt); that path is not modelled.
- FileDb.StoredFile: a collection file is either a parsed array or unparsable text. A file whose JSON parses to something other than an array (an object, a number, `null`) makes `filter`, `findIndex` and `push` throw in the store; that case is not modelled.
- Date parsing: the cast of a `dob` string to a date is the parameter `castDate` of UserController.CreateStudentAccount and UserController.UpdateStudent; which strings JavaScript's date parser accepts is not modelled.
- `CourseController.GradeAnswer`: the selected option is compared as a string; a numeric `selectedOption` (never strictly equal to an option's text) is not modelled.
- Kit and scenario items carry integer points and days. Fractional values, and a kit item without a name (which makes the handler throw), are not modelled.
- The unique index on `email` is modelled only where it changes an outcome: an update to an email another account has gives 500. Creation checks first, so the index never fires there.
- Concurrency: two requests interleaving their read-modify-write steps are not modelled; each handler runs atomically.
- Documents keyed by prototype properties (`__proto__` and the like) are not modelled; a document is a plain map.
