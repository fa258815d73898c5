/**
 * Course handlers: creating, updating and deleting courses, enrolment, and the
 * grading of a module quiz with the learner-progress update that follows it.
 */
module CourseController {
  import opened Base
  import opened Js
  import opened QuizQuestions
  import opened Attempts
  import opened Models

  // ------------------------------------------------------------------------
  // Authorisation guards
  // ------------------------------------------------------------------------

  /** Only teachers and admins may create courses. */
  predicate MayCreateCourse(role: Role)
  {
    role == Teacher || role == Admin
  }

  /**
   * The guard of `updateCourse` and `deleteCourse`: 404 for a missing course,
   * then 403 unless the requester created it or is an admin; `None` lets the
   * request through.
   */
  function CourseGuard(course: Option<Course>, requester: Requester): (r: Option<int>)
    ensures r == Some(NotFound) <==> course.None?
    ensures r == Some(Forbidden) <==> course.Some? && course.value.createdBy != requester.id && requester.role != Admin
    ensures r.None? <==> course.Some? && (course.value.createdBy == requester.id || requester.role == Admin)
  {
    match course
    case None => Some(NotFound)
    case Some(c) => if c.createdBy != requester.id && requester.role != Admin then Some(Forbidden) else None
  }

  /** The enumerated fields of a new course, with their schema defaults. */
  function OrDefault(s: Option<string>, default: string): string
  {
    if s.None? then default else s.value
  }

  method CreateCourse(db: Database, requester: Requester, newId: Id, title: Option<string>,
                      description: Option<string>, category: Option<string>, difficulty: Option<string>)
    returns (reply: Reply<Course>)
    requires newId !in db.courses
    modifies db
    ensures !MayCreateCourse(requester.role) ==> reply == Error(Forbidden) && unchanged(db)
    ensures MayCreateCourse(requester.role)
            && !(Present(title) && Present(description)
                 && IsCategory(OrDefault(category, "general")) && IsDifficulty(OrDefault(difficulty, "beginner")))
            ==> reply == Error(ServerError) && unchanged(db)
    ensures reply.Ok? ==>
              && reply.value == Course(title.value, description.value, requester.id, [],
                                       OrDefault(category, "general"), OrDefault(difficulty, "beginner"), [], false)
              && db.courses == old(db.courses)[newId := reply.value]
              && db.users == old(db.users) && db.modules == old(db.modules)
              && db.questions == old(db.questions) && db.attempts == old(db.attempts)
    ensures MayCreateCourse(requester.role) && Present(title) && Present(description)
            && IsCategory(OrDefault(category, "general")) && IsDifficulty(OrDefault(difficulty, "beginner"))
            ==> reply.Ok?
  {
    if !MayCreateCourse(requester.role) {
      return Error(Forbidden);
    }
    var cat := OrDefault(category, "general");
    var diff := OrDefault(difficulty, "beginner");
    if !(Present(title) && Present(description) && IsCategory(cat) && IsDifficulty(diff)) {
      return Error(ServerError);
    }
    var course := Course(title.value, description.value, requester.id, [], cat, diff, [], false);
    db.courses := db.courses[newId := course];
    reply := Ok(course);
  }

  /**
   * The course fields a request body may carry into `findByIdAndUpdate`:
   * the whole body is passed on, so besides the descriptive fields it may
   * rewrite the creator, the module list and the enrolments.
   */
  datatype CoursePatch = CoursePatch(
    title: Option<string>,
    description: Option<string>,
    category: Option<string>,
    difficulty: Option<string>,
    isPublished: Option<bool>,
    createdBy: Option<Id>,
    modules: Option<seq<Id>>,
    enrolledStudents: Option<seq<Id>>)

  /** `runValidators` on the update: required strings stay non-empty, enumerations stay in range. */
  predicate PatchValid(p: CoursePatch)
  {
    && (p.title.Some? ==> p.title.value != "")
    && (p.description.Some? ==> p.description.value != "")
    && (p.category.Some? ==> IsCategory(p.category.value))
    && (p.difficulty.Some? ==> IsDifficulty(p.difficulty.value))
  }

  /** `$set` of the body's fields: each field the patch carries is replaced, every other one kept. */
  function ApplyPatch(c: Course, p: CoursePatch): (r: Course)
    ensures r.title == (if p.title.Some? then p.title.value else c.title)
    ensures r.description == (if p.description.Some? then p.description.value else c.description)
    ensures r.category == (if p.category.Some? then p.category.value else c.category)
    ensures r.difficulty == (if p.difficulty.Some? then p.difficulty.value else c.difficulty)
    ensures r.isPublished == (if p.isPublished.Some? then p.isPublished.value else c.isPublished)
    ensures r.createdBy == (if p.createdBy.Some? then p.createdBy.value else c.createdBy)
    ensures r.modules == (if p.modules.Some? then p.modules.value else c.modules)
    ensures r.enrolledStudents == (if p.enrolledStudents.Some? then p.enrolledStudents.value else c.enrolledStudents)
  {
    c.(title := OrDefault(p.title, c.title),
       description := OrDefault(p.description, c.description),
       category := OrDefault(p.category, c.category),
       difficulty := OrDefault(p.difficulty, c.difficulty),
       isPublished := if p.isPublished.None? then c.isPublished else p.isPublished.value,
       createdBy := if p.createdBy.None? then c.createdBy else p.createdBy.value,
       modules := if p.modules.None? then c.modules else p.modules.value,
       enrolledStudents := if p.enrolledStudents.None? then c.enrolledStudents else p.enrolledStudents.value)
  }

  /** A patch of the descriptive fields alone keeps the creator, the modules and the enrolments. */
  lemma DescriptivePatchKeepsOwnership(c: Course, p: CoursePatch, requester: Requester)
    requires p.createdBy.None? && p.modules.None? && p.enrolledStudents.None?
    ensures var r := ApplyPatch(c, p);
            && r.createdBy == c.createdBy && r.modules == c.modules && r.enrolledStudents == c.enrolledStudents
            && CourseGuard(Some(r), requester) == CourseGuard(Some(c), requester)
  {
  }

  /**
   * Nothing stops an update from naming a new creator: afterwards the old
   * creator, unless an admin, is refused the course and the new one is let in.
   */
  lemma PatchCanHandOverCourse(c: Course, p: CoursePatch, owner: Requester, newOwner: Requester)
    requires CourseGuard(Some(c), owner).None? && owner.role != Admin
    requires p.createdBy == Some(newOwner.id) && newOwner.id != owner.id
    ensures CourseGuard(Some(ApplyPatch(c, p)), owner) == Some(Forbidden)
    ensures CourseGuard(Some(ApplyPatch(c, p)), newOwner).None?
  {
  }

  /** Applying the same patch twice is the same as applying it once. */
  lemma PatchIdempotent(c: Course, p: CoursePatch)
    ensures ApplyPatch(ApplyPatch(c, p), p) == ApplyPatch(c, p)
  {
  }

  method UpdateCourse(db: Database, requester: Requester, courseId: Id, patch: CoursePatch)
    returns (reply: Reply<Course>)
    modifies db
    ensures var course := if courseId in old(db.courses) then Some(old(db.courses)[courseId]) else None;
            CourseGuard(course, requester).Some? ==> reply == Error(CourseGuard(course, requester).value) && unchanged(db)
    ensures courseId in old(db.courses) && CourseGuard(Some(old(db.courses)[courseId]), requester).None? ==>
              if PatchValid(patch) then
                && reply == Ok(ApplyPatch(old(db.courses)[courseId], patch))
                && db.courses == old(db.courses)[courseId := reply.value]
                && db.users == old(db.users) && db.modules == old(db.modules)
                && db.questions == old(db.questions) && db.attempts == old(db.attempts)
              else reply == Error(ServerError) && unchanged(db)
  {
    var course := if courseId in db.courses then Some(db.courses[courseId]) else None;
    var refusal := CourseGuard(course, requester);
    if refusal.Some? {
      return Error(refusal.value);
    }
    if !PatchValid(patch) {
      return Error(ServerError);
    }
    var updated := ApplyPatch(course.value, patch);
    db.courses := db.courses[courseId := updated];
    reply := Ok(updated);
  }

  method DeleteCourse(db: Database, requester: Requester, courseId: Id) returns (reply: Reply<()>)
    modifies db
    ensures var course := if courseId in old(db.courses) then Some(old(db.courses)[courseId]) else None;
            CourseGuard(course, requester).Some? ==> reply == Error(CourseGuard(course, requester).value) && unchanged(db)
    ensures courseId in old(db.courses) && CourseGuard(Some(old(db.courses)[courseId]), requester).None? ==>
              && reply == Ok(())
              && db.courses == old(db.courses) - {courseId}
              && db.users == old(db.users) && db.modules == old(db.modules)
              && db.questions == old(db.questions) && db.attempts == old(db.attempts)
  {
    var course := if courseId in db.courses then Some(db.courses[courseId]) else None;
    var refusal := CourseGuard(course, requester);
    if refusal.Some? {
      return Error(refusal.value);
    }
    db.courses := db.courses - {courseId};
    reply := Ok(());
  }

  // ------------------------------------------------------------------------
  // Enrolment
  // ------------------------------------------------------------------------

  /** The course's first module, if it has any. */
  function FirstModule(modules: seq<Id>): (r: Option<Id>)
    ensures r.None? <==> modules == []
    ensures r.Some? ==> r.value == modules[0]
  {
    if modules == [] then None else Some(modules[0])
  }

  /** The user after enrolling: the course is recorded and an empty progress entry added. */
  function EnrolledUser(u: User, courseId: Id, course: Course): (r: User)
    ensures r.enrolledCourses == u.enrolledCourses + [courseId]
    ensures r.courseProgress == u.courseProgress + [CourseProgress(courseId, [], FirstModule(course.modules), 0.0)]
    ensures r.gameProgress == u.gameProgress && r.totalScore == u.totalScore
    ensures r.role == u.role && r.createdBy == u.createdBy && r.passwordHash == u.passwordHash
    ensures r.(enrolledCourses := u.enrolledCourses, courseProgress := u.courseProgress) == u
  {
    u.(enrolledCourses := u.enrolledCourses + [courseId],
       courseProgress := u.courseProgress + [CourseProgress(courseId, [], FirstModule(course.modules), 0.0)])
  }

  /**
   * `enrollInCourse`: 404 for a missing course, 400 when already enrolled;
   * otherwise the student is added to the course, which is saved at once, and
   * then the course and a fresh progress entry are added to the user.  A user
   * record that has disappeared makes the second step fail after the first.
   */
  method EnrollInCourse(db: Database, userId: Id, courseId: Id) returns (reply: Reply<Course>)
    requires db.Valid()
    modifies db
    ensures db.Valid()
    ensures courseId !in old(db.courses) ==> reply == Error(NotFound) && unchanged(db)
    ensures courseId in old(db.courses) && userId in old(db.courses)[courseId].enrolledStudents ==>
              reply == Error(BadRequest) && unchanged(db)
    ensures courseId in old(db.courses) && userId !in old(db.courses)[courseId].enrolledStudents ==>
              var c := old(db.courses)[courseId];
              var enrolled := c.(enrolledStudents := c.enrolledStudents + [userId]);
              && db.courses == old(db.courses)[courseId := enrolled]
              && db.modules == old(db.modules) && db.questions == old(db.questions)
              && db.attempts == old(db.attempts)
              && (userId in old(db.users) ==>
                    reply == Ok(enrolled)
                    && db.users == old(db.users)[userId := EnrolledUser(old(db.users)[userId], courseId, enrolled)])
              && (userId !in old(db.users) ==> reply == Error(ServerError) && db.users == old(db.users))
  {
    if courseId !in db.courses {
      return Error(NotFound);
    }
    var c := db.courses[courseId];
    if userId in c.enrolledStudents {
      return Error(BadRequest);
    }
    var enrolled := c.(enrolledStudents := c.enrolledStudents + [userId]);
    db.courses := db.courses[courseId := enrolled];
    if userId !in db.users {
      return Error(ServerError);
    }
    db.users := db.users[userId := EnrolledUser(db.users[userId], courseId, enrolled)];
    reply := Ok(enrolled);
  }

  // ------------------------------------------------------------------------
  // Grading one answer
  // ------------------------------------------------------------------------

  /** An answer as submitted; a field the client left out is `None`. */
  datatype SubmittedAnswer = SubmittedAnswer(
    questionId: Id,
    selectedOption: Option<string>,
    userAnswer: Option<string>,
    timeSpent: Option<int>)

  /** Position of the first option marked correct (-1 when there is none). */
  function FirstCorrectIndex(options: seq<AnswerOption>): (k: int)
    ensures -1 <= k < |options|
    ensures k == -1 <==> !HasCorrectOption(options)
    ensures k >= 0 ==> options[k].isCorrect && forall j :: 0 <= j < k ==> !options[j].isCorrect
  {
    if options == [] then -1
    else if options[0].isCorrect then 0
    else
      var k := FirstCorrectIndex(options[1..]);
      if k == -1 then -1 else k + 1
  }

  /** A fill-blank answer as compared: lower-cased, then trimmed. */
  function Normalize(s: string): string
  {
    Trim(ToLower(s))
  }

  /** `Throws`: `toLowerCase` was called on a missing string, failing the whole request. */
  datatype Verdict = Correct | Incorrect | Throws

  /** How one answer is judged against its question. */
  function GradeAnswer(q: Question, a: SubmittedAnswer): (v: Verdict)
    ensures v == Throws <==> q.questionType == FillBlank && (q.correctAnswer.None? || a.userAnswer.None?)
    ensures v == Correct ==> q.questionType != DragDrop
  {
    match q.questionType
    case MultipleChoice | TrueFalse =>
      var k := FirstCorrectIndex(q.options);
      if k >= 0 && a.selectedOption == Some(q.options[k].text) then Correct else Incorrect
    case FillBlank =>
      if q.correctAnswer.None? || a.userAnswer.None? then Throws
      else if Normalize(q.correctAnswer.value) == Normalize(a.userAnswer.value) then Correct
      else Incorrect
    case DragDrop => Incorrect
  }

  /**
   * A choice question is answered correctly exactly by the text of its first
   * correct option; a later correct option does not count.
   */
  lemma ChoiceCorrectIff(q: Question, a: SubmittedAnswer)
    requires IsChoice(q.questionType)
    ensures GradeAnswer(q, a) == Correct <==>
              exists k :: 0 <= k < |q.options| && q.options[k].isCorrect
                          && (forall j :: 0 <= j < k ==> !q.options[j].isCorrect)
                          && a.selectedOption == Some(q.options[k].text)
  {
    var k := FirstCorrectIndex(q.options);
    if GradeAnswer(q, a) == Correct {
      assert q.options[k].isCorrect && a.selectedOption == Some(q.options[k].text);
    }
    forall k' | 0 <= k' < |q.options| && q.options[k'].isCorrect
                && (forall j :: 0 <= j < k' ==> !q.options[j].isCorrect)
      ensures k' == k
    {
      if k' < k {
        assert false;
      } else if k < k' {
        assert false;
      }
    }
  }

  /** Every question that passes its save check can be answered correctly. */
  lemma SavedChoiceQuestionIsAnswerable(q: Question, id: Id)
    requires IsChoice(q.questionType) && ValidateForSave(q) == Saved
    ensures var k := FirstCorrectIndex(q.options);
            k >= 0 && GradeAnswer(q, SubmittedAnswer(id, Some(q.options[k].text), None, None)) == Correct
  {
  }

  /** A fill-blank answer is right exactly when it normalizes to the canonical answer. */
  lemma FillBlankCorrectIff(q: Question, a: SubmittedAnswer)
    requires q.questionType == FillBlank && q.correctAnswer.Some? && a.userAnswer.Some?
    ensures GradeAnswer(q, a) == Correct <==> Normalize(a.userAnswer.value) == Normalize(q.correctAnswer.value)
    ensures GradeAnswer(q, a) != Throws
  {
  }

  /**
   * What normalizing ignores: a string normalizes to `t` when, from position
   * `i` on, it spells `t` up to the case of ASCII letters and holds only white
   * space before and after.
   */
  lemma NormalizesTo(s: string, t: string, i: nat)
    requires t != [] && !IsWhitespace(t[0]) && !IsWhitespace(t[|t| - 1])
    requires i + |t| <= |s|
    requires AllWhitespace(s[..i]) && AllWhitespace(s[i + |t|..])
    requires forall k :: 0 <= k < |t| ==> LowerChar(s[i + k]) == t[k]
    ensures Normalize(s) == t
  {
    LowerShape(s, t, i);
    TrimFramed(ToLower(s), t, i);
  }

  /** Lower-casing a string framed as in `NormalizesTo` frames `t` itself. */
  lemma LowerShape(s: string, t: string, i: nat)
    requires i + |t| <= |s|
    requires AllWhitespace(s[..i]) && AllWhitespace(s[i + |t|..])
    requires forall k :: 0 <= k < |t| ==> LowerChar(s[i + k]) == t[k]
    ensures AllWhitespace(ToLower(s)[..i]) && AllWhitespace(ToLower(s)[i + |t|..])
    ensures ToLower(s)[i..i + |t|] == t
  {
    LowerPrefixWhitespace(s, i);
    LowerSuffixWhitespace(s, i + |t|);
    LowerSpells(s, t, i);
  }

  /** Trimming a string that holds `t` between white-space runs gives `t`. */
  lemma TrimFramed(l: string, t: string, i: nat)
    requires t != [] && !IsWhitespace(t[0]) && !IsWhitespace(t[|t| - 1])
    requires i + |t| <= |l|
    requires AllWhitespace(l[..i]) && AllWhitespace(l[i + |t|..])
    requires l[i..i + |t|] == t
    ensures Trim(l) == t
  {
    var j := i + |t|;
    assert l[i] == t[0] && l[j - 1] == t[|t| - 1] by {
      assert l[i..j][0] == l[i] && l[i..j][|t| - 1] == l[j - 1];
    }
    TrimBetween(l, i, j);
  }

  /** Lower-casing keeps a white-space prefix white space. */
  lemma LowerPrefixWhitespace(s: string, i: nat)
    requires i <= |s| && AllWhitespace(s[..i])
    ensures AllWhitespace(ToLower(s)[..i])
  {
    var l := ToLower(s);
    forall k | 0 <= k < i ensures IsWhitespace(l[..i][k]) {
      assert s[..i][k] == s[k];
    }
  }

  /** Lower-casing keeps a white-space suffix white space. */
  lemma LowerSuffixWhitespace(s: string, j: nat)
    requires j <= |s| && AllWhitespace(s[j..])
    ensures AllWhitespace(ToLower(s)[j..])
  {
    var l := ToLower(s);
    forall k | 0 <= k < |l| - j ensures IsWhitespace(l[j..][k]) {
      assert s[j..][k] == s[j + k];
    }
  }

  /** Lower-casing a stretch that folds to `t` character by character yields `t`. */
  lemma LowerSpells(s: string, t: string, i: nat)
    requires i + |t| <= |s|
    requires forall k :: 0 <= k < |t| ==> LowerChar(s[i + k]) == t[k]
    ensures ToLower(s)[i..i + |t|] == t
  {
    var l := ToLower(s);
    forall k | 0 <= k < |t| ensures l[i..i + |t|][k] == t[k] {
      assert l[i + k] == LowerChar(s[i + k]);
    }
  }

  /**
   * Case and surrounding white space do not matter: against an unpadded
   * canonical answer, a reply that spells it from position `i` on, up to the
   * case of ASCII letters, with only white space around it, is right.
   */
  lemma FillBlankIgnoresCaseAndSpaces(q: Question, a: SubmittedAnswer, i: nat)
    requires q.questionType == FillBlank && q.correctAnswer.Some? && a.userAnswer.Some?
    requires var c := q.correctAnswer.value;
             c != [] && !IsWhitespace(c[0]) && !IsWhitespace(c[|c| - 1])
    requires var c := q.correctAnswer.value;
             var u := a.userAnswer.value;
             && i + |c| <= |u|
             && AllWhitespace(u[..i]) && AllWhitespace(u[i + |c|..])
             && forall k :: 0 <= k < |c| ==> LowerChar(u[i + k]) == LowerChar(c[k])
    ensures GradeAnswer(q, a) == Correct
  {
    SameUpToCaseAndSpaces(a.userAnswer.value, q.correctAnswer.value, i);
    FillBlankCorrectIff(q, a);
  }

  /** The string half of the lemma above: both sides normalize to the folded canonical answer. */
  lemma SameUpToCaseAndSpaces(u: string, c: string, i: nat)
    requires c != [] && !IsWhitespace(c[0]) && !IsWhitespace(c[|c| - 1])
    requires i + |c| <= |u|
    requires AllWhitespace(u[..i]) && AllWhitespace(u[i + |c|..])
    requires forall k :: 0 <= k < |c| ==> LowerChar(u[i + k]) == LowerChar(c[k])
    ensures Normalize(u) == Normalize(c)
  {
    var t := ToLower(c);
    assert c[..0] == [] && c[|c|..] == [];
    NormalizesTo(c, t, 0);
    NormalizesTo(u, t, i);
  }

  // ------------------------------------------------------------------------
  // Grading a submission
  // ------------------------------------------------------------------------

  /** Running totals of the grading loop and the answers it has recorded. */
  datatype Tally = Tally(totalMarks: int, obtainedMarks: int, processed: seq<ProcessedAnswer>)

  /** The stored form of a graded answer. */
  function Record(q: Question, a: SubmittedAnswer, v: Verdict): (p: ProcessedAnswer)
    ensures p.marksObtained == 0 || p.marksObtained == q.marks
    ensures p.isCorrect <==> v == Correct
  {
    ProcessedAnswer(
      a.questionId,
      if a.selectedOption.None? then "" else a.selectedOption.value,
      if a.userAnswer.None? then "" else a.userAnswer.value,
      v == Correct,
      if v == Correct then q.marks else 0,
      if a.timeSpent.None? then 0 else a.timeSpent.value)
  }

  /** One turn of the grading loop; `None` when grading this answer throws. */
  function Step(questions: map<Id, Question>, t: Tally, a: SubmittedAnswer): Option<Tally>
  {
    if a.questionId !in questions then Some(t)
    else
      var q := questions[a.questionId];
      var v := GradeAnswer(q, a);
      if v == Throws then None
      else Some(Tally(t.totalMarks + q.marks,
                      t.obtainedMarks + (if v == Correct then q.marks else 0),
                      t.processed + [Record(q, a, v)]))
  }

  /** The grading loop over a whole submission, in submission order. */
  function Process(questions: map<Id, Question>, answers: seq<SubmittedAnswer>): Option<Tally>
  {
    if answers == [] then Some(Tally(0, 0, []))
    else
      match Process(questions, answers[..|answers| - 1])
      case None => None
      case Some(t) => Step(questions, t, answers[|answers| - 1])
  }

  /** The answers whose question exists, in submission order. */
  function Known(questions: map<Id, Question>, answers: seq<SubmittedAnswer>): (r: seq<SubmittedAnswer>)
    ensures |r| <= |answers|
    ensures forall j :: 0 <= j < |r| ==> r[j].questionId in questions
  {
    if answers == [] then []
    else
      var last := answers[|answers| - 1];
      Known(questions, answers[..|answers| - 1]) + (if last.questionId in questions then [last] else [])
  }

  /** The marks of every answered question that exists, counted once per answer. */
  function SumMarks(questions: map<Id, Question>, answers: seq<SubmittedAnswer>): int
  {
    if answers == [] then 0
    else
      var last := answers[|answers| - 1];
      SumMarks(questions, answers[..|answers| - 1])
        + (if last.questionId in questions then questions[last.questionId].marks else 0)
  }

  function SumObtained(processed: seq<ProcessedAnswer>): int
  {
    if processed == [] then 0
    else SumObtained(processed[..|processed| - 1]) + processed[|processed| - 1].marksObtained
  }

  /** The processed answer `p` is the graded record of the known answer `a`. */
  predicate Records(questions: map<Id, Question>, a: SubmittedAnswer, p: ProcessedAnswer)
  {
    a.questionId in questions
    && var q := questions[a.questionId];
       p == Record(q, a, GradeAnswer(q, a))
  }

  /**
   * What grading adds up: `totalMarks` sums the marks of every answered
   * question that exists (unknown questions add nothing, a question answered
   * twice counts twice), and `obtainedMarks` sums the recorded answers' marks.
   */
  lemma {:induction false} ProcessTotals(questions: map<Id, Question>, answers: seq<SubmittedAnswer>)
    requires Process(questions, answers).Some?
    ensures Process(questions, answers).value.totalMarks == SumMarks(questions, answers)
    ensures Process(questions, answers).value.obtainedMarks == SumObtained(Process(questions, answers).value.processed)
  {
    if answers != [] {
      var prefix := answers[..|answers| - 1];
      var last := answers[|answers| - 1];
      ProcessTotals(questions, prefix);
      var t0 := Process(questions, prefix).value;
      var t := Process(questions, answers).value;
      assert Process(questions, answers) == Step(questions, t0, last);
      if last.questionId in questions {
        var q := questions[last.questionId];
        var v := GradeAnswer(q, last);
        assert t.totalMarks == t0.totalMarks + q.marks;
        assert t.processed == t0.processed + [Record(q, last, v)];
        assert t.processed[..|t.processed| - 1] == t0.processed;
      } else {
        assert t == t0;
      }
    }
  }

  /** One processed answer is recorded per known answer, in submission order. */
  lemma {:induction false} ProcessRecordsKnown(questions: map<Id, Question>, answers: seq<SubmittedAnswer>)
    requires Process(questions, answers).Some?
    ensures |Process(questions, answers).value.processed| == |Known(questions, answers)|
    ensures forall j :: 0 <= j < |Known(questions, answers)| ==>
              Records(questions, Known(questions, answers)[j], Process(questions, answers).value.processed[j])
  {
    if answers != [] {
      var prefix := answers[..|answers| - 1];
      var last := answers[|answers| - 1];
      ProcessRecordsKnown(questions, prefix);
      var t0 := Process(questions, prefix).value;
      var t := Process(questions, answers).value;
      var known0 := Known(questions, prefix);
      var known := Known(questions, answers);
      if last.questionId in questions {
        var q := questions[last.questionId];
        assert known == known0 + [last];
        assert t.processed == t0.processed + [Record(q, last, GradeAnswer(q, last))];
        forall j | 0 <= j < |known|
          ensures Records(questions, known[j], t.processed[j])
        {
          if j < |known0| {
            assert known[j] == known0[j] && t.processed[j] == t0.processed[j];
          }
        }
      } else {
        assert known == known0;
      }
    }
  }

  /** A submission fails exactly when some known answer's grading throws. */
  lemma {:induction false} ProcessFailsIffSomeThrows(questions: map<Id, Question>, answers: seq<SubmittedAnswer>)
    ensures Process(questions, answers).None? <==>
              exists j :: 0 <= j < |answers| && answers[j].questionId in questions
                          && GradeAnswer(questions[answers[j].questionId], answers[j]) == Throws
  {
    if answers != [] {
      var prefix := answers[..|answers| - 1];
      ProcessFailsIffSomeThrows(questions, prefix);
      assert forall j :: 0 <= j < |prefix| ==> prefix[j] == answers[j];
    }
  }

  /** With non-negative marks, the obtained marks lie between 0 and the total. */
  lemma {:induction false} ObtainedWithinTotal(questions: map<Id, Question>, answers: seq<SubmittedAnswer>)
    requires Process(questions, answers).Some?
    requires forall id :: id in questions ==> questions[id].marks >= 0
    ensures 0 <= Process(questions, answers).value.obtainedMarks <= Process(questions, answers).value.totalMarks
  {
    if answers != [] {
      ObtainedWithinTotal(questions, answers[..|answers| - 1]);
    }
  }

  /**
   * `submitQuizAttempt`'s loop: looks each answer's question up, skips unknown
   * ones, grades the rest and accumulates the marks.
   */
  method GradeAnswers(questions: map<Id, Question>, answers: seq<SubmittedAnswer>) returns (r: Option<Tally>)
    ensures r == Process(questions, answers)
  {
    var totalMarks := 0;
    var obtainedMarks := 0;
    var processed: seq<ProcessedAnswer> := [];
    var i := 0;
    while i < |answers|
      invariant 0 <= i <= |answers|
      invariant Process(questions, answers[..i]) == Some(Tally(totalMarks, obtainedMarks, processed))
    {
      assert answers[..i + 1][..i] == answers[..i];
      var answer := answers[i];
      assert Process(questions, answers[..i + 1]) == Step(questions, Tally(totalMarks, obtainedMarks, processed), answer);
      if answer.questionId in questions {
        var question := questions[answer.questionId];
        var verdict := GradeAnswer(question, answer);
        if verdict == Throws {
          assert Process(questions, answers[..i + 1]).None?;
          assert answers[..i + 1] + answers[i + 1..] == answers;
          NoneStaysNone(questions, answers[..i + 1], answers[i + 1..]);
          return None;
        }
        totalMarks := totalMarks + question.marks;
        var marksObtained := 0;
        if verdict == Correct {
          marksObtained := question.marks;
          obtainedMarks := obtainedMarks + marksObtained;
        }
        processed := processed + [Record(question, answer, verdict)];
      }
      i := i + 1;
    }
    assert answers[..i] == answers;
    r := Some(Tally(totalMarks, obtainedMarks, processed));
  }

  /** Once grading has thrown, later answers do not matter. */
  lemma {:induction false} NoneStaysNone(questions: map<Id, Question>, done: seq<SubmittedAnswer>, rest: seq<SubmittedAnswer>)
    requires Process(questions, done).None?
    ensures Process(questions, done + rest).None?
    decreases |rest|
  {
    if rest == [] {
      assert done + rest == done;
    } else {
      var all := done + rest;
      assert all[..|all| - 1] == done + rest[..|rest| - 1];
      NoneStaysNone(questions, done, rest[..|rest| - 1]);
    }
  }

  // ------------------------------------------------------------------------
  // Percentage and verdict
  // ------------------------------------------------------------------------

  /** The module's pass threshold: a missing or zero passing score means 70. */
  function Threshold(passingScore: Option<int>): (t: int)
    ensures passingScore.None? || passingScore.value == 0 ==> t == 70
    ensures passingScore.Some? && passingScore.value != 0 ==> t == passingScore.value
  {
    if passingScore.None? || passingScore.value == 0 then 70 else passingScore.value
  }

  /** The share of marks obtained, in percent, computed exactly; 0 when there are no marks. */
  function Percentage(obtainedMarks: int, totalMarks: int): (p: real)
    ensures totalMarks > 0 ==> p * totalMarks as real == 100.0 * obtainedMarks as real
    ensures totalMarks <= 0 ==> p == 0.0
  {
    if totalMarks > 0 then (obtainedMarks as real / totalMarks as real) * 100.0 else 0.0
  }

  predicate IsPassed(obtainedMarks: int, totalMarks: int, passingScore: Option<int>)
  {
    Percentage(obtainedMarks, totalMarks) >= Threshold(passingScore) as real
  }

  /**
   * The verdict in integers: with marks, `100 * obtained >= threshold * total`;
   * without any marks, a pass only under a threshold of at most 0.
   */
  lemma PassedIff(obtainedMarks: int, totalMarks: int, passingScore: Option<int>)
    ensures totalMarks > 0 ==>
              (IsPassed(obtainedMarks, totalMarks, passingScore) <==>
               100 * obtainedMarks >= Threshold(passingScore) * totalMarks)
    ensures totalMarks <= 0 ==> (IsPassed(obtainedMarks, totalMarks, passingScore) <==> Threshold(passingScore) <= 0)
  {
    if totalMarks > 0 {
      var th := Threshold(passingScore);
      RatioAtLeast(obtainedMarks as real, totalMarks as real, th as real);
      CastMul(th, totalMarks);
    }
  }

  /** Comparing a percentage with a threshold, cleared of the division. */
  lemma RatioAtLeast(o: real, m: real, th: real)
    requires m > 0.0
    ensures (o / m) * 100.0 >= th <==> 100.0 * o >= th * m
  {
    var p := (o / m) * 100.0;
    assert p * m == 100.0 * o;
    ScaleMonotone(p, th, m);
  }

  /** Converting a product of integers to a real multiplies the converted factors. */
  lemma {:induction false} CastMul(a: int, b: nat)
    ensures (a * b) as real == a as real * b as real
  {
    if b > 0 {
      CastMul(a, b - 1);
      assert a * b == a * (b - 1) + a;
      assert a as real * b as real == a as real * (b - 1) as real + a as real;
    }
  }

  /** Multiplying by a positive number keeps the order of two reals. */
  lemma ScaleMonotone(x: real, y: real, t: real)
    requires t > 0.0
    ensures x >= y <==> x * t >= y * t
  {
    assert x * t - y * t == (x - y) * t;
    if x >= y {
      assert (x - y) * t >= 0.0;
    } else {
      assert (y - x) * t > 0.0;
    }
  }

  /** Two ten-mark questions both right: 20 of 20, 100%, a pass. */
  lemma BothRightPasses()
    ensures Percentage(20, 20) == 100.0 && IsPassed(20, 20, Some(70))
  {
  }

  /** One of two ten-mark questions right: 10 of 20, 50%, a fail at 70. */
  lemma HalfRightFails()
    ensures Percentage(10, 20) == 50.0 && !IsPassed(10, 20, Some(70))
  {
  }

  // ------------------------------------------------------------------------
  // Learner progress
  // ------------------------------------------------------------------------

  /** Position of the first progress entry for the course (-1 when there is none). */
  function ProgressIndex(entries: seq<CourseProgress>, courseId: Id): (k: int)
    ensures -1 <= k < |entries|
    ensures k == -1 <==> forall j :: 0 <= j < |entries| ==> entries[j].courseId != courseId
    ensures k >= 0 ==> entries[k].courseId == courseId && forall j :: 0 <= j < k ==> entries[j].courseId != courseId
  {
    if entries == [] then -1
    else if entries[0].courseId == courseId then 0
    else
      var k := ProgressIndex(entries[1..], courseId);
      if k == -1 then -1 else k + 1
  }

  /**
   * The progress update after a passing attempt: the first progress entry for
   * the course gets the module appended, if it is not there yet, and a new
   * percentage; the user's total score rises by the obtained marks.  No entry,
   * or a module already completed, leaves the user unchanged.
   */
  function CreditModule(u: User, courseId: Id, moduleId: Id, moduleCount: nat, obtainedMarks: int): (r: User)
    requires moduleCount > 0
    ensures var k := ProgressIndex(u.courseProgress, courseId);
            k == -1 || moduleId in u.courseProgress[k].completedModules ==> r == u
    ensures var k := ProgressIndex(u.courseProgress, courseId);
            k != -1 && moduleId !in u.courseProgress[k].completedModules ==>
              var done := u.courseProgress[k].completedModules + [moduleId];
              && r.courseProgress == u.courseProgress[k := u.courseProgress[k].(
                   completedModules := done,
                   progressPercentage := (|done| as real / moduleCount as real) * 100.0)]
              && r.totalScore == u.totalScore + obtainedMarks
              && r == u.(courseProgress := r.courseProgress, totalScore := r.totalScore)
  {
    var k := ProgressIndex(u.courseProgress, courseId);
    if k == -1 || moduleId in u.courseProgress[k].completedModules then u
    else
      var entry := u.courseProgress[k];
      var done := entry.completedModules + [moduleId];
      u.(courseProgress := u.courseProgress[k := entry.(
           completedModules := done,
           progressPercentage := (|done| as real / moduleCount as real) * 100.0)],
         totalScore := u.totalScore + obtainedMarks)
  }

  /** Passing a module again changes nothing: no duplicate entry, no second credit. */
  lemma CreditIdempotent(u: User, courseId: Id, moduleId: Id, moduleCount: nat, first: int, second: int)
    requires moduleCount > 0
    ensures var once := CreditModule(u, courseId, moduleId, moduleCount, first);
            CreditModule(once, courseId, moduleId, moduleCount, second) == once
  {
    var once := CreditModule(u, courseId, moduleId, moduleCount, first);
    var k := ProgressIndex(u.courseProgress, courseId);
    if k != -1 && moduleId !in u.courseProgress[k].completedModules {
      SameCoursesSameIndex(u.courseProgress, once.courseProgress, courseId);
      assert moduleId in once.courseProgress[k].completedModules;
    }
  }

  /** Rewriting entries without changing their course ids keeps `find`'s answer. */
  lemma {:induction false} SameCoursesSameIndex(a: seq<CourseProgress>, b: seq<CourseProgress>, courseId: Id)
    requires |a| == |b|
    requires forall j :: 0 <= j < |a| ==> a[j].courseId == b[j].courseId
    ensures ProgressIndex(a, courseId) == ProgressIndex(b, courseId)
  {
    if a != [] {
      SameCoursesSameIndex(a[1..], b[1..], courseId);
    }
  }

  /** A module is never listed twice in an entry that started without duplicates. */
  lemma CreditKeepsModulesDistinct(u: User, courseId: Id, moduleId: Id, moduleCount: nat, obtainedMarks: int, k: nat)
    requires moduleCount > 0
    requires k < |u.courseProgress|
    requires var m := u.courseProgress[k].completedModules;
             forall i, j :: 0 <= i < j < |m| ==> m[i] != m[j]
    ensures var r := CreditModule(u, courseId, moduleId, moduleCount, obtainedMarks);
            |r.courseProgress| == |u.courseProgress|
            && var m := r.courseProgress[k].completedModules;
               forall i, j :: 0 <= i < j < |m| ==> m[i] != m[j]
  {
  }

  /**
   * After enrolling, the first pass of a module of that course is credited:
   * the module becomes the only completed one and the score rises.
   */
  lemma EnrolThenPass(u: User, courseId: Id, course: Course, moduleId: Id, moduleCount: nat, obtainedMarks: int)
    requires moduleCount > 0
    requires ProgressIndex(u.courseProgress, courseId) == -1
    ensures var r := CreditModule(EnrolledUser(u, courseId, course), courseId, moduleId, moduleCount, obtainedMarks);
            var k := |u.courseProgress|;
            && r.courseProgress[k].completedModules == [moduleId]
            && r.courseProgress[k].progressPercentage == 100.0 / moduleCount as real
            && r.totalScore == u.totalScore + obtainedMarks
  {
    var e := EnrolledUser(u, courseId, course);
    FirstIndexAfterAppend(u.courseProgress, e.courseProgress[|u.courseProgress|], courseId);
  }

  lemma {:induction false} FirstIndexAfterAppend(entries: seq<CourseProgress>, entry: CourseProgress, courseId: Id)
    requires ProgressIndex(entries, courseId) == -1 && entry.courseId == courseId
    ensures ProgressIndex(entries + [entry], courseId) == |entries|
  {
    if entries != [] {
      assert (entries + [entry])[1..] == entries[1..] + [entry];
      FirstIndexAfterAppend(entries[1..], entry, courseId);
    }
  }

  // ------------------------------------------------------------------------
  // submitQuizAttempt
  // ------------------------------------------------------------------------

  /** How many modules belong to the course. */
  function ModuleCount(modules: map<Id, Module>, courseId: Id): nat
  {
    |set id | id in modules && modules[id].courseId == courseId|
  }

  lemma ModuleCountPositive(modules: map<Id, Module>, moduleId: Id)
    requires moduleId in modules
    ensures ModuleCount(modules, modules[moduleId].courseId) > 0
  {
    var s := set id | id in modules && modules[id].courseId == modules[moduleId].courseId;
    assert moduleId in s;
  }

  /** The attempt document the handler creates. */
  function NewAttempt(userId: Id, moduleId: Id, m: Module, t: Tally, timeTaken: int,
                      status: AttemptStatus, number: int, now: Time): (a: Attempt)
    ensures a.score == t.obtainedMarks && a.totalMarks == t.totalMarks && a.answers == t.processed
    ensures a.attemptNumber == number && a.userId == userId && a.moduleId == moduleId && a.courseId == m.courseId
  {
    Attempt(userId, moduleId, m.courseId, t.processed, t.obtainedMarks, t.totalMarks,
            Percentage(t.obtainedMarks, t.totalMarks), timeTaken, now - timeTaken * 1000,
            status, IsPassed(t.obtainedMarks, t.totalMarks, m.passingScore), number, now)
  }

  /**
   * A submission that can be graded and stored: `answers` is there (iterating
   * a missing one throws) and grades without throwing, `timeTaken` is there
   * (the attempt requires it, and `startedAt` is computed from it), and the
   * status is one of the four.
   */
  predicate Gradable(questions: map<Id, Question>, answers: Option<seq<SubmittedAnswer>>,
                     timeTaken: Option<int>, status: Option<string>)
  {
    && answers.Some? && Process(questions, answers.value).Some?
    && timeTaken.Some? && ParseStatus(status).Some?
  }

  /**
   * `submitQuizAttempt`: 404 for a missing module or course; 500 when the
   * answers are missing or grading throws, when `timeTaken` is missing, or
   * when the status is not one of the four; otherwise the attempt is
   * appended, numbered after this user's earlier attempts on the module, and a
   * pass credits the module to the user's progress.  When the user record is
   * gone, the attempt is kept and the request still fails.  `timeTaken` is
   * the number the body's field casts to, absent when there is none.
   */
  method SubmitQuizAttempt(db: Database, userId: Id, moduleId: Id, answers: Option<seq<SubmittedAnswer>>,
                           timeTaken: Option<int>, status: Option<string>, now: Time)
    returns (reply: Reply<Attempt>)
    requires db.Valid()
    modifies db
    ensures db.Valid()
    ensures db.courses == old(db.courses) && db.modules == old(db.modules) && db.questions == old(db.questions)
    ensures moduleId !in old(db.modules) ==> reply == Error(NotFound) && unchanged(db)
    ensures moduleId in old(db.modules) && old(db.modules)[moduleId].courseId !in old(db.courses) ==>
              reply == Error(NotFound) && unchanged(db)
    ensures moduleId in old(db.modules) && old(db.modules)[moduleId].courseId in old(db.courses)
            && !Gradable(old(db.questions), answers, timeTaken, status) ==>
              reply == Error(ServerError) && unchanged(db)
    ensures moduleId in old(db.modules) && old(db.modules)[moduleId].courseId in old(db.courses)
            && Gradable(old(db.questions), answers, timeTaken, status) ==>
              AttemptRecorded(old(db.modules), old(db.attempts), old(db.users), db.attempts, db.users, reply,
                              userId, moduleId, Process(old(db.questions), answers.value).value, timeTaken.value,
                              ParseStatus(status).value, now)
  {
    if moduleId !in db.modules {
      return Error(NotFound);
    }
    var m := db.modules[moduleId];
    if m.courseId !in db.courses {
      return Error(NotFound);
    }
    if answers.None? {
      return Error(ServerError);
    }
    var graded := GradeAnswers(db.questions, answers.value);
    if graded.None? || timeTaken.None? {
      return Error(ServerError);
    }
    var parsedStatus := ParseStatus(status);
    if parsedStatus.None? {
      return Error(ServerError);
    }
    reply := RecordAttempt(db, userId, moduleId, graded.value, timeTaken.value, parsedStatus.value, now);
  }

  /**
   * What a graded submission leaves behind, from the collections before
   * (`modules`, `attempts`, `users`) to those after (`attempts'`, `users'`):
   * the new attempt, numbered one past the user's earlier attempts on the
   * module, is appended; a fail replies with it; a pass credits the module to
   * the user and replies with it, or replies 500 when the user is gone.
   */
  ghost predicate AttemptRecorded(modules: map<Id, Module>, attempts: seq<Attempt>, users: map<Id, User>,
                                  attempts': seq<Attempt>, users': map<Id, User>, reply: Reply<Attempt>,
                                  userId: Id, moduleId: Id, t: Tally, timeTaken: int, status: AttemptStatus, now: Time)
    requires moduleId in modules
  {
    var m := modules[moduleId];
    var a := NewAttempt(userId, moduleId, m, t, timeTaken, status, CountFor(attempts, userId, moduleId) + 1, now);
    && attempts' == attempts + [a]
    && (!a.isPassed ==> reply == Ok(a) && users' == users)
    && (a.isPassed && userId !in users ==> reply == Error(ServerError) && users' == users)
    && (a.isPassed && userId in users ==>
          && ModuleCount(modules, m.courseId) > 0
          && reply == Ok(a)
          && users' == users[userId := CreditModule(users[userId], m.courseId, moduleId,
                                                    ModuleCount(modules, m.courseId), a.score)])
  }

  /**
   * The part of `submitQuizAttempt` after grading: the attempt is appended,
   * and a pass credits the module to the user, or fails with 500 when the
   * user record is gone.
   */
  method RecordAttempt(db: Database, userId: Id, moduleId: Id, t: Tally, timeTaken: int,
                       status: AttemptStatus, now: Time)
    returns (reply: Reply<Attempt>)
    requires db.Valid() && moduleId in db.modules
    modifies db
    ensures db.Valid()
    ensures db.courses == old(db.courses) && db.modules == old(db.modules) && db.questions == old(db.questions)
    ensures AttemptRecorded(old(db.modules), old(db.attempts), old(db.users), db.attempts, db.users, reply,
                            userId, moduleId, t, timeTaken, status, now)
  {
    var m := db.modules[moduleId];
    var previousAttempts := CountFor(db.attempts, userId, moduleId);
    var attempt := NewAttempt(userId, moduleId, m, t, timeTaken, status, previousAttempts + 1, now);
    StoreAttempt(db, attempt);
    if attempt.isPassed {
      if userId !in db.users {
        return Error(ServerError);
      }
      ModuleCountPositive(db.modules, moduleId);
      var totalModules := ModuleCount(db.modules, m.courseId);
      StoreCredit(db, userId, m.courseId, moduleId, totalModules, t.obtainedMarks);
    }
    reply := Ok(attempt);
  }

  /** `Attempt.create`: appends an attempt numbered one past the user's earlier ones on the module. */
  method StoreAttempt(db: Database, a: Attempt)
    requires db.Valid() && a.attemptNumber == CountFor(db.attempts, a.userId, a.moduleId) + 1
    modifies db
    ensures db.Valid()
    ensures db.attempts == old(db.attempts) + [a]
    ensures db.users == old(db.users) && db.courses == old(db.courses)
    ensures db.modules == old(db.modules) && db.questions == old(db.questions)
  {
    AppendKeepsNumbering(db.attempts, a);
    db.attempts := db.attempts + [a];
  }

  /** Saves the credited user; the game entries, and with them the invariant, are untouched. */
  method StoreCredit(db: Database, userId: Id, courseId: Id, moduleId: Id, moduleCount: nat, obtainedMarks: int)
    requires db.Valid() && userId in db.users && moduleCount > 0
    modifies db
    ensures db.Valid()
    ensures db.users == old(db.users)[userId := CreditModule(old(db.users)[userId], courseId, moduleId, moduleCount, obtainedMarks)]
    ensures db.attempts == old(db.attempts) && db.courses == old(db.courses)
    ensures db.modules == old(db.modules) && db.questions == old(db.questions)
  {
    var u := CreditModule(db.users[userId], courseId, moduleId, moduleCount, obtainedMarks);
    assert u.gameProgress == db.users[userId].gameProgress;
    db.users := db.users[userId := u];
  }
}
