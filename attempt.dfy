/**
 * Graded module-quiz attempts: the stored record, its status enumeration, the
 * `result` label, the best-attempt selection and the numbering of attempts.
 */
module Attempts {
  import opened Base

  datatype AttemptStatus = Completed | Submitted | AutoSubmitted | Abandoned

  /** The stored spelling of each status. */
  function StatusName(t: AttemptStatus): string
  {
    match t
    case Completed => "completed"
    case Submitted => "submitted"
    case AutoSubmitted => "auto-submitted"
    case Abandoned => "abandoned"
  }

  /**
   * Casting a submitted `status`: absent means "completed"; one of the four
   * spellings becomes that status; other strings fail validation.
   */
  function ParseStatus(s: Option<string>): (r: Option<AttemptStatus>)
    ensures s.None? ==> r == Some(Completed)
    ensures s.Some? ==> (r.Some? <==> s.value in {"completed", "submitted", "auto-submitted", "abandoned"})
    ensures s.Some? && r.Some? ==> StatusName(r.value) == s.value
  {
    match s
    case None => Some(Completed)
    case Some(name) =>
      if name == "completed" then Some(Completed)
      else if name == "submitted" then Some(Submitted)
      else if name == "auto-submitted" then Some(AutoSubmitted)
      else if name == "abandoned" then Some(Abandoned)
      else None
  }

  lemma StatusNameRoundTrip(t: AttemptStatus)
    ensures ParseStatus(Some(StatusName(t))) == Some(t)
  {
  }

  const DefaultAttemptNumber := 1

  /** One graded answer as stored in an attempt. */
  datatype ProcessedAnswer = ProcessedAnswer(
    questionId: Id,
    selectedOption: string,
    userAnswer: string,
    isCorrect: bool,
    marksObtained: int,
    timeSpent: int)

  datatype Attempt = Attempt(
    userId: Id,
    moduleId: Id,
    courseId: Id,
    answers: seq<ProcessedAnswer>,
    score: int,
    totalMarks: int,
    percentage: real,
    timeTaken: int,
    startedAt: Time,
    status: AttemptStatus,
    isPassed: bool,
    attemptNumber: int,
    createdAt: Time)

  /** The `result` virtual. */
  function ResultLabel(a: Attempt): (r: string)
    ensures r == "Pass" <==> a.isPassed
    ensures r == "Pass" || r == "Fail"
  {
    if a.isPassed then "Pass" else "Fail"
  }

  predicate IsFor(a: Attempt, userId: Id, moduleId: Id)
  {
    a.userId == userId && a.moduleId == moduleId
  }

  /** `a` sorts before `b` under `{ score: -1, createdAt: -1 }`. */
  predicate SortsBefore(a: Attempt, b: Attempt)
  {
    a.score > b.score || (a.score == b.score && a.createdAt > b.createdAt)
  }

  /**
   * `getBestAttempt`: among the attempts of this user on this module, one with
   * the highest score, the latest among equal scores; none when there are none.
   */
  function BestAttempt(attempts: seq<Attempt>, userId: Id, moduleId: Id): (r: Option<Attempt>)
    ensures r.None? <==> forall i :: 0 <= i < |attempts| ==> !IsFor(attempts[i], userId, moduleId)
    ensures r.Some? ==> r.value in attempts && IsFor(r.value, userId, moduleId)
    ensures r.Some? ==> forall i :: 0 <= i < |attempts| && IsFor(attempts[i], userId, moduleId) ==>
                          !SortsBefore(attempts[i], r.value)
  {
    if attempts == [] then None
    else
      var rest := BestAttempt(attempts[1..], userId, moduleId);
      assert forall i :: 1 <= i < |attempts| ==> attempts[i] == attempts[1..][i - 1];
      if !IsFor(attempts[0], userId, moduleId) then rest
      else if rest.None? || !SortsBefore(rest.value, attempts[0]) then Some(attempts[0])
      else rest
  }

  /** Number of attempts in `attempts` by this user on this module. */
  function CountFor(attempts: seq<Attempt>, userId: Id, moduleId: Id): (n: nat)
    ensures n <= |attempts|
  {
    if attempts == [] then 0
    else CountFor(attempts[..|attempts| - 1], userId, moduleId)
         + (if IsFor(attempts[|attempts| - 1], userId, moduleId) then 1 else 0)
  }

  /** The attempts of this user on this module, in creation order. */
  function AttemptsFor(attempts: seq<Attempt>, userId: Id, moduleId: Id): (r: seq<Attempt>)
    ensures |r| == CountFor(attempts, userId, moduleId)
    ensures forall x :: x in r <==> x in attempts && IsFor(x, userId, moduleId)
  {
    if attempts == [] then []
    else AttemptsFor(attempts[..|attempts| - 1], userId, moduleId)
         + (if IsFor(attempts[|attempts| - 1], userId, moduleId) then [attempts[|attempts| - 1]] else [])
  }

  /** Every attempt is numbered one more than the earlier attempts of its user on its module. */
  ghost predicate WellNumbered(attempts: seq<Attempt>)
  {
    forall i :: 0 <= i < |attempts| ==>
      attempts[i].attemptNumber == CountFor(attempts[..i], attempts[i].userId, attempts[i].moduleId) + 1
  }

  /** Appending an attempt numbered `count + 1` keeps the numbering. */
  lemma AppendKeepsNumbering(attempts: seq<Attempt>, a: Attempt)
    requires WellNumbered(attempts)
    requires a.attemptNumber == CountFor(attempts, a.userId, a.moduleId) + 1
    ensures WellNumbered(attempts + [a])
  {
    var s := attempts + [a];
    forall i | 0 <= i < |s|
      ensures s[i].attemptNumber == CountFor(s[..i], s[i].userId, s[i].moduleId) + 1
    {
      if i < |attempts| {
        assert s[..i] == attempts[..i];
      } else {
        assert s[..i] == attempts;
      }
    }
  }

  /**
   * Under that numbering the attempts of any user on any module carry the
   * numbers 1, 2, 3, ... in creation order.
   */
  lemma {:induction false} NumbersAreConsecutive(attempts: seq<Attempt>, userId: Id, moduleId: Id)
    requires WellNumbered(attempts)
    ensures forall j :: 0 <= j < |AttemptsFor(attempts, userId, moduleId)| ==>
                          AttemptsFor(attempts, userId, moduleId)[j].attemptNumber == j + 1
  {
    if attempts != [] {
      var n := |attempts| - 1;
      var prefix := attempts[..n];
      assert WellNumbered(prefix) by {
        forall i | 0 <= i < |prefix|
          ensures prefix[i].attemptNumber == CountFor(prefix[..i], prefix[i].userId, prefix[i].moduleId) + 1
        {
          assert prefix[..i] == attempts[..i];
        }
      }
      NumbersAreConsecutive(prefix, userId, moduleId);
      var last := attempts[n];
      var earlier := AttemptsFor(prefix, userId, moduleId);
      var mine := AttemptsFor(attempts, userId, moduleId);
      assert mine == earlier + (if IsFor(last, userId, moduleId) then [last] else []);
      forall j | 0 <= j < |mine|
        ensures mine[j].attemptNumber == j + 1
      {
        if j < |earlier| {
          assert mine[j] == earlier[j];
          assert earlier[j].attemptNumber == j + 1;
        } else {
          assert j == |earlier| == CountFor(prefix, userId, moduleId);
          assert mine[j] == last && IsFor(last, userId, moduleId);
          assert last.attemptNumber == CountFor(attempts[..n], userId, moduleId) + 1;
        }
      }
    }
  }
}
