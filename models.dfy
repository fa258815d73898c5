/**
 * The stored entities the controllers work on (users with their embedded
 * course and game progress, courses, modules) and the database that holds
 * them, one map per collection.
 */
module Models {
  import opened Base
  import opened QuizQuestions
  import opened Attempts

  datatype Role = Student | Teacher | Admin

  /** The authenticated user a request is made by. */
  datatype Requester = Requester(id: Id, role: Role)

  datatype GameType = Story | Scenario | Kit

  /** One enrolled course's entry in a user's `courseProgress`. */
  datatype CourseProgress = CourseProgress(
    courseId: Id,
    completedModules: seq<Id>,
    currentModule: Option<Id>,
    progressPercentage: real)

  /** One entry of a user's `gameProgress`. */
  datatype GameProgress = GameProgress(
    gameType: GameType,
    level: int,
    score: int,
    completedAt: Time)

  datatype User = User(
    name: string,
    email: string,
    passwordHash: string,
    role: Role,
    dob: Option<Time>,
    classStandard: Option<string>,
    createdBy: Option<Id>,
    enrolledCourses: seq<Id>,
    courseProgress: seq<CourseProgress>,
    gameProgress: seq<GameProgress>,
    totalScore: int)

  datatype Course = Course(
    title: string,
    description: string,
    createdBy: Id,
    modules: seq<Id>,
    category: string,
    difficulty: string,
    enrolledStudents: seq<Id>,
    isPublished: bool)

  predicate IsCategory(s: string)
  {
    s in {"earthquake", "flood", "fire", "cyclone", "general"}
  }

  predicate IsDifficulty(s: string)
  {
    s in {"beginner", "intermediate", "advanced"}
  }

  datatype Module = Module(
    title: string,
    courseId: Id,
    order: int,
    quiz: seq<Id>,
    passingScore: Option<int>)   // schema default 70; may be stored as null or 0

  /** Number of entries of the given game type. */
  function CountGames(games: seq<GameProgress>, t: GameType): (n: nat)
    ensures n <= |games|
  {
    if games == [] then 0
    else CountGames(games[..|games| - 1], t) + (if games[|games| - 1].gameType == t then 1 else 0)
  }

  /**
   * What the game handlers maintain about a user's `gameProgress`: at most one
   * entry per game type, and every level between 1 and 10.
   */
  ghost predicate GamesWellFormed(games: seq<GameProgress>)
  {
    && (forall t :: CountGames(games, t) <= 1)
    && (forall i :: 0 <= i < |games| ==> 1 <= games[i].level <= 10)
  }

  class Database {
    var users: map<Id, User>
    var courses: map<Id, Course>
    var modules: map<Id, Module>
    var questions: map<Id, Question>
    var attempts: seq<Attempt>

    ghost predicate Valid()
      reads this
    {
      && WellNumbered(attempts)
      && (forall id :: id in users ==> GamesWellFormed(users[id].gameProgress))
    }

    constructor ()
      ensures Valid()
      ensures users == map[] && courses == map[] && modules == map[]
      ensures questions == map[] && attempts == []
    {
      users, courses, modules, questions, attempts := map[], map[], map[], map[], [];
    }
  }
}
