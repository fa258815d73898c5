/**
 * Student-account handlers: a teacher or admin creates student accounts,
 * lists the ones they created, and updates, deletes or resets the password of
 * a student they created (an admin may act on any student).
 */
module UserController {
  import opened Base
  import opened Models

  // ------------------------------------------------------------------------
  // Lookups and the authorisation guard
  // ------------------------------------------------------------------------

  /** `User.findById(id)` */
  function Lookup(users: map<Id, User>, id: Id): (r: Option<User>)
    ensures r.Some? <==> id in users
    ensures r.Some? ==> r.value == users[id]
  {
    if id in users then Some(users[id]) else None
  }

  /** The requester created this account, or is an admin. */
  predicate MayManage(u: User, requester: Requester)
  {
    u.createdBy == Some(requester.id) || requester.role == Admin
  }

  /**
   * The guard of `updateStudent`, `deleteStudent` and `resetStudentPassword`:
   * 404 when there is no such user or it is not a student, then 403 unless the
   * requester created it or is an admin; `None` lets the request through.
   */
  function StudentGuard(target: Option<User>, requester: Requester): (r: Option<int>)
    ensures r == Some(NotFound) <==> target.None? || target.value.role != Student
    ensures r == Some(Forbidden) <==>
              target.Some? && target.value.role == Student
              && target.value.createdBy != Some(requester.id) && requester.role != Admin
    ensures r.None? <==> target.Some? && target.value.role == Student && MayManage(target.value, requester)
  {
    if target.None? || target.value.role != Student then Some(NotFound)
    else if !MayManage(target.value, requester) then Some(Forbidden)
    else None
  }

  /** A teacher other than the creator is refused a student of another teacher, an admin never is. */
  lemma GuardIgnoresOtherTeachers(u: User, creator: Id, other: Requester)
    requires u.role == Student && u.createdBy == Some(creator)
    ensures other.role == Admin ==> StudentGuard(Some(u), other).None?
    ensures other.role != Admin && other.id != creator ==> StudentGuard(Some(u), other) == Some(Forbidden)
    ensures StudentGuard(Some(u), Requester(creator, other.role)).None?
  {
  }

  // ------------------------------------------------------------------------
  // Email uniqueness
  // ------------------------------------------------------------------------

  /** `User.findOne({ email })` finds someone. */
  predicate EmailTaken(users: map<Id, User>, email: string)
  {
    exists id :: id in users && users[id].email == email
  }

  /** Some user other than `self` has this email. */
  predicate EmailTakenByOther(users: map<Id, User>, self: Id, email: string)
  {
    exists id :: id in users && id != self && users[id].email == email
  }

  /** The `unique` index on `email`: no two accounts share an email. */
  ghost predicate EmailsDistinct(users: map<Id, User>)
  {
    forall a, b :: a in users && b in users && users[a].email == users[b].email ==> a == b
  }

  // ------------------------------------------------------------------------
  // Creating a student
  // ------------------------------------------------------------------------

  /** All five fields of `createStudentAccount` are there and non-empty. */
  predicate CreateFieldsGiven(name: Option<string>, email: Option<string>, password: Option<string>,
                              dob: Option<string>, classStandard: Option<string>)
  {
    Present(name) && Present(email) && Present(password) && Present(dob) && Present(classStandard)
  }

  /**
   * Casting a request's `dob` to the schema's `Date`: `castDate` stands for
   * JavaScript's date parsing, which yields no date for text it cannot read.
   * A given `dob` the cast rejects makes saving the user fail.
   */
  predicate DobRejected(dob: Option<string>, castDate: string -> Option<Time>)
  {
    Present(dob) && castDate(dob.value).None?
  }

  /** The date an update writes: the cast of a given `dob`, or none when it is missing or empty. */
  function NewDob(dob: Option<string>, castDate: string -> Option<Time>): (r: Option<Time>)
    ensures !Present(dob) ==> r.None?
    ensures Present(dob) ==> r == castDate(dob.value)
    ensures r.None? <==> !Present(dob) || DobRejected(dob, castDate)
  {
    if Present(dob) then castDate(dob.value) else None
  }

  /** The account `createStudentAccount` stores: a student owned by its creator, with no progress yet. */
  function NewStudent(name: string, email: string, passwordHash: string, dob: Time,
                      classStandard: string, creator: Id): (u: User)
    ensures u.role == Student && u.createdBy == Some(creator)
    ensures u.name == name && u.email == email && u.passwordHash == passwordHash
    ensures u.dob == Some(dob) && u.classStandard == Some(classStandard)
    ensures u.enrolledCourses == [] && u.courseProgress == [] && u.gameProgress == [] && u.totalScore == 0
  {
    User(name, email, passwordHash, Student, Some(dob), Some(classStandard), Some(creator), [], [], [], 0)
  }

  /** Refusing an email already in use keeps emails unique. */
  lemma CreateKeepsEmailsDistinct(users: map<Id, User>, newId: Id, u: User)
    requires EmailsDistinct(users) && newId !in users && !EmailTaken(users, u.email)
    ensures EmailsDistinct(users[newId := u])
  {
    assert forall k :: k in users ==> users[k].email != u.email;
  }

  /**
   * `createStudentAccount`.  `passwordHash` is the bcrypt hash of `password`,
   * computed by the caller; `newId` is the id the store assigns; `castDate`
   * is the schema's cast of `dob` to a date.
   */
  method CreateStudentAccount(db: Database, requester: Requester, newId: Id,
                              name: Option<string>, email: Option<string>, password: Option<string>,
                              dob: Option<string>, classStandard: Option<string>, passwordHash: string,
                              castDate: string -> Option<Time>)
    returns (reply: Reply<User>)
    requires db.Valid() && newId !in db.users
    modifies db
    ensures db.Valid()
    ensures !CreateFieldsGiven(name, email, password, dob, classStandard) ==> reply == Error(BadRequest) && unchanged(db)
    ensures CreateFieldsGiven(name, email, password, dob, classStandard) && EmailTaken(old(db.users), email.value)
            ==> reply == Error(BadRequest) && unchanged(db)
    ensures CreateFieldsGiven(name, email, password, dob, classStandard) && !EmailTaken(old(db.users), email.value)
            && DobRejected(dob, castDate)
            ==> reply == Error(ServerError) && unchanged(db)
    ensures reply.Ok? <==> CreateFieldsGiven(name, email, password, dob, classStandard)
                           && !EmailTaken(old(db.users), email.value) && !DobRejected(dob, castDate)
    ensures reply.Ok?
            ==> && reply.value == NewStudent(name.value, email.value, passwordHash, castDate(dob.value).value,
                                             classStandard.value, requester.id)
                && db.users == old(db.users)[newId := reply.value]
    ensures db.courses == old(db.courses) && db.modules == old(db.modules)
    ensures db.questions == old(db.questions) && db.attempts == old(db.attempts)
    ensures EmailsDistinct(old(db.users)) ==> EmailsDistinct(db.users)
  {
    if !CreateFieldsGiven(name, email, password, dob, classStandard) {
      return Error(BadRequest);
    }
    if EmailTaken(db.users, email.value) {
      return Error(BadRequest);
    }
    var date := castDate(dob.value);
    if date.None? {
      return Error(ServerError);
    }
    var student := NewStudent(name.value, email.value, passwordHash, date.value, classStandard.value, requester.id);
    if EmailsDistinct(db.users) {
      CreateKeepsEmailsDistinct(db.users, newId, student);
    }
    db.users := db.users[newId := student];
    reply := Ok(student);
  }

  // ------------------------------------------------------------------------
  // Listing a teacher's students
  // ------------------------------------------------------------------------

  /** `getMyStudents`: the ids of the students the requester created. */
  function MyStudents(users: map<Id, User>, requester: Requester): (r: set<Id>)
    ensures forall id :: id in r <==> id in users && users[id].role == Student && users[id].createdBy == Some(requester.id)
  {
    set id | id in users && users[id].role == Student && users[id].createdBy == Some(requester.id)
  }

  /** Everyone on a teacher's list passes the guard for that teacher. */
  lemma ListedStudentsPassGuard(users: map<Id, User>, requester: Requester, id: Id)
    requires id in MyStudents(users, requester)
    ensures StudentGuard(Lookup(users, id), requester).None?
  {
  }

  /** A created account appears on its creator's list, and nothing else joins it. */
  lemma CreatedStudentIsListed(users: map<Id, User>, requester: Requester, newId: Id, u: User)
    requires newId !in users && u.role == Student && u.createdBy == Some(requester.id)
    ensures MyStudents(users[newId := u], requester) == MyStudents(users, requester) + {newId}
  {
    var before := MyStudents(users, requester);
    var after := MyStudents(users[newId := u], requester);
    forall id | id in after ensures id in before + {newId} {
      if id != newId {
        assert id in users && users[id].role == Student && users[id].createdBy == Some(requester.id);
      }
    }
    forall id | id in before + {newId} ensures id in after {
      if id != newId {
        assert id in users && users[id].role == Student && users[id].createdBy == Some(requester.id);
      }
    }
  }

  /** A student created by someone else never appears on a teacher's list. */
  lemma OthersStudentsNotListed(users: map<Id, User>, requester: Requester, newId: Id, u: User)
    requires newId !in users && u.createdBy != Some(requester.id)
    ensures MyStudents(users[newId := u], requester) == MyStudents(users, requester)
  {
    var before := MyStudents(users, requester);
    var after := MyStudents(users[newId := u], requester);
    forall id | id in after ensures id in before {
      assert id != newId;
    }
    forall id | id in before ensures id in after {
      assert id != newId;
    }
  }

  // ------------------------------------------------------------------------
  // Updating a student
  // ------------------------------------------------------------------------

  /**
   * The field assignments of `updateStudent`: only the fields given (and
   * non-empty) are overwritten; `dob` is the date already cast (`NewDob`).
   */
  function ApplyUpdate(u: User, name: Option<string>, email: Option<string>,
                       dob: Option<Time>, classStandard: Option<string>): (r: User)
  {
    u.(name := if Present(name) then name.value else u.name,
       email := if Present(email) then email.value else u.email,
       dob := if dob.Some? then dob else u.dob,
       classStandard := if Present(classStandard) then classStandard else u.classStandard)
  }

  /**
   * What an update keeps: role, creator, password hash and all progress, so
   * the updated account is still a student the same requesters may manage.
   */
  lemma UpdateKeepsIdentity(u: User, name: Option<string>, email: Option<string>,
                            dob: Option<Time>, classStandard: Option<string>, requester: Requester)
    ensures var r := ApplyUpdate(u, name, email, dob, classStandard);
            && r.role == u.role && r.createdBy == u.createdBy && r.passwordHash == u.passwordHash
            && r.enrolledCourses == u.enrolledCourses && r.courseProgress == u.courseProgress
            && r.gameProgress == u.gameProgress && r.totalScore == u.totalScore
            && StudentGuard(Some(r), requester) == StudentGuard(Some(u), requester)
  {
  }

  /** Each given field takes the new value and each missing one keeps the old. */
  lemma UpdateSetsGivenFields(u: User, name: Option<string>, email: Option<string>,
                              dob: Option<Time>, classStandard: Option<string>)
    ensures var r := ApplyUpdate(u, name, email, dob, classStandard);
            && (Present(name) ==> r.name == name.value) && (!Present(name) ==> r.name == u.name)
            && (Present(email) ==> r.email == email.value) && (!Present(email) ==> r.email == u.email)
            && (dob.Some? ==> r.dob == dob) && (dob.None? ==> r.dob == u.dob)
            && (Present(classStandard) ==> r.classStandard == classStandard)
            && (!Present(classStandard) ==> r.classStandard == u.classStandard)
  {
  }

  /** Sending the same update twice changes nothing the second time; an empty update changes nothing. */
  lemma UpdateIdempotent(u: User, name: Option<string>, email: Option<string>,
                         dob: Option<Time>, classStandard: Option<string>)
    ensures var r := ApplyUpdate(u, name, email, dob, classStandard);
            ApplyUpdate(r, name, email, dob, classStandard) == r
    ensures ApplyUpdate(u, None, None, None, None) == u
  {
  }

  /**
   * An update that keeps the account's email, or moves it to an email no
   * other account uses, keeps emails unique.
   */
  lemma UpdateKeepsEmailsDistinct(users: map<Id, User>, id: Id, u: User)
    requires EmailsDistinct(users) && id in users && !EmailTakenByOther(users, id, u.email)
    ensures EmailsDistinct(users[id := u])
  {
    assert forall k :: k in users && k != id ==> users[k].email != u.email;
  }

  /** The four guarded assignments of `updateStudent`, one field at a time. */
  method AssignFields(u: User, name: Option<string>, email: Option<string>,
                      dob: Option<Time>, classStandard: Option<string>)
    returns (student: User)
    ensures student == ApplyUpdate(u, name, email, dob, classStandard)
  {
    student := u;
    if Present(name) {
      student := student.(name := name.value);
    }
    if Present(email) {
      student := student.(email := email.value);
    }
    if dob.Some? {
      student := student.(dob := dob);
    }
    if Present(classStandard) {
      student := student.(classStandard := classStandard);
    }
  }

  /**
   * `updateStudent`.  Saving fails, and the handler answers 500, when the
   * given `dob` does not cast to a date (`castDate`), or when the email is
   * one another account already has (the schema's `unique` index on `email`).
   */
  method UpdateStudent(db: Database, requester: Requester, id: Id, name: Option<string>,
                       email: Option<string>, dob: Option<string>, classStandard: Option<string>,
                       castDate: string -> Option<Time>)
    returns (reply: Reply<User>)
    requires db.Valid()
    modifies db
    ensures db.Valid()
    ensures StudentGuard(Lookup(old(db.users), id), requester).Some?
            ==> reply == Error(StudentGuard(Lookup(old(db.users), id), requester).value) && unchanged(db)
    ensures StudentGuard(Lookup(old(db.users), id), requester).None?
            && (DobRejected(dob, castDate) || (Present(email) && EmailTakenByOther(old(db.users), id, email.value)))
            ==> reply == Error(ServerError) && unchanged(db)
    ensures reply.Ok? <==>
              StudentGuard(Lookup(old(db.users), id), requester).None? && !DobRejected(dob, castDate)
              && !(Present(email) && EmailTakenByOther(old(db.users), id, email.value))
    ensures reply.Ok? ==>
              && reply.value == ApplyUpdate(old(db.users)[id], name, email, NewDob(dob, castDate), classStandard)
              && db.users == old(db.users)[id := reply.value]
    ensures db.courses == old(db.courses) && db.modules == old(db.modules)
    ensures db.questions == old(db.questions) && db.attempts == old(db.attempts)
    ensures EmailsDistinct(old(db.users)) ==> EmailsDistinct(db.users)
  {
    var guard := StudentGuard(Lookup(db.users, id), requester);
    if guard.Some? {
      return Error(guard.value);
    }
    if DobRejected(dob, castDate) {
      return Error(ServerError);
    }
    var student := AssignFields(db.users[id], name, email, NewDob(dob, castDate), classStandard);
    if Present(email) && EmailTakenByOther(db.users, id, email.value) {
      return Error(ServerError);
    }
    if EmailsDistinct(db.users) {
      assert !EmailTakenByOther(db.users, id, student.email) by {
        if !Present(email) {
          assert student.email == db.users[id].email;
        }
      }
      UpdateKeepsEmailsDistinct(db.users, id, student);
    }
    db.users := db.users[id := student];
    reply := Ok(student);
  }

  // ------------------------------------------------------------------------
  // Deleting a student
  // ------------------------------------------------------------------------

  /** After a delete the account is gone: the guard answers 404 and it leaves its creator's list. */
  lemma DeletedStudentIsGone(users: map<Id, User>, id: Id, requester: Requester, anyone: Requester)
    ensures StudentGuard(Lookup(users - {id}, id), anyone) == Some(NotFound)
    ensures MyStudents(users - {id}, requester) == MyStudents(users, requester) - {id}
  {
    var before := MyStudents(users, requester);
    var after := MyStudents(users - {id}, requester);
    forall k | k in before - {id} ensures k in after {
      assert k in users - {id};
    }
  }

  /** `deleteStudent` */
  method DeleteStudent(db: Database, requester: Requester, id: Id) returns (reply: Reply<()>)
    requires db.Valid()
    modifies db
    ensures db.Valid()
    ensures StudentGuard(Lookup(old(db.users), id), requester).Some?
            ==> reply == Error(StudentGuard(Lookup(old(db.users), id), requester).value) && unchanged(db)
    ensures reply.Ok? <==> StudentGuard(Lookup(old(db.users), id), requester).None?
    ensures reply.Ok? ==> db.users == old(db.users) - {id}
    ensures db.courses == old(db.courses) && db.modules == old(db.modules)
    ensures db.questions == old(db.questions) && db.attempts == old(db.attempts)
    ensures EmailsDistinct(old(db.users)) ==> EmailsDistinct(db.users)
  {
    var guard := StudentGuard(Lookup(db.users, id), requester);
    if guard.Some? {
      return Error(guard.value);
    }
    db.users := db.users - {id};
    reply := Ok(());
  }

  // ------------------------------------------------------------------------
  // Resetting a student's password
  // ------------------------------------------------------------------------

  /** The only assignment of `resetStudentPassword`: the new hash replaces the old, nothing else moves. */
  function SetPassword(u: User, newHash: string): (r: User)
    ensures r.passwordHash == newHash
    ensures r.(passwordHash := u.passwordHash) == u
  {
    u.(passwordHash := newHash)
  }

  /**
   * `resetStudentPassword`.  `newHash` is the bcrypt hash of `newPassword`,
   * computed by the caller.
   */
  method ResetStudentPassword(db: Database, requester: Requester, id: Id, newPassword: Option<string>,
                              newHash: string)
    returns (reply: Reply<()>)
    requires db.Valid()
    modifies db
    ensures db.Valid()
    ensures !Present(newPassword) ==> reply == Error(BadRequest) && unchanged(db)
    ensures Present(newPassword) && StudentGuard(Lookup(old(db.users), id), requester).Some?
            ==> reply == Error(StudentGuard(Lookup(old(db.users), id), requester).value) && unchanged(db)
    ensures reply.Ok? <==> Present(newPassword) && StudentGuard(Lookup(old(db.users), id), requester).None?
    ensures reply.Ok? ==> db.users == old(db.users)[id := SetPassword(old(db.users)[id], newHash)]
    ensures db.courses == old(db.courses) && db.modules == old(db.modules)
    ensures db.questions == old(db.questions) && db.attempts == old(db.attempts)
    ensures EmailsDistinct(old(db.users)) ==> EmailsDistinct(db.users)
  {
    if !Present(newPassword) {
      return Error(BadRequest);
    }
    var guard := StudentGuard(Lookup(db.users, id), requester);
    if guard.Some? {
      return Error(guard.value);
    }
    var student := SetPassword(db.users[id], newHash);
    if EmailsDistinct(db.users) {
      UpdateKeepsEmailsDistinct(db.users, id, student);
    }
    db.users := db.users[id := student];
    reply := Ok(());
  }

  /** A password reset leaves every teacher's list as it was. */
  lemma ResetKeepsLists(users: map<Id, User>, id: Id, newHash: string, requester: Requester)
    requires id in users
    ensures MyStudents(users[id := SetPassword(users[id], newHash)], requester) == MyStudents(users, requester)
  {
  }
}
