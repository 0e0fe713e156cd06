/** `insert_users`: one user document per iteration, all written in one batch. */
module UserInsert {
  import opened Entities
  import opened Store
  import opened Scale

  /** What the fake-data provider and `random.choice` supply for one user. */
  datatype UserDraw = UserDraw(id: Id, name: string, email: string, role: Role)

  function MakeUser(d: UserDraw): User {
    User(d.id, d.name, d.email, d.role, [])
  }

  /** The users built from the draws, in draw order: each carries its draw's
      id and role and starts with no enrolled course. */
  function MakeUsers(ds: seq<UserDraw>): (r: seq<User>)
    ensures |r| == |ds|
    ensures forall i :: 0 <= i < |ds| ==> r[i] == MakeUser(ds[i])
    ensures forall i :: 0 <= i < |ds| ==>
              r[i].id == ds[i].id && r[i].role == ds[i].role && r[i].enrolledCourses == []
  {
    if ds == [] then [] else MakeUsers(ds[..|ds| - 1]) + [MakeUser(ds[|ds| - 1])]
  }

  /** Builds `Iterations(n)` users and writes them with a single `insert_many`. */
  method InsertUserBatch(store: MongoStore, n: int, ds: seq<UserDraw>)
    requires |ds| == Iterations(n)
    modifies store
    ensures store.journal == old(store.journal) + [InsertUsers(MakeUsers(ds))]
    ensures store.State() == Apply(old(store.State()), InsertUsers(MakeUsers(ds)))
  {
    var users: seq<User> := [];
    var i := 0;
    while i < Iterations(n)
      invariant 0 <= i <= Iterations(n)
      invariant users == MakeUsers(ds[..i])
    {
      var d := ds[i];
      var user := User(d.id, d.name, d.email, d.role, []);
      assert ds[..i + 1][..i] == ds[..i];
      users := users + [user];
      i := i + 1;
    }
    assert ds[..i] == ds;
    store.Perform(InsertUsers(users));
  }

  /** `retrieve_users`: every stored user, in insertion order. */
  method RetrieveUsers(store: MongoStore) returns (users: seq<User>)
    ensures users == store.users
  {
    users := store.users;
  }

  /** Inserting new users, none of them enrolled anywhere, keeps every reference intact. */
  lemma InsertUsersKeepsLinked(db: DB, ds: seq<UserDraw>)
    requires Linked(db)
    ensures Linked(Apply(db, InsertUsers(MakeUsers(ds))))
  {
    var added := MakeUsers(ds);
    assert Apply(db, InsertUsers(added)) == db.(users := db.users + added);
    AddUsersKeepsLinked(db, added);
  }

  /** Users appended with empty course lists keep every reference intact: the
      instructors and the users enrollments name are still there. */
  lemma AddUsersKeepsLinked(db: DB, added: seq<User>)
    requires Linked(db)
    requires forall i :: 0 <= i < |added| ==> added[i].enrolledCourses == []
    ensures Linked(db.(users := db.users + added))
  {
    var r := db.(users := db.users + added);
    UsersApart(db, r);
    AddedInstructorsKnown(db, added);
    AddedUsersEnrollmentsLinked(db, added);
    AddedUsersLinked(db, added);
  }

  /** New users with empty course lists name no course. */
  lemma AddedUsersLinked(db: DB, added: seq<User>)
    requires UsersLinked(db)
    requires forall i :: 0 <= i < |added| ==> added[i].enrolledCourses == []
    ensures UsersLinked(db.(users := db.users + added))
  {
    var r := db.(users := db.users + added);
    forall i | 0 <= i < |r.users|
      ensures Within(r.users[i].enrolledCourses, CourseIds(r.courses))
    {
      if i >= |db.users| {
        assert r.users[i] == added[i - |db.users|];
      }
    }
  }

  /** Appending users keeps every stored instructor among the instructors. */
  lemma AddedInstructorsKnown(db: DB, added: seq<User>)
    requires InstructorsKnown(db)
    ensures InstructorsKnown(db.(users := db.users + added))
  {
    InstructorIdsAppend(db.users, added);
  }

  /** The course tree does not look at the users. */
  lemma UsersApart(db: DB, r: DB)
    requires Tree(db.courses, db.lessons, db.quizzes, db.questions)
    requires r.courses == db.courses && r.lessons == db.lessons && r.quizzes == db.quizzes && r.questions == db.questions
    ensures Tree(r.courses, r.lessons, r.quizzes, r.questions)
  {
  }

  lemma AddedUsersEnrollmentsLinked(db: DB, added: seq<User>)
    requires EnrollmentsLinked(db)
    ensures EnrollmentsLinked(db.(users := db.users + added))
  {
    assert UserIds(db.users + added) == UserIds(db.users) + UserIds(added);
  }
}
