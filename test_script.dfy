/** The large one-shot test script: fixed counts (1000 users, 200 courses of
    50 lessons of 20 quizzes of 30 questions, 20 enrollments per student), seven
    phases, each run under a `measure_time` that only prints. A phase that
    raises ends the run: its line is never printed and no later phase runs. */
module TestScript {
  import opened Entities
  import opened Store
  import opened Scale
  import opened UserInsert
  import opened CourseBuilder
  import opened EnrollmentGen
  import opened InsertAll

  /** The names `main` hands to `measure_time`, in call order. */
  const TestPhases: seq<string> :=
    ["Drop Collections", "Create Collections", "Insert Users", "Retrieve Users",
     "Insert Courses, Lessons, Quizzes, and Questions", "Generate Enrollments", "Retrieve Courses"]

  /** `drop_collections`. */
  method DropCollections(store: MongoStore)
    modifies store
    ensures store.journal == old(store.journal) + DropWrites
    ensures store.State() == Empty
  {
    store.DropCollection(Users);
    store.DropCollection(Courses);
    store.DropCollection(Enrollments);
    store.DropCollection(Lessons);
    store.DropCollection(Quizzes);
    store.DropCollection(QuizQuestions);
    assert store.State() == Empty;
    assert store.journal == old(store.journal) + DropWrites;
  }

  /** `insert_users`, then `retrieve_users` extending the empty local list:
      both phases return, and the list holds every stored user. */
  method UserPhases(store: MongoStore, c: Counts, ghost db: DB, ds: seq<UserDraw>) returns (users: seq<User>)
    requires store.State() == db
    requires |ds| == Iterations(c.users)
    modifies store
    ensures users == db.users + MakeUsers(ds)
    ensures store.journal == old(store.journal) + [InsertUsers(MakeUsers(ds))]
    ensures store.State() == Apply(db, InsertUsers(MakeUsers(ds)))
  {
    InsertUserBatch(store, c.users, ds);
    users := [];
    var retrieved := RetrieveUsers(store);
    users := users + retrieved;
  }

  /** `insert_courses(users)`, `generate_enrollments(users)`, then
      `retrieve_courses`, once the users of `d` have been added to `db` and read
      back. `done` counts the phases that returned. */
  method TreePhases(store: MongoStore, c: Counts, ghost db: DB, users: seq<User>, d: InsertDraws)
    returns (outcome: Outcome, done: nat)
    requires users == Retrieved(db, d)
    requires store.courses == db.courses
    requires CoursesFit(d.courses, c, |InstructorIds(users)|)
    requires DrawsFit(users, d.enrollments, |db.courses| + |d.courses|, c.enrollmentsPerUser)
    modifies store
    ensures outcome == InsertOutcome(users, |d.courses|, |db.courses|, c.enrollmentsPerUser)
    ensures outcome.Pass? ==>
              && done == 3
              && InsertWritable(db, d)
              && var ws := CoursesBatches(InstructorIds(users), d.courses)
                           + EnrollmentWrites(users, CoursesAfter(db, d), d.enrollments);
                 store.journal == old(store.journal) + ws && store.State() == ApplyAll(old(store.State()), ws)
    ensures outcome == Fail(IndexError) ==>
              && done == 0
              && store.journal == old(store.journal) && store.State() == old(store.State())
    ensures outcome == Fail(ValueError) ==>
              && done == 1
              && PicksIn(d.courses, |InstructorIds(users)|)
              && var ws := CoursesBatches(InstructorIds(users), d.courses);
                 store.journal == old(store.journal) + ws && store.State() == ApplyAll(old(store.State()), ws)
  {
    ghost var j0, db1 := store.journal, store.State();
    done := 0;
    outcome := InsertCourseTrees(store, c, users, d.courses);
    if outcome.Fail? {
      return;
    }
    done := done + 1;
    var candidates := InstructorIds(users);
    assert PicksIn(d.courses, |candidates|);
    var cb := CoursesBatches(candidates, d.courses);
    CoursesBatchesEffect(db1, candidates, d.courses);
    assert store.courses == CoursesAfter(db, d);
    DrawsFitAfter(db, d, c.enrollmentsPerUser, users, |store.courses|);
    outcome := GenerateEnrollments(store, users, c.enrollmentsPerUser, d.enrollments);
    if outcome.Fail? {
      return;
    }
    done := done + 1;
    var ew := EnrollmentWrites(users, CoursesAfter(db, d), d.enrollments);
    ApplyAllConcat(db1, cb, ew);
    AppendAssoc(j0, cb, ew);
    var _ := RetrieveCourses(store);
    done := done + 1;
  }

  /** The calls of `insert_all_data`: the user batch, then the rest. */
  lemma SplitWrites(db: DB, d: InsertDraws, j0: seq<Write>)
    requires InsertWritable(db, d)
    ensures var w1 := InsertUsers(MakeUsers(d.users));
      var ws := CoursesBatches(InstructorIds(Retrieved(db, d)), d.courses)
                + EnrollmentWrites(Retrieved(db, d), CoursesAfter(db, d), d.enrollments);
      && j0 + [w1] + ws == j0 + InsertAllWrites(db, d)
      && ApplyAll(Apply(db, w1), ws) == ApplyAll(db, InsertAllWrites(db, d))
  {
    var w1 := InsertUsers(MakeUsers(d.users));
    var cb := CoursesBatches(InstructorIds(Retrieved(db, d)), d.courses);
    var ew := EnrollmentWrites(Retrieved(db, d), CoursesAfter(db, d), d.enrollments);
    AppendAssoc([w1], cb, ew);
    AppendAssoc(j0, [w1], cb + ew);
    ApplyAllOne(db, w1);
    ApplyAllConcat(db, [w1], cb + ew);
  }

  /** The calls of a `insert_all_data` that stops at the sample: the user
      batch, then the course trees. */
  lemma SplitCourseWrites(db: DB, d: InsertDraws, j0: seq<Write>)
    requires PicksIn(d.courses, |InstructorIds(Retrieved(db, d))|)
    ensures var w1 := InsertUsers(MakeUsers(d.users));
      var ws := CoursesBatches(InstructorIds(Retrieved(db, d)), d.courses);
      && j0 + [w1] + ws == j0 + ([w1] + ws)
      && ApplyAll(Apply(db, w1), ws) == ApplyAll(db, [w1] + ws)
  {
    var w1 := InsertUsers(MakeUsers(d.users));
    AppendAssoc(j0, [w1], CoursesBatches(InstructorIds(Retrieved(db, d)), d.courses));
    ApplyAllOne(db, w1);
    ApplyAllConcat(db, [w1], CoursesBatches(InstructorIds(Retrieved(db, d)), d.courses));
  }

  /** The five phases after the collections are reset, on a store holding `db`:
      insert the users, read them back into the local list, build the course
      trees over that list, generate the enrollments for it, read the courses.
      `done` counts the phases that returned, each of which printed its line. */
  method DataPhases(store: MongoStore, c: Counts, ghost db: DB, d: InsertDraws)
    returns (outcome: Outcome, done: nat)
    requires store.State() == db
    requires InsertFits(db, c, d)
    modifies store
    ensures outcome == InsertOutcome(Retrieved(db, d), |d.courses|, |db.courses|, c.enrollmentsPerUser)
    ensures outcome.Pass? ==>
              && done == 5
              && InsertWritable(db, d)
              && store.journal == old(store.journal) + InsertAllWrites(db, d)
              && store.State() == ApplyAll(db, InsertAllWrites(db, d))
    ensures outcome == Fail(IndexError) ==>
              && done == 2
              && store.journal == old(store.journal) + [InsertUsers(MakeUsers(d.users))]
              && store.State() == Apply(db, InsertUsers(MakeUsers(d.users)))
    ensures outcome == Fail(ValueError) ==>
              && done == 3
              && PicksIn(d.courses, |InstructorIds(Retrieved(db, d))|)
              && var ws := [InsertUsers(MakeUsers(d.users))] + CoursesBatches(InstructorIds(Retrieved(db, d)), d.courses);
                 store.journal == old(store.journal) + ws && store.State() == ApplyAll(db, ws)
  {
    ghost var j0 := store.journal;
    assert |d.users| == Iterations(c.users);
    assert CoursesFit(d.courses, c, |InstructorIds(Retrieved(db, d))|);
    assert DrawsFit(Retrieved(db, d), d.enrollments, |db.courses| + |d.courses|, c.enrollmentsPerUser);
    var users := UserPhases(store, c, db, d.users);
    var more;
    outcome, more := TreePhases(store, c, db, users, d);
    done := 2 + more;
    if outcome.Pass? {
      SplitWrites(db, d, j0);
    } else if outcome == Fail(ValueError) {
      SplitCourseWrites(db, d, j0);
    }
  }

  /** With 200 courses to build and 20 courses per student, sampling can never
      fail: the run raises IndexError exactly when none of the 1000 users is an
      instructor, and otherwise completes. */
  lemma LargeRunOutcome(d: InsertDraws)
    requires |d.courses| == Iterations(LargeRun.courses)
    ensures InsertOutcome(Retrieved(Empty, d), |d.courses|, |Empty.courses|, LargeRun.enrollmentsPerUser)
         == if HasInstructor(MakeUsers(d.users)) then Pass else Fail(IndexError)
  {
    assert Retrieved(Empty, d) == MakeUsers(d.users);
  }

  /** `main`: the seven phases in order, on whatever the store held. `printed`
      counts the phases that returned; their lines name `TestPhases[..printed]`. */
  method RunTest(store: MongoStore, d: InsertDraws) returns (outcome: Outcome, printed: nat)
    requires InsertFits(Empty, LargeRun, d)
    modifies store
    ensures outcome == if HasInstructor(MakeUsers(d.users)) then Pass else Fail(IndexError)
    ensures outcome.Pass? ==>
              && printed == |TestPhases|
              && InsertWritable(Empty, d)
              && store.journal == old(store.journal) + DropWrites + InsertAllWrites(Empty, d)
              && store.State() == ApplyAll(Empty, InsertAllWrites(Empty, d))
    ensures outcome.Fail? ==>
              && printed == 4
              && store.journal == old(store.journal) + DropWrites + [InsertUsers(MakeUsers(d.users))]
              && store.State() == Empty.(users := MakeUsers(d.users))
  {
    DropCollections(store);
    printed := 2;
    var done;
    UsersOnEmpty(d.users);
    outcome, done := DataPhases(store, LargeRun, Empty, d);
    LargeRunOutcome(d);
    printed := printed + done;
  }

  /** A run of the large counts that completes adds exactly 1000 users, 200
      courses, 10,000 lessons, 200,000 quizzes, 6,000,000 questions and 20
      enrollments per student to what `db` held; after the reset of `RunTest`,
      `db` is `Empty`, so these are the totals. */
  lemma LargeRunAdds(db: DB, d: InsertDraws)
    requires InsertFits(db, LargeRun, d)
    requires InsertOutcome(Retrieved(db, d), |d.courses|, |db.courses|, LargeRun.enrollmentsPerUser) == Pass
    ensures InsertWritable(db, d)
    ensures var r := ApplyAll(db, InsertAllWrites(db, d));
      && |r.users| == |db.users| + 1000 && |r.courses| == |db.courses| + 200
      && |r.lessons| == |db.lessons| + 10000 && |r.quizzes| == |db.quizzes| + 200000
      && |r.questions| == |db.questions| + 6000000
      && |r.enrollments| == |db.enrollments| + StudentCount(Retrieved(db, d)) * 20
  {
    InsertAllCounts(db, LargeRun, d);
    assert Iterations(LargeRun.users) == 1000 && Iterations(LargeRun.courses) == 200;
    assert LargeRun.lessonsPerCourse == 50 && LargeRun.quizzesPerLesson == 20;
    assert LargeRun.questionsPerQuiz == 30 && LargeRun.enrollmentsPerUser == 20;
    assert 200 * 50 == 10000 && 200 * (50 * 20) == 200000 && 200 * (50 * 20 * 30) == 6000000;
  }

  /** A completed run after the reset leaves no dangling reference. */
  lemma LargeRunLinked(d: InsertDraws)
    requires InsertFits(Empty, LargeRun, d)
    requires HasInstructor(MakeUsers(d.users))
    ensures InsertWritable(Empty, d)
    ensures Linked(ApplyAll(Empty, InsertAllWrites(Empty, d)))
  {
    LargeRunOutcome(d);
    EmptyLinked();
    InsertAllKeepsLinked(Empty, LargeRun, d);
  }
}
