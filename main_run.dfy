/** The seeding script as a whole: the user loop, the users read back, the
    course loop over the instructors among them, then the enrollment loop, with
    the small counts (100 users, 20 courses of 5 lessons of 2 quizzes of 3
    questions, 2 courses per student) on whatever the store already held. */
module MainRun {
  import opened Entities
  import opened Store
  import opened Scale
  import opened UserInsert
  import opened CourseBuilder
  import opened CourseGraph
  import opened EnrollmentGen
  import opened EnrollmentProps
  import opened InsertAll
  import opened MainDocs
  import opened MainScript

  /** Every call of a run that reaches its end, in order: one insert per user,
      the course trees child first, then per user its enrollments and the
      write-back of its list. */
  function MainWrites(db: DB, d: InsertDraws): seq<Write>
    requires InsertWritable(db, d)
  {
    var users := Retrieved(db, d);
    UserSingles(MakeUsers(d.users))
      + CoursesDocs(InstructorIds(users), d.courses)
      + EnrollDocs(users, CoursesAfter(db, d), d.enrollments)
  }

  /** The user loop, then `list(db.users.find())`: every stored user, the new
      ones last. */
  method UsersPart(store: MongoStore, ghost db: DB, ds: seq<UserDraw>) returns (users: seq<User>)
    requires store.State() == db
    requires |ds| == Iterations(SmallRun.users)
    modifies store
    ensures users == db.users + MakeUsers(ds)
    ensures store.journal == old(store.journal) + UserSingles(MakeUsers(ds))
    ensures store.State() == db.(users := users)
  {
    AddUsers(store, SmallRun, ds);
    users := RetrieveUsers(store);
  }

  /** The course loop and the enrollment loop over the users read back. With
      20 courses built and 2 sampled per student, the sample always fits: the
      run raises IndexError, before writing anything, exactly when no user is
      an instructor. */
  method TreesAndEnrollments(store: MongoStore, ghost db: DB, users: seq<User>, d: InsertDraws)
    returns (outcome: Outcome)
    requires users == Retrieved(db, d)
    requires store.State() == db.(users := users)
    requires CoursesFit(d.courses, SmallRun, |InstructorIds(users)|)
    requires DrawsFit(users, d.enrollments, |db.courses| + |d.courses|, SmallRun.enrollmentsPerUser)
    modifies store
    ensures outcome == if HasInstructor(users) then Pass else Fail(IndexError)
    ensures outcome.Pass? ==>
              && InsertWritable(db, d)
              && var ws := CoursesDocs(InstructorIds(users), d.courses)
                           + EnrollDocs(users, CoursesAfter(db, d), d.enrollments);
                 store.journal == old(store.journal) + ws && store.State() == ApplyAll(old(store.State()), ws)
    ensures outcome.Fail? ==> store.journal == old(store.journal) && store.State() == old(store.State())
  {
    ghost var j0, db1 := store.journal, store.State();
    outcome := AddCourses(store, SmallRun, users, d.courses);
    if outcome.Fail? {
      return;
    }
    var candidates := InstructorIds(users);
    assert PicksIn(d.courses, |candidates|);
    CoursesDocsEffect(db1, candidates, d.courses);
    CoursesBatchesEffect(db1, candidates, d.courses);
    assert store.courses == CoursesAfter(db, d);
    DrawsFitAfter(db, d, SmallRun.enrollmentsPerUser, users, |store.courses|);
    outcome := AddEnrollments(store, users, SmallRun.enrollmentsPerUser, d.enrollments);
    var cd := CoursesDocs(candidates, d.courses);
    var ed := EnrollDocs(users, CoursesAfter(db, d), d.enrollments);
    ApplyAllConcat(db1, cd, ed);
    AppendAssoc(j0, cd, ed);
  }

  /** The calls of a completed run: the user inserts, then the rest. */
  lemma SplitMainWrites(db: DB, d: InsertDraws, j0: seq<Write>)
    requires InsertWritable(db, d)
    ensures var us := UserSingles(MakeUsers(d.users));
      var ws := CoursesDocs(InstructorIds(Retrieved(db, d)), d.courses)
                + EnrollDocs(Retrieved(db, d), CoursesAfter(db, d), d.enrollments);
      && j0 + us + ws == j0 + MainWrites(db, d)
      && ApplyAll(db.(users := Retrieved(db, d)), ws) == ApplyAll(db, MainWrites(db, d))
  {
    var us := UserSingles(MakeUsers(d.users));
    var cd := CoursesDocs(InstructorIds(Retrieved(db, d)), d.courses);
    var ed := EnrollDocs(Retrieved(db, d), CoursesAfter(db, d), d.enrollments);
    AppendAssoc(us, cd, ed);
    AppendAssoc(j0, us, cd + ed);
    UserSinglesEffect(db, MakeUsers(d.users));
    ApplyAllConcat(db, us, cd + ed);
  }

  /** The script on a store holding `db`. It ends with IndexError exactly when
      none of the users read back, old or new, is an instructor; the user
      inserts have then been issued and nothing else. Otherwise every call of
      `MainWrites` is issued, in order. */
  method RunMain(store: MongoStore, ghost db: DB, d: InsertDraws) returns (outcome: Outcome)
    requires store.State() == db
    requires InsertFits(db, SmallRun, d)
    modifies store
    ensures outcome == if HasInstructor(Retrieved(db, d)) then Pass else Fail(IndexError)
    ensures outcome.Pass? ==>
              && InsertWritable(db, d)
              && store.journal == old(store.journal) + MainWrites(db, d)
              && store.State() == ApplyAll(db, MainWrites(db, d))
    ensures outcome.Fail? ==>
              && store.journal == old(store.journal) + UserSingles(MakeUsers(d.users))
              && store.State() == db.(users := Retrieved(db, d))
  {
    ghost var j0 := store.journal;
    assert |d.users| == Iterations(SmallRun.users);
    assert CoursesFit(d.courses, SmallRun, |InstructorIds(Retrieved(db, d))|);
    assert DrawsFit(Retrieved(db, d), d.enrollments, |db.courses| + |d.courses|, SmallRun.enrollmentsPerUser);
    var users := UsersPart(store, db, d.users);
    outcome := TreesAndEnrollments(store, db, users, d);
    if outcome.Pass? {
      SplitMainWrites(db, d, j0);
    }
  }

  /** The outcome of the script is the outcome `insert_all_data` would have on
      the same store and draws with the small counts: with 20 courses built and
      2 sampled, ValueError is out of reach. */
  lemma SmallRunOutcome(db: DB, d: InsertDraws)
    requires |d.courses| == Iterations(SmallRun.courses)
    ensures InsertOutcome(Retrieved(db, d), |d.courses|, |db.courses|, SmallRun.enrollmentsPerUser)
         == if HasInstructor(Retrieved(db, d)) then Pass else Fail(IndexError)
  {
  }

  /** With distinct user ids, the script's one-document calls leave the same
      collections as the batched calls of `insert_all_data` with the same
      draws. */
  lemma MainMatchesInsertAll(db: DB, d: InsertDraws)
    requires InsertWritable(db, d)
    requires Distinct(UserIds(Retrieved(db, d)))
    ensures ApplyAll(db, MainWrites(db, d)) == ApplyAll(db, InsertAllWrites(db, d))
  {
    var users := Retrieved(db, d);
    var us := UserSingles(MakeUsers(d.users));
    var w1 := InsertUsers(MakeUsers(d.users));
    var cd := CoursesDocs(InstructorIds(users), d.courses);
    var cb := CoursesBatches(InstructorIds(users), d.courses);
    var ed := EnrollDocs(users, CoursesAfter(db, d), d.enrollments);
    var ew := EnrollmentWrites(users, CoursesAfter(db, d), d.enrollments);
    var db1 := db.(users := users);
    UserSinglesEffect(db, MakeUsers(d.users));
    ApplyAllOne(db, w1);
    CoursesDocsEffect(db1, InstructorIds(users), d.courses);
    CoursesBatchesEffect(db1, InstructorIds(users), d.courses);
    var db2 := ApplyAll(db1, cb);
    assert db2.users == users && db2.courses == CoursesAfter(db, d);
    EnrollDocsEffect(db2, d.enrollments);
    ApplyAllThree(db, us, cd, ed);
    ApplyAllThree(db, [w1], cb, ew);
  }

  /** A completed run with distinct user ids adds 100 users, 20 courses, 100
      lessons, 200 quizzes, 600 questions and 2 enrollments per student read
      back. */
  lemma MainAdds(db: DB, d: InsertDraws)
    requires InsertFits(db, SmallRun, d)
    requires HasInstructor(Retrieved(db, d))
    requires Distinct(UserIds(Retrieved(db, d)))
    ensures InsertWritable(db, d)
    ensures var r := ApplyAll(db, MainWrites(db, d));
      && |r.users| == |db.users| + 100 && |r.courses| == |db.courses| + 20
      && |r.lessons| == |db.lessons| + 100 && |r.quizzes| == |db.quizzes| + 200
      && |r.questions| == |db.questions| + 600
      && |r.enrollments| == |db.enrollments| + 2 * StudentCount(Retrieved(db, d))
  {
    InsertAllCounts(db, SmallRun, d);
    MainMatchesInsertAll(db, d);
  }

  /** A completed run with distinct user ids on a store without dangling
      references leaves none. */
  lemma MainKeepsLinked(db: DB, d: InsertDraws)
    requires Linked(db)
    requires InsertFits(db, SmallRun, d)
    requires HasInstructor(Retrieved(db, d))
    requires Distinct(UserIds(Retrieved(db, d)))
    ensures InsertWritable(db, d)
    ensures Linked(ApplyAll(db, MainWrites(db, d)))
  {
    InsertAllKeepsLinked(db, SmallRun, d);
    MainMatchesInsertAll(db, d);
  }
}
