/** `insert_all_data` as a whole: the users, the course trees built over the
    instructors among the users read back, then the enrollments. What it writes,
    how it ends, and what it leaves in the store. */
module InsertAll {
  import opened Entities
  import opened Store
  import opened Scale
  import opened UserInsert
  import opened CourseBuilder
  import opened CourseGraph
  import opened EnrollmentGen
  import opened EnrollmentProps

  /** Everything `insert_all_data` draws: the users, the course trees, and the
      enrollment samples. */
  datatype InsertDraws = InsertDraws(users: seq<UserDraw>, courses: seq<CourseDraw>, enrollments: seq<StudentDraw>)

  /** The users `retrieve_users` reads back: those stored before, then the new ones. */
  function Retrieved(db: DB, d: InsertDraws): seq<User> {
    db.users + MakeUsers(d.users)
  }

  /** The draws fit the counts: one user draw per user, one course draw per
      course with the per-parent counts and a pick inside the instructor list,
      one enrollment draw per retrieved user. */
  predicate InsertFits(db: DB, c: Counts, d: InsertDraws) {
    && |d.users| == Iterations(c.users)
    && CoursesFit(d.courses, c, |InstructorIds(Retrieved(db, d))|)
    && DrawsFit(Retrieved(db, d), d.enrollments, |db.courses| + |d.courses|, c.enrollmentsPerUser)
  }

  /** How `insert_all_data` ends, given the retrieved users, the number of courses
      it builds, the number already stored and the sample size: IndexError when a
      course is to be built and no user is an instructor; otherwise ValueError
      when some user is a student and the sample is larger than the course
      collection; otherwise it returns. */
  function InsertOutcome(users: seq<User>, built: nat, stored: nat, k: nat): Outcome {
    if built > 0 && !HasInstructor(users) then Fail(IndexError)
    else if k > stored + built && HasStudent(users) then Fail(ValueError)
    else Pass
  }

  /** What the specification of a completed `insert_all_data` needs from the draws. */
  predicate InsertWritable(db: DB, d: InsertDraws) {
    && PicksIn(d.courses, |InstructorIds(Retrieved(db, d))|)
    && Drawable(Retrieved(db, d), d.enrollments, |db.courses| + |d.courses|)
  }

  /** The courses stored once the course trees are in. */
  function CoursesAfter(db: DB, d: InsertDraws): (r: seq<Course>)
    requires PicksIn(d.courses, |InstructorIds(Retrieved(db, d))|)
    ensures |r| == |db.courses| + |d.courses|
  {
    db.courses + MakeCourses(InstructorIds(Retrieved(db, d)), d.courses)
  }

  /** Every call a completed `insert_all_data` issues: the user batch, the course
      trees, then the enrollment updates and batch. */
  function InsertAllWrites(db: DB, d: InsertDraws): seq<Write>
    requires InsertWritable(db, d)
  {
    var users := Retrieved(db, d);
    [InsertUsers(MakeUsers(d.users))]
      + CoursesBatches(InstructorIds(users), d.courses)
      + EnrollmentWrites(users, CoursesAfter(db, d), d.enrollments)
  }

  /** When no exception escapes, the draws are the ones the specification of the writes needs. */
  lemma PassWritable(db: DB, c: Counts, d: InsertDraws)
    requires CoursesFit(d.courses, c, |InstructorIds(Retrieved(db, d))|)
    requires DrawsFit(Retrieved(db, d), d.enrollments, |db.courses| + |d.courses|, c.enrollmentsPerUser)
    requires InsertOutcome(Retrieved(db, d), |d.courses|, |db.courses|, c.enrollmentsPerUser) == Pass
    ensures InsertWritable(db, d)
    ensures StudentsDrawn(Retrieved(db, d), d.enrollments, |db.courses| + |d.courses|, c.enrollmentsPerUser)
  {
    PassDraws(Retrieved(db, d), d.courses, d.enrollments, c, |db.courses|);
  }

  /** The same over the users read back. */
  lemma PassDraws(users: seq<User>, cs: seq<CourseDraw>, es: seq<StudentDraw>, c: Counts, stored: nat)
    requires CoursesFit(cs, c, |InstructorIds(users)|)
    requires DrawsFit(users, es, stored + |cs|, c.enrollmentsPerUser)
    requires InsertOutcome(users, |cs|, stored, c.enrollmentsPerUser) == Pass
    ensures PicksIn(cs, |InstructorIds(users)|)
    ensures Drawable(users, es, stored + |cs|)
    ensures StudentsDrawn(users, es, stored + |cs|, c.enrollmentsPerUser)
  {
    PassPicksIn(users, cs, c);
    PassDrawable(users, es, stored + |cs|, c.enrollmentsPerUser);
  }

  /** Courses are built only when some user is an instructor, and then every pick names one. */
  lemma PassPicksIn(users: seq<User>, ds: seq<CourseDraw>, c: Counts)
    requires CoursesFit(ds, c, |InstructorIds(users)|)
    requires |ds| > 0 ==> HasInstructor(users)
    ensures PicksIn(ds, |InstructorIds(users)|)
  {
    if |ds| > 0 {
      var u :| u in users && u.role == Instructor;
      assert u.id in InstructorIds(users);
    }
  }

  /** A sample too large for the course collection is drawn by no one when no user is a student. */
  lemma PassDrawable(users: seq<User>, es: seq<StudentDraw>, n: nat, k: nat)
    requires DrawsFit(users, es, n, k)
    requires k > n ==> !HasStudent(users)
    ensures Drawable(users, es, n) && StudentsDrawn(users, es, n, k)
  {
    if k > n {
      assert forall i :: 0 <= i < |users| ==> users[i].role != Student;
    }
  }

  /** The user batch keeps a linked store linked; the retrieved users are then
      exactly the stored ones. */
  lemma UsersStage(db: DB, d: InsertDraws)
    requires Linked(db)
    ensures var db1 := Apply(db, InsertUsers(MakeUsers(d.users)));
      Linked(db1) && db1.users == Retrieved(db, d) && db1.courses == db.courses
  {
    InsertUsersKeepsLinked(db, d.users);
  }

  /** The course trees, taught by stored instructors, keep a linked store linked
      and add the built courses to the course collection. */
  lemma CoursesStage(db: DB, ds: seq<CourseDraw>)
    requires Linked(db)
    requires PicksIn(ds, |InstructorIds(db.users)|)
    ensures var r := ApplyAll(db, CoursesBatches(InstructorIds(db.users), ds));
      && Linked(r) && r.users == db.users
      && r.courses == db.courses + MakeCourses(InstructorIds(db.users), ds)
  {
    InsertCoursesKeepsLinked(db, ds);
    CoursesBatchesEffect(db, InstructorIds(db.users), ds);
  }

  /** The users and the course trees of `insert_all_data` keep a linked store
      linked; the retrieved users are the stored ones, and the courses are those
      stored before followed by the built ones. */
  lemma TreeStage(db: DB, d: InsertDraws, k: nat)
    requires Linked(db)
    requires PicksIn(d.courses, |InstructorIds(Retrieved(db, d))|)
    requires StudentsDrawn(Retrieved(db, d), d.enrollments, |db.courses| + |d.courses|, k)
    ensures var r := ApplyAll(Apply(db, InsertUsers(MakeUsers(d.users))),
                              CoursesBatches(InstructorIds(Retrieved(db, d)), d.courses));
      && Linked(r) && r.users == Retrieved(db, d) && r.courses == CoursesAfter(db, d)
      && StudentsDrawn(r.users, d.enrollments, |r.courses|, k)
  {
    UsersStage(db, d);
    CoursesStage(Apply(db, InsertUsers(MakeUsers(d.users))), d.courses);
    DrawnAfter(db, d, k, ApplyAll(Apply(db, InsertUsers(MakeUsers(d.users))),
                                  CoursesBatches(InstructorIds(Retrieved(db, d)), d.courses)));
  }

  lemma DrawnAfter(db: DB, d: InsertDraws, k: nat, r: DB)
    requires StudentsDrawn(Retrieved(db, d), d.enrollments, |db.courses| + |d.courses|, k)
    requires r.users == Retrieved(db, d) && |r.courses| == |db.courses| + |d.courses|
    ensures StudentsDrawn(r.users, d.enrollments, |r.courses|, k)
  {
  }

  lemma DrawsFitAfter(db: DB, d: InsertDraws, k: nat, users: seq<User>, n: nat)
    requires DrawsFit(Retrieved(db, d), d.enrollments, |db.courses| + |d.courses|, k)
    requires users == Retrieved(db, d) && n == |db.courses| + |d.courses|
    ensures DrawsFit(users, d.enrollments, n, k)
  {
  }

  /** The draws fit the counts of the store they are stated for, and any equal one. */
  lemma FitsAt(db: DB, c: Counts, d: InsertDraws, c': Counts)
    requires InsertFits(db, c, d)
    requires c' == c
    ensures InsertFits(db, c', d)
  {
  }

  lemma InsertAllLinks(db: DB, k: nat, d: InsertDraws)
    requires Linked(db)
    requires InsertWritable(db, d)
    requires StudentsDrawn(Retrieved(db, d), d.enrollments, |db.courses| + |d.courses|, k)
    ensures Linked(ApplyAll(db, InsertAllWrites(db, d)))
  {
    var users := Retrieved(db, d);
    var w1 := InsertUsers(MakeUsers(d.users));
    var cb := CoursesBatches(InstructorIds(users), d.courses);
    var ew := EnrollmentWrites(users, CoursesAfter(db, d), d.enrollments);
    assert InsertAllWrites(db, d) == [w1] + cb + ew;
    TreeStage(db, d, k);
    EnrollmentsKeepLinked(ApplyAll(Apply(db, w1), cb), k, d.enrollments);
    LinkedThroughThree(db, w1, cb, ew);
  }

  /** A completed `insert_all_data` on a store without dangling references leaves
      none: every course is taught by a stored instructor, every child names its
      parent, every enrollment names a stored student and course. */
  lemma InsertAllKeepsLinked(db: DB, c: Counts, d: InsertDraws)
    requires Linked(db)
    requires InsertFits(db, c, d)
    requires InsertOutcome(Retrieved(db, d), |d.courses|, |db.courses|, c.enrollmentsPerUser) == Pass
    ensures InsertWritable(db, d)
    ensures Linked(ApplyAll(db, InsertAllWrites(db, d)))
  {
    PassWritable(db, c, d);
    InsertAllLinks(db, c.enrollmentsPerUser, d);
  }

  /** The enrollment writes add `k` enrollments per student and leave the number
      of users and every other collection as they were. */
  lemma EnrollStage(db: DB, k: nat, ds: seq<StudentDraw>)
    requires StudentsDrawn(db.users, ds, |db.courses|, k)
    ensures Drawable(db.users, ds, |db.courses|)
    ensures var r := ApplyAll(db, EnrollmentWrites(db.users, db.courses, ds));
      && |r.users| == |db.users| && r.courses == db.courses && r.lessons == db.lessons
      && r.quizzes == db.quizzes && r.questions == db.questions
      && |r.enrollments| == |db.enrollments| + StudentCount(db.users) * k
  {
    var ups := EnrollmentUpdates(db.users, db.courses, ds);
    var es := AllEnrollments(db.users, db.courses, ds);
    UpdatesOnlyUsers(db, db.users, ds);
    EnrollmentCounts(db.users, db.courses, k, ds);
    ApplyAllSnoc(db, ups, InsertEnrollments(es));
  }

  /** The users and the course trees add the drawn users, and C courses, C·L
      lessons, C·L·Q quizzes and C·L·Q·N questions, and no enrollment. */
  lemma TreeTotals(db: DB, d: InsertDraws, c: Counts)
    requires forall i :: 0 <= i < |d.courses| ==> CourseFits(d.courses[i], c)
    requires PicksIn(d.courses, |InstructorIds(Retrieved(db, d))|)
    ensures var r := ApplyAll(Apply(db, InsertUsers(MakeUsers(d.users))),
                              CoursesBatches(InstructorIds(Retrieved(db, d)), d.courses));
      && r.users == Retrieved(db, d) && r.courses == CoursesAfter(db, d)
      && r.enrollments == db.enrollments
      && |r.lessons| == |db.lessons| + |d.courses| * c.lessonsPerCourse
      && |r.quizzes| == |db.quizzes| + |d.courses| * (c.lessonsPerCourse * c.quizzesPerLesson)
      && |r.questions| == |db.questions| + |d.courses| * (c.lessonsPerCourse * c.quizzesPerLesson * c.questionsPerQuiz)
  {
    var db1 := Apply(db, InsertUsers(MakeUsers(d.users)));
    assert db1 == db.(users := Retrieved(db, d));
    CoursesBatchesEffect(db1, InstructorIds(Retrieved(db, d)), d.courses);
    CourseTotals(InstructorIds(Retrieved(db, d)), d.courses, c);
  }

  lemma InsertAllTotals(db: DB, c: Counts, d: InsertDraws)
    requires forall i :: 0 <= i < |d.courses| ==> CourseFits(d.courses[i], c)
    requires InsertWritable(db, d)
    requires StudentsDrawn(Retrieved(db, d), d.enrollments, |db.courses| + |d.courses|, c.enrollmentsPerUser)
    ensures var r := ApplyAll(db, InsertAllWrites(db, d));
      && |r.users| == |db.users| + |d.users|
      && |r.courses| == |db.courses| + |d.courses|
      && |r.lessons| == |db.lessons| + |d.courses| * c.lessonsPerCourse
      && |r.quizzes| == |db.quizzes| + |d.courses| * (c.lessonsPerCourse * c.quizzesPerLesson)
      && |r.questions| == |db.questions| + |d.courses| * (c.lessonsPerCourse * c.quizzesPerLesson * c.questionsPerQuiz)
      && |r.enrollments| == |db.enrollments| + StudentCount(Retrieved(db, d)) * c.enrollmentsPerUser
  {
    var users := Retrieved(db, d);
    var w1 := InsertUsers(MakeUsers(d.users));
    var cb := CoursesBatches(InstructorIds(users), d.courses);
    var ew := EnrollmentWrites(users, CoursesAfter(db, d), d.enrollments);
    assert InsertAllWrites(db, d) == [w1] + cb + ew;
    TreeTotals(db, d, c);
    var db2 := ApplyAll(Apply(db, w1), cb);
    DrawnAfter(db, d, c.enrollmentsPerUser, db2);
    EnrollStage(db2, c.enrollmentsPerUser, d.enrollments);
    ApplyAllOne(db, w1);
    ApplyAllThree(db, [w1], cb, ew);
  }

  /** Exact totals of a completed `insert_all_data`: it adds the users drawn,
      C courses, C·L lessons, C·L·Q quizzes, C·L·Q·N questions, and `k`
      enrollments per retrieved student. */
  lemma InsertAllCounts(db: DB, c: Counts, d: InsertDraws)
    requires InsertFits(db, c, d)
    requires InsertOutcome(Retrieved(db, d), |d.courses|, |db.courses|, c.enrollmentsPerUser) == Pass
    ensures InsertWritable(db, d)
    ensures var r := ApplyAll(db, InsertAllWrites(db, d));
      && |r.users| == |db.users| + Iterations(c.users)
      && |r.courses| == |db.courses| + Iterations(c.courses)
      && |r.lessons| == |db.lessons| + Iterations(c.courses) * c.lessonsPerCourse
      && |r.quizzes| == |db.quizzes| + Iterations(c.courses) * (c.lessonsPerCourse * c.quizzesPerLesson)
      && |r.questions| == |db.questions| + Iterations(c.courses) * (c.lessonsPerCourse * c.quizzesPerLesson * c.questionsPerQuiz)
      && |r.enrollments| == |db.enrollments| + StudentCount(Retrieved(db, d)) * c.enrollmentsPerUser
  {
    assert |d.users| == Iterations(c.users);
    assert CoursesFit(d.courses, c, |InstructorIds(Retrieved(db, d))|);
    PassWritable(db, c, d);
    InsertAllTotals(db, c, d);
  }

  /** On an empty store the user batch leaves exactly the new users. */
  lemma UsersOnEmpty(ds: seq<UserDraw>)
    ensures Apply(Empty, InsertUsers(MakeUsers(ds))) == Empty.(users := MakeUsers(ds))
  {
    assert Empty.users + MakeUsers(ds) == MakeUsers(ds);
  }
}
