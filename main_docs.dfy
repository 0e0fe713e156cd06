/** The writes of the stand-alone generator script: every document goes out with
    its own `insert_one`, in the order its nested loops finish building them (a
    question as soon as it is built, a quiz after its questions, a lesson after
    its quizzes, a course after its lessons), and every user read back gets one
    `update_one`. The lemmas say what these writes do to the collections, and
    that they leave the same collections as the batched writes of
    `insert_all_data` with the same draws. */
module MainDocs {
  import opened Entities
  import opened Store
  import opened CourseBuilder
  import opened CourseGraph
  import opened EnrollmentGen
  import opened EnrollmentProps

  // ---------------------------------------------------------------------------
  // The writes

  /** One `users.insert_one` per user, in order. */
  function UserSingles(us: seq<User>): seq<Write> {
    if us == [] then [] else UserSingles(us[..|us| - 1]) + [InsertUsers([us[|us| - 1]])]
  }

  /** One `quiz_questions.insert_one` per question, in order. */
  function QuestionSingles(ns: seq<Question>): seq<Write> {
    if ns == [] then [] else QuestionSingles(ns[..|ns| - 1]) + [InsertQuestions([ns[|ns| - 1]])]
  }

  /** One `enrollments.insert_one` per enrollment, in order. */
  function EnrollmentSingles(es: seq<Enrollment>): seq<Write> {
    if es == [] then [] else EnrollmentSingles(es[..|es| - 1]) + [InsertEnrollments([es[|es| - 1]])]
  }

  /** One quiz: its questions one by one, then the quiz. */
  function QuizDocs(lessonId: Id, d: QuizDraw): seq<Write> {
    QuestionSingles(MakeQuestions(d.id, d.questions)) + [InsertQuizzes([MakeQuiz(lessonId, d)])]
  }

  function QuizzesDocs(lessonId: Id, ds: seq<QuizDraw>): seq<Write> {
    if ds == [] then [] else QuizzesDocs(lessonId, ds[..|ds| - 1]) + QuizDocs(lessonId, ds[|ds| - 1])
  }

  /** One lesson: its quizzes' writes, then the lesson. */
  function LessonDocs(courseId: Id, d: LessonDraw): seq<Write> {
    QuizzesDocs(d.id, d.quizzes) + [InsertLessons([MakeLesson(courseId, d)])]
  }

  function LessonsDocs(courseId: Id, ds: seq<LessonDraw>): seq<Write> {
    if ds == [] then [] else LessonsDocs(courseId, ds[..|ds| - 1]) + LessonDocs(courseId, ds[|ds| - 1])
  }

  /** One course: its lessons' writes, then the course. */
  function CourseDocs(instructor: Id, d: CourseDraw): seq<Write> {
    LessonsDocs(d.id, d.lessons) + [InsertCourses([MakeCourse(instructor, d)])]
  }

  function CoursesDocs(candidates: seq<Id>, ds: seq<CourseDraw>): seq<Write>
    requires PicksIn(ds, |candidates|)
  {
    if ds == [] then [] else
      var d := ds[|ds| - 1];
      CoursesDocs(candidates, ds[..|ds| - 1]) + CourseDocs(candidates[d.pick], d)
  }

  /** One user of the enrollment loop: a student's enrollments one by one, then
      the `update_one` writing its extended list; anyone else gets only the
      `update_one`, which writes its list back as it was read. */
  function UserEnrollDocs(u: User, courses: seq<Course>, d: StudentDraw): seq<Write>
    requires u.role == Student ==> Sampled(d, |courses|)
  {
    if u.role == Student then
      EnrollmentSingles(StudentEnrollments(u, courses, d)) + [SetEnrolledCourses(u.id, Enroll(u, courses, d).enrolledCourses)]
    else
      [SetEnrolledCourses(u.id, u.enrolledCourses)]
  }

  function EnrollDocs(users: seq<User>, courses: seq<Course>, ds: seq<StudentDraw>): seq<Write>
    requires Drawable(users, ds, |courses|)
    decreases |users|
  {
    if users == [] then []
    else
      var n := |users| - 1;
      EnrollDocs(users[..n], courses, ds[..n]) + UserEnrollDocs(users[n], courses, ds[n])
  }

  /** The position of the first student: where `random.sample` is first called. */
  function FirstStudent(users: seq<User>): (p: nat)
    requires HasStudent(users)
    ensures p < |users| && users[p].role == Student
    ensures forall j :: 0 <= j < p ==> users[j].role != Student
  {
    if users[0].role == Student then 0
    else
      var i :| 0 <= i < |users| && users[i].role == Student;
      assert users[1..][i - 1] == users[i];
      1 + FirstStudent(users[1..])
  }

  lemma FirstStudentAt(users: seq<User>, i: nat)
    requires i < |users| && users[i].role == Student
    requires forall j :: 0 <= j < i ==> users[j].role != Student
    ensures HasStudent(users) && FirstStudent(users) == i
  {
  }

  // ---------------------------------------------------------------------------
  // What the writes do to the collections

  lemma {:induction false} UserSinglesEffect(db: DB, us: seq<User>)
    ensures ApplyAll(db, UserSingles(us)) == db.(users := db.users + us)
    decreases |us|
  {
    if us != [] {
      var init, u := us[..|us| - 1], us[|us| - 1];
      UserSinglesEffect(db, init);
      ApplyAllSnoc(db, UserSingles(init), InsertUsers([u]));
      AppendAssoc(db.users, init, [u]);
      SplitLast(us);
    }
  }

  lemma {:induction false} QuestionSinglesEffect(db: DB, ns: seq<Question>)
    ensures ApplyAll(db, QuestionSingles(ns)) == db.(questions := db.questions + ns)
    decreases |ns|
  {
    if ns != [] {
      var init, n := ns[..|ns| - 1], ns[|ns| - 1];
      QuestionSinglesEffect(db, init);
      ApplyAllSnoc(db, QuestionSingles(init), InsertQuestions([n]));
      AppendAssoc(db.questions, init, [n]);
      SplitLast(ns);
    }
  }

  lemma {:induction false} EnrollmentSinglesEffect(db: DB, es: seq<Enrollment>)
    ensures ApplyAll(db, EnrollmentSingles(es)) == db.(enrollments := db.enrollments + es)
    decreases |es|
  {
    if es != [] {
      var init, e := es[..|es| - 1], es[|es| - 1];
      EnrollmentSinglesEffect(db, init);
      ApplyAllSnoc(db, EnrollmentSingles(init), InsertEnrollments([e]));
      AppendAssoc(db.enrollments, init, [e]);
      SplitLast(es);
    }
  }

  lemma QuizDocsEffect(db: DB, lessonId: Id, d: QuizDraw)
    ensures ApplyAll(db, QuizDocs(lessonId, d))
            == db.(quizzes := db.quizzes + [MakeQuiz(lessonId, d)],
                   questions := db.questions + MakeQuestions(d.id, d.questions))
  {
    var ns := MakeQuestions(d.id, d.questions);
    QuestionSinglesEffect(db, ns);
    ApplyAllSnoc(db, QuestionSingles(ns), InsertQuizzes([MakeQuiz(lessonId, d)]));
  }

  lemma {:induction false} QuizzesDocsEffect(db: DB, lessonId: Id, ds: seq<QuizDraw>)
    ensures ApplyAll(db, QuizzesDocs(lessonId, ds))
            == db.(quizzes := db.quizzes + MakeQuizzes(lessonId, ds), questions := db.questions + QuestionsOf(ds))
    decreases |ds|
  {
    if ds != [] {
      var init, d := ds[..|ds| - 1], ds[|ds| - 1];
      var mid := ApplyAll(db, QuizzesDocs(lessonId, init));
      QuizzesDocsEffect(db, lessonId, init);
      ApplyAllConcat(db, QuizzesDocs(lessonId, init), QuizDocs(lessonId, d));
      QuizDocsEffect(mid, lessonId, d);
      AppendAssoc(db.quizzes, MakeQuizzes(lessonId, init), [MakeQuiz(lessonId, d)]);
      AppendAssoc(db.questions, QuestionsOf(init), MakeQuestions(d.id, d.questions));
    }
  }

  lemma LessonDocsEffect(db: DB, courseId: Id, d: LessonDraw)
    ensures ApplyAll(db, LessonDocs(courseId, d))
            == db.(lessons := db.lessons + [MakeLesson(courseId, d)],
                   quizzes := db.quizzes + MakeQuizzes(d.id, d.quizzes),
                   questions := db.questions + QuestionsOf(d.quizzes))
  {
    QuizzesDocsEffect(db, d.id, d.quizzes);
    ApplyAllSnoc(db, QuizzesDocs(d.id, d.quizzes), InsertLessons([MakeLesson(courseId, d)]));
  }

  lemma {:induction false} LessonsDocsEffect(db: DB, courseId: Id, ds: seq<LessonDraw>)
    ensures ApplyAll(db, LessonsDocs(courseId, ds))
            == db.(lessons := db.lessons + MakeLessons(courseId, ds),
                   quizzes := db.quizzes + QuizzesOfLessons(ds),
                   questions := db.questions + QuestionsOfLessons(ds))
    decreases |ds|
  {
    if ds != [] {
      var init, d := ds[..|ds| - 1], ds[|ds| - 1];
      var mid := ApplyAll(db, LessonsDocs(courseId, init));
      LessonsDocsEffect(db, courseId, init);
      ApplyAllConcat(db, LessonsDocs(courseId, init), LessonDocs(courseId, d));
      LessonDocsEffect(mid, courseId, d);
      AppendAssoc(db.lessons, MakeLessons(courseId, init), [MakeLesson(courseId, d)]);
      AppendAssoc(db.quizzes, QuizzesOfLessons(init), MakeQuizzes(d.id, d.quizzes));
      AppendAssoc(db.questions, QuestionsOfLessons(init), QuestionsOf(d.quizzes));
    }
  }

  /** A course written document by document leaves the same collections as its
      batched writes. */
  lemma CourseDocsEffect(db: DB, instructor: Id, d: CourseDraw)
    ensures ApplyAll(db, CourseDocs(instructor, d)) == ApplyAll(db, CourseBatches(instructor, d))
  {
    LessonsDocsEffect(db, d.id, d.lessons);
    ApplyAllSnoc(db, LessonsDocs(d.id, d.lessons), InsertCourses([MakeCourse(instructor, d)]));
    CourseBatchesEffect(db, instructor, d);
  }

  /** The course loop written document by document leaves the same collections
      as `insert_courses` with the same draws. */
  lemma {:induction false} CoursesDocsEffect(db: DB, candidates: seq<Id>, ds: seq<CourseDraw>)
    requires PicksIn(ds, |candidates|)
    ensures ApplyAll(db, CoursesDocs(candidates, ds)) == ApplyAll(db, CoursesBatches(candidates, ds))
    decreases |ds|
  {
    if ds != [] {
      var init, d := ds[..|ds| - 1], ds[|ds| - 1];
      assert PicksIn(init, |candidates|);
      CoursesDocsEffect(db, candidates, init);
      ApplyAllConcat(db, CoursesDocs(candidates, init), CourseDocs(candidates[d.pick], d));
      ApplyAllConcat(db, CoursesBatches(candidates, init), CourseBatches(candidates[d.pick], d));
      CourseDocsEffect(ApplyAll(db, CoursesBatches(candidates, init)), candidates[d.pick], d);
    }
  }

  // ---------------------------------------------------------------------------
  // Write order: children before parents, document by document

  lemma {:induction false} QuestionSinglesFirst(db: DB, ns: seq<Question>)
    ensures ChildrenFirst(db, QuestionSingles(ns))
    decreases |ns|
  {
    if ns != [] {
      QuestionSinglesFirst(db, ns[..|ns| - 1]);
      DropLast(QuestionSingles(ns[..|ns| - 1]), InsertQuestions([ns[|ns| - 1]]));
    }
  }

  lemma QuizDocsFirst(db: DB, lessonId: Id, d: QuizDraw)
    ensures ChildrenFirst(db, QuizDocs(lessonId, d))
  {
    var ns := MakeQuestions(d.id, d.questions);
    var w := InsertQuizzes([MakeQuiz(lessonId, d)]);
    QuestionSinglesFirst(db, ns);
    QuestionSinglesEffect(db, ns);
    OneQuiz(lessonId, d);
    QuestionsListedExtend([MakeQuiz(lessonId, d)], db.questions, ns);
    ChildrenFirstOne(ApplyAll(db, QuestionSingles(ns)), w);
    ChildrenFirstConcat(db, QuestionSingles(ns), [w]);
  }

  lemma {:induction false} QuizzesDocsFirst(db: DB, lessonId: Id, ds: seq<QuizDraw>)
    ensures ChildrenFirst(db, QuizzesDocs(lessonId, ds))
    decreases |ds|
  {
    if ds != [] {
      var init, d := ds[..|ds| - 1], ds[|ds| - 1];
      QuizzesDocsFirst(db, lessonId, init);
      QuizDocsFirst(ApplyAll(db, QuizzesDocs(lessonId, init)), lessonId, d);
      ChildrenFirstConcat(db, QuizzesDocs(lessonId, init), QuizDocs(lessonId, d));
    }
  }

  lemma LessonDocsFirst(db: DB, courseId: Id, d: LessonDraw)
    ensures ChildrenFirst(db, LessonDocs(courseId, d))
  {
    var a := QuizzesDocs(d.id, d.quizzes);
    var w := InsertLessons([MakeLesson(courseId, d)]);
    QuizzesDocsFirst(db, d.id, d.quizzes);
    QuizzesDocsEffect(db, d.id, d.quizzes);
    OneLesson(courseId, d);
    QuizzesListedExtend([MakeLesson(courseId, d)], db.quizzes, MakeQuizzes(d.id, d.quizzes));
    ChildrenFirstOne(ApplyAll(db, a), w);
    ChildrenFirstConcat(db, a, [w]);
  }

  lemma {:induction false} LessonsDocsFirst(db: DB, courseId: Id, ds: seq<LessonDraw>)
    ensures ChildrenFirst(db, LessonsDocs(courseId, ds))
    decreases |ds|
  {
    if ds != [] {
      var init, d := ds[..|ds| - 1], ds[|ds| - 1];
      LessonsDocsFirst(db, courseId, init);
      LessonDocsFirst(ApplyAll(db, LessonsDocs(courseId, init)), courseId, d);
      ChildrenFirstConcat(db, LessonsDocs(courseId, init), LessonDocs(courseId, d));
    }
  }

  lemma CourseDocsFirst(db: DB, instructor: Id, d: CourseDraw)
    ensures ChildrenFirst(db, CourseDocs(instructor, d))
  {
    var a := LessonsDocs(d.id, d.lessons);
    var w := InsertCourses([MakeCourse(instructor, d)]);
    LessonsDocsFirst(db, d.id, d.lessons);
    LessonsDocsEffect(db, d.id, d.lessons);
    CourseReady(db.(quizzes := db.quizzes + QuizzesOfLessons(d.lessons),
                    questions := db.questions + QuestionsOfLessons(d.lessons)), instructor, d);
    ChildrenFirstOne(ApplyAll(db, a), w);
    ChildrenFirstConcat(db, a, [w]);
  }

  /** Whatever the store held before, every `insert_one` of the course loop
      finds the children its document lists already stored. */
  lemma {:induction false} CoursesDocsFirst(db: DB, candidates: seq<Id>, ds: seq<CourseDraw>)
    requires PicksIn(ds, |candidates|)
    ensures ChildrenFirst(db, CoursesDocs(candidates, ds))
    decreases |ds|
  {
    if ds != [] {
      var init, d := ds[..|ds| - 1], ds[|ds| - 1];
      assert PicksIn(init, |candidates|);
      CoursesDocsFirst(db, candidates, init);
      CourseDocsFirst(ApplyAll(db, CoursesDocs(candidates, init)), candidates[d.pick], d);
      ChildrenFirstConcat(db, CoursesDocs(candidates, init), CourseDocs(candidates[d.pick], d));
    }
  }

  // ---------------------------------------------------------------------------
  // The enrollment loop, one user at a time

  lemma EnrollDocsStep(users: seq<User>, courses: seq<Course>, ds: seq<StudentDraw>, i: nat)
    requires i < |users| == |ds|
    requires Drawable(users[..i + 1], ds[..i + 1], |courses|)
    ensures Drawable(users[..i], ds[..i], |courses|)
    ensures users[i].role == Student ==> Sampled(ds[i], |courses|)
    ensures EnrollDocs(users[..i + 1], courses, ds[..i + 1])
            == EnrollDocs(users[..i], courses, ds[..i]) + UserEnrollDocs(users[i], courses, ds[i])
  {
    assert users[..i + 1][..i] == users[..i];
    assert ds[..i + 1][..i] == ds[..i];
    assert users[..i + 1][i] == users[i];
  }

  /** With distinct user ids, one user's writes advance the enrollment loop's
      effect by that user: a student's list extended and its enrollments
      appended; anyone else's list written back unchanged. */
  lemma UserEnrollDocsEffect(db: DB, ds: seq<StudentDraw>, n: nat, es: seq<Enrollment>)
    requires Distinct(UserIds(db.users))
    requires Drawable(db.users, ds, |db.courses|)
    requires n < |db.users|
    ensures var u := db.users[n];
      ApplyAll(db.(users := PartlyEnrolled(db.users, db.courses, ds, n), enrollments := es),
               UserEnrollDocs(u, db.courses, ds[n]))
      == db.(users := PartlyEnrolled(db.users, db.courses, ds, n + 1),
             enrollments := es + (if u.role == Student then StudentEnrollments(u, db.courses, ds[n]) else []))
  {
    var u, before := db.users[n], PartlyEnrolled(db.users, db.courses, ds, n);
    var s := db.(users := before, enrollments := es);
    PartlyEnrolledStep(db.users, db.courses, ds, n);
    if u.role == Student {
      var mine := StudentEnrollments(u, db.courses, ds[n]);
      EnrollmentSinglesEffect(s, mine);
      ApplyAllSnoc(s, EnrollmentSingles(mine), SetEnrolledCourses(u.id, Enroll(u, db.courses, ds[n]).enrolledCourses));
    } else {
      assert UserIds(before) == UserIds(db.users);
      assert before[n] == u;
      SetEnrolledAt(before, n, u.enrolledCourses);
      assert before[n := u] == before;
      ApplyAllOne(s, SetEnrolledCourses(u.id, u.enrolledCourses));
      assert es + [] == es;
    }
  }

  /** One more user: if the writes for the first `n` users have had their
      effect, those for the first `n + 1` have had one user's more. */
  lemma EnrollDocsPrefixStep(db: DB, ds: seq<StudentDraw>, n: nat)
    requires Distinct(UserIds(db.users))
    requires Drawable(db.users, ds, |db.courses|)
    requires n < |db.users|
    requires Drawable(db.users[..n], ds[..n], |db.courses|)
    requires ApplyAll(db, EnrollDocs(db.users[..n], db.courses, ds[..n]))
            == db.(users := PartlyEnrolled(db.users, db.courses, ds, n),
                   enrollments := db.enrollments + AllEnrollments(db.users[..n], db.courses, ds[..n]))
    ensures Drawable(db.users[..n + 1], ds[..n + 1], |db.courses|)
    ensures ApplyAll(db, EnrollDocs(db.users[..n + 1], db.courses, ds[..n + 1]))
            == db.(users := PartlyEnrolled(db.users, db.courses, ds, n + 1),
                   enrollments := db.enrollments + AllEnrollments(db.users[..n + 1], db.courses, ds[..n + 1]))
  {
    var users := db.users;
    PrefixDrawable(users, ds, |db.courses|, n + 1);
    EnrollDocsStep(users, db.courses, ds, n);
    UserStep(users, db.courses, ds, n);
    var before := AllEnrollments(users[..n], db.courses, ds[..n]);
    ApplyAllConcat(db, EnrollDocs(users[..n], db.courses, ds[..n]), UserEnrollDocs(users[n], db.courses, ds[n]));
    UserEnrollDocsEffect(db, ds, n, db.enrollments + before);
    if users[n].role == Student {
      AppendAssoc(db.enrollments, before, StudentEnrollments(users[n], db.courses, ds[n]));
    }
  }

  lemma {:induction false} EnrollDocsPrefixEffect(db: DB, ds: seq<StudentDraw>, p: nat)
    requires Distinct(UserIds(db.users))
    requires Drawable(db.users, ds, |db.courses|)
    requires p <= |db.users|
    ensures Drawable(db.users[..p], ds[..p], |db.courses|)
    ensures ApplyAll(db, EnrollDocs(db.users[..p], db.courses, ds[..p]))
            == db.(users := PartlyEnrolled(db.users, db.courses, ds, p),
                   enrollments := db.enrollments + AllEnrollments(db.users[..p], db.courses, ds[..p]))
    decreases p
  {
    if p == 0 {
      PrefixDrawable(db.users, ds, |db.courses|, 0);
      assert PartlyEnrolled(db.users, db.courses, ds, 0) == db.users;
      assert db.enrollments + [] == db.enrollments;
    } else {
      EnrollDocsPrefixEffect(db, ds, p - 1);
      EnrollDocsPrefixStep(db, ds, p - 1);
    }
  }

  /** The whole enrollment loop, document by document: every student enrolled
      and every enrollment appended in loop order. */
  lemma EnrollDocsAll(db: DB, ds: seq<StudentDraw>)
    requires Distinct(UserIds(db.users))
    requires Drawable(db.users, ds, |db.courses|)
    ensures ApplyAll(db, EnrollDocs(db.users, db.courses, ds))
            == db.(users := Enrolled(db.users, db.courses, ds),
                   enrollments := db.enrollments + AllEnrollments(db.users, db.courses, ds))
  {
    var n := |db.users|;
    EnrollDocsPrefixEffect(db, ds, n);
    assert db.users[..n] == db.users;
    assert ds[..n] == ds;
    PartlyEnrolledAll(db.users, db.courses, ds);
  }

  /** Once every user has been passed, the partly enrolled users are the enrolled ones. */
  lemma PartlyEnrolledAll(users: seq<User>, courses: seq<Course>, ds: seq<StudentDraw>)
    requires Drawable(users, ds, |courses|)
    ensures PartlyEnrolled(users, courses, ds, |users|) == Enrolled(users, courses, ds)
  {
    var a, b := PartlyEnrolled(users, courses, ds, |users|), Enrolled(users, courses, ds);
    assert |a| == |b|;
    forall i | 0 <= i < |a|
      ensures a[i] == b[i]
    {
    }
  }

  /** With distinct user ids, the enrollment loop written document by document
      leaves the same collections as `generate_enrollments` with the same draws:
      the instructors' write-backs change nothing, and the one-by-one
      enrollments end up in the same order as the single batch. */
  lemma EnrollDocsEffect(db: DB, ds: seq<StudentDraw>)
    requires Distinct(UserIds(db.users))
    requires Drawable(db.users, ds, |db.courses|)
    ensures ApplyAll(db, EnrollDocs(db.users, db.courses, ds))
            == ApplyAll(db, EnrollmentWrites(db.users, db.courses, ds))
  {
    EnrollDocsAll(db, ds);
    UpdatesEffect(db, ds);
    ApplyAllSnoc(db, EnrollmentUpdates(db.users, db.courses, ds),
                 InsertEnrollments(AllEnrollments(db.users, db.courses, ds)));
  }

  /** With distinct user ids, writing back a user's own list changes nothing. */
  lemma WriteBackUnchanged(us: seq<User>, n: nat)
    requires Distinct(UserIds(us))
    requires n < |us|
    ensures SetEnrolled(us, us[n].id, us[n].enrolledCourses) == us
  {
    SetEnrolledAt(us, n, us[n].enrolledCourses);
    assert us[n := us[n]] == us;
  }

  /** With distinct user ids, the write-backs issued before the first student
      (where a sample that is too large raises) leave the store as it was. */
  lemma {:induction false} NoStudentDocsEffect(db: DB, ds: seq<StudentDraw>, p: nat)
    requires Distinct(UserIds(db.users))
    requires |ds| == |db.users|
    requires p <= |db.users|
    requires forall j :: 0 <= j < p ==> db.users[j].role != Student
    ensures Drawable(db.users[..p], ds[..p], |db.courses|)
    ensures ApplyAll(db, EnrollDocs(db.users[..p], db.courses, ds[..p])) == db
    decreases p
  {
    NoStudentNoWrites(db.users[..p], db.courses, ds[..p]);
    if p > 0 {
      var n, u := p - 1, db.users[p - 1];
      var w := SetEnrolledCourses(u.id, u.enrolledCourses);
      NoStudentDocsEffect(db, ds, n);
      EnrollDocsStep(db.users, db.courses, ds, n);
      assert UserEnrollDocs(u, db.courses, ds[n]) == [w];
      ApplyAllSnoc(db, EnrollDocs(db.users[..n], db.courses, ds[..n]), w);
      WriteBackUnchanged(db.users, n);
    }
  }
}
