/** The stand-alone generator script: 100 users, 20 courses of 5 lessons of 2
    quizzes of 3 questions, and 2 enrollments per student, added to whatever the
    store already holds (nothing is dropped first). Every document is written
    with its own `insert_one` as soon as its loop has finished building it, and
    every user read back gets an `update_one` of its course list. */
module MainScript {
  import opened Entities
  import opened Store
  import opened Scale
  import opened UserInsert
  import opened CourseBuilder
  import opened EnrollmentGen
  import opened EnrollmentProps
  import opened Progress
  import opened InsertAll
  import opened MainDocs

  // ---------------------------------------------------------------------------
  // One more document at the end of a prefix

  lemma UserSinglesStep(ds: seq<UserDraw>, i: nat)
    requires i < |ds|
    ensures MakeUsers(ds[..i + 1]) == MakeUsers(ds[..i]) + [MakeUser(ds[i])]
    ensures UserSingles(MakeUsers(ds[..i + 1])) == UserSingles(MakeUsers(ds[..i])) + [InsertUsers([MakeUser(ds[i])])]
  {
    assert ds[..i + 1][..i] == ds[..i];
  }

  lemma QuestionSinglesStep(quizId: Id, ds: seq<QuestionDraw>, k: nat)
    requires k < |ds|
    ensures MakeQuestions(quizId, ds[..k + 1]) == MakeQuestions(quizId, ds[..k]) + [MakeQuestion(quizId, ds[k])]
    ensures QuestionSingles(MakeQuestions(quizId, ds[..k + 1]))
            == QuestionSingles(MakeQuestions(quizId, ds[..k])) + [InsertQuestions([MakeQuestion(quizId, ds[k])])]
    ensures QuestionIds(MakeQuestions(quizId, ds[..k + 1])) == QuestionIds(MakeQuestions(quizId, ds[..k])) + [ds[k].id]
  {
    assert ds[..k + 1][..k] == ds[..k];
  }

  lemma QuizzesDocsStep(lessonId: Id, ds: seq<QuizDraw>, k: nat)
    requires k < |ds|
    ensures QuizzesDocs(lessonId, ds[..k + 1]) == QuizzesDocs(lessonId, ds[..k]) + QuizDocs(lessonId, ds[k])
    ensures QuizIds(MakeQuizzes(lessonId, ds[..k + 1])) == QuizIds(MakeQuizzes(lessonId, ds[..k])) + [ds[k].id]
  {
    assert ds[..k + 1][..k] == ds[..k];
  }

  lemma LessonsDocsStep(courseId: Id, ds: seq<LessonDraw>, k: nat)
    requires k < |ds|
    ensures LessonsDocs(courseId, ds[..k + 1]) == LessonsDocs(courseId, ds[..k]) + LessonDocs(courseId, ds[k])
    ensures LessonIds(MakeLessons(courseId, ds[..k + 1])) == LessonIds(MakeLessons(courseId, ds[..k])) + [ds[k].id]
  {
    assert ds[..k + 1][..k] == ds[..k];
  }

  lemma CoursesDocsStep(candidates: seq<Id>, ds: seq<CourseDraw>, i: nat)
    requires i < |ds| && PicksIn(ds[..i + 1], |candidates|)
    ensures CoursesDocs(candidates, ds[..i + 1])
            == CoursesDocs(candidates, ds[..i]) + CourseDocs(candidates[ds[i].pick], ds[i])
  {
    TakeSnoc(ds, i);
    CoursesDocsLast(candidates, ds[..i + 1], ds[..i], ds[i]);
  }

  lemma CoursesDocsLast(candidates: seq<Id>, e: seq<CourseDraw>, init: seq<CourseDraw>, d: CourseDraw)
    requires e == init + [d] && PicksIn(e, |candidates|)
    ensures PicksIn(init, |candidates|) && d.pick < |candidates|
    ensures CoursesDocs(candidates, e) == CoursesDocs(candidates, init) + CourseDocs(candidates[d.pick], d)
  {
    assert e[..|e| - 1] == init && e[|e| - 1] == d;
  }

  lemma EnrollmentSinglesStep(es: seq<Enrollment>, j: nat)
    requires j < |es|
    ensures EnrollmentSingles(es[..j + 1]) == EnrollmentSingles(es[..j]) + [InsertEnrollments([es[j]])]
  {
    assert es[..j + 1][..j] == es[..j];
  }

  // ---------------------------------------------------------------------------
  // The script, one method per loop

  /** The user loop: each user is built and written at once. */
  method AddUsers(store: MongoStore, c: Counts, ds: seq<UserDraw>)
    requires |ds| == Iterations(c.users)
    modifies store
    ensures store.journal == old(store.journal) + UserSingles(MakeUsers(ds))
    ensures store.State() == old(store.State()).(users := old(store.users) + MakeUsers(ds))
  {
    var i := 0;
    while i < Iterations(c.users)
      invariant 0 <= i <= Iterations(c.users)
      invariant store.journal == old(store.journal) + UserSingles(MakeUsers(ds[..i]))
      invariant store.State() == old(store.State()).(users := old(store.users) + MakeUsers(ds[..i]))
    {
      var d := ds[i];
      var user := User(d.id, d.name, d.email, d.role, []);
      store.AppendUsers([user]);
      UserSinglesStep(ds, i);
      AppendAssoc(old(store.journal), UserSingles(MakeUsers(ds[..i])), [InsertUsers([user])]);
      AppendAssoc(old(store.users), MakeUsers(ds[..i]), [user]);
      i := i + 1;
    }
    assert ds[..i] == ds;
  }

  /** The question loop of one quiz: each question is built, its id appended
      to the quiz's list, and the question written. Returns that list. */
  method AddQuestions(store: MongoStore, c: Counts, quizId: Id, ds: seq<QuestionDraw>) returns (ids: seq<Id>)
    requires |ds| == c.questionsPerQuiz
    modifies store
    ensures ids == QuestionIds(MakeQuestions(quizId, ds))
    ensures store.journal == old(store.journal) + QuestionSingles(MakeQuestions(quizId, ds))
    ensures store.State() == old(store.State()).(questions := old(store.questions) + MakeQuestions(quizId, ds))
  {
    ids := [];
    var k := 0;
    while k < c.questionsPerQuiz
      invariant 0 <= k <= c.questionsPerQuiz
      invariant ids == QuestionIds(MakeQuestions(quizId, ds[..k]))
      invariant store.journal == old(store.journal) + QuestionSingles(MakeQuestions(quizId, ds[..k]))
      invariant store.State() == old(store.State()).(questions := old(store.questions) + MakeQuestions(quizId, ds[..k]))
    {
      var d := ds[k];
      var question := Question(d.id, quizId, d.text, [d.options.0, d.options.1, d.options.2, d.options.3],
                               d.correctAnswer);
      ids := ids + [question.id];
      store.AppendQuestions([question]);
      QuestionSinglesStep(quizId, ds, k);
      AppendAssoc(old(store.journal), QuestionSingles(MakeQuestions(quizId, ds[..k])), [InsertQuestions([question])]);
      AppendAssoc(old(store.questions), MakeQuestions(quizId, ds[..k]), [question]);
      k := k + 1;
    }
    assert ds[..k] == ds;
  }

  /** One iteration of the quiz loop: the quiz's questions, then the quiz. */
  method AddQuiz(store: MongoStore, c: Counts, lessonId: Id, d: QuizDraw) returns (quiz: Quiz)
    requires QuizFits(d, c)
    modifies store
    ensures quiz == MakeQuiz(lessonId, d)
    ensures store.journal == old(store.journal) + QuizDocs(lessonId, d)
    ensures store.State() == old(store.State()).(quizzes := old(store.quizzes) + [quiz],
                                                 questions := old(store.questions) + MakeQuestions(d.id, d.questions))
  {
    quiz := Quiz(d.id, lessonId, d.title, []);
    var ids := AddQuestions(store, c, quiz.id, d.questions);
    quiz := quiz.(questions := ids);
    store.AppendQuizzes([quiz]);
    AppendAssoc(old(store.journal), QuestionSingles(MakeQuestions(d.id, d.questions)), [InsertQuizzes([quiz])]);
  }

  /** The quiz loop of one lesson. Returns the lesson's list of quiz ids. */
  method AddQuizzes(store: MongoStore, c: Counts, lessonId: Id, ds: seq<QuizDraw>) returns (ids: seq<Id>)
    requires |ds| == c.quizzesPerLesson && forall q :: q in ds ==> QuizFits(q, c)
    modifies store
    ensures ids == QuizIds(MakeQuizzes(lessonId, ds))
    ensures store.journal == old(store.journal) + QuizzesDocs(lessonId, ds)
    ensures store.State() == old(store.State()).(quizzes := old(store.quizzes) + MakeQuizzes(lessonId, ds),
                                                 questions := old(store.questions) + QuestionsOf(ds))
  {
    ids := [];
    var k := 0;
    while k < c.quizzesPerLesson
      invariant 0 <= k <= c.quizzesPerLesson
      invariant ids == QuizIds(MakeQuizzes(lessonId, ds[..k]))
      invariant store.journal == old(store.journal) + QuizzesDocs(lessonId, ds[..k])
      invariant store.State() == old(store.State()).(quizzes := old(store.quizzes) + MakeQuizzes(lessonId, ds[..k]),
                                                     questions := old(store.questions) + QuestionsOf(ds[..k]))
    {
      var d := ds[k];
      assert d in ds;
      var quiz := AddQuiz(store, c, lessonId, d);
      ids := ids + [quiz.id];
      QuizStep(lessonId, ds, k);
      QuizzesDocsStep(lessonId, ds, k);
      AppendAssoc(old(store.journal), QuizzesDocs(lessonId, ds[..k]), QuizDocs(lessonId, d));
      AppendAssoc(old(store.quizzes), MakeQuizzes(lessonId, ds[..k]), [quiz]);
      AppendAssoc(old(store.questions), QuestionsOf(ds[..k]), MakeQuestions(d.id, d.questions));
      k := k + 1;
    }
    assert ds[..k] == ds;
  }

  /** One iteration of the lesson loop: the lesson's quizzes, then the lesson. */
  method AddLesson(store: MongoStore, c: Counts, courseId: Id, d: LessonDraw) returns (lesson: Lesson)
    requires LessonFits(d, c)
    modifies store
    ensures lesson == MakeLesson(courseId, d)
    ensures store.journal == old(store.journal) + LessonDocs(courseId, d)
    ensures store.State() == old(store.State()).(lessons := old(store.lessons) + [lesson],
                                                 quizzes := old(store.quizzes) + MakeQuizzes(d.id, d.quizzes),
                                                 questions := old(store.questions) + QuestionsOf(d.quizzes))
  {
    lesson := Lesson(d.id, courseId, d.title, d.content, []);
    var ids := AddQuizzes(store, c, lesson.id, d.quizzes);
    lesson := lesson.(quizzes := ids);
    store.AppendLessons([lesson]);
    AppendAssoc(old(store.journal), QuizzesDocs(d.id, d.quizzes), [InsertLessons([lesson])]);
  }

  /** The lesson loop of one course. Returns the course's list of lesson ids. */
  method AddLessons(store: MongoStore, c: Counts, courseId: Id, ds: seq<LessonDraw>) returns (ids: seq<Id>)
    requires |ds| == c.lessonsPerCourse && forall l :: l in ds ==> LessonFits(l, c)
    modifies store
    ensures ids == LessonIds(MakeLessons(courseId, ds))
    ensures store.journal == old(store.journal) + LessonsDocs(courseId, ds)
    ensures store.State() == old(store.State()).(lessons := old(store.lessons) + MakeLessons(courseId, ds),
                                                 quizzes := old(store.quizzes) + QuizzesOfLessons(ds),
                                                 questions := old(store.questions) + QuestionsOfLessons(ds))
  {
    ids := [];
    var k := 0;
    while k < c.lessonsPerCourse
      invariant 0 <= k <= c.lessonsPerCourse
      invariant ids == LessonIds(MakeLessons(courseId, ds[..k]))
      invariant store.journal == old(store.journal) + LessonsDocs(courseId, ds[..k])
      invariant store.State() == old(store.State()).(lessons := old(store.lessons) + MakeLessons(courseId, ds[..k]),
                                                     quizzes := old(store.quizzes) + QuizzesOfLessons(ds[..k]),
                                                     questions := old(store.questions) + QuestionsOfLessons(ds[..k]))
    {
      var d := ds[k];
      assert d in ds;
      var lesson := AddLesson(store, c, courseId, d);
      ids := ids + [lesson.id];
      LessonStep(courseId, ds, k);
      LessonsDocsStep(courseId, ds, k);
      AppendAssoc(old(store.journal), LessonsDocs(courseId, ds[..k]), LessonDocs(courseId, d));
      AppendAssoc(old(store.lessons), MakeLessons(courseId, ds[..k]), [lesson]);
      AppendAssoc(old(store.quizzes), QuizzesOfLessons(ds[..k]), MakeQuizzes(d.id, d.quizzes));
      AppendAssoc(old(store.questions), QuestionsOfLessons(ds[..k]), QuestionsOf(d.quizzes));
      k := k + 1;
    }
    assert ds[..k] == ds;
  }

  /** One iteration of the course loop, after the instructor has been chosen:
      the course's lessons, then the course. It leaves the same collections as
      the batched writes of `insert_courses` for that course. */
  method AddCourse(store: MongoStore, c: Counts, instructor: Id, d: CourseDraw)
    requires CourseFits(d, c)
    modifies store
    ensures store.journal == old(store.journal) + CourseDocs(instructor, d)
    ensures store.State() == ApplyAll(old(store.State()), CourseBatches(instructor, d))
  {
    var course := Course(d.id, d.title, d.description, instructor, []);
    var ids := AddLessons(store, c, course.id, d.lessons);
    course := course.(lessons := ids);
    store.AppendCourses([course]);
    AppendAssoc(old(store.journal), LessonsDocs(d.id, d.lessons), [InsertCourses([course])]);
    CourseBatchesEffect(old(store.State()), instructor, d);
  }

  /** One more iteration of the course loop, on the journal and on the collections. */
  lemma CoursesLoopStep(j0: seq<Write>, db: DB, all: seq<Id>, ds: seq<CourseDraw>, i: nat)
    requires i < |ds| && PicksIn(ds, |all|)
    ensures PicksIn(ds[..i + 1], |all|)
    ensures j0 + CoursesDocs(all, ds[..i]) + CourseDocs(all[ds[i].pick], ds[i]) == j0 + CoursesDocs(all, ds[..i + 1])
    ensures ApplyAll(ApplyAll(db, CoursesBatches(all, ds[..i])), CourseBatches(all[ds[i].pick], ds[i]))
            == ApplyAll(db, CoursesBatches(all, ds[..i + 1]))
  {
    CourseStep(all, ds, i);
    CoursesDocsStep(all, ds, i);
    AppendAssoc(j0, CoursesDocs(all, ds[..i]), CourseDocs(all[ds[i].pick], ds[i]));
    ApplyAllConcat(db, CoursesBatches(all, ds[..i]), CourseBatches(all[ds[i].pick], ds[i]));
  }

  /** One pass of the course loop, once the candidate list is known to be
      non-empty: the course drawn in pass `i` is built under the instructor it
      picks, and the journal and collections move on to the prefix `ds[..i + 1]`. */
  method AddCourseAt(store: MongoStore, c: Counts, all: seq<Id>, ds: seq<CourseDraw>, i: nat,
                     ghost j0: seq<Write>, ghost db0: DB)
    returns (next: nat)
    requires i < |ds| && PicksIn(ds, |all|) && CourseFits(ds[i], c)
    requires store.journal == j0 + CoursesDocs(all, ds[..i])
    requires store.State() == ApplyAll(db0, CoursesBatches(all, ds[..i]))
    modifies store
    ensures next == i + 1 && PicksIn(ds[..next], |all|)
    ensures store.journal == j0 + CoursesDocs(all, ds[..next])
    ensures store.State() == ApplyAll(db0, CoursesBatches(all, ds[..next]))
  {
    next := i + 1;
    AddCourse(store, c, all[ds[i].pick], ds[i]);
    CoursesLoopStep(j0, db0, all, ds, i);
  }

  /** The course loop. Each iteration draws the instructor from the ids of the
      users read back whose role is instructor; with no such user,
      `random.choice` raises IndexError in the first iteration, before anything
      is written. */
  method AddCourses(store: MongoStore, c: Counts, users: seq<User>, ds: seq<CourseDraw>) returns (outcome: Outcome)
    requires CoursesFit(ds, c, |InstructorIds(users)|)
    modifies store
    ensures outcome.Pass? <==> |InstructorIds(users)| > 0 || Iterations(c.courses) == 0
    ensures outcome.Pass? ==>
              && store.journal == old(store.journal) + CoursesDocs(InstructorIds(users), ds)
              && store.State() == ApplyAll(old(store.State()), CoursesBatches(InstructorIds(users), ds))
    ensures outcome.Fail? ==>
              outcome == Fail(IndexError) && store.journal == old(store.journal) && store.State() == old(store.State())
  {
    ghost var all, j0, db0 := InstructorIds(users), store.journal, store.State();
    assert ds[..0] == [];
    var i := 0;
    while i < Iterations(c.courses)
      invariant 0 <= i <= |ds| == Iterations(c.courses)
      invariant i > 0 ==> |all| > 0
      invariant PicksIn(ds[..i], |all|)
      invariant store.journal == j0 + CoursesDocs(all, ds[..i])
      invariant store.State() == ApplyAll(db0, CoursesBatches(all, ds[..i]))
    {
      var candidates := InstructorIds(users);
      if |candidates| == 0 {
        return Fail(IndexError);
      }
      i := AddCourseAt(store, c, candidates, ds, i, j0, db0);
    }
    assert ds[..i] == ds;
    return Pass;
  }

  /** The course loop of one student: each sampled course's id is appended to
      the student's list and its enrollment written. Returns the list. */
  method EnrollInSample(store: MongoStore, courses: seq<Course>, u: User, d: StudentDraw) returns (list: seq<Id>)
    requires Sampled(d, |courses|)
    modifies store
    ensures list == Enroll(u, courses, d).enrolledCourses
    ensures store.journal == old(store.journal) + EnrollmentSingles(StudentEnrollments(u, courses, d))
    ensures store.State() == old(store.State()).(enrollments := old(store.enrollments) + StudentEnrollments(u, courses, d))
  {
    ghost var j0 := store.journal;
    ghost var db0 := store.State();
    ghost var mine := StudentEnrollments(u, courses, d);
    assert SampledIds(courses, d.sample)[..0] == [] && mine[..0] == [];
    list := u.enrolledCourses;
    var j := 0;
    while j < |d.sample|
      invariant 0 <= j <= |d.sample|
      invariant list == u.enrolledCourses + SampledIds(courses, d.sample)[..j]
      invariant store.journal == j0 + EnrollmentSingles(mine[..j])
      invariant store.State() == db0.(enrollments := db0.enrollments + mine[..j])
    {
      list, j := EnrollSampleAt(store, courses, u, d, j, list, j0, db0);
    }
    assert SampledIds(courses, d.sample)[..j] == SampledIds(courses, d.sample);
    assert mine[..j] == mine;
  }

  /** One pass of the sample loop: the enrollment in the `j`-th sampled course,
      written on its own, and that course's id appended to the student's list. */
  method EnrollSampleAt(store: MongoStore, courses: seq<Course>, u: User, d: StudentDraw, j: nat,
                        list: seq<Id>, ghost j0: seq<Write>, ghost db0: DB)
    returns (longer: seq<Id>, next: nat)
    requires Sampled(d, |courses|) && j < |d.sample|
    requires list == u.enrolledCourses + SampledIds(courses, d.sample)[..j]
    requires store.journal == j0 + EnrollmentSingles(StudentEnrollments(u, courses, d)[..j])
    requires store.State() == db0.(enrollments := db0.enrollments + StudentEnrollments(u, courses, d)[..j])
    modifies store
    ensures next == j + 1
    ensures longer == u.enrolledCourses + SampledIds(courses, d.sample)[..next]
    ensures store.journal == j0 + EnrollmentSingles(StudentEnrollments(u, courses, d)[..next])
    ensures store.State() == db0.(enrollments := db0.enrollments + StudentEnrollments(u, courses, d)[..next])
  {
    next := j + 1;
    ghost var mine := StudentEnrollments(u, courses, d);
    var course := courses[d.sample[j]];
    var p := d.picks[j];
    var enrollment := Enrollment(p.id, u.id, course.id, p.date, Percent(p.progress));
    TakeSnoc(SampledIds(courses, d.sample), j);
    TakeSnoc(mine, j);
    longer := list + [course.id];
    store.AppendEnrollments([enrollment]);
    EnrollmentSinglesStep(mine, j);
    AppendAssoc(j0, EnrollmentSingles(mine[..j]), [InsertEnrollments([enrollment])]);
  }

  /** The body of the enrollment loop once a student's sample is drawn: its
      enrollments, then the `update_one` of its list; for anyone else, only
      the `update_one`. */
  method EnrollUser(store: MongoStore, courses: seq<Course>, u: User, d: StudentDraw)
    requires u.role == Student ==> Sampled(d, |courses|)
    modifies store
    ensures store.journal == old(store.journal) + UserEnrollDocs(u, courses, d)
    ensures store.State() == ApplyAll(old(store.State()), UserEnrollDocs(u, courses, d))
    ensures store.courses == old(store.courses)
  {
    var list := u.enrolledCourses;
    ghost var mine: seq<Enrollment> := [];
    if u.role == Student {
      mine := StudentEnrollments(u, courses, d);
      list := EnrollInSample(store, courses, u, d);
      EnrollmentSinglesEffect(old(store.State()), mine);
    }
    var w := SetEnrolledCourses(u.id, list);
    store.Perform(w);
    AppendAssoc(old(store.journal), EnrollmentSingles(mine), [w]);
    ApplyAllSnoc(old(store.State()), EnrollmentSingles(mine), w);
  }

  /** One pass of the enrollment loop once the user's sample cannot fail: the
      user's writes, and the journal and the collections move from the users
      before it to the users up to it. A student works on the courses read back,
      which are the stored ones. */
  method EnrollUserAt(store: MongoStore, users: seq<User>, courses: seq<Course>, k: nat, ds: seq<StudentDraw>,
                      i: nat, ghost stored: seq<Course>, ghost j0: seq<Write>, ghost db0: DB)
    returns (next: nat)
    requires i < |users| && DrawsFit(users, ds, |stored|, k)
    requires users[i].role == Student ==> courses == stored && k <= |stored|
    requires store.courses == stored
    requires Drawable(users[..i], ds[..i], |stored|)
    requires store.journal == j0 + EnrollDocs(users[..i], stored, ds[..i])
    requires store.State() == ApplyAll(db0, EnrollDocs(users[..i], stored, ds[..i]))
    modifies store
    ensures next == i + 1 && store.courses == stored
    ensures Drawable(users[..next], ds[..next], |stored|)
    ensures store.journal == j0 + EnrollDocs(users[..next], stored, ds[..next])
    ensures store.State() == ApplyAll(db0, EnrollDocs(users[..next], stored, ds[..next]))
  {
    next := i + 1;
    DrawableStep(users, ds, |stored|, k, i);
    EnrollDocsStep(users, stored, ds, i);
    ghost var before := EnrollDocs(users[..i], stored, ds[..i]);
    EnrollUser(store, courses, users[i], ds[i]);
    assert UserEnrollDocs(users[i], courses, ds[i]) == UserEnrollDocs(users[i], stored, ds[i]);
    AppendAssoc(j0, before, UserEnrollDocs(users[i], stored, ds[i]));
    ApplyAllConcat(db0, before, UserEnrollDocs(users[i], stored, ds[i]));
  }

  /** The enrollment loop over the users read back. Each student samples
      `list(db.courses.find())`, read again for every student; a sample larger
      than the course collection raises ValueError at the first student, after
      the write-backs of the users before it. */
  method AddEnrollments(store: MongoStore, users: seq<User>, k: nat, ds: seq<StudentDraw>) returns (outcome: Outcome)
    requires DrawsFit(users, ds, |store.courses|, k)
    modifies store
    ensures outcome == Pass <==> k <= |old(store.courses)| || !HasStudent(users)
    ensures outcome.Pass? ==>
              && Drawable(users, ds, |old(store.courses)|)
              && store.journal == old(store.journal) + EnrollDocs(users, old(store.courses), ds)
              && store.State() == ApplyAll(old(store.State()), EnrollDocs(users, old(store.courses), ds))
    ensures outcome.Fail? ==>
              && outcome == Fail(ValueError)
              && HasStudent(users)
              && var p := FirstStudent(users);
                 && Drawable(users[..p], ds[..p], |old(store.courses)|)
                 && store.journal == old(store.journal) + EnrollDocs(users[..p], old(store.courses), ds[..p])
                 && store.State() == ApplyAll(old(store.State()), EnrollDocs(users[..p], old(store.courses), ds[..p]))
  {
    ghost var stored, j0, db0 := store.courses, store.journal, store.State();
    var i := 0;
    assert users[..0] == [] && ds[..0] == [];
    while i < |users|
      invariant 0 <= i <= |users|
      invariant store.courses == stored
      invariant k > |stored| ==> forall j :: 0 <= j < i ==> users[j].role != Student
      invariant Drawable(users[..i], ds[..i], |stored|)
      invariant store.journal == j0 + EnrollDocs(users[..i], stored, ds[..i])
      invariant store.State() == ApplyAll(db0, EnrollDocs(users[..i], stored, ds[..i]))
    {
      var courses: seq<Course> := [];
      if users[i].role == Student {
        courses := RetrieveCourses(store);
        if k > |courses| {
          FirstStudentAt(users, i);
          return Fail(ValueError);
        }
      }
      if k > |stored| {
        NoStudentThrough(users, i);
      }
      i := EnrollUserAt(store, users, courses, k, ds, i, stored, j0, db0);
    }
    assert users[..i] == users && ds[..i] == ds;
    if k > |stored| {
      NoStudentAtAll(users);
    }
    outcome := Pass;
  }
}
