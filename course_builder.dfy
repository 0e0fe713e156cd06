/** `insert_courses`: for each course, build its lessons; for each lesson, its
    quizzes; for each quiz, its questions. Children get their parent's id as a
    foreign key, parents store the ordered ids of their children, and every
    level is written before the level above it. The random and fake values are
    supplied as draws; the functions here say which documents and which writes
    a given set of draws produces. */
module CourseBuilder {
  import opened Entities
  import opened Store
  import opened Scale

  // ---------------------------------------------------------------------------
  // Draws: what the fake-data provider, uuid4 and random.choice supply

  /** One question: `options` are the four `fake.word()` calls, `correctAnswer` a fifth. */
  datatype QuestionDraw = QuestionDraw(id: Id, text: string, options: (string, string, string, string),
                                       correctAnswer: string)

  datatype QuizDraw = QuizDraw(id: Id, title: string, questions: seq<QuestionDraw>)

  datatype LessonDraw = LessonDraw(id: Id, title: string, content: string, quizzes: seq<QuizDraw>)

  /** `pick` is the index `random.choice` takes in the instructor candidate list. */
  datatype CourseDraw = CourseDraw(id: Id, title: string, description: string, pick: nat,
                                   lessons: seq<LessonDraw>)

  predicate QuizFits(d: QuizDraw, c: Counts) {
    |d.questions| == c.questionsPerQuiz
  }

  predicate LessonFits(d: LessonDraw, c: Counts) {
    |d.quizzes| == c.quizzesPerLesson && forall i :: 0 <= i < |d.quizzes| ==> QuizFits(d.quizzes[i], c)
  }

  predicate CourseFits(d: CourseDraw, c: Counts) {
    |d.lessons| == c.lessonsPerCourse && forall i :: 0 <= i < |d.lessons| ==> LessonFits(d.lessons[i], c)
  }

  /** Every pick lies inside a candidate list of length `n`. */
  predicate PicksIn(ds: seq<CourseDraw>, n: nat) {
    forall i :: 0 <= i < |ds| ==> ds[i].pick < n
  }

  /** Draws for a whole `insert_courses` call: one per iteration of the course
      loop, each with the per-parent counts, and each pick inside the candidate
      list whenever that list is not empty. */
  predicate CoursesFit(ds: seq<CourseDraw>, c: Counts, candidates: nat) {
    && |ds| == Iterations(c.courses)
    && (forall i :: 0 <= i < |ds| ==> CourseFits(ds[i], c))
    && (candidates > 0 ==> PicksIn(ds, candidates))
  }

  // ---------------------------------------------------------------------------
  // The documents built from the draws

  function MakeQuestion(quizId: Id, d: QuestionDraw): Question {
    Question(d.id, quizId, d.text, [d.options.0, d.options.1, d.options.2, d.options.3], d.correctAnswer)
  }

  /** A quiz's questions, in draw order: each names the quiz and has four options. */
  function MakeQuestions(quizId: Id, ds: seq<QuestionDraw>): (r: seq<Question>)
    ensures |r| == |ds|
    ensures forall i :: 0 <= i < |ds| ==> r[i].id == ds[i].id && r[i].quizId == quizId && |r[i].options| == 4
  {
    if ds == [] then [] else MakeQuestions(quizId, ds[..|ds| - 1]) + [MakeQuestion(quizId, ds[|ds| - 1])]
  }

  /** A quiz built from its draw: it names its lesson and lists the ids of its
      questions, in the order they were built. */
  function MakeQuiz(lessonId: Id, d: QuizDraw): Quiz {
    Quiz(d.id, lessonId, d.title, QuestionIds(MakeQuestions(d.id, d.questions)))
  }

  /** A lesson's quizzes, in draw order: each names the lesson and lists as many
      question ids as its draw has questions. */
  function MakeQuizzes(lessonId: Id, ds: seq<QuizDraw>): (r: seq<Quiz>)
    ensures |r| == |ds|
    ensures forall i :: 0 <= i < |ds| ==>
              r[i].id == ds[i].id && r[i].lessonId == lessonId && |r[i].questions| == |ds[i].questions|
  {
    if ds == [] then [] else MakeQuizzes(lessonId, ds[..|ds| - 1]) + [MakeQuiz(lessonId, ds[|ds| - 1])]
  }

  /** A lesson built from its draw: it names its course and lists the ids of its
      quizzes, in the order they were built. */
  function MakeLesson(courseId: Id, d: LessonDraw): Lesson {
    Lesson(d.id, courseId, d.title, d.content, QuizIds(MakeQuizzes(d.id, d.quizzes)))
  }

  /** A course's lessons, in draw order: each names the course and lists as many
      quiz ids as its draw has quizzes. */
  function MakeLessons(courseId: Id, ds: seq<LessonDraw>): (r: seq<Lesson>)
    ensures |r| == |ds|
    ensures forall i :: 0 <= i < |ds| ==>
              r[i].id == ds[i].id && r[i].courseId == courseId && |r[i].quizzes| == |ds[i].quizzes|
  {
    if ds == [] then [] else MakeLessons(courseId, ds[..|ds| - 1]) + [MakeLesson(courseId, ds[|ds| - 1])]
  }

  /** A course built from its draw: it names its instructor and lists the ids of
      its lessons, in the order they were built. */
  function MakeCourse(instructor: Id, d: CourseDraw): Course {
    Course(d.id, d.title, d.description, instructor, LessonIds(MakeLessons(d.id, d.lessons)))
  }

  /** The courses, in draw order, each with the instructor its pick selects from
      `candidates` and as many lesson ids as its draw has lessons. */
  function MakeCourses(candidates: seq<Id>, ds: seq<CourseDraw>): (r: seq<Course>)
    requires PicksIn(ds, |candidates|)
    ensures |r| == |ds|
    ensures forall i :: 0 <= i < |ds| ==>
              && r[i].id == ds[i].id && r[i].instructor == candidates[ds[i].pick]
              && |r[i].lessons| == |ds[i].lessons|
  {
    if ds == [] then [] else
      MakeCourses(candidates, ds[..|ds| - 1]) + [MakeCourse(candidates[ds[|ds| - 1].pick], ds[|ds| - 1])]
  }

  // Everything one level down, concatenated in build order.

  function QuestionsOf(ds: seq<QuizDraw>): seq<Question> {
    if ds == [] then [] else
      var d := ds[|ds| - 1];
      QuestionsOf(ds[..|ds| - 1]) + MakeQuestions(d.id, d.questions)
  }

  function QuizzesOfLessons(ds: seq<LessonDraw>): seq<Quiz> {
    if ds == [] then [] else
      var d := ds[|ds| - 1];
      QuizzesOfLessons(ds[..|ds| - 1]) + MakeQuizzes(d.id, d.quizzes)
  }

  function QuestionsOfLessons(ds: seq<LessonDraw>): seq<Question> {
    if ds == [] then [] else
      QuestionsOfLessons(ds[..|ds| - 1]) + QuestionsOf(ds[|ds| - 1].quizzes)
  }

  function LessonsOfCourses(ds: seq<CourseDraw>): seq<Lesson> {
    if ds == [] then [] else
      var d := ds[|ds| - 1];
      LessonsOfCourses(ds[..|ds| - 1]) + MakeLessons(d.id, d.lessons)
  }

  function QuizzesOfCourses(ds: seq<CourseDraw>): seq<Quiz> {
    if ds == [] then [] else
      QuizzesOfCourses(ds[..|ds| - 1]) + QuizzesOfLessons(ds[|ds| - 1].lessons)
  }

  function QuestionsOfCourses(ds: seq<CourseDraw>): seq<Question> {
    if ds == [] then [] else
      QuestionsOfCourses(ds[..|ds| - 1]) + QuestionsOfLessons(ds[|ds| - 1].lessons)
  }

  // ---------------------------------------------------------------------------
  // The writes, in the order the batched builder issues them

  /** One `quiz_questions.insert_many` per quiz. */
  function QuizBatches(ds: seq<QuizDraw>): seq<Write> {
    if ds == [] then [] else
      var d := ds[|ds| - 1];
      QuizBatches(ds[..|ds| - 1]) + [InsertQuestions(MakeQuestions(d.id, d.questions))]
  }

  /** Per lesson: its quizzes' question batches, then one `quizzes.insert_many`. */
  function LessonBatches(ds: seq<LessonDraw>): seq<Write> {
    if ds == [] then [] else
      var d := ds[|ds| - 1];
      LessonBatches(ds[..|ds| - 1]) + QuizBatches(d.quizzes) + [InsertQuizzes(MakeQuizzes(d.id, d.quizzes))]
  }

  /** One course: its lessons' batches, one `lessons.insert_many`, then `courses.insert_one`. */
  function CourseBatches(instructor: Id, d: CourseDraw): seq<Write> {
    LessonBatches(d.lessons) + [InsertLessons(MakeLessons(d.id, d.lessons)), InsertCourses([MakeCourse(instructor, d)])]
  }

  function CoursesBatches(candidates: seq<Id>, ds: seq<CourseDraw>): seq<Write>
    requires PicksIn(ds, |candidates|)
  {
    if ds == [] then [] else
      var d := ds[|ds| - 1];
      CoursesBatches(candidates, ds[..|ds| - 1]) + CourseBatches(candidates[d.pick], d)
  }

  // ---------------------------------------------------------------------------
  // One more draw at the end of a prefix

  lemma QuizStep(lessonId: Id, ds: seq<QuizDraw>, k: nat)
    requires k < |ds|
    ensures QuizBatches(ds[..k + 1]) == QuizBatches(ds[..k]) + [InsertQuestions(MakeQuestions(ds[k].id, ds[k].questions))]
    ensures QuestionsOf(ds[..k + 1]) == QuestionsOf(ds[..k]) + MakeQuestions(ds[k].id, ds[k].questions)
    ensures MakeQuizzes(lessonId, ds[..k + 1]) == MakeQuizzes(lessonId, ds[..k]) + [MakeQuiz(lessonId, ds[k])]
  {
    assert ds[..k + 1][..k] == ds[..k];
  }

  lemma LessonStep(courseId: Id, ds: seq<LessonDraw>, k: nat)
    requires k < |ds|
    ensures LessonBatches(ds[..k + 1])
            == LessonBatches(ds[..k]) + (QuizBatches(ds[k].quizzes) + [InsertQuizzes(MakeQuizzes(ds[k].id, ds[k].quizzes))])
    ensures QuizzesOfLessons(ds[..k + 1]) == QuizzesOfLessons(ds[..k]) + MakeQuizzes(ds[k].id, ds[k].quizzes)
    ensures QuestionsOfLessons(ds[..k + 1]) == QuestionsOfLessons(ds[..k]) + QuestionsOf(ds[k].quizzes)
    ensures MakeLessons(courseId, ds[..k + 1]) == MakeLessons(courseId, ds[..k]) + [MakeLesson(courseId, ds[k])]
  {
    assert ds[..k + 1][..k] == ds[..k];
    AppendAssoc(LessonBatches(ds[..k]), QuizBatches(ds[k].quizzes), [InsertQuizzes(MakeQuizzes(ds[k].id, ds[k].quizzes))]);
  }

  lemma CourseStep(candidates: seq<Id>, ds: seq<CourseDraw>, i: nat)
    requires i < |ds| && PicksIn(ds, |candidates|)
    ensures PicksIn(ds[..i + 1], |candidates|)
    ensures CoursesBatches(candidates, ds[..i + 1])
            == CoursesBatches(candidates, ds[..i]) + CourseBatches(candidates[ds[i].pick], ds[i])
  {
    TakeSnoc(ds, i);
    CoursesBatchesLast(candidates, ds[..i + 1], ds[..i], ds[i]);
  }

  lemma CoursesBatchesLast(candidates: seq<Id>, e: seq<CourseDraw>, init: seq<CourseDraw>, d: CourseDraw)
    requires e == init + [d] && PicksIn(e, |candidates|)
    ensures PicksIn(init, |candidates|) && d.pick < |candidates|
    ensures CoursesBatches(candidates, e) == CoursesBatches(candidates, init) + CourseBatches(candidates[d.pick], d)
  {
    assert e[..|e| - 1] == init && e[|e| - 1] == d;
  }

  // ---------------------------------------------------------------------------
  // What the batches do to the collections

  lemma {:induction false} QuizBatchesEffect(db: DB, ds: seq<QuizDraw>)
    ensures ApplyAll(db, QuizBatches(ds)) == db.(questions := db.questions + QuestionsOf(ds))
    decreases |ds|
  {
    if ds != [] {
      var init, d := ds[..|ds| - 1], ds[|ds| - 1];
      var w := InsertQuestions(MakeQuestions(d.id, d.questions));
      QuizBatchesEffect(db, init);
      ApplyAllConcat(db, QuizBatches(init), [w]);
      assert [w][..0] == [];
      AppendAssoc(db.questions, QuestionsOf(init), MakeQuestions(d.id, d.questions));
    }
  }

  lemma {:induction false} LessonBatchesEffect(db: DB, ds: seq<LessonDraw>)
    ensures ApplyAll(db, LessonBatches(ds))
            == db.(quizzes := db.quizzes + QuizzesOfLessons(ds), questions := db.questions + QuestionsOfLessons(ds))
    decreases |ds|
  {
    if ds != [] {
      var init, d := ds[..|ds| - 1], ds[|ds| - 1];
      var w := InsertQuizzes(MakeQuizzes(d.id, d.quizzes));
      var mid := ApplyAll(db, LessonBatches(init));
      LessonBatchesEffect(db, init);
      ApplyAllConcat(db, LessonBatches(init), QuizBatches(d.quizzes));
      QuizBatchesEffect(mid, d.quizzes);
      ApplyAllSnoc(db, LessonBatches(init) + QuizBatches(d.quizzes), w);
      AppendAssoc(db.quizzes, QuizzesOfLessons(init), MakeQuizzes(d.id, d.quizzes));
      AppendAssoc(db.questions, QuestionsOfLessons(init), QuestionsOf(d.quizzes));
    }
  }

  lemma CourseBatchesEffect(db: DB, instructor: Id, d: CourseDraw)
    ensures ApplyAll(db, CourseBatches(instructor, d))
            == db.(courses := db.courses + [MakeCourse(instructor, d)],
                   lessons := db.lessons + MakeLessons(d.id, d.lessons),
                   quizzes := db.quizzes + QuizzesOfLessons(d.lessons),
                   questions := db.questions + QuestionsOfLessons(d.lessons))
  {
    var w1, w2 := InsertLessons(MakeLessons(d.id, d.lessons)), InsertCourses([MakeCourse(instructor, d)]);
    var mid := ApplyAll(db, LessonBatches(d.lessons));
    LessonBatchesEffect(db, d.lessons);
    ApplyAllConcat(db, LessonBatches(d.lessons), [w1, w2]);
    ApplyAllTwo(mid, w1, w2);
  }

  lemma {:induction false} CoursesBatchesEffect(db: DB, candidates: seq<Id>, ds: seq<CourseDraw>)
    requires PicksIn(ds, |candidates|)
    ensures ApplyAll(db, CoursesBatches(candidates, ds))
            == db.(courses := db.courses + MakeCourses(candidates, ds),
                   lessons := db.lessons + LessonsOfCourses(ds),
                   quizzes := db.quizzes + QuizzesOfCourses(ds),
                   questions := db.questions + QuestionsOfCourses(ds))
    decreases |ds|
  {
    if ds != [] {
      var init, d := ds[..|ds| - 1], ds[|ds| - 1];
      assert PicksIn(init, |candidates|);
      var mid := ApplyAll(db, CoursesBatches(candidates, init));
      CoursesBatchesEffect(db, candidates, init);
      ApplyAllConcat(db, CoursesBatches(candidates, init), CourseBatches(candidates[d.pick], d));
      CourseBatchesEffect(mid, candidates[d.pick], d);
      AppendAssoc(db.courses, MakeCourses(candidates, init), [MakeCourse(candidates[d.pick], d)]);
      AppendAssoc(db.lessons, LessonsOfCourses(init), MakeLessons(d.id, d.lessons));
      AppendAssoc(db.quizzes, QuizzesOfCourses(init), QuizzesOfLessons(d.lessons));
      AppendAssoc(db.questions, QuestionsOfCourses(init), QuestionsOfLessons(d.lessons));
    }
  }

  // ---------------------------------------------------------------------------
  // The builder, one method per nesting level

  /** The question loop: builds one quiz's questions; nothing is written here. */
  method BuildQuestions(c: Counts, quizId: Id, ds: seq<QuestionDraw>) returns (questions: seq<Question>)
    requires |ds| == c.questionsPerQuiz
    ensures questions == MakeQuestions(quizId, ds)
  {
    questions := [];
    var k := 0;
    while k < c.questionsPerQuiz
      invariant 0 <= k <= c.questionsPerQuiz
      invariant questions == MakeQuestions(quizId, ds[..k])
    {
      var d := ds[k];
      var question := Question(d.id, quizId, d.text, [d.options.0, d.options.1, d.options.2, d.options.3],
                               d.correctAnswer);
      assert ds[..k + 1][..k] == ds[..k];
      questions := questions + [question];
      k := k + 1;
    }
    assert ds[..k] == ds;
  }

  /** The quiz loop of one lesson: each quiz's questions are written as one batch,
      then the quiz records their ids. Returns the lesson's quizzes. */
  method BuildQuizzes(store: MongoStore, c: Counts, lessonId: Id, ds: seq<QuizDraw>) returns (quizzes: seq<Quiz>)
    requires |ds| == c.quizzesPerLesson && forall q :: q in ds ==> QuizFits(q, c)
    modifies store
    ensures store.journal == old(store.journal) + QuizBatches(ds)
    ensures store.State() == old(store.State()).(questions := old(store.questions) + QuestionsOf(ds))
    ensures quizzes == MakeQuizzes(lessonId, ds)
  {
    quizzes := [];
    var k := 0;
    while k < c.quizzesPerLesson
      invariant 0 <= k <= c.quizzesPerLesson
      invariant store.journal == old(store.journal) + QuizBatches(ds[..k])
      invariant store.State() == old(store.State()).(questions := old(store.questions) + QuestionsOf(ds[..k]))
      invariant quizzes == MakeQuizzes(lessonId, ds[..k])
    {
      var d := ds[k];
      assert d in ds;
      var quiz := Quiz(d.id, lessonId, d.title, []);
      var questions := BuildQuestions(c, quiz.id, d.questions);
      quiz := quiz.(questions := QuestionIds(questions));
      store.AppendQuestions(questions);
      QuizStep(lessonId, ds, k);
      AppendAssoc(old(store.questions), QuestionsOf(ds[..k]), questions);
      AppendAssoc(old(store.journal), QuizBatches(ds[..k]), [InsertQuestions(questions)]);
      quizzes := quizzes + [quiz];
      k := k + 1;
    }
    assert ds[..k] == ds;
  }

  /** One iteration of the lesson loop: the lesson's quizzes (each after its
      questions), then one batch holding all of them. */
  method BuildLesson(store: MongoStore, c: Counts, courseId: Id, d: LessonDraw) returns (lesson: Lesson)
    requires LessonFits(d, c)
    modifies store
    ensures store.journal
            == old(store.journal) + (QuizBatches(d.quizzes) + [InsertQuizzes(MakeQuizzes(d.id, d.quizzes))])
    ensures store.State() == old(store.State()).(quizzes := old(store.quizzes) + MakeQuizzes(d.id, d.quizzes),
                                                 questions := old(store.questions) + QuestionsOf(d.quizzes))
    ensures lesson == MakeLesson(courseId, d)
  {
    lesson := Lesson(d.id, courseId, d.title, d.content, []);
    var quizzes := BuildQuizzes(store, c, lesson.id, d.quizzes);
    lesson := lesson.(quizzes := QuizIds(quizzes));
    store.AppendQuizzes(quizzes);
    AppendAssoc(old(store.journal), QuizBatches(d.quizzes), [InsertQuizzes(quizzes)]);
  }

  /** The lesson loop of one course. Returns the course's lessons. */
  method BuildLessons(store: MongoStore, c: Counts, courseId: Id, ds: seq<LessonDraw>) returns (lessons: seq<Lesson>)
    requires |ds| == c.lessonsPerCourse && forall l :: l in ds ==> LessonFits(l, c)
    modifies store
    ensures store.journal == old(store.journal) + LessonBatches(ds)
    ensures store.State() == old(store.State()).(quizzes := old(store.quizzes) + QuizzesOfLessons(ds),
                                                 questions := old(store.questions) + QuestionsOfLessons(ds))
    ensures lessons == MakeLessons(courseId, ds)
  {
    lessons := [];
    var k := 0;
    while k < c.lessonsPerCourse
      invariant 0 <= k <= c.lessonsPerCourse
      invariant store.journal == old(store.journal) + LessonBatches(ds[..k])
      invariant store.State() == old(store.State()).(quizzes := old(store.quizzes) + QuizzesOfLessons(ds[..k]),
                                                     questions := old(store.questions) + QuestionsOfLessons(ds[..k]))
      invariant lessons == MakeLessons(courseId, ds[..k])
    {
      var d := ds[k];
      assert d in ds;
      var lesson := BuildLesson(store, c, courseId, d);
      LessonStep(courseId, ds, k);
      AppendAssoc(old(store.journal), LessonBatches(ds[..k]),
                  QuizBatches(d.quizzes) + [InsertQuizzes(MakeQuizzes(d.id, d.quizzes))]);
      AppendAssoc(old(store.quizzes), QuizzesOfLessons(ds[..k]), MakeQuizzes(d.id, d.quizzes));
      AppendAssoc(old(store.questions), QuestionsOfLessons(ds[..k]), QuestionsOf(d.quizzes));
      lessons := lessons + [lesson];
      k := k + 1;
    }
    assert ds[..k] == ds;
  }

  /** One iteration of the course loop, after the instructor has been chosen:
      the lessons' subtrees, one batch of lessons, then the course. */
  method BuildCourse(store: MongoStore, c: Counts, instructor: Id, d: CourseDraw)
    requires CourseFits(d, c)
    modifies store
    ensures store.journal == old(store.journal) + CourseBatches(instructor, d)
    ensures store.State() == ApplyAll(old(store.State()), CourseBatches(instructor, d))
  {
    var course := Course(d.id, d.title, d.description, instructor, []);
    var lessons := BuildLessons(store, c, course.id, d.lessons);
    course := course.(lessons := LessonIds(lessons));
    store.AppendLessons(lessons);
    store.AppendCourses([course]);
    AppendAssoc(old(store.journal), LessonBatches(d.lessons), [InsertLessons(lessons)]);
    AppendAssoc(old(store.journal) + LessonBatches(d.lessons), [InsertLessons(lessons)], [InsertCourses([course])]);
    AppendAssoc(old(store.journal), LessonBatches(d.lessons), [InsertLessons(lessons), InsertCourses([course])]);
    CourseBatchesEffect(old(store.State()), instructor, d);
  }

  /** `retrieve_courses`: every stored course, in insertion order. */
  method RetrieveCourses(store: MongoStore) returns (courses: seq<Course>)
    ensures courses == store.courses
  {
    courses := store.courses;
  }

  /** `insert_courses(users)`: the course loop. Each iteration draws the
      instructor from the ids of the users whose role is instructor; with no
      such user, `random.choice` raises IndexError in the first iteration,
      before anything is written. */
  method InsertCourseTrees(store: MongoStore, c: Counts, users: seq<User>, ds: seq<CourseDraw>)
    returns (outcome: Outcome)
    requires CoursesFit(ds, c, |InstructorIds(users)|)
    modifies store
    ensures outcome.Pass? <==> HasInstructor(users) || Iterations(c.courses) == 0
    ensures outcome.Pass? ==>
              && store.journal == old(store.journal) + CoursesBatches(InstructorIds(users), ds)
              && store.State() == ApplyAll(old(store.State()), CoursesBatches(InstructorIds(users), ds))
    ensures outcome.Fail? ==>
              outcome == Fail(IndexError) && store.journal == old(store.journal) && store.State() == old(store.State())
  {
    ghost var all := InstructorIds(users);
    var i := 0;
    while i < Iterations(c.courses)
      invariant 0 <= i <= |ds| == Iterations(c.courses)
      invariant i > 0 ==> |all| > 0
      invariant PicksIn(ds[..i], |all|)
      invariant store.journal == old(store.journal) + CoursesBatches(all, ds[..i])
      invariant store.State() == ApplyAll(old(store.State()), CoursesBatches(all, ds[..i]))
    {
      var candidates := InstructorIds(users);
      if |candidates| == 0 {
        return Fail(IndexError);
      }
      var d := ds[i];
      assert d in ds;
      ghost var before := store.State();
      BuildCourse(store, c, candidates[d.pick], d);
      CourseStep(all, ds, i);
      AppendAssoc(old(store.journal), CoursesBatches(all, ds[..i]), CourseBatches(all[d.pick], d));
      ApplyAllConcat(old(store.State()), CoursesBatches(all, ds[..i]), CourseBatches(all[d.pick], d));
      i := i + 1;
    }
    assert ds[..i] == ds;
    return Pass;
  }
}
