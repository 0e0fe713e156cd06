/** What `insert_courses` guarantees about the documents it writes: exact counts
    at every nesting level, links in both directions between every parent and
    its children, children written before their parents, and a store that stays
    free of dangling references. */
module CourseGraph {
  import opened Entities
  import opened Store
  import opened Scale
  import opened CourseBuilder

  // ---------------------------------------------------------------------------
  // Back-reference filters and id projections over concatenated collections

  lemma {:induction false} LessonIdsOfAppend(a: seq<Lesson>, b: seq<Lesson>, p: Id)
    ensures LessonIdsOf(a + b, p) == LessonIdsOf(a, p) + LessonIdsOf(b, p)
    decreases |b|
  {
    if b == [] {
      assert a + b == a;
    } else {
      var b' := b[..|b| - 1];
      assert (a + b)[..|a + b| - 1] == a + b';
      LessonIdsOfAppend(a, b', p);
      var last := if b[|b| - 1].courseId == p then [b[|b| - 1].id] else [];
      AppendAssoc(LessonIdsOf(a, p), LessonIdsOf(b', p), last);
    }
  }

  lemma {:induction false} QuizIdsOfAppend(a: seq<Quiz>, b: seq<Quiz>, p: Id)
    ensures QuizIdsOf(a + b, p) == QuizIdsOf(a, p) + QuizIdsOf(b, p)
    decreases |b|
  {
    if b == [] {
      assert a + b == a;
    } else {
      var b' := b[..|b| - 1];
      assert (a + b)[..|a + b| - 1] == a + b';
      QuizIdsOfAppend(a, b', p);
      var last := if b[|b| - 1].lessonId == p then [b[|b| - 1].id] else [];
      AppendAssoc(QuizIdsOf(a, p), QuizIdsOf(b', p), last);
    }
  }

  lemma {:induction false} QuestionIdsOfAppend(a: seq<Question>, b: seq<Question>, p: Id)
    ensures QuestionIdsOf(a + b, p) == QuestionIdsOf(a, p) + QuestionIdsOf(b, p)
    decreases |b|
  {
    if b == [] {
      assert a + b == a;
    } else {
      var b' := b[..|b| - 1];
      assert (a + b)[..|a + b| - 1] == a + b';
      QuestionIdsOfAppend(a, b', p);
      var last := if b[|b| - 1].quizId == p then [b[|b| - 1].id] else [];
      AppendAssoc(QuestionIdsOf(a, p), QuestionIdsOf(b', p), last);
    }
  }

  // ---------------------------------------------------------------------------
  // Each link predicate survives joining two subtrees

  lemma LessonsListedConcat(c1: seq<Course>, l1: seq<Lesson>, c2: seq<Course>, l2: seq<Lesson>)
    requires LessonsListed(c1, l1) && LessonsListed(c2, l2)
    ensures LessonsListed(c1 + c2, l1 + l2)
  {
    forall i | 0 <= i < |c1 + c2|
      ensures Within((c1 + c2)[i].lessons, LessonIdsOf(l1 + l2, (c1 + c2)[i].id))
    {
      LessonIdsOfAppend(l1, l2, (c1 + c2)[i].id);
    }
  }

  lemma QuizzesListedConcat(l1: seq<Lesson>, q1: seq<Quiz>, l2: seq<Lesson>, q2: seq<Quiz>)
    requires QuizzesListed(l1, q1) && QuizzesListed(l2, q2)
    ensures QuizzesListed(l1 + l2, q1 + q2)
  {
    forall i | 0 <= i < |l1 + l2|
      ensures Within((l1 + l2)[i].quizzes, QuizIdsOf(q1 + q2, (l1 + l2)[i].id))
    {
      QuizIdsOfAppend(q1, q2, (l1 + l2)[i].id);
    }
  }

  lemma QuestionsListedConcat(q1: seq<Quiz>, n1: seq<Question>, q2: seq<Quiz>, n2: seq<Question>)
    requires QuestionsListed(q1, n1) && QuestionsListed(q2, n2)
    ensures QuestionsListed(q1 + q2, n1 + n2)
  {
    forall i | 0 <= i < |q1 + q2|
      ensures Within((q1 + q2)[i].questions, QuestionIdsOf(n1 + n2, (q1 + q2)[i].id))
    {
      QuestionIdsOfAppend(n1, n2, (q1 + q2)[i].id);
    }
  }

  lemma CoursesKnownConcat(l1: seq<Lesson>, c1: seq<Course>, l2: seq<Lesson>, c2: seq<Course>)
    requires CoursesKnown(l1, c1) && CoursesKnown(l2, c2)
    ensures CoursesKnown(l1 + l2, c1 + c2)
  {
    assert CourseIds(c1 + c2) == CourseIds(c1) + CourseIds(c2);
  }

  lemma LessonsKnownConcat(q1: seq<Quiz>, l1: seq<Lesson>, q2: seq<Quiz>, l2: seq<Lesson>)
    requires LessonsKnown(q1, l1) && LessonsKnown(q2, l2)
    ensures LessonsKnown(q1 + q2, l1 + l2)
  {
    assert LessonIds(l1 + l2) == LessonIds(l1) + LessonIds(l2);
  }

  lemma QuizzesKnownConcat(n1: seq<Question>, q1: seq<Quiz>, n2: seq<Question>, q2: seq<Quiz>)
    requires QuizzesKnown(n1, q1) && QuizzesKnown(n2, q2)
    ensures QuizzesKnown(n1 + n2, q1 + q2)
  {
    assert QuizIds(q1 + q2) == QuizIds(q1) + QuizIds(q2);
  }

  /** Two complete course trees side by side form one complete course tree. */
  lemma TreeConcat(c1: seq<Course>, l1: seq<Lesson>, q1: seq<Quiz>, n1: seq<Question>,
                   c2: seq<Course>, l2: seq<Lesson>, q2: seq<Quiz>, n2: seq<Question>)
    requires Tree(c1, l1, q1, n1) && Tree(c2, l2, q2, n2)
    ensures Tree(c1 + c2, l1 + l2, q1 + q2, n1 + n2)
  {
    LessonsListedConcat(c1, l1, c2, l2);
    CoursesKnownConcat(l1, c1, l2, c2);
    QuizzesListedConcat(l1, q1, l2, q2);
    LessonsKnownConcat(q1, l1, q2, l2);
    QuestionsListedConcat(q1, n1, q2, n2);
    QuizzesKnownConcat(n1, q1, n2, q2);
  }

  /** A parent whose children are all stored stays so when more documents are stored. */
  lemma LessonsListedExtend(cs: seq<Course>, l1: seq<Lesson>, l2: seq<Lesson>)
    requires LessonsListed(cs, l2)
    ensures LessonsListed(cs, l1 + l2)
  {
    forall i | 0 <= i < |cs|
      ensures Within(cs[i].lessons, LessonIdsOf(l1 + l2, cs[i].id))
    {
      LessonIdsOfAppend(l1, l2, cs[i].id);
    }
  }

  lemma QuizzesListedExtend(ls: seq<Lesson>, q1: seq<Quiz>, q2: seq<Quiz>)
    requires QuizzesListed(ls, q2)
    ensures QuizzesListed(ls, q1 + q2)
  {
    forall i | 0 <= i < |ls|
      ensures Within(ls[i].quizzes, QuizIdsOf(q1 + q2, ls[i].id))
    {
      QuizIdsOfAppend(q1, q2, ls[i].id);
    }
  }

  lemma QuestionsListedExtend(qs: seq<Quiz>, n1: seq<Question>, n2: seq<Question>)
    requires QuestionsListed(qs, n2)
    ensures QuestionsListed(qs, n1 + n2)
  {
    forall i | 0 <= i < |qs|
      ensures Within(qs[i].questions, QuestionIdsOf(n1 + n2, qs[i].id))
    {
      QuestionIdsOfAppend(n1, n2, qs[i].id);
    }
  }

  // ---------------------------------------------------------------------------
  // The documents of one build are a complete tree

  /** One quiz and its questions: the quiz lists exactly their ids, and each names the quiz. */
  lemma OneQuiz(lessonId: Id, d: QuizDraw)
    ensures QuestionsListed([MakeQuiz(lessonId, d)], MakeQuestions(d.id, d.questions))
    ensures QuizzesKnown(MakeQuestions(d.id, d.questions), [MakeQuiz(lessonId, d)])
  {
    var ns := MakeQuestions(d.id, d.questions);
    assert QuizIds([MakeQuiz(lessonId, d)]) == [d.id];
    assert forall x :: x in QuestionIds(ns) ==> exists j :: 0 <= j < |ns| && ns[j].id == x;
  }

  lemma OneLesson(courseId: Id, d: LessonDraw)
    ensures QuizzesListed([MakeLesson(courseId, d)], MakeQuizzes(d.id, d.quizzes))
    ensures LessonsKnown(MakeQuizzes(d.id, d.quizzes), [MakeLesson(courseId, d)])
  {
    var qs := MakeQuizzes(d.id, d.quizzes);
    assert LessonIds([MakeLesson(courseId, d)]) == [d.id];
    assert forall x :: x in QuizIds(qs) ==> exists j :: 0 <= j < |qs| && qs[j].id == x;
  }

  lemma OneCourse(instructor: Id, d: CourseDraw)
    ensures LessonsListed([MakeCourse(instructor, d)], MakeLessons(d.id, d.lessons))
    ensures CoursesKnown(MakeLessons(d.id, d.lessons), [MakeCourse(instructor, d)])
  {
    var ls := MakeLessons(d.id, d.lessons);
    assert CourseIds([MakeCourse(instructor, d)]) == [d.id];
    assert forall x :: x in LessonIds(ls) ==> exists j :: 0 <= j < |ls| && ls[j].id == x;
  }

  lemma {:induction false} QuizLevel(lessonId: Id, ds: seq<QuizDraw>)
    ensures QuestionsListed(MakeQuizzes(lessonId, ds), QuestionsOf(ds))
    ensures QuizzesKnown(QuestionsOf(ds), MakeQuizzes(lessonId, ds))
    decreases |ds|
  {
    if ds != [] {
      var init, d := ds[..|ds| - 1], ds[|ds| - 1];
      QuizLevel(lessonId, init);
      OneQuiz(lessonId, d);
      QuestionsListedConcat(MakeQuizzes(lessonId, init), QuestionsOf(init),
                            [MakeQuiz(lessonId, d)], MakeQuestions(d.id, d.questions));
      QuizzesKnownConcat(QuestionsOf(init), MakeQuizzes(lessonId, init),
                         MakeQuestions(d.id, d.questions), [MakeQuiz(lessonId, d)]);
    }
  }

  lemma {:induction false} LessonLevel(courseId: Id, ds: seq<LessonDraw>)
    ensures QuizzesListed(MakeLessons(courseId, ds), QuizzesOfLessons(ds))
    ensures LessonsKnown(QuizzesOfLessons(ds), MakeLessons(courseId, ds))
    ensures QuestionsListed(QuizzesOfLessons(ds), QuestionsOfLessons(ds))
    ensures QuizzesKnown(QuestionsOfLessons(ds), QuizzesOfLessons(ds))
    decreases |ds|
  {
    if ds != [] {
      var init, d := ds[..|ds| - 1], ds[|ds| - 1];
      var qs := MakeQuizzes(d.id, d.quizzes);
      LessonLevel(courseId, init);
      OneLesson(courseId, d);
      QuizLevel(d.id, d.quizzes);
      QuizzesListedConcat(MakeLessons(courseId, init), QuizzesOfLessons(init), [MakeLesson(courseId, d)], qs);
      LessonsKnownConcat(QuizzesOfLessons(init), MakeLessons(courseId, init), qs, [MakeLesson(courseId, d)]);
      QuestionsListedConcat(QuizzesOfLessons(init), QuestionsOfLessons(init), qs, QuestionsOf(d.quizzes));
      QuizzesKnownConcat(QuestionsOfLessons(init), QuizzesOfLessons(init), QuestionsOf(d.quizzes), qs);
    }
  }

  /** Everything one `insert_courses` call builds is a complete tree: every child
      names its parent, every parent lists only children that name it. */
  lemma {:induction false} CourseLevel(candidates: seq<Id>, ds: seq<CourseDraw>)
    requires PicksIn(ds, |candidates|)
    ensures Tree(MakeCourses(candidates, ds), LessonsOfCourses(ds), QuizzesOfCourses(ds), QuestionsOfCourses(ds))
    decreases |ds|
  {
    if ds != [] {
      var init, d := ds[..|ds| - 1], ds[|ds| - 1];
      var c := MakeCourse(candidates[d.pick], d);
      var ls := MakeLessons(d.id, d.lessons);
      assert PicksIn(init, |candidates|);
      CourseLevel(candidates, init);
      OneCourse(candidates[d.pick], d);
      LessonLevel(d.id, d.lessons);
      TreeConcat(MakeCourses(candidates, init), LessonsOfCourses(init), QuizzesOfCourses(init), QuestionsOfCourses(init),
                 [c], ls, QuizzesOfLessons(d.lessons), QuestionsOfLessons(d.lessons));
    }
  }

  /** New courses taught by stored instructors leave users' enrolments, the
      enrollment documents and the instructors linked. */
  lemma CoursesAddedKeepLinks(db: DB, r: DB, cs: seq<Course>)
    requires r.users == db.users && r.enrollments == db.enrollments && r.courses == db.courses + cs
    requires UsersLinked(db) && InstructorsKnown(db) && EnrollmentsLinked(db)
    requires forall i :: 0 <= i < |cs| ==> cs[i].instructor in InstructorIds(db.users)
    ensures UsersLinked(r) && InstructorsKnown(r) && EnrollmentsLinked(r)
  {
    assert CourseIds(r.courses) == CourseIds(db.courses) + CourseIds(cs);
    forall i | 0 <= i < |r.courses|
      ensures r.courses[i].instructor in InstructorIds(r.users)
    {
      if i >= |db.courses| {
        assert r.courses[i] == cs[i - |db.courses|];
      }
    }
  }

  /** Adding a complete course tree whose instructors are stored instructors to a
      store without dangling references leaves none. */
  lemma AddTreeKeepsLinked(db: DB, cs: seq<Course>, ls: seq<Lesson>, qs: seq<Quiz>, ns: seq<Question>)
    requires Linked(db)
    requires Tree(cs, ls, qs, ns)
    requires forall i :: 0 <= i < |cs| ==> cs[i].instructor in InstructorIds(db.users)
    ensures Linked(db.(courses := db.courses + cs, lessons := db.lessons + ls,
                       quizzes := db.quizzes + qs, questions := db.questions + ns))
  {
    var r := db.(courses := db.courses + cs, lessons := db.lessons + ls,
                 quizzes := db.quizzes + qs, questions := db.questions + ns);
    TreeConcat(db.courses, db.lessons, db.quizzes, db.questions, cs, ls, qs, ns);
    CoursesAddedKeepLinks(db, r, cs);
  }

  /** Adding what `insert_courses` builds, with instructors drawn from the stored
      users, to a store without dangling references leaves none. */
  lemma InsertCoursesKeepsLinked(db: DB, ds: seq<CourseDraw>)
    requires Linked(db)
    requires PicksIn(ds, |InstructorIds(db.users)|)
    ensures Linked(ApplyAll(db, CoursesBatches(InstructorIds(db.users), ds)))
  {
    var candidates := InstructorIds(db.users);
    var cs := MakeCourses(candidates, ds);
    CoursesBatchesEffect(db, candidates, ds);
    CourseLevel(candidates, ds);
    forall i | 0 <= i < |cs|
      ensures cs[i].instructor in candidates
    {
      assert cs[i].instructor == candidates[ds[i].pick];
    }
    AddTreeKeepsLinked(db, cs, LessonsOfCourses(ds), QuizzesOfCourses(ds), QuestionsOfCourses(ds));
  }

  // ---------------------------------------------------------------------------
  // Exact counts

  lemma {:induction false} QuestionsOfCount(ds: seq<QuizDraw>, c: Counts)
    requires forall i :: 0 <= i < |ds| ==> QuizFits(ds[i], c)
    ensures |QuestionsOf(ds)| == |ds| * c.questionsPerQuiz
    decreases |ds|
  {
    if ds != [] {
      var init := ds[..|ds| - 1];
      QuestionsOfCount(init, c);
      MulSucc(|init|, c.questionsPerQuiz);
    }
  }

  lemma {:induction false} LessonsCount(ds: seq<LessonDraw>, c: Counts)
    requires forall i :: 0 <= i < |ds| ==> LessonFits(ds[i], c)
    ensures |QuizzesOfLessons(ds)| == |ds| * c.quizzesPerLesson
    ensures |QuestionsOfLessons(ds)| == |ds| * (c.quizzesPerLesson * c.questionsPerQuiz)
    decreases |ds|
  {
    if ds != [] {
      var init, d := ds[..|ds| - 1], ds[|ds| - 1];
      LessonsCount(init, c);
      QuestionsOfCount(d.quizzes, c);
      MulSucc(|init|, c.quizzesPerLesson);
      MulSucc(|init|, c.quizzesPerLesson * c.questionsPerQuiz);
    }
  }

  /** Totals of one `insert_courses` call: C courses, C·L lessons, C·L·Q quizzes
      and C·L·Q·N questions. */
  lemma {:induction false} CourseTotals(candidates: seq<Id>, ds: seq<CourseDraw>, c: Counts)
    requires forall i :: 0 <= i < |ds| ==> CourseFits(ds[i], c)
    requires PicksIn(ds, |candidates|)
    ensures |MakeCourses(candidates, ds)| == |ds|
    ensures |LessonsOfCourses(ds)| == |ds| * c.lessonsPerCourse
    ensures |QuizzesOfCourses(ds)| == |ds| * (c.lessonsPerCourse * c.quizzesPerLesson)
    ensures |QuestionsOfCourses(ds)| == |ds| * (c.lessonsPerCourse * c.quizzesPerLesson * c.questionsPerQuiz)
    decreases |ds|
  {
    if ds != [] {
      var init, d := ds[..|ds| - 1], ds[|ds| - 1];
      assert PicksIn(init, |candidates|);
      CourseTotals(candidates, init, c);
      LessonsCount(d.lessons, c);
      var l, q, n := c.lessonsPerCourse, c.quizzesPerLesson, c.questionsPerQuiz;
      MulAssoc(l, q, n);
      MulSucc(|init|, l);
      MulSucc(|init|, l * q);
      MulSucc(|init|, l * q * n);
    }
  }

  /** Each parent lists exactly its per-parent count of children, and each
      question has four options. */
  lemma {:induction false} ListSizes(candidates: seq<Id>, ds: seq<CourseDraw>, c: Counts)
    requires forall i :: 0 <= i < |ds| ==> CourseFits(ds[i], c)
    requires PicksIn(ds, |candidates|)
    ensures forall x :: x in MakeCourses(candidates, ds) ==> |x.lessons| == c.lessonsPerCourse && x.instructor in candidates
    ensures forall x :: x in LessonsOfCourses(ds) ==> |x.quizzes| == c.quizzesPerLesson
    ensures forall x :: x in QuizzesOfCourses(ds) ==> |x.questions| == c.questionsPerQuiz
    ensures forall x :: x in QuestionsOfCourses(ds) ==> |x.options| == 4
    decreases |ds|
  {
    if ds != [] {
      var init, d := ds[..|ds| - 1], ds[|ds| - 1];
      assert PicksIn(init, |candidates|);
      ListSizes(candidates, init, c);
      LessonSizes(d.lessons, c);
    }
  }

  lemma {:induction false} LessonSizes(ds: seq<LessonDraw>, c: Counts)
    requires forall i :: 0 <= i < |ds| ==> LessonFits(ds[i], c)
    ensures forall x :: x in QuizzesOfLessons(ds) ==> |x.questions| == c.questionsPerQuiz
    ensures forall x :: x in QuestionsOfLessons(ds) ==> |x.options| == 4
    decreases |ds|
  {
    if ds != [] {
      var init, d := ds[..|ds| - 1], ds[|ds| - 1];
      LessonSizes(init, c);
      QuizSizes(d.quizzes, c);
    }
  }

  lemma {:induction false} QuizSizes(ds: seq<QuizDraw>, c: Counts)
    requires forall i :: 0 <= i < |ds| ==> QuizFits(ds[i], c)
    ensures forall lessonId, x :: x in MakeQuizzes(lessonId, ds) ==> |x.questions| == c.questionsPerQuiz
    ensures forall x :: x in QuestionsOf(ds) ==> |x.options| == 4
    decreases |ds|
  {
    if ds != [] {
      var init := ds[..|ds| - 1];
      QuizSizes(init, c);
      forall lessonId, x | x in MakeQuizzes(lessonId, ds)
        ensures |x.questions| == c.questionsPerQuiz
      {
        var j :| 0 <= j < |ds| && MakeQuizzes(lessonId, ds)[j] == x;
        assert ds[j] in ds;
      }
    }
  }

  // ---------------------------------------------------------------------------
  // Write order

  lemma {:induction false} QuizBatchesAreQuestions(ds: seq<QuizDraw>)
    ensures forall w :: w in QuizBatches(ds) ==> w.InsertQuestions?
    decreases |ds|
  {
    if ds != [] {
      QuizBatchesAreQuestions(ds[..|ds| - 1]);
    }
  }

  lemma QuizBatchesFirst(db: DB, ds: seq<QuizDraw>)
    ensures ChildrenFirst(db, QuizBatches(ds))
  {
    QuizBatchesAreQuestions(ds);
    var ws := QuizBatches(ds);
    forall k | 0 <= k < |ws|
      ensures Ready(ApplyAll(db, ws[..k]), ws[k])
    {
      assert ws[k] in ws;
    }
  }

  /** Once a lesson's questions are stored, its quiz batch is ready. */
  lemma QuizBatchReady(db: DB, lessonId: Id, ds: seq<QuizDraw>)
    ensures Ready(db.(questions := db.questions + QuestionsOf(ds)), InsertQuizzes(MakeQuizzes(lessonId, ds)))
  {
    QuizLevel(lessonId, ds);
    QuestionsListedExtend(MakeQuizzes(lessonId, ds), db.questions, QuestionsOf(ds));
  }

  /** A lesson's quiz batch goes out after the question batches of all its quizzes. */
  lemma {:induction false} LessonBatchesFirst(db: DB, ds: seq<LessonDraw>)
    ensures ChildrenFirst(db, LessonBatches(ds))
    decreases |ds|
  {
    if ds != [] {
      var init, d := ds[..|ds| - 1], ds[|ds| - 1];
      var a, b := LessonBatches(init), QuizBatches(d.quizzes);
      var w := InsertQuizzes(MakeQuizzes(d.id, d.quizzes));
      var mid := ApplyAll(db, a);
      LessonBatchesFirst(db, init);
      QuizBatchesFirst(mid, d.quizzes);
      ChildrenFirstConcat(db, a, b);
      ApplyAllConcat(db, a, b);
      QuizBatchesEffect(mid, d.quizzes);
      QuizBatchReady(mid, d.id, d.quizzes);
      ChildrenFirstOne(ApplyAll(db, a + b), w);
      ChildrenFirstConcat(db, a + b, [w]);
    }
  }

  /** Once a course's quizzes are stored, its lesson batch is ready. */
  lemma LessonBatchReady(db: DB, courseId: Id, ds: seq<LessonDraw>)
    ensures Ready(db.(quizzes := db.quizzes + QuizzesOfLessons(ds)), InsertLessons(MakeLessons(courseId, ds)))
  {
    LessonLevel(courseId, ds);
    QuizzesListedExtend(MakeLessons(courseId, ds), db.quizzes, QuizzesOfLessons(ds));
  }

  /** Once a course's lessons are stored, the course itself is ready. */
  lemma CourseReady(db: DB, instructor: Id, d: CourseDraw)
    ensures Ready(db.(lessons := db.lessons + MakeLessons(d.id, d.lessons)), InsertCourses([MakeCourse(instructor, d)]))
  {
    OneCourse(instructor, d);
    LessonsListedExtend([MakeCourse(instructor, d)], db.lessons, MakeLessons(d.id, d.lessons));
  }

  /** A course's lessons go out after all their quizzes, and the course after its lessons. */
  lemma CourseBatchesFirst(db: DB, instructor: Id, d: CourseDraw)
    ensures ChildrenFirst(db, CourseBatches(instructor, d))
  {
    var a := LessonBatches(d.lessons);
    var w1 := InsertLessons(MakeLessons(d.id, d.lessons));
    var w2 := InsertCourses([MakeCourse(instructor, d)]);
    var mid := ApplyAll(db, a);
    LessonBatchesFirst(db, d.lessons);
    LessonBatchesEffect(db, d.lessons);
    LessonBatchReady(db.(questions := db.questions + QuestionsOfLessons(d.lessons)), d.id, d.lessons);
    ChildrenFirstOne(mid, w1);
    ChildrenFirstConcat(db, a, [w1]);
    ApplyAllConcat(db, a, [w1]);
    ApplyAllStep(mid, [w1], 0);
    assert [w1][..1] == [w1];
    CourseReady(mid, instructor, d);
    ChildrenFirstOne(ApplyAll(db, a + [w1]), w2);
    ChildrenFirstConcat(db, a + [w1], [w2]);
    AppendAssoc(a, [w1], [w2]);
    assert [w1] + [w2] == [w1, w2];
    assert CourseBatches(instructor, d) == a + [w1] + [w2];
  }

  /** Whatever the store held before, every write `insert_courses` issues finds
      the children its documents list already stored: children before parents
      at every level. */
  lemma {:induction false} CoursesBatchesFirst(db: DB, candidates: seq<Id>, ds: seq<CourseDraw>)
    requires PicksIn(ds, |candidates|)
    ensures ChildrenFirst(db, CoursesBatches(candidates, ds))
    decreases |ds|
  {
    if ds != [] {
      var init, d := ds[..|ds| - 1], ds[|ds| - 1];
      assert PicksIn(init, |candidates|);
      var a := CoursesBatches(candidates, init);
      CoursesBatchesFirst(db, candidates, init);
      CourseBatchesFirst(ApplyAll(db, a), candidates[d.pick], d);
      ChildrenFirstConcat(db, a, CourseBatches(candidates[d.pick], d));
    }
  }

  /** The id list a quiz stores is, in order, the ids of the question batch
      written for it, and every question of that batch names the quiz. */
  lemma {:induction false} QuizListsMatchBatches(lessonId: Id, ds: seq<QuizDraw>)
    ensures |QuizBatches(ds)| == |ds|
    ensures forall j :: 0 <= j < |ds| ==>
              var w, q := QuizBatches(ds)[j], MakeQuizzes(lessonId, ds)[j];
              && w.InsertQuestions?
              && QuestionIds(w.newQuestions) == q.questions
              && (forall x :: x in w.newQuestions ==> x.quizId == q.id)
    decreases |ds|
  {
    if ds != [] {
      QuizListsMatchBatches(lessonId, ds[..|ds| - 1]);
    }
  }

  /** The last two writes for a course are its lesson batch and then the course,
      whose lesson list is, in order, the ids of that batch, every lesson of
      which names the course. */
  lemma CourseListMatchesBatch(instructor: Id, d: CourseDraw)
    ensures var ws, c := CourseBatches(instructor, d), MakeCourse(instructor, d);
      && |ws| >= 2
      && ws[|ws| - 1] == InsertCourses([c])
      && ws[|ws| - 2].InsertLessons?
      && c.lessons == LessonIds(ws[|ws| - 2].newLessons)
      && (forall x :: x in ws[|ws| - 2].newLessons ==> x.courseId == c.id)
  {
  }
}
