/** The document store as the scripts use it: six collections, and the driver
    calls they issue (insert_many, insert_one, update_one, update_many, drop,
    delete_many). Each call is a `Write`; `Apply` is its effect on the
    collections. `MongoStore` is the in-memory store object; it journals every
    call so that the order in which the generator writes can be stated. */
module Store {
  import opened Entities

  datatype Collection = Users | Courses | Lessons | Quizzes | QuizQuestions | Enrollments

  /** The contents of the six collections, each in insertion order (the order `find()` returns). */
  datatype DB = DB(
    users: seq<User>,
    courses: seq<Course>,
    lessons: seq<Lesson>,
    quizzes: seq<Quiz>,
    questions: seq<Question>,
    enrollments: seq<Enrollment>)

  const Empty := DB([], [], [], [], [], [])

  /** One driver call. An `insert_one(doc)` is journaled as a one-document batch. */
  datatype Write =
    | InsertUsers(newUsers: seq<User>)
    | InsertCourses(newCourses: seq<Course>)
    | InsertLessons(newLessons: seq<Lesson>)
    | InsertQuizzes(newQuizzes: seq<Quiz>)
    | InsertQuestions(newQuestions: seq<Question>)
    | InsertEnrollments(newEnrollments: seq<Enrollment>)
      // users.update_one({"_id": userId}, {"$set": {"enrolledCourses": courseIds}})
    | SetEnrolledCourses(userId: Id, courseIds: seq<Id>)
      // update_many({}, {"$set": {field: value}}), one per collection
    | SetAllEmails(email: string)
    | SetAllDescriptions(description: string)
    | SetAllProgress(progress: string)
    | SetAllContents(content: string)
    | SetAllQuizTitles(title: string)
    | SetAllQuestionTexts(text: string)
    | Drop(dropped: Collection)
    | DeleteAll(cleared: Collection)

  /** Where `update_one` by id lands: the position of the first user with that id,
      or `|us|` when there is none. */
  function FirstWithId(us: seq<User>, id: Id): (k: nat)
    ensures k <= |us|
    ensures forall j :: 0 <= j < k ==> us[j].id != id
    ensures k < |us| ==> us[k].id == id
  {
    if us == [] then 0
    else if us[0].id == id then 0
    else 1 + FirstWithId(us[1..], id)
  }

  /** `update_one` by id: the FIRST user whose id matches gets the new list; nobody else changes. */
  function SetEnrolled(us: seq<User>, id: Id, cs: seq<Id>): (r: seq<User>)
    ensures |r| == |us|
    ensures forall i :: 0 <= i < |us| ==> r[i].id == us[i].id && r[i].role == us[i].role
    ensures forall i :: 0 <= i < |us| ==>
              r[i] == if i == FirstWithId(us, id) then us[i].(enrolledCourses := cs) else us[i]
  {
    if us == [] then []
    else if us[0].id == id then [us[0].(enrolledCourses := cs)] + us[1..]
    else [us[0]] + SetEnrolled(us[1..], id, cs)
  }

  function WithEmail(us: seq<User>, e: string): seq<User> {
    seq(|us|, i requires 0 <= i < |us| => us[i].(email := e))
  }

  function WithDescription(cs: seq<Course>, d: string): seq<Course> {
    seq(|cs|, i requires 0 <= i < |cs| => cs[i].(description := d))
  }

  function WithProgress(es: seq<Enrollment>, p: string): seq<Enrollment> {
    seq(|es|, i requires 0 <= i < |es| => es[i].(progress := p))
  }

  function WithContent(ls: seq<Lesson>, c: string): seq<Lesson> {
    seq(|ls|, i requires 0 <= i < |ls| => ls[i].(content := c))
  }

  function WithTitle(qs: seq<Quiz>, t: string): seq<Quiz> {
    seq(|qs|, i requires 0 <= i < |qs| => qs[i].(title := t))
  }

  function WithText(qs: seq<Question>, t: string): seq<Question> {
    seq(|qs|, i requires 0 <= i < |qs| => qs[i].(text := t))
  }

  /** `drop()` and `delete_many({})` both leave the collection without documents. */
  function Cleared(db: DB, c: Collection): DB {
    match c
    case Users => db.(users := [])
    case Courses => db.(courses := [])
    case Lessons => db.(lessons := [])
    case Quizzes => db.(quizzes := [])
    case QuizQuestions => db.(questions := [])
    case Enrollments => db.(enrollments := [])
  }

  function Apply(db: DB, w: Write): DB {
    match w
    case InsertUsers(us) => db.(users := db.users + us)
    case InsertCourses(cs) => db.(courses := db.courses + cs)
    case InsertLessons(ls) => db.(lessons := db.lessons + ls)
    case InsertQuizzes(qs) => db.(quizzes := db.quizzes + qs)
    case InsertQuestions(qs) => db.(questions := db.questions + qs)
    case InsertEnrollments(es) => db.(enrollments := db.enrollments + es)
    case SetEnrolledCourses(id, cs) => db.(users := SetEnrolled(db.users, id, cs))
    case SetAllEmails(e) => db.(users := WithEmail(db.users, e))
    case SetAllDescriptions(d) => db.(courses := WithDescription(db.courses, d))
    case SetAllProgress(p) => db.(enrollments := WithProgress(db.enrollments, p))
    case SetAllContents(c) => db.(lessons := WithContent(db.lessons, c))
    case SetAllQuizTitles(t) => db.(quizzes := WithTitle(db.quizzes, t))
    case SetAllQuestionTexts(t) => db.(questions := WithText(db.questions, t))
    case Drop(c) => Cleared(db, c)
    case DeleteAll(c) => Cleared(db, c)
  }

  /** The collection a driver call is issued on. */
  function Target(w: Write): Collection {
    match w
    case InsertUsers(_) => Users
    case InsertCourses(_) => Courses
    case InsertLessons(_) => Lessons
    case InsertQuizzes(_) => Quizzes
    case InsertQuestions(_) => QuizQuestions
    case InsertEnrollments(_) => Enrollments
    case SetEnrolledCourses(_, _) => Users
    case SetAllEmails(_) => Users
    case SetAllDescriptions(_) => Courses
    case SetAllProgress(_) => Enrollments
    case SetAllContents(_) => Lessons
    case SetAllQuizTitles(_) => Quizzes
    case SetAllQuestionTexts(_) => QuizQuestions
    case Drop(c) => c
    case DeleteAll(c) => c
  }

  /** The number of documents in one collection. */
  function Size(db: DB, c: Collection): nat {
    match c
    case Users => |db.users|
    case Courses => |db.courses|
    case Lessons => |db.lessons|
    case Quizzes => |db.quizzes|
    case QuizQuestions => |db.questions|
    case Enrollments => |db.enrollments|
  }

  /** The two stores hold the same documents in collection `c`. */
  predicate SameIn(a: DB, b: DB, c: Collection) {
    match c
    case Users => a.users == b.users
    case Courses => a.courses == b.courses
    case Lessons => a.lessons == b.lessons
    case Quizzes => a.quizzes == b.quizzes
    case QuizQuestions => a.questions == b.questions
    case Enrollments => a.enrollments == b.enrollments
  }

  /** Each driver call touches only the collection it is issued on. There, an
      insert adds its documents after the stored ones, an update keeps the number
      of documents, and `drop` or `delete_many({})` leaves none. */
  lemma ApplyEffect(db: DB, w: Write)
    ensures forall c :: c != Target(w) ==> SameIn(Apply(db, w), db, c)
    ensures w.InsertUsers? ==> Apply(db, w).users == db.users + w.newUsers
    ensures w.InsertCourses? ==> Apply(db, w).courses == db.courses + w.newCourses
    ensures w.InsertLessons? ==> Apply(db, w).lessons == db.lessons + w.newLessons
    ensures w.InsertQuizzes? ==> Apply(db, w).quizzes == db.quizzes + w.newQuizzes
    ensures w.InsertQuestions? ==> Apply(db, w).questions == db.questions + w.newQuestions
    ensures w.InsertEnrollments? ==> Apply(db, w).enrollments == db.enrollments + w.newEnrollments
    ensures (w.SetEnrolledCourses? || w.SetAllEmails? || w.SetAllDescriptions? || w.SetAllProgress?
             || w.SetAllContents? || w.SetAllQuizTitles? || w.SetAllQuestionTexts?)
            ==> Size(Apply(db, w), Target(w)) == Size(db, Target(w))
    ensures (w.Drop? || w.DeleteAll?) ==> Size(Apply(db, w), Target(w)) == 0
  {
  }

  /** The collections after the calls `ws`, issued in order. */
  function ApplyAll(db: DB, ws: seq<Write>): DB
    decreases |ws|
  {
    if ws == [] then db else Apply(ApplyAll(db, ws[..|ws| - 1]), ws[|ws| - 1])
  }

  lemma {:induction false} ApplyAllConcat(db: DB, a: seq<Write>, b: seq<Write>)
    ensures ApplyAll(db, a + b) == ApplyAll(ApplyAll(db, a), b)
    decreases |b|
  {
    if b == [] {
      assert a + b == a;
    } else {
      var b' := b[..|b| - 1];
      assert (a + b)[..|a + b| - 1] == a + b';
      ApplyAllConcat(db, a, b');
    }
  }

  // ---------------------------------------------------------------------------
  // Referential integrity

  predicate UsersLinked(db: DB) {
    forall i :: 0 <= i < |db.users| ==> Within(db.users[i].enrolledCourses, CourseIds(db.courses))
  }

  predicate InstructorsKnown(db: DB) {
    forall i :: 0 <= i < |db.courses| ==> db.courses[i].instructor in InstructorIds(db.users)
  }

  // The course tree, one predicate per direction of each parent-child link. They
  // take the collections separately so that a newly built subtree can be checked
  // on its own and then joined to what is stored.

  /** Every lesson id a course lists names a lesson whose `courseId` is that course. */
  predicate LessonsListed(cs: seq<Course>, ls: seq<Lesson>) {
    forall i :: 0 <= i < |cs| ==> Within(cs[i].lessons, LessonIdsOf(ls, cs[i].id))
  }

  predicate CoursesKnown(ls: seq<Lesson>, cs: seq<Course>) {
    forall i :: 0 <= i < |ls| ==> ls[i].courseId in CourseIds(cs)
  }

  predicate QuizzesListed(ls: seq<Lesson>, qs: seq<Quiz>) {
    forall i :: 0 <= i < |ls| ==> Within(ls[i].quizzes, QuizIdsOf(qs, ls[i].id))
  }

  predicate LessonsKnown(qs: seq<Quiz>, ls: seq<Lesson>) {
    forall i :: 0 <= i < |qs| ==> qs[i].lessonId in LessonIds(ls)
  }

  predicate QuestionsListed(qs: seq<Quiz>, ns: seq<Question>) {
    forall i :: 0 <= i < |qs| ==> Within(qs[i].questions, QuestionIdsOf(ns, qs[i].id))
  }

  predicate QuizzesKnown(ns: seq<Question>, qs: seq<Quiz>) {
    forall i :: 0 <= i < |ns| ==> ns[i].quizId in QuizIds(qs)
  }

  predicate Tree(cs: seq<Course>, ls: seq<Lesson>, qs: seq<Quiz>, ns: seq<Question>) {
    && LessonsListed(cs, ls) && CoursesKnown(ls, cs)
    && QuizzesListed(ls, qs) && LessonsKnown(qs, ls)
    && QuestionsListed(qs, ns) && QuizzesKnown(ns, qs)
  }

  predicate EnrollmentsLinked(db: DB) {
    forall i :: 0 <= i < |db.enrollments| ==>
      db.enrollments[i].userId in UserIds(db.users) &&
      db.enrollments[i].courseId in CourseIds(db.courses)
  }

  /** No dangling reference, in either direction: every foreign key names a stored
      document; every id in a parent's child list names a stored child whose
      foreign key points back at that parent; every course's instructor is a
      stored user whose role is instructor. */
  predicate Linked(db: DB) {
    && UsersLinked(db)
    && InstructorsKnown(db)
    && Tree(db.courses, db.lessons, db.quizzes, db.questions)
    && EnrollmentsLinked(db)
  }

  /** A write that inserts parent documents is ready when every child id those
      parents list is already stored, pointing back at its parent: children are
      written before their parents. */
  predicate Ready(db: DB, w: Write) {
    match w
    case InsertCourses(cs) => LessonsListed(cs, db.lessons)
    case InsertLessons(ls) => QuizzesListed(ls, db.quizzes)
    case InsertQuizzes(qs) => QuestionsListed(qs, db.questions)
    case _ => true
  }

  /** Each write of `ws`, issued from `db`, is ready at the moment it is issued. */
  ghost predicate ChildrenFirst(db: DB, ws: seq<Write>)
    decreases |ws|
  {
    ws == [] || (ChildrenFirst(db, ws[..|ws| - 1]) && Ready(ApplyAll(db, ws[..|ws| - 1]), ws[|ws| - 1]))
  }

  lemma ChildrenFirstOne(db: DB, w: Write)
    requires Ready(db, w)
    ensures ChildrenFirst(db, [w])
  {
    assert [w][..0] == [];
  }

  /** Writes that are each ready in turn can be issued one run after another. */
  lemma {:induction false} ChildrenFirstConcat(db: DB, a: seq<Write>, b: seq<Write>)
    requires ChildrenFirst(db, a)
    requires ChildrenFirst(ApplyAll(db, a), b)
    ensures ChildrenFirst(db, a + b)
    decreases |b|
  {
    if b == [] {
      assert a + b == a;
    } else {
      var b' := b[..|b| - 1];
      assert (a + b)[..|a + b| - 1] == a + b';
      ChildrenFirstConcat(db, a, b');
      ApplyAllConcat(db, a, b');
    }
  }

  // ---------------------------------------------------------------------------
  // Reset and bulk update

  /** `drop_collections`: users, courses, enrollments, lessons, quizzes, quiz_questions. */
  const DropWrites: seq<Write> :=
    [Drop(Users), Drop(Courses), Drop(Enrollments), Drop(Lessons), Drop(Quizzes), Drop(QuizQuestions)]

  /** `delete_all_data`: `delete_many({})` on the same six collections, in the same order. */
  const DeleteWrites: seq<Write> :=
    [DeleteAll(Users), DeleteAll(Courses), DeleteAll(Enrollments),
     DeleteAll(Lessons), DeleteAll(Quizzes), DeleteAll(QuizQuestions)]

  /** Both resets leave all six collections empty, whatever was stored before. */
  lemma ApplyAllStep(db: DB, ws: seq<Write>, k: nat)
    requires k < |ws|
    ensures ApplyAll(db, ws[..k + 1]) == Apply(ApplyAll(db, ws[..k]), ws[k])
  {
    assert ws[..k + 1][..k] == ws[..k];
  }

  /** One more call applies to the state the earlier ones left. */
  lemma ApplyAllSnoc(db: DB, ws: seq<Write>, w: Write)
    ensures ApplyAll(db, ws + [w]) == Apply(ApplyAll(db, ws), w)
  {
    assert (ws + [w])[..|ws|] == ws;
  }

  /** A single call, as a one-call sequence. */
  lemma ApplyAllOne(db: DB, w: Write)
    ensures ApplyAll(db, [w]) == Apply(db, w)
  {
    assert [w][..0] == [];
  }

  /** Three runs of calls, one after another. */
  lemma ApplyAllThree(db: DB, a: seq<Write>, b: seq<Write>, c: seq<Write>)
    ensures ApplyAll(db, a + b + c) == ApplyAll(ApplyAll(ApplyAll(db, a), b), c)
  {
    ApplyAllConcat(db, a, b);
    ApplyAllConcat(db, a + b, c);
  }

  lemma LinkedThroughThree(db: DB, w: Write, b: seq<Write>, c: seq<Write>)
    requires Linked(ApplyAll(ApplyAll(Apply(db, w), b), c))
    ensures Linked(ApplyAll(db, [w] + b + c))
  {
    ApplyAllOne(db, w);
    ApplyAllThree(db, [w], b, c);
  }

  /** Writing one user's list back after `ws` changes only the users. */
  lemma ApplyAllSetEnrolled(db: DB, ws: seq<Write>, us: seq<User>, id: Id, cs: seq<Id>)
    requires ApplyAll(db, ws) == db.(users := us)
    ensures ApplyAll(db, ws + [SetEnrolledCourses(id, cs)]) == db.(users := SetEnrolled(us, id, cs))
  {
    ApplyAllSnoc(db, ws, SetEnrolledCourses(id, cs));
  }

  /** Unfolds `ApplyAll` over a two-call sequence. */
  lemma ApplyAllTwo(db: DB, w1: Write, w2: Write)
    ensures ApplyAll(db, [w1, w2]) == Apply(Apply(db, w1), w2)
  {
    assert [w1] + [w2] == [w1, w2];
    ApplyAllOne(db, w1);
    ApplyAllSnoc(db, [w1], w2);
  }

  /** Unfolds `ApplyAll` over a six-call sequence. */
  lemma ApplyAllSix(db: DB, ws: seq<Write>)
    requires |ws| == 6
    ensures ApplyAll(db, ws) ==
      Apply(Apply(Apply(Apply(Apply(Apply(db, ws[0]), ws[1]), ws[2]), ws[3]), ws[4]), ws[5])
  {
    assert ws[..0] == [];
    ApplyAllStep(db, ws, 0);
    ApplyAllStep(db, ws, 1);
    ApplyAllStep(db, ws, 2);
    ApplyAllStep(db, ws, 3);
    ApplyAllStep(db, ws, 4);
    ApplyAllStep(db, ws, 5);
    assert ws[..6] == ws;
  }

  /** Both resets leave all six collections empty, whatever was stored before. */
  lemma ResetEmpties(db: DB)
    ensures ApplyAll(db, DropWrites) == Empty
    ensures ApplyAll(db, DeleteWrites) == Empty
  {
    ApplyAllSix(db, DropWrites);
    ApplyAllSix(db, DeleteWrites);
  }

  /** Resetting twice is the same as resetting once. */
  lemma ResetIdempotent(db: DB)
    ensures ApplyAll(ApplyAll(db, DropWrites), DropWrites) == ApplyAll(db, DropWrites)
    ensures ApplyAll(ApplyAll(db, DeleteWrites), DeleteWrites) == ApplyAll(db, DeleteWrites)
  {
    ResetEmpties(db);
    ResetEmpties(Empty);
  }

  lemma EmptyLinked()
    ensures Linked(Empty)
  {
  }

  /** `update_all_data`: one `update_many` per collection, each with one drawn value. */
  function UpdateWrites(email: string, description: string, progress: string,
                        content: string, title: string, text: string): seq<Write>
  {
    [SetAllEmails(email), SetAllDescriptions(description), SetAllProgress(progress),
     SetAllContents(content), SetAllQuizTitles(title), SetAllQuestionTexts(text)]
  }

  lemma UpdateFirstThree(db: DB, email: string, description: string, progress: string)
    ensures Apply(Apply(Apply(db, SetAllEmails(email)), SetAllDescriptions(description)), SetAllProgress(progress))
         == db.(users := WithEmail(db.users, email), courses := WithDescription(db.courses, description),
                enrollments := WithProgress(db.enrollments, progress))
  {
  }

  lemma UpdateLastThree(db: DB, content: string, title: string, text: string)
    ensures Apply(Apply(Apply(db, SetAllContents(content)), SetAllQuizTitles(title)), SetAllQuestionTexts(text))
         == db.(lessons := WithContent(db.lessons, content), quizzes := WithTitle(db.quizzes, title),
                questions := WithText(db.questions, text))
  {
  }

  /** The six bulk updates rewrite one field in each collection. */
  lemma UpdateState(db: DB, email: string, description: string, progress: string,
                    content: string, title: string, text: string)
    ensures ApplyAll(db, UpdateWrites(email, description, progress, content, title, text))
         == DB(WithEmail(db.users, email), WithDescription(db.courses, description),
               WithContent(db.lessons, content), WithTitle(db.quizzes, title),
               WithText(db.questions, text), WithProgress(db.enrollments, progress))
  {
    var ws := UpdateWrites(email, description, progress, content, title, text);
    assert ws[0] == SetAllEmails(email) && ws[1] == SetAllDescriptions(description)
        && ws[2] == SetAllProgress(progress) && ws[3] == SetAllContents(content)
        && ws[4] == SetAllQuizTitles(title) && ws[5] == SetAllQuestionTexts(text);
    ApplyAllSix(db, ws);
    UpdateFirstThree(db, email, description, progress);
    UpdateLastThree(db.(users := WithEmail(db.users, email), courses := WithDescription(db.courses, description),
                        enrollments := WithProgress(db.enrollments, progress)), content, title, text);
  }

  /** After the bulk update every document of a collection carries that collection's
      one new value, nothing else in any document changed, and no document was
      added or removed. */
  lemma UpdateEffect(db: DB, email: string, description: string, progress: string,
                     content: string, title: string, text: string)
    ensures var r := ApplyAll(db, UpdateWrites(email, description, progress, content, title, text));
      && |r.users| == |db.users| && |r.courses| == |db.courses| && |r.lessons| == |db.lessons|
      && |r.quizzes| == |db.quizzes| && |r.questions| == |db.questions|
      && |r.enrollments| == |db.enrollments|
      && (forall i :: 0 <= i < |r.users| ==> r.users[i] == db.users[i].(email := email))
      && (forall i :: 0 <= i < |r.courses| ==> r.courses[i] == db.courses[i].(description := description))
      && (forall i :: 0 <= i < |r.enrollments| ==> r.enrollments[i] == db.enrollments[i].(progress := progress))
      && (forall i :: 0 <= i < |r.lessons| ==> r.lessons[i] == db.lessons[i].(content := content))
      && (forall i :: 0 <= i < |r.quizzes| ==> r.quizzes[i] == db.quizzes[i].(title := title))
      && (forall i :: 0 <= i < |r.questions| ==> r.questions[i] == db.questions[i].(text := text))
  {
    UpdateState(db, email, description, progress, content, title, text);
  }

  lemma InstructorIdsSameKeys(us: seq<User>, vs: seq<User>)
    requires |us| == |vs|
    requires forall i :: 0 <= i < |us| ==> vs[i].id == us[i].id && vs[i].role == us[i].role
    ensures InstructorIds(vs) == InstructorIds(us)
  {
    if us != [] {
      InstructorIdsSameKeys(us[1..], vs[1..]);
    }
  }

  lemma LessonIdsOfSameKeys(ls: seq<Lesson>, ms: seq<Lesson>, p: Id)
    requires |ls| == |ms|
    requires forall i :: 0 <= i < |ls| ==> ms[i].id == ls[i].id && ms[i].courseId == ls[i].courseId
    ensures LessonIdsOf(ms, p) == LessonIdsOf(ls, p)
  {
    if ls != [] {
      LessonIdsOfSameKeys(ls[..|ls| - 1], ms[..|ms| - 1], p);
    }
  }

  lemma QuizIdsOfSameKeys(qs: seq<Quiz>, rs: seq<Quiz>, p: Id)
    requires |qs| == |rs|
    requires forall i :: 0 <= i < |qs| ==> rs[i].id == qs[i].id && rs[i].lessonId == qs[i].lessonId
    ensures QuizIdsOf(rs, p) == QuizIdsOf(qs, p)
  {
    if qs != [] {
      QuizIdsOfSameKeys(qs[..|qs| - 1], rs[..|rs| - 1], p);
    }
  }

  lemma QuestionIdsOfSameKeys(qs: seq<Question>, rs: seq<Question>, p: Id)
    requires |qs| == |rs|
    requires forall i :: 0 <= i < |qs| ==> rs[i].id == qs[i].id && rs[i].quizId == qs[i].quizId
    ensures QuestionIdsOf(rs, p) == QuestionIdsOf(qs, p)
  {
    if qs != [] {
      QuestionIdsOfSameKeys(qs[..|qs| - 1], rs[..|rs| - 1], p);
    }
  }

  lemma LessonsListedSameKeys(cs: seq<Course>, ls: seq<Lesson>, cs': seq<Course>, ls': seq<Lesson>)
    requires LessonsListed(cs, ls)
    requires |cs'| == |cs| && forall i :: 0 <= i < |cs| ==> cs'[i].id == cs[i].id && cs'[i].lessons == cs[i].lessons
    requires |ls'| == |ls| && forall i :: 0 <= i < |ls| ==> ls'[i].id == ls[i].id && ls'[i].courseId == ls[i].courseId
    ensures LessonsListed(cs', ls')
  {
    forall i | 0 <= i < |cs'|
      ensures Within(cs'[i].lessons, LessonIdsOf(ls', cs'[i].id))
    {
      LessonIdsOfSameKeys(ls, ls', cs[i].id);
    }
  }

  lemma QuizzesListedSameKeys(ls: seq<Lesson>, qs: seq<Quiz>, ls': seq<Lesson>, qs': seq<Quiz>)
    requires QuizzesListed(ls, qs)
    requires |ls'| == |ls| && forall i :: 0 <= i < |ls| ==> ls'[i].id == ls[i].id && ls'[i].quizzes == ls[i].quizzes
    requires |qs'| == |qs| && forall i :: 0 <= i < |qs| ==> qs'[i].id == qs[i].id && qs'[i].lessonId == qs[i].lessonId
    ensures QuizzesListed(ls', qs')
  {
    forall i | 0 <= i < |ls'|
      ensures Within(ls'[i].quizzes, QuizIdsOf(qs', ls'[i].id))
    {
      QuizIdsOfSameKeys(qs, qs', ls[i].id);
    }
  }

  lemma QuestionsListedSameKeys(qs: seq<Quiz>, ns: seq<Question>, qs': seq<Quiz>, ns': seq<Question>)
    requires QuestionsListed(qs, ns)
    requires |qs'| == |qs| && forall i :: 0 <= i < |qs| ==> qs'[i].id == qs[i].id && qs'[i].questions == qs[i].questions
    requires |ns'| == |ns| && forall i :: 0 <= i < |ns| ==> ns'[i].id == ns[i].id && ns'[i].quizId == ns[i].quizId
    ensures QuestionsListed(qs', ns')
  {
    forall i | 0 <= i < |qs'|
      ensures Within(qs'[i].questions, QuestionIdsOf(ns', qs'[i].id))
    {
      QuestionIdsOfSameKeys(ns, ns', qs[i].id);
    }
  }

  /** Rewriting fields that are neither ids, foreign keys nor id lists keeps every
      reference intact. */
  lemma SameKeysLinked(db: DB, r: DB)
    requires Linked(db)
    requires |r.users| == |db.users| && |r.courses| == |db.courses| && |r.lessons| == |db.lessons|
    requires |r.quizzes| == |db.quizzes| && |r.questions| == |db.questions|
    requires |r.enrollments| == |db.enrollments|
    requires forall i :: 0 <= i < |r.users| ==>
               r.users[i].id == db.users[i].id &&
               r.users[i].role == db.users[i].role && r.users[i].enrolledCourses == db.users[i].enrolledCourses
    requires forall i :: 0 <= i < |r.courses| ==>
               r.courses[i].id == db.courses[i].id &&
               r.courses[i].instructor == db.courses[i].instructor && r.courses[i].lessons == db.courses[i].lessons
    requires forall i :: 0 <= i < |r.lessons| ==>
               r.lessons[i].id == db.lessons[i].id &&
               r.lessons[i].courseId == db.lessons[i].courseId && r.lessons[i].quizzes == db.lessons[i].quizzes
    requires forall i :: 0 <= i < |r.quizzes| ==>
               r.quizzes[i].id == db.quizzes[i].id &&
               r.quizzes[i].lessonId == db.quizzes[i].lessonId && r.quizzes[i].questions == db.quizzes[i].questions
    requires forall i :: 0 <= i < |r.questions| ==>
               r.questions[i].id == db.questions[i].id &&
               r.questions[i].quizId == db.questions[i].quizId
    requires forall i :: 0 <= i < |r.enrollments| ==>
               r.enrollments[i].userId == db.enrollments[i].userId &&
               r.enrollments[i].courseId == db.enrollments[i].courseId
    ensures Linked(r)
  {
    assert UserIds(r.users) == UserIds(db.users);
    assert CourseIds(r.courses) == CourseIds(db.courses);
    assert UsersLinked(r) && EnrollmentsLinked(r);
    assert InstructorsKnown(r) by {
      InstructorIdsSameKeys(db.users, r.users);
    }
    LessonsListedSameKeys(db.courses, db.lessons, r.courses, r.lessons);
    QuizzesListedSameKeys(db.lessons, db.quizzes, r.lessons, r.quizzes);
    QuestionsListedSameKeys(db.quizzes, db.questions, r.quizzes, r.questions);
    assert LessonIds(r.lessons) == LessonIds(db.lessons);
    assert QuizIds(r.quizzes) == QuizIds(db.quizzes);
  }

  /** The bulk update keeps every reference intact. */
  lemma UpdateKeepsLinked(db: DB, email: string, description: string, progress: string,
                          content: string, title: string, text: string)
    requires Linked(db)
    ensures Linked(ApplyAll(db, UpdateWrites(email, description, progress, content, title, text)))
  {
    UpdateEffect(db, email, description, progress, content, title, text);
    SameKeysLinked(db, ApplyAll(db, UpdateWrites(email, description, progress, content, title, text)));
  }

  // ---------------------------------------------------------------------------
  // The store object

  class MongoStore {
    var users: seq<User>
    var courses: seq<Course>
    var lessons: seq<Lesson>
    var quizzes: seq<Quiz>
    var questions: seq<Question>  // the "quiz_questions" collection
    var enrollments: seq<Enrollment>

    /** Every driver call issued through this store, in order. */
    ghost var journal: seq<Write>

    function State(): DB
      reads this
    {
      DB(users, courses, lessons, quizzes, questions, enrollments)
    }

    constructor (existing: DB)
      ensures State() == existing && journal == []
    {
      users, courses, lessons := existing.users, existing.courses, existing.lessons;
      quizzes, questions, enrollments := existing.quizzes, existing.questions, existing.enrollments;
      journal := [];
    }

    /** Issues one driver call. */
    method Perform(w: Write)
      modifies this
      ensures journal == old(journal) + [w]
      ensures State() == Apply(old(State()), w)
    {
      if w.Drop? {
        Clear(w.dropped);
      } else if w.DeleteAll? {
        Clear(w.cleared);
      } else if w.SetEnrolledCourses? {
        UpdateOne(w);
      } else if w.SetAllEmails? || w.SetAllDescriptions? || w.SetAllProgress?
                || w.SetAllContents? || w.SetAllQuizTitles? || w.SetAllQuestionTexts? {
        UpdateMany(w);
      } else {
        Insert(w);
      }
      journal := journal + [w];
    }

    /** `insert_one` or `insert_many`: the documents go to the end of their collection. */
    method Insert(w: Write)
      requires w.InsertUsers? || w.InsertCourses? || w.InsertLessons? || w.InsertQuizzes?
               || w.InsertQuestions? || w.InsertEnrollments?
      modifies this
      ensures State() == Apply(old(State()), w)
      ensures journal == old(journal)
    {
      match w {
        case InsertUsers(us) => users := users + us;
        case InsertCourses(cs) => courses := courses + cs;
        case InsertLessons(ls) => lessons := lessons + ls;
        case InsertQuizzes(qs) => quizzes := quizzes + qs;
        case InsertQuestions(qs) => questions := questions + qs;
        case InsertEnrollments(es) => enrollments := enrollments + es;
      }
    }

    /** `update_one` by id: the user's course list. */
    method UpdateOne(w: Write)
      requires w.SetEnrolledCourses?
      modifies this
      ensures State() == Apply(old(State()), w)
      ensures journal == old(journal)
    {
      users := SetEnrolled(users, w.userId, w.courseIds);
    }

    /** `update_many` over a whole collection: one field of every document. */
    method UpdateMany(w: Write)
      requires w.SetAllEmails? || w.SetAllDescriptions? || w.SetAllProgress?
               || w.SetAllContents? || w.SetAllQuizTitles? || w.SetAllQuestionTexts?
      modifies this
      ensures State() == Apply(old(State()), w)
      ensures journal == old(journal)
    {
      match w {
        case SetAllEmails(e) => users := WithEmail(users, e);
        case SetAllDescriptions(d) => courses := WithDescription(courses, d);
        case SetAllProgress(p) => enrollments := WithProgress(enrollments, p);
        case SetAllContents(c) => lessons := WithContent(lessons, c);
        case SetAllQuizTitles(t) => quizzes := WithTitle(quizzes, t);
        case SetAllQuestionTexts(t) => questions := WithText(questions, t);
      }
    }

    // One driver call on one collection, its effect stated on that collection
    // alone: `Perform` of the same write, for callers that never need `Apply`.

    method AppendUsers(us: seq<User>)
      modifies this
      ensures journal == old(journal) + [InsertUsers(us)]
      ensures State() == old(State()).(users := old(users) + us)
    {
      Perform(InsertUsers(us));
    }

    method AppendCourses(cs: seq<Course>)
      modifies this
      ensures journal == old(journal) + [InsertCourses(cs)]
      ensures State() == old(State()).(courses := old(courses) + cs)
    {
      Perform(InsertCourses(cs));
    }

    method AppendLessons(ls: seq<Lesson>)
      modifies this
      ensures journal == old(journal) + [InsertLessons(ls)]
      ensures State() == old(State()).(lessons := old(lessons) + ls)
    {
      Perform(InsertLessons(ls));
    }

    method AppendQuizzes(qs: seq<Quiz>)
      modifies this
      ensures journal == old(journal) + [InsertQuizzes(qs)]
      ensures State() == old(State()).(quizzes := old(quizzes) + qs)
    {
      Perform(InsertQuizzes(qs));
    }

    method AppendQuestions(ns: seq<Question>)
      modifies this
      ensures journal == old(journal) + [InsertQuestions(ns)]
      ensures State() == old(State()).(questions := old(questions) + ns)
    {
      Perform(InsertQuestions(ns));
    }

    method AppendEnrollments(es: seq<Enrollment>)
      modifies this
      ensures journal == old(journal) + [InsertEnrollments(es)]
      ensures State() == old(State()).(enrollments := old(enrollments) + es)
    {
      Perform(InsertEnrollments(es));
    }

    method DropCollection(c: Collection)
      modifies this
      ensures journal == old(journal) + [Drop(c)]
      ensures State() == Cleared(old(State()), c)
    {
      Perform(Drop(c));
    }

    method Clear(c: Collection)
      modifies this
      ensures State() == Cleared(old(State()), c)
      ensures journal == old(journal)
    {
      match c
      case Users => users := [];
      case Courses => courses := [];
      case Lessons => lessons := [];
      case Quizzes => quizzes := [];
      case QuizQuestions => questions := [];
      case Enrollments => enrollments := [];
    }

    /** Issues the calls `ws` in order. */
    method PerformAll(ws: seq<Write>)
      modifies this
      ensures journal == old(journal) + ws
      ensures State() == ApplyAll(old(State()), ws)
    {
      var k := 0;
      while k < |ws|
        invariant 0 <= k <= |ws|
        invariant journal == old(journal) + ws[..k]
        invariant State() == ApplyAll(old(State()), ws[..k])
      {
        assert ws[..k + 1][..k] == ws[..k];
        Perform(ws[k]);
        k := k + 1;
      }
      assert ws[..k] == ws;
    }
  }
}
