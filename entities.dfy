/** The documents of the online-learning dataset: one datatype per collection,
    with foreign keys stored as ids (the normalised shape the generator writes). */
module Entities {

  /** Document ids are opaque strings (the generator draws them from uuid4). */
  type Id = string

  datatype Option<T> = None | Some(value: T)

  /** The two exceptions the generator can raise: `random.choice` on an empty
      list (IndexError) and `random.sample` with a sample larger than the
      population (ValueError). */
  datatype Error = IndexError | ValueError

  datatype Outcome = Pass | Fail(error: Error)

  /** The two roles `random.choice(["student", "instructor"])` can produce. */
  datatype Role = Student | Instructor

  datatype User = User(id: Id, name: string, email: string, role: Role, enrolledCourses: seq<Id>)

  /** `instructor` is a user id; `lessons` lists the course's lesson ids in build order. */
  datatype Course = Course(id: Id, title: string, description: string, instructor: Id, lessons: seq<Id>)

  datatype Lesson = Lesson(id: Id, courseId: Id, title: string, content: string, quizzes: seq<Id>)

  datatype Quiz = Quiz(id: Id, lessonId: Id, title: string, questions: seq<Id>)

  /** `correctAnswer` is drawn independently of `options`; nothing relates the two. */
  datatype Question = Question(id: Id, quizId: Id, text: string, options: seq<string>, correctAnswer: string)

  /** `enrollmentDate` is whatever the fake-data provider returned; it is kept opaque. */
  datatype Enrollment = Enrollment(id: Id, userId: Id, courseId: Id, enrollmentDate: string, progress: string)

  // Id projections: the `[doc["_id"] for doc in docs]` comprehensions.

  function UserIds(us: seq<User>): seq<Id> {
    seq(|us|, i requires 0 <= i < |us| => us[i].id)
  }

  function CourseIds(cs: seq<Course>): seq<Id> {
    seq(|cs|, i requires 0 <= i < |cs| => cs[i].id)
  }

  function LessonIds(ls: seq<Lesson>): seq<Id> {
    seq(|ls|, i requires 0 <= i < |ls| => ls[i].id)
  }

  function QuizIds(qs: seq<Quiz>): seq<Id> {
    seq(|qs|, i requires 0 <= i < |qs| => qs[i].id)
  }

  function QuestionIds(qs: seq<Question>): seq<Id> {
    seq(|qs|, i requires 0 <= i < |qs| => qs[i].id)
  }

  predicate HasInstructor(us: seq<User>) {
    exists u :: u in us && u.role == Instructor
  }

  predicate HasStudent(us: seq<User>) {
    exists i :: 0 <= i < |us| && us[i].role == Student
  }

  /** The candidate list `[user["_id"] for user in users if user["role"] == "instructor"]`:
      exactly the ids of the instructors, in list order. */
  function InstructorIds(us: seq<User>): (r: seq<Id>)
    ensures |r| <= |us|
    ensures forall u :: u in us && u.role == Instructor ==> u.id in r
    ensures forall x :: x in r ==> exists u :: u in us && u.role == Instructor && u.id == x
    ensures |r| > 0 <==> HasInstructor(us)
  {
    if us == [] then []
    else
      assert forall u :: u in us ==> u == us[0] || u in us[1..];
      (if us[0].role == Instructor then [us[0].id] else []) + InstructorIds(us[1..])
  }

  /** Number of users whose role is student. */
  function StudentCount(us: seq<User>): (n: nat)
    ensures n <= |us|
    ensures n > 0 <==> HasStudent(us)
  {
    if us == [] then 0
    else
      assert us == us[..|us| - 1] + [us[|us| - 1]];
      StudentCount(us[..|us| - 1]) + (if us[|us| - 1].role == Student then 1 else 0)
  }

  /** No id occurs twice (uuid4 draws are taken to be collision-free). */
  predicate Distinct(ids: seq<Id>) {
    forall i, j :: 0 <= i < j < |ids| ==> ids[i] != ids[j]
  }

  predicate Within(xs: seq<Id>, ys: seq<Id>) {
    forall x :: x in xs ==> x in ys
  }

  /** Proof helper: concatenation regrouped, stated once so that proofs need not
      re-derive it element by element. */
  lemma AppendAssoc<T>(a: seq<T>, b: seq<T>, c: seq<T>)
    ensures a + b + c == a + (b + c)
  {
  }

  /** Proof helper: a non-empty sequence is its prefix followed by its last element. */
  lemma SplitLast<T>(s: seq<T>)
    requires |s| > 0
    ensures s[..|s| - 1] + [s[|s| - 1]] == s
  {
  }

  /** Proof helper: a sequence extended by one element gives back the sequence and the element. */
  lemma DropLast<T>(a: seq<T>, x: T)
    ensures (a + [x])[..|a + [x]| - 1] == a && (a + [x])[|a + [x]| - 1] == x
  {
  }

  /** Proof helper: a prefix one element longer is the shorter prefix followed by that element. */
  lemma TakeSnoc<T>(s: seq<T>, i: nat)
    requires i < |s|
    ensures s[..i + 1] == s[..i] + [s[i]]
  {
  }

  lemma InstructorIdsAppend(a: seq<User>, b: seq<User>)
    ensures InstructorIds(a + b) == InstructorIds(a) + InstructorIds(b)
  {
    if a != [] {
      assert (a + b)[1..] == a[1..] + b;
      InstructorIdsAppend(a[1..], b);
    } else {
      assert a + b == b;
    }
  }

  // Back-references: the children that name a given parent, in collection order.
  // The scripts never compute these; they are the lookups `Store.Linked` uses to
  // state that a parent's list of child ids points at children naming it.

  /** Ids of the lessons whose `courseId` is `courseId`. */
  function LessonIdsOf(ls: seq<Lesson>, courseId: Id): (r: seq<Id>)
    ensures forall j :: 0 <= j < |ls| && ls[j].courseId == courseId ==> ls[j].id in r
    ensures forall x :: x in r ==> exists j :: 0 <= j < |ls| && ls[j].courseId == courseId && ls[j].id == x
  {
    if ls == [] then []
    else
      var n := |ls| - 1;
      assert forall j :: 0 <= j < n ==> ls[..n][j] == ls[j];
      LessonIdsOf(ls[..n], courseId) + (if ls[n].courseId == courseId then [ls[n].id] else [])
  }

  /** Ids of the quizzes whose `lessonId` is `lessonId`. */
  function QuizIdsOf(qs: seq<Quiz>, lessonId: Id): (r: seq<Id>)
    ensures forall j :: 0 <= j < |qs| && qs[j].lessonId == lessonId ==> qs[j].id in r
    ensures forall x :: x in r ==> exists j :: 0 <= j < |qs| && qs[j].lessonId == lessonId && qs[j].id == x
  {
    if qs == [] then []
    else
      var n := |qs| - 1;
      assert forall j :: 0 <= j < n ==> qs[..n][j] == qs[j];
      QuizIdsOf(qs[..n], lessonId) + (if qs[n].lessonId == lessonId then [qs[n].id] else [])
  }

  /** Ids of the questions whose `quizId` is `quizId`. */
  function QuestionIdsOf(qs: seq<Question>, quizId: Id): (r: seq<Id>)
    ensures forall j :: 0 <= j < |qs| && qs[j].quizId == quizId ==> qs[j].id in r
    ensures forall x :: x in r ==> exists j :: 0 <= j < |qs| && qs[j].quizId == quizId && qs[j].id == x
  {
    if qs == [] then []
    else
      var n := |qs| - 1;
      assert forall j :: 0 <= j < n ==> qs[..n][j] == qs[j];
      QuestionIdsOf(qs[..n], quizId) + (if qs[n].quizId == quizId then [qs[n].id] else [])
  }
}
