/** `generate_enrollments`: every student samples the stored courses, gets one
    enrollment per sampled course and has the sampled ids appended to its own
    course list, which is written back with `update_one`; the enrollments of all
    students then go out in one `insert_many`. */
module EnrollmentGen {
  import opened Entities
  import opened Store
  import opened Progress

  /** One enrollment's draws: its uuid4 id, the enrollment date and `random.randint(0, 100)`. */
  datatype PickDraw = PickDraw(id: Id, date: string, progress: nat)

  /** One user's draws: the positions `random.sample` takes from the course list, in
      sample order, and one PickDraw per sampled course. Instructors draw nothing;
      their entry is ignored. */
  datatype StudentDraw = StudentDraw(sample: seq<nat>, picks: seq<PickDraw>)

  /** A possible result of `random.sample` of size `k` from `n` documents: `k`
      distinct positions. */
  predicate SampleOf(sample: seq<nat>, n: nat, k: nat) {
    && |sample| == k
    && (forall i :: 0 <= i < |sample| ==> sample[i] < n)
    && (forall i, j :: 0 <= i < j < |sample| ==> sample[i] != sample[j])
  }

  predicate DrawFits(d: StudentDraw, n: nat, k: nat) {
    && SampleOf(d.sample, n, k)
    && |d.picks| == k
    && (forall j :: 0 <= j < |d.picks| ==> d.picks[j].progress <= 100)
  }

  /** The draws name stored courses and give one PickDraw per sampled course. */
  predicate Sampled(d: StudentDraw, n: nat) {
    && |d.picks| == |d.sample|
    && (forall j :: 0 <= j < |d.sample| ==> d.sample[j] < n)
  }

  /** What the specification functions below need: every student's draws name stored courses. */
  predicate Drawable(users: seq<User>, ds: seq<StudentDraw>, n: nat) {
    && |ds| == |users|
    && (forall i :: 0 <= i < |users| && users[i].role == Student ==> Sampled(ds[i], n))
  }

  /** Every student's draws are possible results over `n` courses. */
  predicate StudentsDrawn(users: seq<User>, ds: seq<StudentDraw>, n: nat, k: nat) {
    && |ds| == |users|
    && (forall i :: 0 <= i < |users| && users[i].role == Student ==> DrawFits(ds[i], n, k))
  }

  /** The draws line up with the users; when the sample can be drawn at all, they
      are possible results. */
  predicate DrawsFit(users: seq<User>, ds: seq<StudentDraw>, n: nat, k: nat) {
    && |ds| == |users|
    && (k <= n ==> StudentsDrawn(users, ds, n, k))
  }

  /** The ids of the sampled courses, in sample order. */
  function SampledIds(courses: seq<Course>, sample: seq<nat>): seq<Id>
    requires forall i :: 0 <= i < |sample| ==> sample[i] < |courses|
  {
    seq(|sample|, j requires 0 <= j < |sample| => courses[sample[j]].id)
  }

  /** The student with the sampled course ids appended to its own list. */
  function Enroll(u: User, courses: seq<Course>, d: StudentDraw): User
    requires forall i :: 0 <= i < |d.sample| ==> d.sample[i] < |courses|
  {
    u.(enrolledCourses := u.enrolledCourses + SampledIds(courses, d.sample))
  }

  /** One enrollment per sampled course, in sample order. */
  function StudentEnrollments(u: User, courses: seq<Course>, d: StudentDraw): seq<Enrollment>
    requires |d.picks| == |d.sample|
    requires forall i :: 0 <= i < |d.sample| ==> d.sample[i] < |courses|
  {
    seq(|d.sample|, j requires 0 <= j < |d.sample| =>
      Enrollment(d.picks[j].id, u.id, courses[d.sample[j]].id, d.picks[j].date, Percent(d.picks[j].progress)))
  }

  /** The users list as the loop leaves it: each student's own list extended. */
  function Enrolled(users: seq<User>, courses: seq<Course>, ds: seq<StudentDraw>): seq<User>
    requires Drawable(users, ds, |courses|)
  {
    seq(|users|, i requires 0 <= i < |users| =>
      if users[i].role == Student then Enroll(users[i], courses, ds[i]) else users[i])
  }

  /** All enrollments, student after student. */
  function AllEnrollments(users: seq<User>, courses: seq<Course>, ds: seq<StudentDraw>): seq<Enrollment>
    requires Drawable(users, ds, |courses|)
    decreases |users|
  {
    if users == [] then []
    else
      var n := |users| - 1;
      AllEnrollments(users[..n], courses, ds[..n])
        + (if users[n].role == Student then StudentEnrollments(users[n], courses, ds[n]) else [])
  }

  /** One `update_one` per student, in user order, writing its extended list. */
  function EnrollmentUpdates(users: seq<User>, courses: seq<Course>, ds: seq<StudentDraw>): seq<Write>
    requires Drawable(users, ds, |courses|)
    decreases |users|
  {
    if users == [] then []
    else
      var n := |users| - 1;
      EnrollmentUpdates(users[..n], courses, ds[..n])
        + (if users[n].role == Student
           then [SetEnrolledCourses(users[n].id, Enroll(users[n], courses, ds[n]).enrolledCourses)]
           else [])
  }

  /** Everything `generate_enrollments` writes when no sample fails. */
  function EnrollmentWrites(users: seq<User>, courses: seq<Course>, ds: seq<StudentDraw>): seq<Write>
    requires Drawable(users, ds, |courses|)
  {
    EnrollmentUpdates(users, courses, ds) + [InsertEnrollments(AllEnrollments(users, courses, ds))]
  }

  // ---------------------------------------------------------------------------
  // Unfolding one user at a time

  lemma UserStep(users: seq<User>, courses: seq<Course>, ds: seq<StudentDraw>, i: nat)
    requires i < |users| == |ds|
    requires Drawable(users[..i + 1], ds[..i + 1], |courses|)
    ensures Drawable(users[..i], ds[..i], |courses|)
    ensures users[i].role == Student ==>
              && EnrollmentUpdates(users[..i + 1], courses, ds[..i + 1])
                 == EnrollmentUpdates(users[..i], courses, ds[..i])
                    + [SetEnrolledCourses(users[i].id, Enroll(users[i], courses, ds[i]).enrolledCourses)]
              && AllEnrollments(users[..i + 1], courses, ds[..i + 1])
                 == AllEnrollments(users[..i], courses, ds[..i]) + StudentEnrollments(users[i], courses, ds[i])
    ensures users[i].role != Student ==>
              && EnrollmentUpdates(users[..i + 1], courses, ds[..i + 1]) == EnrollmentUpdates(users[..i], courses, ds[..i])
              && AllEnrollments(users[..i + 1], courses, ds[..i + 1]) == AllEnrollments(users[..i], courses, ds[..i])
  {
    assert users[..i + 1][..i] == users[..i];
    assert ds[..i + 1][..i] == ds[..i];
    assert users[..i + 1][i] == users[i];
  }

  lemma PrefixDrawable(users: seq<User>, ds: seq<StudentDraw>, n: nat, i: nat)
    requires Drawable(users, ds, n)
    requires i <= |users|
    ensures Drawable(users[..i], ds[..i], n)
  {
    assert forall j :: 0 <= j < i ==> users[..i][j] == users[j] && ds[..i][j] == ds[j];
  }

  lemma PrefixDrawn(users: seq<User>, ds: seq<StudentDraw>, n: nat, k: nat, i: nat)
    requires StudentsDrawn(users, ds, n, k)
    requires i <= |users|
    ensures StudentsDrawn(users[..i], ds[..i], n, k)
  {
    assert forall j :: 0 <= j < i ==> users[..i][j] == users[j] && ds[..i][j] == ds[j];
  }

  lemma PrefixDrawable0(users: seq<User>, ds: seq<StudentDraw>, n: nat)
    ensures Drawable(users[..0], ds[..0], n)
  {
    assert users[..0] == [] && ds[..0] == [];
  }

  /** One more user keeps the draws usable, unless that user is a student whose
      sample cannot be drawn. */
  lemma DrawableStep(users: seq<User>, ds: seq<StudentDraw>, n: nat, k: nat, i: nat)
    requires DrawsFit(users, ds, n, k)
    requires i < |users|
    requires Drawable(users[..i], ds[..i], n)
    requires users[i].role == Student ==> k <= n
    ensures Drawable(users[..i + 1], ds[..i + 1], n)
  {
    var us, es := users[..i + 1], ds[..i + 1];
    forall j | 0 <= j < |us| && us[j].role == Student
      ensures Sampled(es[j], n)
    {
      if j < i {
        assert users[..i][j] == users[j] && ds[..i][j] == ds[j];
      } else {
        assert DrawFits(ds[i], n, k);
      }
    }
  }

  lemma DrawnDrawable(users: seq<User>, ds: seq<StudentDraw>, n: nat, k: nat)
    requires StudentsDrawn(users, ds, n, k)
    ensures Drawable(users, ds, n)
  {
  }

  /** Users none of whom is a student cause no write and no enrollment. */
  lemma {:induction false} NoStudentNoWrites(users: seq<User>, courses: seq<Course>, ds: seq<StudentDraw>)
    requires |ds| == |users|
    requires forall i :: 0 <= i < |users| ==> users[i].role != Student
    ensures Drawable(users, ds, |courses|)
    ensures EnrollmentUpdates(users, courses, ds) == []
    ensures AllEnrollments(users, courses, ds) == []
    decreases |users|
  {
    if users != [] {
      var n := |users| - 1;
      NoStudentNoWrites(users[..n], courses, ds[..n]);
    }
  }

  /** A prefix without students stays so when the next user is not one either. */
  lemma NoStudentThrough(users: seq<User>, i: nat)
    requires i < |users| && users[i].role != Student
    requires forall j :: 0 <= j < i ==> users[j].role != Student
    ensures forall j :: 0 <= j < i + 1 ==> users[j].role != Student
  {
  }

  lemma NoStudentAtAll(users: seq<User>)
    requires forall j :: 0 <= j < |users| ==> users[j].role != Student
    ensures !HasStudent(users)
  {
  }

  // ---------------------------------------------------------------------------
  // The generator

  /** The inner loop for one student: the sampled ids appended to its list, and
      one enrollment per sampled course. */
  method SampleCourses(courses: seq<Course>, u: User, d: StudentDraw) returns (list: seq<Id>, mine: seq<Enrollment>)
    requires |d.picks| == |d.sample|
    requires forall i :: 0 <= i < |d.sample| ==> d.sample[i] < |courses|
    ensures list == Enroll(u, courses, d).enrolledCourses
    ensures mine == StudentEnrollments(u, courses, d)
  {
    list := u.enrolledCourses;
    mine := [];
    var j := 0;
    while j < |d.sample|
      invariant 0 <= j <= |d.sample|
      invariant list == u.enrolledCourses + SampledIds(courses, d.sample)[..j]
      invariant mine == StudentEnrollments(u, courses, d)[..j]
    {
      var course := courses[d.sample[j]];
      var p := d.picks[j];
      var enrollment := Enrollment(p.id, u.id, course.id, p.date, Percent(p.progress));
      assert SampledIds(courses, d.sample)[..j + 1] == SampledIds(courses, d.sample)[..j] + [course.id];
      assert StudentEnrollments(u, courses, d)[..j + 1] == StudentEnrollments(u, courses, d)[..j] + [enrollment];
      list := list + [course.id];
      mine := mine + [enrollment];
      j := j + 1;
    }
    assert SampledIds(courses, d.sample)[..j] == SampledIds(courses, d.sample);
    assert StudentEnrollments(u, courses, d)[..j] == StudentEnrollments(u, courses, d);
  }

  /** The body of the loop for one student: sample, build its enrollments, and
      write its extended course list back with `update_one`. */
  method EnrollStudent(store: MongoStore, courses: seq<Course>, u: User, d: StudentDraw)
    returns (mine: seq<Enrollment>)
    requires |d.picks| == |d.sample|
    requires forall i :: 0 <= i < |d.sample| ==> d.sample[i] < |courses|
    modifies store
    ensures store.journal == old(store.journal) + [SetEnrolledCourses(u.id, Enroll(u, courses, d).enrolledCourses)]
    ensures store.State() == Apply(old(store.State()), SetEnrolledCourses(u.id, Enroll(u, courses, d).enrolledCourses))
    ensures mine == StudentEnrollments(u, courses, d)
  {
    var list;
    list, mine := SampleCourses(courses, u, d);
    store.Perform(SetEnrolledCourses(u.id, list));
  }

  /** One pass of the user loop once the sample cannot fail: a student gets its
      enrollments and its `update_one`; anyone else is skipped. */
  method VisitUser(store: MongoStore, users: seq<User>, courses: seq<Course>, ds: seq<StudentDraw>, i: nat,
                   ghost j0: seq<Write>, ghost db0: DB, enrollments: seq<Enrollment>)
    returns (more: seq<Enrollment>, next: nat)
    requires i < |users| == |ds|
    requires Drawable(users[..i], ds[..i], |courses|) && Drawable(users[..i + 1], ds[..i + 1], |courses|)
    requires store.journal == j0 + EnrollmentUpdates(users[..i], courses, ds[..i])
    requires store.State() == ApplyAll(db0, EnrollmentUpdates(users[..i], courses, ds[..i]))
    requires enrollments == AllEnrollments(users[..i], courses, ds[..i])
    modifies store
    ensures next == i + 1 && store.courses == old(store.courses)
    ensures store.journal == j0 + EnrollmentUpdates(users[..next], courses, ds[..next])
    ensures store.State() == ApplyAll(db0, EnrollmentUpdates(users[..next], courses, ds[..next]))
    ensures more == AllEnrollments(users[..next], courses, ds[..next])
  {
    next := i + 1;
    UserStep(users, courses, ds, i);
    more := enrollments;
    var user := users[i];
    if user.role == Student {
      var mine := VisitStudent(store, courses, user, ds[i], j0, db0, EnrollmentUpdates(users[..i], courses, ds[..i]));
      more := more + mine;
    }
  }

  /** A student's visit, its `update_one` appended to the writes `before` it. */
  method VisitStudent(store: MongoStore, courses: seq<Course>, u: User, d: StudentDraw,
                      ghost j0: seq<Write>, ghost db0: DB, ghost before: seq<Write>)
    returns (mine: seq<Enrollment>)
    requires Sampled(d, |courses|)
    requires store.journal == j0 + before
    requires store.State() == ApplyAll(db0, before)
    modifies store
    ensures store.courses == old(store.courses)
    ensures store.journal == j0 + (before + [SetEnrolledCourses(u.id, Enroll(u, courses, d).enrolledCourses)])
    ensures store.State() == ApplyAll(db0, before + [SetEnrolledCourses(u.id, Enroll(u, courses, d).enrolledCourses)])
    ensures mine == StudentEnrollments(u, courses, d)
  {
    mine := EnrollStudent(store, courses, u, d);
    var w := SetEnrolledCourses(u.id, Enroll(u, courses, d).enrolledCourses);
    ApplyAllSnoc(db0, before, w);
    AppendAssoc(j0, before, [w]);
  }

  /** The user loop of `generate_enrollments`: a student's sample, enrollments
      and `update_one`, user by user. The sample fails with ValueError at the
      first student when `k` exceeds the number of stored courses, before
      anything is written. */
  method EnrollStudents(store: MongoStore, users: seq<User>, k: nat, ds: seq<StudentDraw>)
    returns (outcome: Outcome, enrollments: seq<Enrollment>)
    requires DrawsFit(users, ds, |store.courses|, k)
    modifies store
    ensures store.courses == old(store.courses)
    ensures outcome == Pass <==> k <= |old(store.courses)| || !HasStudent(users)
    ensures outcome.Pass? ==>
              && Drawable(users, ds, |old(store.courses)|)
              && store.journal == old(store.journal) + EnrollmentUpdates(users, old(store.courses), ds)
              && store.State() == ApplyAll(old(store.State()), EnrollmentUpdates(users, old(store.courses), ds))
              && enrollments == AllEnrollments(users, old(store.courses), ds)
    ensures outcome.Fail? ==>
              && outcome.error == ValueError
              && store.journal == old(store.journal)
              && store.State() == old(store.State())
  {
    var courses := store.courses;
    ghost var j0, db0 := store.journal, store.State();
    enrollments := [];
    var i := 0;
    PrefixDrawable0(users, ds, |courses|);
    while i < |users|
      invariant 0 <= i <= |users|
      invariant store.courses == courses
      invariant k > |courses| ==> forall j :: 0 <= j < i ==> users[j].role != Student
      invariant Drawable(users[..i], ds[..i], |courses|)
      invariant store.journal == j0 + EnrollmentUpdates(users[..i], courses, ds[..i])
      invariant store.State() == ApplyAll(db0, EnrollmentUpdates(users[..i], courses, ds[..i]))
      invariant enrollments == AllEnrollments(users[..i], courses, ds[..i])
    {
      var user := users[i];
      if user.role == Student && k > |courses| {
        NoStudentNoWrites(users[..i], courses, ds[..i]);
        return Fail(ValueError), enrollments;
      }
      DrawableStep(users, ds, |courses|, k, i);
      if k > |courses| {
        NoStudentThrough(users, i);
      }
      enrollments, i := VisitUser(store, users, courses, ds, i, j0, db0, enrollments);
    }
    assert users[..i] == users && ds[..i] == ds;
    if k > |courses| {
      NoStudentAtAll(users);
    }
    outcome := Pass;
  }

  /** `generate_enrollments(users)` with a sample size of `k`. The population is
      the course collection as stored when the call starts; the loop does not
      change it. The sample fails with ValueError at the first student when `k`
      exceeds the number of stored courses, before anything is written;
      otherwise the updates are followed by one `insert_many` of every
      enrollment. */
  method GenerateEnrollments(store: MongoStore, users: seq<User>, k: nat, ds: seq<StudentDraw>)
    returns (outcome: Outcome)
    requires DrawsFit(users, ds, |store.courses|, k)
    modifies store
    ensures outcome == Pass <==> k <= |old(store.courses)| || !HasStudent(users)
    ensures outcome.Pass? ==> Drawable(users, ds, |old(store.courses)|)
    ensures outcome.Pass? ==>
              && store.journal == old(store.journal) + EnrollmentWrites(users, old(store.courses), ds)
              && store.State() == ApplyAll(old(store.State()), EnrollmentWrites(users, old(store.courses), ds))
    ensures outcome.Fail? ==>
              && outcome.error == ValueError
              && store.journal == old(store.journal)
              && store.State() == old(store.State())
  {
    ghost var courses, j0, db0 := store.courses, store.journal, store.State();
    var enrollments;
    outcome, enrollments := EnrollStudents(store, users, k, ds);
    if outcome.Fail? {
      return;
    }
    var w := InsertEnrollments(enrollments);
    store.Perform(w);
    ApplyAllSnoc(db0, EnrollmentUpdates(users, courses, ds), w);
    AppendAssoc(j0, EnrollmentUpdates(users, courses, ds), [w]);
  }
}
