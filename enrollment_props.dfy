/** What `generate_enrollments` guarantees about the documents it writes. */
module EnrollmentProps {
  import opened Entities
  import opened Store
  import opened Progress
  import opened Scale
  import opened EnrollmentGen

  // ---------------------------------------------------------------------------
  // One student

  /** The sampled ids name stored courses. */
  lemma SampledIdsWithin(courses: seq<Course>, sample: seq<nat>)
    requires forall i :: 0 <= i < |sample| ==> sample[i] < |courses|
    ensures Within(SampledIds(courses, sample), CourseIds(courses))
  {
    var r := SampledIds(courses, sample);
    forall x | x in r
      ensures x in CourseIds(courses)
    {
      var j :| 0 <= j < |r| && r[j] == x;
      assert CourseIds(courses)[sample[j]] == x;
    }
  }

  /** A student's sampled ids are `k` stored course ids, no two the same when the
      stored course ids are distinct. */
  lemma SampledIdsStored(courses: seq<Course>, sample: seq<nat>, k: nat)
    requires SampleOf(sample, |courses|, k)
    ensures |SampledIds(courses, sample)| == k
    ensures Within(SampledIds(courses, sample), CourseIds(courses))
    ensures Distinct(CourseIds(courses)) ==> Distinct(SampledIds(courses, sample))
  {
    var r := SampledIds(courses, sample);
    SampledIdsWithin(courses, sample);
    if Distinct(CourseIds(courses)) {
      forall i, j | 0 <= i < j < |r|
        ensures r[i] != r[j]
      {
        assert sample[i] != sample[j];
        assert CourseIds(courses)[sample[i]] == r[i];
        assert CourseIds(courses)[sample[j]] == r[j];
      }
    }
  }

  /** A student's enrollments: one per sampled course, each naming the student and
      that course, with a progress that reads back as a whole percentage of at most 100. */
  lemma StudentEnrollmentsFacts(u: User, courses: seq<Course>, d: StudentDraw, k: nat)
    requires DrawFits(d, |courses|, k)
    ensures var es := StudentEnrollments(u, courses, d);
      && |es| == k
      && (forall j :: 0 <= j < |es| ==>
            && es[j].userId == u.id
            && es[j].courseId == SampledIds(courses, d.sample)[j]
            && ParsePercent(es[j].progress).Some?
            && ParsePercent(es[j].progress).value == d.picks[j].progress <= 100)
  {
    var es := StudentEnrollments(u, courses, d);
    forall j | 0 <= j < |es|
      ensures ParsePercent(es[j].progress) == Some(d.picks[j].progress)
    {
      PercentRoundTrip(d.picks[j].progress);
    }
  }

  // ---------------------------------------------------------------------------
  // All students

  /** Every student gets exactly `k` enrollments and one `update_one`; nobody else
      gets either. */
  lemma {:induction false} EnrollmentCounts(users: seq<User>, courses: seq<Course>, k: nat, ds: seq<StudentDraw>)
    requires StudentsDrawn(users, ds, |courses|, k)
    ensures Drawable(users, ds, |courses|)
    ensures |AllEnrollments(users, courses, ds)| == StudentCount(users) * k
    ensures |EnrollmentUpdates(users, courses, ds)| == StudentCount(users)
    decreases |users|
  {
    DrawnDrawable(users, ds, |courses|, k);
    if users != [] {
      var n := |users| - 1;
      PrefixDrawn(users, ds, |courses|, k, n);
      EnrollmentCounts(users[..n], courses, k, ds[..n]);
      var before, c := AllEnrollments(users[..n], courses, ds[..n]), StudentCount(users[..n]);
      assert |before| == c * k;
      if users[n].role == Student {
        assert DrawFits(ds[n], |courses|, k);
        var mine := StudentEnrollments(users[n], courses, ds[n]);
        assert |mine| == k;
        assert AllEnrollments(users, courses, ds) == before + mine;
        assert StudentCount(users) == c + 1;
        MulSucc(c, k);
      } else {
        assert AllEnrollments(users, courses, ds) == before;
        assert StudentCount(users) == c;
      }
    }
  }

  /** An enrollment that names a student of `users` and one of `courses`, with a
      progress written as a whole percentage of at most 100 (which reads back, by
      `PercentRoundTrip`). */
  predicate EnrollmentOk(e: Enrollment, users: seq<User>, courses: seq<Course>) {
    && (exists j :: 0 <= j < |users| && users[j].role == Student && users[j].id == e.userId)
    && e.courseId in CourseIds(courses)
    && (exists p: nat :: p <= 100 && e.progress == Percent(p))
  }

  lemma EnrollmentOkPrefix(e: Enrollment, users: seq<User>, courses: seq<Course>, n: nat)
    requires n <= |users|
    requires EnrollmentOk(e, users[..n], courses)
    ensures EnrollmentOk(e, users, courses)
  {
    var j :| 0 <= j < n && users[..n][j].role == Student && users[..n][j].id == e.userId;
    assert users[j] == users[..n][j];
  }

  lemma StudentEnrollmentOk(users: seq<User>, courses: seq<Course>, d: StudentDraw, k: nat, n: nat, t: nat)
    requires n < |users| && users[n].role == Student
    requires DrawFits(d, |courses|, k)
    requires t < k
    ensures EnrollmentOk(StudentEnrollments(users[n], courses, d)[t], users, courses)
  {
    StudentEnrollmentsFacts(users[n], courses, d, k);
    SampledIdsStored(courses, d.sample, k);
    assert StudentEnrollments(users[n], courses, d)[t].progress == Percent(d.picks[t].progress);
    assert SampledIds(courses, d.sample)[t] in SampledIds(courses, d.sample);
  }

  /** Every enrollment names a student of `users` and a stored course, and its
      progress is a whole percentage of at most 100. */
  lemma {:induction false} EnrollmentsWellFormed(users: seq<User>, courses: seq<Course>, k: nat, ds: seq<StudentDraw>)
    requires StudentsDrawn(users, ds, |courses|, k)
    ensures Drawable(users, ds, |courses|)
    ensures forall i :: 0 <= i < |AllEnrollments(users, courses, ds)| ==>
              EnrollmentOk(AllEnrollments(users, courses, ds)[i], users, courses)
    decreases |users|
  {
    DrawnDrawable(users, ds, |courses|, k);
    if users != [] {
      var n := |users| - 1;
      PrefixDrawn(users, ds, |courses|, k, n);
      EnrollmentsWellFormed(users[..n], courses, k, ds[..n]);
      var init := AllEnrollments(users[..n], courses, ds[..n]);
      var es := AllEnrollments(users, courses, ds);
      var last := if users[n].role == Student then StudentEnrollments(users[n], courses, ds[n]) else [];
      assert es == init + last;
      forall i | 0 <= i < |es|
        ensures EnrollmentOk(es[i], users, courses)
      {
        if i < |init| {
          assert es[i] == init[i];
          EnrollmentOkPrefix(init[i], users, courses, n);
        } else {
          assert users[n].role == Student;
          assert es[i] == last[i - |init|];
          StudentEnrollmentOk(users, courses, ds[n], k, n, i - |init|);
        }
      }
    }
  }

  // ---------------------------------------------------------------------------
  // The stored users after the updates

  /** `r` has no dangling reference and holds the same courses, enrollments and
      user ids as `db`. */
  predicate LinkedLike(db: DB, r: DB) {
    && Linked(r)
    && r.courses == db.courses && r.enrollments == db.enrollments
    && UserIds(r.users) == UserIds(db.users)
  }

  /** One `update_one` whose list names stored courses keeps every reference
      intact and leaves every user's id and role as they were. */
  lemma SetEnrolledKeepsLinked(db: DB, id: Id, cs: seq<Id>)
    requires Linked(db)
    requires Within(cs, CourseIds(db.courses))
    ensures LinkedLike(db, Apply(db, SetEnrolledCourses(id, cs)))
  {
    var r := Apply(db, SetEnrolledCourses(id, cs));
    assert UserIds(r.users) == UserIds(db.users);
    InstructorIdsSameKeys(db.users, r.users);
    forall i | 0 <= i < |r.users|
      ensures Within(r.users[i].enrolledCourses, CourseIds(r.courses))
    {
      if r.users[i] != db.users[i] {
        assert r.users[i].enrolledCourses == cs;
      }
    }
  }

  /** A student's extended list names stored courses when its own list did. */
  lemma EnrollWithin(u: User, courses: seq<Course>, d: StudentDraw)
    requires forall i :: 0 <= i < |d.sample| ==> d.sample[i] < |courses|
    requires Within(u.enrolledCourses, CourseIds(courses))
    ensures Within(Enroll(u, courses, d).enrolledCourses, CourseIds(courses))
  {
    SampledIdsWithin(courses, d.sample);
  }

  /** The `update_one` calls for all students keep every reference intact, given
      lists that already named stored courses. */
  lemma {:induction false} UpdatesKeepLinked(db: DB, users: seq<User>, ds: seq<StudentDraw>)
    requires Linked(db)
    requires Drawable(users, ds, |db.courses|)
    requires forall i :: 0 <= i < |users| ==> Within(users[i].enrolledCourses, CourseIds(db.courses))
    ensures LinkedLike(db, ApplyAll(db, EnrollmentUpdates(users, db.courses, ds)))
    decreases |users|
  {
    if users == [] {
      assert UserIds(db.users) == UserIds(db.users);
    } else {
      var n := |users| - 1;
      PrefixDrawable(users, ds, |db.courses|, n);
      assert forall i :: 0 <= i < n ==> users[..n][i] == users[i];
      UpdatesKeepLinked(db, users[..n], ds[..n]);
      var before := EnrollmentUpdates(users[..n], db.courses, ds[..n]);
      var mid := ApplyAll(db, before);
      if users[n].role == Student {
        var w := SetEnrolledCourses(users[n].id, Enroll(users[n], db.courses, ds[n]).enrolledCourses);
        assert EnrollmentUpdates(users, db.courses, ds) == before + [w];
        EnrollWithin(users[n], db.courses, ds[n]);
        SetEnrolledKeepsLinked(mid, users[n].id, Enroll(users[n], db.courses, ds[n]).enrolledCourses);
        ApplyAllSnoc(db, before, w);
      } else {
        assert EnrollmentUpdates(users, db.courses, ds) == before + [];
        assert before + [] == before;
      }
    }
  }

  /** The `update_one` calls rewrite users only, and no user is added or removed. */
  lemma {:induction false} UpdatesOnlyUsers(db: DB, users: seq<User>, ds: seq<StudentDraw>)
    requires Drawable(users, ds, |db.courses|)
    ensures var r := ApplyAll(db, EnrollmentUpdates(users, db.courses, ds));
      r == db.(users := r.users) && |r.users| == |db.users|
    decreases |users|
  {
    if users != [] {
      var n := |users| - 1;
      PrefixDrawable(users, ds, |db.courses|, n);
      UpdatesOnlyUsers(db, users[..n], ds[..n]);
      var before := EnrollmentUpdates(users[..n], db.courses, ds[..n]);
      if users[n].role == Student {
        var cs := Enroll(users[n], db.courses, ds[n]).enrolledCourses;
        assert EnrollmentUpdates(users, db.courses, ds) == before + [SetEnrolledCourses(users[n].id, cs)];
        ApplyAllSetEnrolled(db, before, ApplyAll(db, before).users, users[n].id, cs);
      } else {
        assert EnrollmentUpdates(users, db.courses, ds) == before + [];
        assert before + [] == before;
      }
    }
  }

  /** New enrollments that name stored users and stored courses keep every
      reference intact. */
  lemma InsertEnrollmentsKeepsLinked(db: DB, es: seq<Enrollment>)
    requires Linked(db)
    requires forall i :: 0 <= i < |es| ==> es[i].userId in UserIds(db.users) && es[i].courseId in CourseIds(db.courses)
    ensures Linked(Apply(db, InsertEnrollments(es)))
  {
    assert Apply(db, InsertEnrollments(es)) == db.(enrollments := db.enrollments + es);
    EnrollmentsApart(db, db.enrollments + es);
    AppendedEnrollmentsLinked(db, es);
  }

  /** The links other than the enrollments' do not look at the enrollments. */
  lemma EnrollmentsApart(db: DB, es: seq<Enrollment>)
    requires Linked(db)
    ensures var r := db.(enrollments := es);
      UsersLinked(r) && InstructorsKnown(r) && Tree(r.courses, r.lessons, r.quizzes, r.questions)
  {
  }

  lemma AppendedEnrollmentsLinked(db: DB, es: seq<Enrollment>)
    requires EnrollmentsLinked(db)
    requires forall i :: 0 <= i < |es| ==> es[i].userId in UserIds(db.users) && es[i].courseId in CourseIds(db.courses)
    ensures EnrollmentsLinked(db.(enrollments := db.enrollments + es))
  {
    var r := db.(enrollments := db.enrollments + es);
    forall i | 0 <= i < |r.enrollments|
      ensures r.enrollments[i].userId in UserIds(r.users)
      ensures r.enrollments[i].courseId in CourseIds(r.courses)
    {
      if i >= |db.enrollments| {
        assert r.enrollments[i] == es[i - |db.enrollments|];
      }
    }
  }

  lemma EnrollmentOkStored(es: seq<Enrollment>, users: seq<User>, courses: seq<Course>)
    requires forall i :: 0 <= i < |es| ==> EnrollmentOk(es[i], users, courses)
    ensures forall i :: 0 <= i < |es| ==> es[i].userId in UserIds(users) && es[i].courseId in CourseIds(courses)
  {
    forall i | 0 <= i < |es|
      ensures es[i].userId in UserIds(users)
    {
      var j :| 0 <= j < |users| && users[j].role == Student && users[j].id == es[i].userId;
      assert UserIds(users)[j] == es[i].userId;
    }
  }

  /** Whatever it writes, `generate_enrollments` over the stored users leaves no
      dangling reference: each enrollment names a stored user and a stored course,
      and each extended list names stored courses only. */
  lemma EnrollmentsKeepLinked(db: DB, k: nat, ds: seq<StudentDraw>)
    requires Linked(db)
    requires StudentsDrawn(db.users, ds, |db.courses|, k)
    ensures Drawable(db.users, ds, |db.courses|)
    ensures Linked(ApplyAll(db, EnrollmentWrites(db.users, db.courses, ds)))
  {
    DrawnDrawable(db.users, ds, |db.courses|, k);
    var ups := EnrollmentUpdates(db.users, db.courses, ds);
    var es := AllEnrollments(db.users, db.courses, ds);
    assert UsersLinked(db);
    UpdatesKeepLinked(db, db.users, ds);
    var mid := ApplyAll(db, ups);
    EnrollmentsWellFormed(db.users, db.courses, k, ds);
    EnrollmentOkStored(es, db.users, db.courses);
    InsertEnrollmentsKeepsLinked(mid, es);
    ApplyAllSnoc(db, ups, InsertEnrollments(es));
  }

  /** With distinct user ids, `update_one` by the id of the user at `p` rewrites
      exactly that user. */
  lemma SetEnrolledAt(us: seq<User>, p: nat, cs: seq<Id>)
    requires p < |us|
    requires Distinct(UserIds(us))
    ensures SetEnrolled(us, us[p].id, cs) == us[p := us[p].(enrolledCourses := cs)]
  {
    forall j | 0 <= j < p
      ensures us[j].id != us[p].id
    {
      assert UserIds(us)[j] != UserIds(us)[p];
    }
    assert FirstWithId(us, us[p].id) == p;
    var r := SetEnrolled(us, us[p].id, cs);
    assert |r| == |us[p := us[p].(enrolledCourses := cs)]|;
    forall i | 0 <= i < |us|
      ensures r[i] == us[p := us[p].(enrolledCourses := cs)][i]
    {
    }
  }

  /** The users after the students among the first `p` have been written back. */
  function PartlyEnrolled(users: seq<User>, courses: seq<Course>, ds: seq<StudentDraw>, p: nat): seq<User>
    requires Drawable(users, ds, |courses|)
  {
    seq(|users|, i requires 0 <= i < |users| =>
      if i < p && users[i].role == Student then Enroll(users[i], courses, ds[i]) else users[i])
  }

  /** Writing back the `n`-th user's list advances PartlyEnrolled by one user. */
  lemma PartlyEnrolledStep(users: seq<User>, courses: seq<Course>, ds: seq<StudentDraw>, n: nat)
    requires Distinct(UserIds(users))
    requires Drawable(users, ds, |courses|)
    requires n < |users|
    ensures users[n].role == Student ==>
              SetEnrolled(PartlyEnrolled(users, courses, ds, n), users[n].id, Enroll(users[n], courses, ds[n]).enrolledCourses)
              == PartlyEnrolled(users, courses, ds, n + 1)
    ensures users[n].role != Student ==>
              PartlyEnrolled(users, courses, ds, n) == PartlyEnrolled(users, courses, ds, n + 1)
  {
    var before := PartlyEnrolled(users, courses, ds, n);
    var after := PartlyEnrolled(users, courses, ds, n + 1);
    if users[n].role == Student {
      var u := Enroll(users[n], courses, ds[n]);
      assert UserIds(before) == UserIds(users);
      assert before[n] == users[n];
      SetEnrolledAt(before, n, u.enrolledCourses);
      assert before[n := u] == after;
    } else {
      assert before == after;
    }
  }

  /** One more user: if the updates for the first `n` users have written back
      their lists, those for the first `n + 1` have written back one more. */
  lemma UpdatesStep(db: DB, ds: seq<StudentDraw>, n: nat)
    requires Distinct(UserIds(db.users))
    requires Drawable(db.users, ds, |db.courses|)
    requires n < |db.users|
    requires Drawable(db.users[..n], ds[..n], |db.courses|)
    requires ApplyAll(db, EnrollmentUpdates(db.users[..n], db.courses, ds[..n]))
          == db.(users := PartlyEnrolled(db.users, db.courses, ds, n))
    ensures Drawable(db.users[..n + 1], ds[..n + 1], |db.courses|)
    ensures ApplyAll(db, EnrollmentUpdates(db.users[..n + 1], db.courses, ds[..n + 1]))
         == db.(users := PartlyEnrolled(db.users, db.courses, ds, n + 1))
  {
    var users := db.users;
    PrefixDrawable(users, ds, |db.courses|, n + 1);
    UserStep(users, db.courses, ds, n);
    PartlyEnrolledStep(users, db.courses, ds, n);
    var ws := EnrollmentUpdates(users[..n], db.courses, ds[..n]);
    if users[n].role == Student {
      ApplyAllSetEnrolled(db, ws, PartlyEnrolled(users, db.courses, ds, n),
                          users[n].id, Enroll(users[n], db.courses, ds[n]).enrolledCourses);
    }
  }

  lemma {:induction false} UpdatesPrefixEffect(db: DB, ds: seq<StudentDraw>, p: nat)
    requires Distinct(UserIds(db.users))
    requires Drawable(db.users, ds, |db.courses|)
    requires p <= |db.users|
    ensures Drawable(db.users[..p], ds[..p], |db.courses|)
    ensures ApplyAll(db, EnrollmentUpdates(db.users[..p], db.courses, ds[..p]))
         == db.(users := PartlyEnrolled(db.users, db.courses, ds, p))
    decreases p
  {
    if p == 0 {
      PrefixDrawable(db.users, ds, |db.courses|, 0);
      assert PartlyEnrolled(db.users, db.courses, ds, 0) == db.users;
    } else {
      UpdatesPrefixEffect(db, ds, p - 1);
      UpdatesStep(db, ds, p - 1);
    }
  }

  /** With distinct user ids, the updates leave each student with its sampled
      course ids appended to its own list, every instructor as it was, and every
      other collection untouched. */
  lemma UpdatesEffect(db: DB, ds: seq<StudentDraw>)
    requires Distinct(UserIds(db.users))
    requires Drawable(db.users, ds, |db.courses|)
    ensures var r := ApplyAll(db, EnrollmentUpdates(db.users, db.courses, ds));
      && r == db.(users := Enrolled(db.users, db.courses, ds))
      && |r.users| == |db.users|
      && (forall i :: 0 <= i < |db.users| && db.users[i].role == Instructor ==> r.users[i] == db.users[i])
      && (forall i :: 0 <= i < |db.users| && db.users[i].role == Student ==>
            r.users[i].enrolledCourses == db.users[i].enrolledCourses + SampledIds(db.courses, ds[i].sample))
  {
    UpdatesPrefixEffect(db, ds, |db.users|);
    assert db.users[..|db.users|] == db.users && ds[..|ds|] == ds;
    assert PartlyEnrolled(db.users, db.courses, ds, |db.users|) == Enrolled(db.users, db.courses, ds);
  }
}
