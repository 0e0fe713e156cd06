/** The benchmark script: the multiplier scales the user and course counts, then
    six phases run against the store under `measure_time`, which keeps one
    (name, duration) entry per phase that returned. `insert_all_data` inserts
    the users, reads them back, builds the course trees and generates the
    enrollments. */
module Benchmark {
  import opened Entities
  import opened Store
  import opened Scale
  import opened Progress
  import opened UserInsert
  import opened CourseBuilder
  import opened CourseGraph
  import opened EnrollmentGen
  import opened EnrollmentProps
  import opened InsertAll

  /** The two `time.time()` readings taken around one phase. */
  datatype Reading = Reading(start: real, end: real)

  /** The names `main` hands to `measure_time`, in call order. */
  const PhaseNames: seq<string> :=
    ["Drop Tables", "Create Tables", "Insert All Data", "Read All Data", "Update All Data", "Delete All Data"]

  /** The entries `measure_time` appends for the phases `names`, each paired with
      the difference of its two readings. */
  function Timed(names: seq<string>, clock: seq<Reading>): seq<(string, real)>
    requires |names| <= |clock|
  {
    seq(|names|, i requires 0 <= i < |names| => (names[i], clock[i].end - clock[i].start))
  }

  /** A completed run's timing list: six entries, named after the six phases in
      the order `main` calls them, the i-th one timed by the i-th pair of readings. */
  lemma PhaseTimings(clock: seq<Reading>)
    requires |clock| >= |PhaseNames|
    ensures var t := Timed(PhaseNames, clock);
      && |t| == 6
      && t[0].0 == "Drop Tables" && t[1].0 == "Create Tables" && t[2].0 == "Insert All Data"
      && t[3].0 == "Read All Data" && t[4].0 == "Update All Data" && t[5].0 == "Delete All Data"
      && forall i :: 0 <= i < 6 ==> t[i].1 == clock[i].end - clock[i].start
  {
  }

  lemma TimedStep(names: seq<string>, clock: seq<Reading>, k: nat)
    requires k < |names| <= |clock|
    ensures Timed(names[..k + 1], clock) == Timed(names[..k], clock) + [(names[k], clock[k].end - clock[k].start)]
  {
    assert names[..k + 1][k] == names[k];
  }

  /** The entries of the first `k` phases followed by those of the rest are the
      entries of all of them. */
  lemma TimedConcat(names: seq<string>, clock: seq<Reading>, k: nat)
    requires k <= |names| <= |clock|
    ensures Timed(names[..k], clock) + Timed(names[k..], clock[k..]) == Timed(names, clock)
  {
    var a := Timed(names[..k], clock) + Timed(names[k..], clock[k..]);
    forall i | 0 <= i < |names|
      ensures a[i] == Timed(names, clock)[i]
    {
      if i >= k {
        assert names[k..][i - k] == names[i];
      }
    }
  }

  /** Entries already kept, then those of the first `k` phases and of the rest,
      are the entries kept followed by those of all the phases. */
  lemma TimedTail(t0: seq<(string, real)>, names: seq<string>, clock: seq<Reading>, k: nat)
    requires k <= |names| <= |clock|
    ensures t0 + Timed(names[..k], clock) + Timed(names[k..], clock[k..]) == t0 + Timed(names, clock)
  {
    TimedConcat(names, clock, k);
    AppendAssoc(t0, Timed(names[..k], clock), Timed(names[k..], clock[k..]));
  }

  /** With the benchmark's own counts and any multiplier, the sample can never
      fail: a run that builds courses builds at least 20, and a run that builds
      none has no users at all. The only modelled exception is IndexError, raised
      exactly when the multiplier is at least 1 and no drawn user is an instructor.
      The driver's rejection of an empty `insert_many` is not modelled. */
  lemma BenchmarkOutcome(m: int, c: Counts, d: InsertDraws)
    requires c == Scaled(BenchmarkBase, m)
    requires |d.users| == Iterations(c.users)
    requires |d.courses| == Iterations(c.courses)
    ensures InsertOutcome(Retrieved(Empty, d), |d.courses|, |Empty.courses|, c.enrollmentsPerUser)
         == if m >= 1 && !HasInstructor(MakeUsers(d.users)) then Fail(IndexError) else Pass
  {
    ScaledIterations(BenchmarkBase, m);
    assert Retrieved(Empty, d) == MakeUsers(d.users);
  }

  /** What one benchmark run draws beyond `insert_all_data`: the six values of
      `update_all_data`, the percentage among them as `random.randint(0, 100)`. */
  datatype UpdateDraws = UpdateDraws(email: string, description: string, progress: nat,
                                     content: string, title: string, text: string)

  function UpdateCalls(u: UpdateDraws): seq<Write> {
    UpdateWrites(u.email, u.description, Percent(u.progress), u.content, u.title, u.text)
  }

  // ---------------------------------------------------------------------------
  // The script

  class BenchmarkScript {
    /** The NUM_* module globals. */
    var counts: Counts
    /** The module-level `timings` list. */
    var timings: seq<(string, real)>
    const store: MongoStore

    constructor (store: MongoStore)
      ensures this.store == store
      ensures counts == BenchmarkBase && timings == []
    {
      this.store := store;
      counts := BenchmarkBase;
      timings := [];
    }

    /** `edit_number_of_operations(m)`: the user and course counts are multiplied,
        the nested counts are left alone. */
    method EditNumberOfOperations(m: int)
      modifies this
      ensures counts == Scaled(old(counts), m)
      ensures timings == old(timings)
    {
      counts := counts.(users := counts.users * m, courses := counts.courses * m);
    }

    /** `measure_time` once `func` has returned: one entry, the phase name and
        the difference of the readings. A phase that raises never gets here. */
    method Record(name: string, r: Reading)
      modifies this
      ensures timings == old(timings) + [(name, r.end - r.start)]
      ensures counts == old(counts)
    {
      var duration := r.end - r.start;
      timings := timings + [(name, duration)];
    }

    /** `drop_collections`. */
    method DropCollections()
      modifies store
      ensures store.journal == old(store.journal) + DropWrites
      ensures store.State() == Empty
    {
      store.DropCollection(Users);
      store.DropCollection(Courses);
      store.DropCollection(Enrollments);
      store.DropCollection(Lessons);
      store.DropCollection(Quizzes);
      store.DropCollection(QuizQuestions);
      assert store.State() == Empty;
      assert store.journal == old(store.journal) + DropWrites;
    }

    /** `insert_all_data`: the users are inserted and read back; the read-back
        list feeds both the course builder and the enrollment generator. */
    method InsertAllData(ghost db: DB, d: InsertDraws) returns (outcome: Outcome)
      requires store.State() == db
      requires InsertFits(db, counts, d)
      modifies store
      ensures outcome == InsertOutcome(Retrieved(db, d), |d.courses|, |db.courses|, counts.enrollmentsPerUser)
      ensures outcome.Pass? ==>
                && InsertWritable(db, d)
                && store.journal == old(store.journal) + InsertAllWrites(db, d)
                && store.State() == ApplyAll(db, InsertAllWrites(db, d))
      ensures outcome == Fail(IndexError) ==>
                && store.journal == old(store.journal) + [InsertUsers(MakeUsers(d.users))]
                && store.State() == Apply(db, InsertUsers(MakeUsers(d.users)))
      ensures outcome == Fail(ValueError) ==>
                && PicksIn(d.courses, |InstructorIds(Retrieved(db, d))|)
                && var ws := [InsertUsers(MakeUsers(d.users))] + CoursesBatches(InstructorIds(Retrieved(db, d)), d.courses);
                   store.journal == old(store.journal) + ws && store.State() == ApplyAll(db, ws)
    {
      ghost var j0 := store.journal;
      assert |d.users| == Iterations(counts.users);
      assert CoursesFit(d.courses, counts, |InstructorIds(Retrieved(db, d))|);
      assert DrawsFit(Retrieved(db, d), d.enrollments, |db.courses| + |d.courses|, counts.enrollmentsPerUser);
      var w1 := InsertUsers(MakeUsers(d.users));
      InsertUserBatch(store, counts.users, d.users);
      var users := RetrieveUsers(store);
      assert users == Retrieved(db, d);
      ghost var db1 := store.State();
      assert [w1][..0] == [];
      assert db1 == ApplyAll(db, [w1]);
      var built := InsertCourseTrees(store, counts, users, d.courses);
      if built.Fail? {
        return built;
      }
      var candidates := InstructorIds(users);
      assert PicksIn(d.courses, |candidates|);
      var cb := CoursesBatches(candidates, d.courses);
      CoursesBatchesEffect(db1, candidates, d.courses);
      ApplyAllConcat(db, [w1], cb);
      AppendAssoc(j0, [w1], cb);
      assert store.courses == CoursesAfter(db, d);
      assert users == Retrieved(db, d);
      assert |store.courses| == |db.courses| + |d.courses|;
      DrawsFitAfter(db, d, counts.enrollmentsPerUser, users, |store.courses|);
      outcome := GenerateEnrollments(store, users, counts.enrollmentsPerUser, d.enrollments);
      if outcome.Pass? {
        var ew := EnrollmentWrites(users, CoursesAfter(db, d), d.enrollments);
        ApplyAllConcat(db, [w1] + cb, ew);
        AppendAssoc(j0, [w1] + cb, ew);
      }
    }

    /** `read_all_data`: the six collections as stored; nothing is written. */
    method ReadAllData() returns (r: DB)
      ensures r == store.State()
    {
      r := DB(store.users, store.courses, store.lessons, store.quizzes, store.questions, store.enrollments);
    }

    /** `update_all_data`: one `update_many` per collection, each setting one drawn value. */
    method UpdateAllData(u: UpdateDraws)
      requires u.progress <= 100
      modifies store
      ensures store.journal == old(store.journal) + UpdateCalls(u)
      ensures store.State() == ApplyAll(old(store.State()), UpdateCalls(u))
    {
      store.PerformAll(UpdateCalls(u));
    }

    /** `delete_all_data`. */
    method DeleteAllData()
      modifies store
      ensures store.journal == old(store.journal) + DeleteWrites
      ensures store.State() == Empty
    {
      store.PerformAll(DeleteWrites);
      ResetEmpties(old(store.State()));
    }

    /** The first two timed phases: `drop_collections`, then `create_collections`,
        which issues no call (collections come into being on first insert). */
    method OpeningPhases(clock: seq<Reading>)
      requires |clock| == |PhaseNames|
      modifies this, store
      ensures counts == old(counts)
      ensures timings == old(timings) + Timed(PhaseNames[..2], clock)
      ensures store.journal == old(store.journal) + DropWrites
      ensures store.State() == Empty
    {
      ghost var t0 := timings;
      DropCollections();
      Record(PhaseNames[0], clock[0]);
      TimedStep(PhaseNames, clock, 0);
      Record(PhaseNames[1], clock[1]);
      TimedStep(PhaseNames, clock, 1);
    }

    /** `insert_all_data` in a run on the emptied store with the counts scaled by `m`. */
    method InsertPhase(m: int, d: InsertDraws) returns (outcome: Outcome)
      requires store.State() == Empty && counts == Scaled(BenchmarkBase, m)
      requires InsertFits(Empty, counts, d)
      modifies store
      ensures outcome == if m >= 1 && !HasInstructor(MakeUsers(d.users)) then Fail(IndexError) else Pass
      ensures outcome.Pass? ==>
                && InsertWritable(Empty, d)
                && store.journal == old(store.journal) + InsertAllWrites(Empty, d)
      ensures outcome.Fail? ==>
                && store.journal == old(store.journal) + [InsertUsers(MakeUsers(d.users))]
                && store.State() == Empty.(users := MakeUsers(d.users))
    {
      UsersOnEmpty(d.users);
      outcome := InsertAllData(Empty, d);
      BenchmarkOutcome(m, counts, d);
    }

    /** The four timed phases from `insert_all_data` on, once it has returned:
        its own entry, then read, update and delete. */
    method ClosingPhases(u: UpdateDraws, clock: seq<Reading>)
      requires |clock| == |PhaseNames|
      requires u.progress <= 100
      modifies this, store
      ensures counts == old(counts)
      ensures timings == old(timings) + Timed(PhaseNames[2..], clock[2..])
      ensures store.journal == old(store.journal) + UpdateCalls(u) + DeleteWrites
      ensures store.State() == Empty
    {
      ghost var names := PhaseNames[2..];
      ghost var readings := clock[2..];
      Record(PhaseNames[2], clock[2]);
      TimedStep(names, readings, 0);
      var _ := ReadAllData();
      Record(PhaseNames[3], clock[3]);
      TimedStep(names, readings, 1);
      UpdateAllData(u);
      Record(PhaseNames[4], clock[4]);
      TimedStep(names, readings, 2);
      DeleteAllData();
      Record(PhaseNames[5], clock[5]);
      TimedStep(names, readings, 3);
      assert names[..4] == names;
    }

    /** The part of `main` up to the return of `insert_all_data`: the counts
        scaled, the first two phases timed, then `insert_all_data` on the
        emptied store. */
    method OpenAndInsert(m: int, d: InsertDraws, clock: seq<Reading>) returns (outcome: Outcome)
      requires counts == BenchmarkBase
      requires |clock| == |PhaseNames|
      requires InsertFits(Empty, Scaled(BenchmarkBase, m), d)
      modifies this, store
      ensures counts == Scaled(BenchmarkBase, m)
      ensures outcome == if m >= 1 && !HasInstructor(MakeUsers(d.users)) then Fail(IndexError) else Pass
      ensures timings == old(timings) + Timed(PhaseNames[..2], clock)
      ensures outcome.Pass? ==>
                && InsertWritable(Empty, d)
                && store.journal == old(store.journal) + DropWrites + InsertAllWrites(Empty, d)
      ensures outcome.Fail? ==>
                && store.journal == old(store.journal) + DropWrites + [InsertUsers(MakeUsers(d.users))]
                && store.State() == Empty.(users := MakeUsers(d.users))
    {
      EditNumberOfOperations(m);
      OpeningPhases(clock);
      FitsAt(Empty, Scaled(BenchmarkBase, m), d, counts);
      outcome := InsertPhase(m, d);
    }

    /** `main`: the multiplier read from the prompt (1 when it is not an int),
        then the six timed phases. An exception inside `insert_all_data` ends
        the run with only the first two phases timed. */
    method Run(parsed: Option<int>, d: InsertDraws, u: UpdateDraws, clock: seq<Reading>) returns (outcome: Outcome)
      requires counts == BenchmarkBase
      requires |clock| == |PhaseNames|
      requires InsertFits(Empty, Scaled(BenchmarkBase, Multiplier(parsed)), d)
      requires u.progress <= 100
      modifies this, store
      ensures counts == Scaled(BenchmarkBase, Multiplier(parsed))
      ensures outcome == if Multiplier(parsed) >= 1 && !HasInstructor(MakeUsers(d.users)) then Fail(IndexError) else Pass
      ensures outcome.Pass? ==> timings == old(timings) + Timed(PhaseNames, clock)
      ensures outcome.Fail? ==> timings == old(timings) + Timed(PhaseNames[..2], clock)
      ensures outcome.Pass? ==>
                && InsertWritable(Empty, d)
                && store.journal == old(store.journal) + DropWrites + InsertAllWrites(Empty, d) + UpdateCalls(u) + DeleteWrites
                && store.State() == Empty
      ensures outcome.Fail? ==>
                && store.journal == old(store.journal) + DropWrites + [InsertUsers(MakeUsers(d.users))]
                && store.State() == Empty.(users := MakeUsers(d.users))
    {
      ghost var t0 := timings;
      outcome := OpenAndInsert(Multiplier(parsed), d, clock);
      if outcome.Pass? {
        ClosingPhases(u, clock);
        TimedTail(t0, PhaseNames, clock, 2);
      }
    }
  }
}
