# Online-learning dataset generator, modelled in Dafny

The repository holds three Python scripts that fill a MongoDB database with a
linked, fake online-learning dataset: users, courses, lessons, quizzes, quiz
questions and enrollments. This project models their core:

- the user generator (`insert_users` in the benchmark script and the large test script, and the user loop of `main.py`);
- the course-tree builder, where Course → Lesson → Quiz → Question are built in nested loops;
- the enrollment sampler (`generate_enrollments` and the enrollment loop of `main.py`);
- the multiplier that scales the benchmark's user and course counts;
- the `measure_time` timer and the phase order of each script's `main`;
- the reset and bulk-update phases of the benchmark.

The store is the class `Store.MongoStore`. It has one `seq` field per collection.
Every driver call (`insert_many`, `insert_one`, `update_one`, `update_many`,
`drop`, `delete_many`) is one `Store.Write` value, issued through
`MongoStore.Perform`. `Store.Apply` gives the call's effect on the collections.
A ghost `journal` records the calls in order, so write order can be stated.

Everything random or fake is an input supplied by the caller:

- Faker strings and `uuid4` ids;
- `random.choice` as an index into the candidate list;
- `random.sample` as a sequence of positions;
- `random.randint(0, 100)` as a `nat`.

These inputs are grouped in "draw" datatypes, and preconditions give them their
shape: counts match the loop bounds, a pick lies inside the instructor list, a
sample is `k` distinct positions, and progress is at most 100. Where a property
needs ids to be pairwise distinct, the lemma requires it.

Python's two exceptions are modelled as results: `Outcome = Pass | Fail(Error)`.

- `random.choice` on an empty instructor list gives `IndexError`.
- `random.sample` with a sample larger than the course list gives `ValueError`.

Main properties proved:

- exact counts at every nesting level, both the totals and the per-parent lists;
- no dangling reference in either direction: `Store.Linked` is preserved by
  every phase;
- children are written before their parents: `Store.ChildrenFirst` holds of the
  writes of every course loop (batched and one by one), whatever the store held;
- every sampled course is stored, and the sample has no repeated course;
- the progress string `"p%"` parses back to `p` with `p <= 100`;
- instructors are left untouched by `generate_enrollments`;
- both resets empty the store, and running one twice gives the same result;
- the bulk update rewrites one field per collection and nothing else;
- the timing list gets one entry per completed phase, in call order;
- `main.py` writes one document at a time, and leaves the same collections as
  the batched writes when the same draws are used.

`Scale.Multiplier` keeps zero and negative multipliers, and `range` over a
negative count iterates zero times (`Scale.Iterations`). A question's four
options are independent words; the model states only that there are four.

## Model

| member | source | states |
|---|---|---|
| Scale.ScaledIterations | mongodb-test.py:24-32 | after `edit_number_of_operations(m)`, the users and courses iterated are `10·m` and `20·m` (none when `m <= 0`); lesson, quiz, question and sample counts are unchanged |
| Scale.NonIntegerIsOne | mongodb-test.py:199-206 | input that does not parse as an int gives the same counts as the multiplier 1, and they equal the base counts; a parsed int, zero and negative values included, is kept and scales the counts by itself |
| Progress.Decimal | mongodb-test.py:136 | `str(p)` for a non-negative int: at least one character, only digits, no leading zero |
| Progress.DecimalRoundTrip | mongodb-test.py:136 | the decimal rendering of `p` parses back to `p` |
| Progress.PercentRoundTrip | mongodb-test.py:136 | the progress string `f"{p}%"` parses back to `p` |
| Entities.InstructorIds | mongodb-test.py:80 | the `random.choice` candidate list holds exactly the ids of the users whose role is instructor; it is non-empty iff some user is an instructor |
| Entities.StudentCount | mongodb-test.py:128 | the number of users the `role == "student"` test admits; it is positive iff some user is a student |
| Entities.LessonIdsOf | mongodb-test.py:89 | lookup used by `Store.Linked` for the `courseId` back-reference set here: the ids of the lessons naming a course, every such lesson and nothing else |
| Entities.QuizIdsOf | mongodb-test.py:99 | lookup used by `Store.Linked` for the `lessonId` back-reference set here: the ids of the quizzes naming a lesson, every such quiz and nothing else |
| Entities.QuestionIdsOf | mongodb-test.py:108 | lookup used by `Store.Linked` for the `quizId` back-reference set here: the ids of the questions naming a quiz, every such question and nothing else |
| Store.SetEnrolled | mongodb-test.py:140 | `update_one` by `_id` rewrites `enrolledCourses` of the first user with that id; every other user, and every id and role, is unchanged |
| Store.ApplyEffect | mongodb-test.py:42-175 | each driver call changes only the collection it is issued on; an insert appends its documents after the stored ones, an update keeps the number of documents, `drop` and `delete_many({})` leave none |
| Store.MongoStore.constructor | mongodb-test.py:19-20 | a store opened on some existing contents, with no call issued yet |
| Store.MongoStore.Perform | mongodb-test.py:115-122 | one driver call: it is appended to the journal, and the collections become `Apply` of the call |
| Store.MongoStore.PerformAll | mongodb-test.py:159-175 | a run of driver calls issued in order: the journal and the collections advance by exactly those calls |
| Store.ResetEmpties | mongodb-test.py:42-49 | `drop_collections` and `delete_all_data` each leave all six collections empty, whatever they held |
| Store.ResetIdempotent | mongodb-test.py:168-175 | running either reset twice gives the same store as running it once |
| Store.UpdateState | mongodb-test.py:159-166 | `update_all_data` gives every user the one new email, every course the one new description, and so on for each collection |
| Store.UpdateEffect | mongodb-test.py:159-166 | after the bulk update, no document was added or removed, and each document equals its old self with only that collection's field replaced |
| Store.UpdateKeepsLinked | mongodb-test.py:159-166 | the bulk update keeps every reference intact |
| UserInsert.MakeUsers | mongodb-test.py:56-65 | one user per draw, in draw order, carrying the draw's id and role, with an empty `enrolledCourses` |
| UserInsert.InsertUserBatch | mongodb-test.py:55-67 | `insert_users` issues exactly one `insert_many` that holds `NUM_USERS` new users |
| UserInsert.RetrieveUsers | mongodb-test.py:69-72 | `retrieve_users` returns every stored user, in insertion order |
| UserInsert.InsertUsersKeepsLinked | mongodb-test.py:55-67 | adding the new users keeps every reference intact |
| CourseBuilder.MakeQuestions | mongodb-test.py:104-113 | a quiz's questions, in draw order; each names the quiz and has exactly 4 options |
| CourseBuilder.MakeQuizzes | mongodb-test.py:95-116 | a lesson's quizzes, in draw order; each names the lesson and lists one id per question drawn |
| CourseBuilder.MakeLessons | mongodb-test.py:85-119 | a course's lessons, in draw order; each names the course and lists one id per quiz drawn |
| CourseBuilder.MakeCourses | mongodb-test.py:75-120 | the courses, in draw order; each has the instructor its pick selects from the candidates and one lesson id per lesson drawn |
| CourseBuilder.QuizBatchesEffect | mongodb-test.py:104-115 | the per-quiz question batches add exactly the questions built, in order, and change nothing else |
| CourseBuilder.LessonBatchesEffect | mongodb-test.py:95-118 | a course's quiz and question batches add exactly the quizzes and questions built, in order |
| CourseBuilder.CourseBatchesEffect | mongodb-test.py:85-122 | one course's batches add that course, its lessons, their quizzes and their questions, and nothing else |
| CourseBuilder.CoursesBatchesEffect | mongodb-test.py:74-123 | the writes of `insert_courses` add exactly the built courses, lessons, quizzes and questions to each collection |
| CourseBuilder.BuildQuestions | mongodb-test.py:104-113 | the question loop builds the questions specified by `MakeQuestions` |
| CourseBuilder.BuildQuizzes | mongodb-test.py:95-116 | the quiz loop writes one question batch per quiz, then returns the quizzes, each holding its batch's ids |
| CourseBuilder.BuildLesson | mongodb-test.py:87-119 | a lesson's question batches come first, then one batch of its quizzes; the lesson lists those quiz ids |
| CourseBuilder.BuildLessons | mongodb-test.py:85-119 | the lesson loop issues, per lesson, its question batches and then its quiz batch |
| CourseBuilder.BuildCourse | mongodb-test.py:76-122 | one course iteration: the lessons' subtrees, then the lesson batch, then `insert_one` of the course |
| CourseBuilder.RetrieveCourses | mongodb-test.py:144-147 | `retrieve_courses` returns every stored course, in insertion order |
| CourseBuilder.InsertCourseTrees | mongodb-test.py:74-123 | `insert_courses` raises IndexError iff a course is to be built and no user is an instructor; it then writes nothing; otherwise it issues exactly the course batches |
| CourseGraph.QuizLevel | mongodb-test.py:95-117 | a lesson's quizzes list only questions that name them, and every question names a built quiz |
| CourseGraph.LessonLevel | mongodb-test.py:85-120 | the links hold both ways from lesson to quiz and from quiz to question for everything one course builds |
| CourseGraph.CourseLevel | mongodb-test.py:74-122 | everything `insert_courses` builds is a complete tree: each child names its parent, and each parent lists only children that name it |
| CourseGraph.InsertCoursesKeepsLinked | mongodb-test.py:74-123 | on a store with no dangling reference, `insert_courses` leaves none; every course is taught by a stored instructor |
| CourseGraph.CourseTotals | mongodb-test.py:86-105 | C courses, C·L lessons, C·L·Q quizzes and C·L·Q·N questions are built |
| CourseGraph.ListSizes | mongodb-test.py:110-120 | each course lists exactly L lesson ids and has an instructor among the candidates; each lesson lists Q quiz ids; each quiz lists N question ids; each question has 4 options |
| CourseGraph.LessonBatchesFirst | mongodb-test.py:114-118 | each quiz batch is written after the question batches of its quizzes |
| CourseGraph.CourseBatchesFirst | mongodb-test.py:117-122 | the lesson batch follows its quizzes, and the course follows its lessons |
| CourseGraph.CoursesBatchesFirst | mongodb-test.py:114-122 | at every level and in every iteration, each parent write finds all the children it lists already stored |
| CourseGraph.QuizListsMatchBatches | mongodb-test.py:114-115 | each quiz's id list equals, in order, the ids of the question batch written for it, and each of those questions names the quiz |
| CourseGraph.CourseListMatchesBatch | mongodb-test.py:120-122 | a course is the last write of its iteration, and comes right after its lesson batch; its lesson list equals that batch's ids, in order |
| EnrollmentGen.SampleCourses | mongodb-test.py:130-139 | the inner loop appends the sampled ids to the student's list in sample order, and builds one enrollment per sampled course |
| EnrollmentGen.EnrollStudent | mongodb-test.py:129-140 | one student: its enrollments, and one `update_one` writing its extended list |
| EnrollmentGen.VisitUser | mongodb-test.py:128-140 | one pass of the user loop: a student's enrollments and `update_one` are added; a user who is not a student changes nothing; the courses are untouched |
| EnrollmentGen.EnrollStudents | mongodb-test.py:127-140 | the user loop: ValueError iff the sample is larger than the stored courses and some user is a student, before any write; otherwise one update per student and every enrollment collected |
| EnrollmentGen.GenerateEnrollments | mongodb-test.py:125-142 | fails with ValueError iff the sample is larger than the stored courses and some user is a student, before any write; otherwise one update per student, then one batch of all enrollments |
| EnrollmentGen.NoStudentNoWrites | mongodb-test.py:127-128 | users who are not students cause no update and no enrollment |
| EnrollmentProps.SampledIdsStored | mongodb-test.py:129 | a student's sample is k stored course ids, pairwise distinct when course ids are |
| EnrollmentProps.StudentEnrollmentsFacts | mongodb-test.py:130-137 | k enrollments per student, each naming the student and the sampled course, with progress `"p%"` for a `p <= 100` that parses back |
| EnrollmentProps.EnrollmentCounts | mongodb-test.py:127-141 | exactly k enrollments per student, and one update per student |
| EnrollmentProps.EnrollmentsWellFormed | mongodb-test.py:131-137 | every enrollment names a student, a stored course and a progress of at most 100 |
| EnrollmentProps.UpdatesKeepLinked | mongodb-test.py:138-140 | the write-backs keep every reference intact, and the courses, enrollments and user ids are unchanged |
| EnrollmentProps.UpdatesOnlyUsers | mongodb-test.py:140 | the write-backs change only the users collection, and keep its size |
| EnrollmentProps.EnrollmentsKeepLinked | mongodb-test.py:125-141 | `generate_enrollments` keeps every reference intact |
| EnrollmentProps.SetEnrolledAt | mongodb-test.py:140 | with distinct user ids, `update_one` by a user's id rewrites that user only |
| EnrollmentProps.UpdatesEffect | mongodb-test.py:127-140 | each student ends with its old list followed by its sampled ids; instructors are unchanged; other collections are unchanged |
| InsertAll.InsertAllKeepsLinked | mongodb-test.py:177-181 | a completed `insert_all_data` on a linked store leaves no dangling reference |
| InsertAll.InsertAllCounts | mongodb-test.py:177-181 | `insert_all_data` adds the users, C courses, C·L lessons, C·L·Q quizzes, C·L·Q·N questions and k enrollments per student |
| Benchmark.PhaseTimings | mongodb-test.py:209-214 | the timing list of a completed run has six entries, named "Drop Tables" through "Delete All Data" in call order, each the difference of its phase's two readings |
| Benchmark.TimedConcat | mongodb-test.py:209-214 | the entries of the first phases followed by those of the rest are the entries of all phases |
| Benchmark.BenchmarkOutcome | mongodb-test.py:12-28 | with the benchmark counts, sampling never fails; the only modelled exception is IndexError, exactly when `m >= 1` and no drawn user is an instructor |
| Benchmark.BenchmarkScript.constructor | mongodb-test.py:12-22 | the module globals start with the base counts and an empty `timings` list |
| Benchmark.BenchmarkScript.EditNumberOfOperations | mongodb-test.py:24-32 | the users and courses counts are multiplied in place; nothing else changes |
| Benchmark.BenchmarkScript.Record | mongodb-test.py:34-40 | once `func` returns, exactly one `(name, end - start)` entry is appended |
| Benchmark.BenchmarkScript.DropCollections | mongodb-test.py:42-49 | six drops, in source order, which leave the store empty |
| Benchmark.BenchmarkScript.InsertAllData | mongodb-test.py:177-181 | the outcome is `InsertOutcome`: IndexError from the course builder is checked first (a course is due and no user is an instructor), then ValueError from the sampler (a student's sample is larger than the course collection), otherwise it returns; and the exact writes issued on success, on IndexError after the user batch, and on ValueError after the course trees |
| Benchmark.BenchmarkScript.ReadAllData | mongodb-test.py:149-157 | returns the six collections as stored and writes nothing |
| Benchmark.BenchmarkScript.UpdateAllData | mongodb-test.py:159-166 | six `update_many` calls, in source order |
| Benchmark.BenchmarkScript.DeleteAllData | mongodb-test.py:168-175 | six `delete_many` calls, in source order, which leave the store empty |
| Benchmark.BenchmarkScript.OpeningPhases | mongodb-test.py:209-210 | "Drop Tables" and then "Create Tables" are timed; create issues no call |
| Benchmark.BenchmarkScript.InsertPhase | mongodb-test.py:211 | `insert_all_data` on the emptied store with scaled counts: the modelled IndexError exactly when `m >= 1` and no user is an instructor |
| Benchmark.BenchmarkScript.ClosingPhases | mongodb-test.py:211-214 | the last four entries, in order, with the update and delete calls between them |
| Benchmark.BenchmarkScript.OpenAndInsert | mongodb-test.py:198-211 | scale, then the two opening phases, then `insert_all_data` |
| Benchmark.BenchmarkScript.Run | mongodb-test.py:198-216 | a run that completes records the six phase names in order; a raise in `insert_all_data` leaves only the first two entries and stops every later phase |
| TestScript.DropCollections | test.py:26-33 | six drops that leave the store empty |
| TestScript.UserPhases | test.py:136-138 | `insert_users` and then `users.extend(retrieve_users())`: the local list holds every stored user |
| TestScript.TreePhases | test.py:139-141 | the course trees, the enrollments and the course read-back over that list, with the phases completed on each outcome |
| TestScript.DataPhases | test.py:136-141 | the five data phases: outcome, writes issued, and how many phases printed on each exception |
| TestScript.LargeRunOutcome | test.py:9-14 | with 200 courses and 20 per student, sampling cannot fail; IndexError iff no user is an instructor |
| TestScript.RunTest | test.py:133-142 | the seven phases in order; all seven print on success, four on IndexError |
| TestScript.LargeRunAdds | test.py:58-106 | a completed run adds 1000 users, 200 courses, 10,000 lessons, 200,000 quizzes, 6,000,000 questions and 20 enrollments per student |
| TestScript.LargeRunLinked | test.py:58-130 | a completed run after the reset leaves no dangling reference |
| MainDocs.UserSinglesEffect | main.py:23-31 | one `insert_one` per user appends exactly those users, in order |
| MainDocs.QuestionSinglesEffect | main.py:60-69 | one `insert_one` per question appends exactly those questions, in order |
| MainDocs.CourseDocsEffect | main.py:45-74 | a course written document by document leaves the same collections as its batched writes |
| MainDocs.CoursesDocsEffect | main.py:36-74 | the course loop of `main.py` leaves the same collections as `insert_courses` with the same draws |
| MainDocs.QuizDocsFirst | main.py:60-71 | a quiz is inserted only after all of its questions |
| MainDocs.LessonDocsFirst | main.py:53-73 | a lesson is inserted only after all of its quizzes |
| MainDocs.CoursesDocsFirst | main.py:68-74 | every `insert_one` of the course loop finds the children its document lists already stored |
| MainDocs.FirstStudent | main.py:77-79 | the position of the first student, where `random.sample` is first called |
| MainDocs.UserEnrollDocsEffect | main.py:78-90 | one user's writes: a student gets its enrollments and its extended list; anyone else has its list written back unchanged |
| MainDocs.EnrollDocsEffect | main.py:77-90 | with distinct user ids, the enrollment loop leaves the same collections as `generate_enrollments` |
| MainDocs.WriteBackUnchanged | main.py:90 | an instructor's `update_one` writes back its own list and changes nothing |
| MainDocs.NoStudentDocsEffect | main.py:77-90 | the write-backs issued before the first student leave the store as it was |
| MainScript.AddUsers | main.py:23-31 | one `insert_one` per user, in order |
| MainScript.AddQuestions | main.py:60-69 | each question id is appended to the quiz's list, then that question is inserted |
| MainScript.AddQuiz | main.py:54-71 | the quiz's questions, then the quiz with their ids |
| MainScript.AddQuizzes | main.py:53-71 | the quiz loop: each quiz after its questions; returns the lesson's quiz ids |
| MainScript.AddLesson | main.py:46-73 | the lesson's quizzes, then the lesson with their ids |
| MainScript.AddLessons | main.py:45-73 | the lesson loop: each lesson after its quizzes; returns the course's lesson ids |
| MainScript.AddCourse | main.py:37-74 | the course's lessons, then the course; this leaves the same collections as the batched writes |
| MainScript.AddCourseAt | main.py:37-74 | one pass of the course loop under the picked instructor: the journal and the collections move from the draws before it to the draws up to it |
| MainScript.AddCourses | main.py:36-74 | the course loop; IndexError iff a course is to be built and the instructor candidate list (empty exactly when no user read back is an instructor) is empty, and then nothing is written |
| MainScript.EnrollInSample | main.py:80-89 | per sampled course, its id is appended to the list and its enrollment is inserted |
| MainScript.EnrollUser | main.py:78-90 | a student's enrollments, then `update_one` for every user, instructors included |
| MainScript.AddEnrollments | main.py:77-90 | ValueError iff the sample is larger than the stored courses and some user is a student; it is raised after the write-backs of the users before that student |
| MainRun.UsersPart | main.py:23-33 | the user loop, then `list(db.users.find())`, which also holds users from earlier runs |
| MainRun.TreesAndEnrollments | main.py:36-90 | the course loop and the enrollment loop; IndexError iff no user read back is an instructor |
| MainRun.RunMain | main.py:10-90 | the whole script on any existing store: the outcome and every call issued, in order |
| MainRun.SmallRunOutcome | main.py:11-12 | with 20 courses and 2 per student, ValueError is out of reach |
| MainRun.MainMatchesInsertAll | main.py:23-90 | with distinct user ids, the one-document writes leave the same collections as the batched `insert_all_data` |
| MainRun.MainAdds | main.py:10-15 | a completed run adds 100 users, 20 courses, 100 lessons, 200 quizzes, 600 questions and 2 enrollments per student read back |
| MainRun.MainKeepsLinked | main.py:36-90 | a completed run on a linked store leaves no dangling reference |

## Left out

- The MongoDB client and pymongo behaviour (the connection at mongodb-test.py:19-20, an empty `insert_many` being rejected, dropping a missing collection) are not modelled. The collections are plain sequences, and `find()` returns documents in insertion order.
- Benchmark.BenchmarkScript.Run, Benchmark.BenchmarkOutcome, Benchmark.BenchmarkScript.InsertAllData and TestScript.RunTest: the only exceptions modelled are IndexError and ValueError. pymongo also rejects an empty `insert_many`, and the model does not. With a multiplier of zero or less the user list is empty, so `insert_many([])` at mongodb-test.py:66 raises and the run stops with two timing entries, where `Run` reports a pass with six. When no user read back is a student, the enrollment list is empty and `insert_many([])` at mongodb-test.py:141 and test.py:130 raises, where the model reports a pass.
- Faker text and dates are opaque strings; their content is not modelled.
- `uuid4` uniqueness is not modelled. Lemmas that need distinct ids require them.
- The distributions of `random.choice`, `random.sample` and `random.randint` are not modelled; only membership, distinctness and range are stated.
- Wall-clock time: each phase's two `time.time()` readings are caller-supplied reals, and the duration is their difference. Monotonicity and float rounding are not modelled.
- `input()` and the exact rules of Python's `int()` are not modelled; the parse result is an `Option<int>`.
- `print` output is not modelled. The large test script's `measure_time` only prints, so the model counts the phases that returned (`printed`).
- `plot_timings` and `save_timings_to_excel` (mongodb-test.py:183-196) are left out; they only render or export the timing list.
- The unused `"enrollments": []` field on courses (mongodb-test.py:82) is not stored.
- `correctAnswer` is drawn independently of `options` (mongodb-test.py:110-111). The model keeps it that way and states nothing about it.
- `NUM_SUBMISSIONS_PER_QUIZ` (main.py:16) is never used by the script; the model has no submissions collection, and `Store.Collection` has only the six written ones.
- Aliasing is not modelled: the Python appends to the `enrolledCourses` lists of the user dicts it read back. The model does not return that mutated list; its effect is visible through the stored users after the `update_one` calls.
- The sampling population is the course collection as it stands when enrollment starts. `list(db.courses.find())` is read again for each student, but no course is written in between, so the population does not change.
