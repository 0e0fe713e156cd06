/** How many documents a run generates, and the multiplier that scales the
    top-level counts of the benchmark script. */
module Scale {
  import opened Entities

  /** The NUM_* settings. `users` and `courses` are whatever the multiplier made
      of them, negative included; the nested counts are never scaled. */
  datatype Counts = Counts(
    users: int,
    courses: int,
    lessonsPerCourse: nat,
    quizzesPerLesson: nat,
    questionsPerQuiz: nat,
    enrollmentsPerUser: nat)

  /** Number of iterations of `for _ in range(n)`: none when `n` is zero or negative. */
  function Iterations(n: int): nat {
    if n < 0 then 0 else n
  }

  /** Proof helper: one more parent adds one parent's worth of children. */
  lemma MulSucc(n: nat, k: nat)
    ensures (n + 1) * k == n * k + k
  {
  }

  /** Proof helper: regrouping a product of counts. */
  lemma MulAssoc(a: nat, b: nat, c: nat)
    ensures a * (b * c) == a * b * c
  {
  }

  /** The benchmark script's starting values, before the multiplier. */
  const BenchmarkBase := Counts(10, 20, 5, 2, 3, 2)

  /** The large single-run script (no multiplier). */
  const LargeRun := Counts(1000, 200, 50, 20, 30, 20)

  /** The one-shot top-level script. */
  const SmallRun := Counts(100, 20, 5, 2, 3, 2)

  /** The multiplier read from the prompt: the parsed int, or 1 when the input
      did not parse as an int. Zero and negative values are kept. */
  function Multiplier(parsed: Option<int>): int {
    match parsed
    case Some(m) => m
    case None => 1
  }

  /** The counts after `edit_number_of_operations(m)`. */
  function Scaled(c: Counts, m: int): Counts {
    c.(users := c.users * m, courses := c.courses * m)
  }

  /** Scaling multiplies the number of users and courses a run iterates over by
      the multiplier (none at all for a multiplier of zero or less) and leaves
      every per-parent count and the sample size as they were. */
  lemma ScaledIterations(c: Counts, m: int)
    requires c.users >= 0 && c.courses >= 0
    ensures var s := Scaled(c, m);
      && Iterations(s.users) == (if m <= 0 then 0 else c.users * m)
      && Iterations(s.courses) == (if m <= 0 then 0 else c.courses * m)
      && s.lessonsPerCourse == c.lessonsPerCourse
      && s.quizzesPerLesson == c.quizzesPerLesson
      && s.questionsPerQuiz == c.questionsPerQuiz
      && s.enrollmentsPerUser == c.enrollmentsPerUser
  {
    if m <= 0 {
      assert c.users * m <= 0;
      assert c.courses * m <= 0;
    }
  }

  /** Input that is not an int gives the same counts as the input "1"; an int,
      zero and negative ones included, scales the counts by itself. */
  lemma NonIntegerIsOne(c: Counts)
    ensures Scaled(c, Multiplier(None)) == Scaled(c, Multiplier(Some(1))) == c
    ensures forall m :: Scaled(c, Multiplier(Some(m))) == Scaled(c, m)
  {
  }
}
