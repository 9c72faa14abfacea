/** Paired evaluation statistics: pass@k, pooled scores, paired deltas, bootstrap and the report. */
module Statistics {
  import opened Records
  import opened Ordering
  import opened Combinatorics
  import opened Wilson

  // ----- pass@k -----

  function PassAtK(samples: seq<bool>, k: int): Outcome<real> {
    if k <= 0 then Err(InvalidArgument)
    else if |samples| < k then Err(InvalidArgument)
    else
      var failures := |samples| - Successes(samples);
      if failures < k then Ok(1.0)
      else
        CombZero(|samples|, k);
        Ok(1.0 - Comb(failures, k) as real / Comb(|samples|, k) as real)
  }

  lemma OneMinusShare(a: int, b: int)
    requires b > 0
    ensures 1.0 - a as real / b as real == (b - a) as real / b as real
  {
    assert (b - a) as real / b as real == b as real / b as real - a as real / b as real;
  }

  /** pass@k is exactly the fraction of the k-element index subsets that contain a success; the early
      1.0 agrees with the formula. */
  lemma PassAtKIsExact(samples: seq<bool>, k: nat)
    requires 0 < k <= |samples|
    ensures |Subsets(|samples|, k)| > 0
    ensures PassAtK(samples, k) ==
            Ok(|PassingSubsets(samples, k)| as real / |Subsets(|samples|, k)| as real)
  {
    hide Comb, PassingSubsets, Subsets;
    var n, failures := |samples|, |samples| - Successes(samples);
    CombZero(n, k);
    CombZero(failures, k);
    SubsetsCount(n, k);
    PassingCount(samples, k);
    OneMinusShare(Comb(failures, k), Comb(n, k));
  }

  lemma ShareOrder(a: nat, b: nat, c: nat, d: nat)
    requires b > 0 && d > 0 && a * d <= c * b
    ensures a as real / b as real <= c as real / d as real
  {
    var x, y := a as real / b as real, c as real / d as real;
    var e := b as real * d as real;
    assert x * b as real == a as real && y * d as real == c as real;
    assert (a * d) as real <= (c * b) as real;
    assert x * e == (a * d) as real && y * e == (c * b) as real by {
      assert x * e == (x * b as real) * d as real;
      assert y * e == (y * d as real) * b as real;
    }
    Positive(b as real, d as real);
    assert (x - y) * e == x * e - y * e;
    if x > y { Positive(x - y, e); }
  }

  /** It is a probability; it is 0 exactly without successes. */
  lemma PassAtKBounds(samples: seq<bool>, k: nat)
    requires 0 < k <= |samples|
    ensures PassAtK(samples, k).Ok? && 0.0 <= PassAtK(samples, k).value <= 1.0
    ensures PassAtK(samples, k).value == 0.0 <==> Successes(samples) == 0
  {
    hide Comb;
    var n, failures := |samples|, |samples| - Successes(samples);
    CombZero(n, k);
    CombGrows(failures, n, k);
    if failures >= k {
      OneMinusShare(Comb(failures, k), Comb(n, k));
      ShareBounds(Comb(n, k) - Comb(failures, k), Comb(n, k));
      if failures < n { CombStrict(failures, n, k); }
    }
  }

  lemma ShareBounds(a: nat, b: nat)
    requires a <= b && b > 0
    ensures 0.0 <= a as real / b as real <= 1.0
    ensures a as real / b as real == 0.0 <==> a == 0
  {}

  lemma CombStrict(m: nat, n: nat, k: nat)
    requires m < n && 0 < k <= n
    ensures Comb(m, k) < Comb(n, k)
  {
    CombGrows(m, n - 1, k);
    CombZero(n - 1, k - 1);
  }

  /** More successes among as many samples never lower pass@k. */
  lemma PassAtKGrowsWithSuccesses(a: seq<bool>, b: seq<bool>, k: nat)
    requires 0 < k <= |a| == |b| && Successes(a) <= Successes(b)
    ensures PassAtK(a, k).value <= PassAtK(b, k).value
  {
    hide Comb;
    var n := |a|;
    PassAtKBounds(a, k);
    PassAtKBounds(b, k);
    CombZero(n, k);
    CombGrows(n - Successes(b), n - Successes(a), k);
    if n - Successes(b) >= k {
      Scale(Comb(n - Successes(b), k), Comb(n - Successes(a), k), Comb(n, k));
      ShareOrder(Comb(n - Successes(b), k), Comb(n, k), Comb(n - Successes(a), k), Comb(n, k));
    }
  }

  /** Neither does drawing more of them. */
  lemma {:induction false} PassAtKGrowsWithK(samples: seq<bool>, k: nat, l: nat)
    requires 0 < k <= l <= |samples|
    ensures PassAtK(samples, k).Ok? && PassAtK(samples, l).Ok?
    ensures PassAtK(samples, k).value <= PassAtK(samples, l).value
    decreases l
  {
    hide Comb;
    if k < l {
      PassAtKGrowsWithK(samples, k, l - 1);
      PassAtKBounds(samples, l - 1);
      var n, failures := |samples|, |samples| - Successes(samples);
      CombZero(n, l);
      CombZero(n, l - 1);
      if failures >= l {
        ShareFalls(failures, n, l - 1);
        ShareOrder(Comb(failures, l), Comb(n, l), Comb(failures, l - 1), Comb(n, l - 1));
      }
    } else {
      PassAtKBounds(samples, l);
    }
  }

  // ----- scores -----

  datatype TaskSamples = TaskSamples(taskId: string, samples: seq<bool>, excluded: bool)

  datatype Pair = Pair(taskId: string, baseline: TaskSamples, candidate: TaskSamples)

  datatype Score = Score(pass1: real, interval: Interval, passAtK: seq<(int, real)>)

  /** What the record constructors admit. */
  predicate PairOk(p: Pair) {
    && p.baseline.taskId == p.taskId && p.candidate.taskId == p.taskId
    && 0 < |p.baseline.samples| == |p.candidate.samples|
  }

  ghost predicate PairsOk(pairs: seq<Pair>) {
    forall i :: 0 <= i < |pairs| ==> PairOk(pairs[i])
  }

  predicate NonEmptyTasks(tasks: seq<TaskSamples>) {
    forall i :: 0 <= i < |tasks| ==> tasks[i].samples != []
  }

  function Flatten(tasks: seq<TaskSamples>): seq<bool> {
    if tasks == [] then [] else Flatten(tasks[..|tasks| - 1]) + tasks[|tasks| - 1].samples
  }

  lemma {:induction false} SuccessesConcat(a: seq<bool>, b: seq<bool>)
    ensures Successes(a + b) == Successes(a) + Successes(b)
  {
    if b == [] {
      assert a + b == a;
    } else {
      assert (a + b)[..|a + b| - 1] == a + b[..|b| - 1];
      SuccessesConcat(a, b[..|b| - 1]);
    }
  }

  lemma {:induction false} FlattenNonEmpty(tasks: seq<TaskSamples>)
    requires tasks != [] && NonEmptyTasks(tasks)
    ensures Flatten(tasks) != []
  {
    assert tasks[|tasks| - 1].samples != [];
  }

  /** The pooled success rate. */
  function Pass1(tasks: seq<TaskSamples>): real
    requires tasks != [] && NonEmptyTasks(tasks)
  {
    FlattenNonEmpty(tasks);
    Successes(Flatten(tasks)) as real / |Flatten(tasks)| as real
  }

  function Rate(t: TaskSamples): real
    requires t.samples != []
  {
    Successes(t.samples) as real / |t.samples| as real
  }

  predicate EnoughSamples(tasks: seq<TaskSamples>, k: int) {
    k > 0 && forall i :: 0 <= i < |tasks| ==> |tasks[i].samples| >= k
  }

  function SumPassAtK(tasks: seq<TaskSamples>, k: int): real
    requires EnoughSamples(tasks, k)
  {
    if tasks == [] then 0.0
    else SumPassAtK(tasks[..|tasks| - 1], k) + PassAtK(tasks[|tasks| - 1].samples, k).value
  }

  function MeanPassAtK(tasks: seq<TaskSamples>, k: int): Outcome<real>
    requires tasks != []
  {
    if EnoughSamples(tasks, k) then Ok(SumPassAtK(tasks, k) / |tasks| as real) else Err(InvalidArgument)
  }

  /** n * mean, the total of `n` values with this mean. */
  function TotalOf(n: nat, mean: real): real { n as real * mean }

  lemma MeanTotal(tasks: seq<TaskSamples>, k: int)
    requires tasks != [] && EnoughSamples(tasks, k)
    ensures TotalOf(|tasks|, MeanPassAtK(tasks, k).value) == SumPassAtK(tasks, k)
  {
    hide SumPassAtK, EnoughSamples;
  }

  lemma {:induction false} SumConcat(a: seq<TaskSamples>, b: seq<TaskSamples>, k: int)
    requires EnoughSamples(a, k) && EnoughSamples(b, k)
    ensures EnoughSamples(a + b, k) && SumPassAtK(a + b, k) == SumPassAtK(a, k) + SumPassAtK(b, k)
  {
    hide PassAtK;
    if b == [] {
      assert a + b == a;
    } else {
      assert (a + b)[..|a + b| - 1] == a + b[..|b| - 1];
      SumConcat(a, b[..|b| - 1], k);
    }
  }

  /** The mean over one task is its pass@k, and totals add up: every task has the same weight, whatever its
      number of samples, and the mean is refused exactly when some task has fewer than k samples. */
  lemma MeanIsAverage(t: TaskSamples, a: seq<TaskSamples>, b: seq<TaskSamples>, k: int)
    requires a != [] && b != []
    ensures MeanPassAtK([t], k) == PassAtK(t.samples, k)
    ensures MeanPassAtK(a + b, k).Ok? <==> MeanPassAtK(a, k).Ok? && MeanPassAtK(b, k).Ok?
    ensures MeanPassAtK(a, k).Ok? && MeanPassAtK(b, k).Ok? && MeanPassAtK(a + b, k).Ok? ==>
              TotalOf(|a + b|, MeanPassAtK(a + b, k).value) ==
              TotalOf(|a|, MeanPassAtK(a, k).value) + TotalOf(|b|, MeanPassAtK(b, k).value)
  {
    hide TotalOf, SumPassAtK;
    MeanOfOne(t, k);
    if EnoughSamples(a + b, k) {
      forall i | 0 <= i < |a| ensures |a[i].samples| >= k { assert (a + b)[i] == a[i]; }
      forall i | 0 <= i < |b| ensures |b[i].samples| >= k { assert (a + b)[|a| + i] == b[i]; }
      SumConcat(a, b, k);
      MeanTotal(a, k);
      MeanTotal(b, k);
      MeanTotal(a + b, k);
    }
  }

  lemma MeanOfOne(t: TaskSamples, k: int)
    ensures MeanPassAtK([t], k) == PassAtK(t.samples, k)
  {
    if EnoughSamples([t], k) {
      assert [t][..0] == [] && [t][0].samples == t.samples;
      assert SumPassAtK([t], k) == 0.0 + PassAtK(t.samples, k).value;
    } else if k > 0 {
      assert |[t][0].samples| < k;
    }
  }

  predicate IntLeq(a: int, b: int) { a <= b }

  function SortedKs(ks: seq<int>): (r: seq<int>)
    ensures Ascending(r, IntLeq) && Distinct(r) && forall k :: k in r <==> k in ks
  {
    SortSet((set k | k in ks), IntLeq)
  }

  function MeansAtK(tasks: seq<TaskSamples>, ks: seq<int>): Outcome<seq<(int, real)>>
    requires tasks != []
  {
    if ks == [] then Ok([])
    else
      var mean := MeanPassAtK(tasks, ks[0]);
      var rest := MeansAtK(tasks, ks[1..]);
      if mean.Err? then Err(mean.error)
      else if rest.Err? then Err(rest.error)
      else Ok([(ks[0], mean.value)] + rest.value)
  }

  /** `root` gives the square root the Wilson interval needs. */
  ghost predicate Roots(z: real, root: (nat, nat) -> real) {
    forall s: nat, n: nat :: 0 < n && s <= n ==> IsRoot(root(s, n), Radicand(z, s, n))
  }

  function CandidateScore(z: real, tasks: seq<TaskSamples>, ks: seq<int>, root: (nat, nat) -> real): Outcome<Score>
    requires tasks != [] && NonEmptyTasks(tasks)
  {
    FlattenNonEmpty(tasks);
    var s, n := Successes(Flatten(tasks)), |Flatten(tasks)|;
    var interval := WilsonInterval(z, s, n, root(s, n));
    var means := MeansAtK(tasks, SortedKs(ks));
    if interval.Err? then Err(interval.error)
    else if means.Err? then Err(means.error)
    else Ok(Score(Pass1(tasks), interval.value, means.value))
  }

  /** The Wilson interval of the pooled samples. */
  ghost predicate IntervalOf(z: real, tasks: seq<TaskSamples>, root: (nat, nat) -> real, interval: Interval) {
    var s, n := Successes(Flatten(tasks)), |Flatten(tasks)|;
    WilsonInterval(z, s, n, root(s, n)) == Ok(interval)
  }

  /** The score exists exactly when every task has enough samples for every k; then its interval is the
      Wilson interval of the pooled samples, its rate lies in its interval, the interval in [0, 1], and each
      distinct k is listed once, in order, with its mean. */
  ghost predicate ScoreOk(z: real, tasks: seq<TaskSamples>, ks: seq<int>, root: (nat, nat) -> real, score: Score)
    requires tasks != [] && NonEmptyTasks(tasks)
  {
    && score.pass1 == Pass1(tasks) && IntervalOf(z, tasks, root, score.interval)
    && 0.0 <= score.interval.lower <= score.pass1 <= score.interval.upper <= 1.0
    && |score.passAtK| == |SortedKs(ks)|
    && forall i :: 0 <= i < |score.passAtK| ==>
         && score.passAtK[i].0 == SortedKs(ks)[i]
         && MeanPassAtK(tasks, score.passAtK[i].0) == Ok(score.passAtK[i].1)
         && 0.0 <= score.passAtK[i].1 <= 1.0
  }

  lemma {:induction false} SumBounds(tasks: seq<TaskSamples>, k: int)
    requires EnoughSamples(tasks, k)
    ensures 0.0 <= SumPassAtK(tasks, k) <= |tasks| as real
  {
    if tasks != [] {
      SumBounds(tasks[..|tasks| - 1], k);
      PassAtKBounds(tasks[|tasks| - 1].samples, k);
    }
  }

  lemma MeanBounds(tasks: seq<TaskSamples>, k: int)
    requires tasks != [] && EnoughSamples(tasks, k)
    ensures 0.0 <= MeanPassAtK(tasks, k).value <= 1.0
  {
    SumBounds(tasks, k);
    DivideBounds(SumPassAtK(tasks, k), |tasks|);
  }

  lemma DivideBounds(x: real, n: nat)
    requires n > 0 && 0.0 <= x <= n as real
    ensures 0.0 <= x / n as real <= 1.0
  {}

  lemma {:induction false} MeansAre(tasks: seq<TaskSamples>, ks: seq<int>)
    requires tasks != []
    ensures MeansAtK(tasks, ks).Ok? <==> forall k :: k in ks ==> EnoughSamples(tasks, k)
    ensures MeansAtK(tasks, ks).Ok? ==>
      && |MeansAtK(tasks, ks).value| == |ks|
      && forall i :: 0 <= i < |ks| ==>
           && MeansAtK(tasks, ks).value[i].0 == ks[i]
           && MeanPassAtK(tasks, ks[i]) == Ok(MeansAtK(tasks, ks).value[i].1)
  {
    if ks != [] {
      MeansAre(tasks, ks[1..]);
      assert ks == [ks[0]] + ks[1..];
    }
  }

  lemma ScoreIsOk(z: real, tasks: seq<TaskSamples>, ks: seq<int>, root: (nat, nat) -> real)
    requires tasks != [] && NonEmptyTasks(tasks) && z >= 0.0 && Roots(z, root)
    ensures CandidateScore(z, tasks, ks, root).Ok? <==> forall k :: k in ks ==> EnoughSamples(tasks, k)
    ensures CandidateScore(z, tasks, ks, root).Ok? ==>
              ScoreOk(z, tasks, ks, root, CandidateScore(z, tasks, ks, root).value)
  {
    hide WilsonInterval, Radicand, EnoughSamples, IsRoot;
    FlattenNonEmpty(tasks);
    var s, n := Successes(Flatten(tasks)), |Flatten(tasks)|;
    WilsonIsScoreTest(z, s, n, root(s, n), 0.0);
    MeansAre(tasks, SortedKs(ks));
    forall k | k in ks && EnoughSamples(tasks, k) ensures 0.0 <= MeanPassAtK(tasks, k).value <= 1.0 {
      MeanBounds(tasks, k);
    }
  }

  // ----- pooled rate and mean rate -----

  /** n_i * rate_i */
  function Weighted(t: TaskSamples): real
    requires t.samples != []
  {
    |t.samples| as real * Rate(t)
  }

  function WeightedRates(tasks: seq<TaskSamples>): real
    requires NonEmptyTasks(tasks)
  {
    if tasks == [] then 0.0
    else WeightedRates(tasks[..|tasks| - 1]) + Weighted(tasks[|tasks| - 1])
  }

  lemma RateTimes(t: TaskSamples)
    requires t.samples != []
    ensures Weighted(t) == Successes(t.samples) as real
  {}

  /** The sums over all tasks, from those over all but the last. */
  lemma LastTask(tasks: seq<TaskSamples>)
    requires tasks != [] && NonEmptyTasks(tasks)
    ensures var init, last := tasks[..|tasks| - 1], tasks[|tasks| - 1];
            && Flatten(tasks) == Flatten(init) + last.samples
            && Successes(Flatten(tasks)) == Successes(Flatten(init)) + Successes(last.samples)
            && WeightedRates(tasks) == WeightedRates(init) + Weighted(last)
  {
    hide Successes, Weighted;
    SuccessesConcat(Flatten(tasks[..|tasks| - 1]), tasks[|tasks| - 1].samples);
  }

  lemma {:induction false} WeightedRatesAre(tasks: seq<TaskSamples>)
    requires NonEmptyTasks(tasks)
    ensures WeightedRates(tasks) == Successes(Flatten(tasks)) as real
  {
    hide Weighted;
    if tasks != [] {
      hide Successes, WeightedRates, Flatten;
      WeightedRatesAre(tasks[..|tasks| - 1]);
      LastTask(tasks);
      RateTimes(tasks[|tasks| - 1]);
    }
  }

  lemma PassAt1IsRate(t: TaskSamples)
    requires t.samples != []
    ensures PassAtK(t.samples, 1) == Ok(Rate(t))
  {
    hide Comb;
    var n, c := |t.samples|, Successes(t.samples);
    CombOne(n);
    CombOne(n - c);
    OneMinusShare(n - c, n);
  }

  lemma {:induction false} CombOne(n: nat)
    ensures Comb(n, 1) == n
  {
    if n > 0 { CombOne(n - 1); }
  }

  lemma SumStep(tasks: seq<TaskSamples>)
    requires tasks != [] && NonEmptyTasks(tasks)
    ensures EnoughSamples(tasks, 1) && EnoughSamples(tasks[..|tasks| - 1], 1)
    ensures SumPassAtK(tasks, 1) == SumPassAtK(tasks[..|tasks| - 1], 1) + Rate(tasks[|tasks| - 1])
  {
    hide PassAtK, Rate;
    PassAt1IsRate(tasks[|tasks| - 1]);
  }

  lemma {:induction false} EqualLengths(tasks: seq<TaskSamples>, n: nat)
    requires forall i :: 0 <= i < |tasks| ==> |tasks[i].samples| == n
    ensures |Flatten(tasks)| == n * |tasks|
  {
    if tasks != [] {
      EqualLengths(tasks[..|tasks| - 1], n);
      assert n * (|tasks| - 1) + n == n * |tasks|;
    }
  }

  lemma {:induction false} EqualCounts(tasks: seq<TaskSamples>, n: nat)
    requires n > 0 && forall i :: 0 <= i < |tasks| ==> |tasks[i].samples| == n
    ensures EnoughSamples(tasks, 1) && NonEmptyTasks(tasks)
    ensures WeightedRates(tasks) == Times(n as real, SumPassAtK(tasks, 1))
  {
    if tasks != [] {
      hide PassAtK, Rate, Flatten, WeightedRates, SumPassAtK, Successes, Weighted, Times;
      EqualCounts(tasks[..|tasks| - 1], n);
      LastTask(tasks);
      SumStep(tasks);
      Spread(n, SumPassAtK(tasks[..|tasks| - 1], 1), tasks[|tasks| - 1]);
    }
  }

  lemma Spread(n: nat, x: real, t: TaskSamples)
    requires n == |t.samples| > 0
    ensures Times(n as real, x) + Weighted(t) == Times(n as real, x + Rate(t))
  {}

  /** With equal sample counts the mean pass@1 over tasks is the pooled pass@1. */
  lemma MeanIsPooled(tasks: seq<TaskSamples>, n: nat)
    requires tasks != [] && n > 0 && forall i :: 0 <= i < |tasks| ==> |tasks[i].samples| == n
    ensures NonEmptyTasks(tasks) && MeanPassAtK(tasks, 1) == Ok(Pass1(tasks))
  {
    hide Flatten, WeightedRates, SumPassAtK, Successes, Times;
    EqualCounts(tasks, n);
    EqualLengths(tasks, n);
    WeightedRatesAre(tasks);
    CancelFactor(SumPassAtK(tasks, 1), n, |tasks|, |Flatten(tasks)|, Successes(Flatten(tasks)) as real);
  }

  lemma CancelFactor(x: real, n: nat, m: nat, nm: nat, c: real)
    requires n > 0 && m > 0 && nm == n * m && c == Times(n as real, x)
    ensures nm > 0 && x / m as real == c / nm as real
  {
    var a, b := n as real, m as real;
    assert (n * m) as real == a * b;
    Positive(a, b);
    var y := x / b;
    assert c == (a * b) * y;
  }

  lemma OneTask(t: TaskSamples)
    requires t.samples != []
    ensures EnoughSamples([t], 1) && NonEmptyTasks([t])
    ensures Flatten([t]) == t.samples && SumPassAtK([t], 1) == Rate(t)
  {
    hide PassAtK, Rate;
    assert [t][..0] == [];
    assert Flatten([t]) == [] + t.samples;
    SumStep([t]);
  }

  lemma TwoTasks(s: TaskSamples, t: TaskSamples)
    requires s.samples != [] && t.samples != []
    ensures EnoughSamples([s, t], 1) && NonEmptyTasks([s, t])
    ensures Flatten([s, t]) == s.samples + t.samples && SumPassAtK([s, t], 1) == Rate(s) + Rate(t)
  {
    hide PassAtK, Rate;
    assert [s, t][..1] == [s];
    OneTask(s);
    LastTask([s, t]);
    SumStep([s, t]);
  }

  lemma AllFail(samples: seq<bool>)
    requires forall i :: 0 <= i < |samples| ==> !samples[i]
    ensures Successes(samples) == 0
  {}

  /** Without equal counts the two can differ. */
  lemma UnequalCountsDiffer()
    ensures var tasks := [TaskSamples("a", [true], false), TaskSamples("b", [false, false, false], false)];
            && NonEmptyTasks(tasks) && MeanPassAtK(tasks, 1) == Ok(0.5) && Pass1(tasks) == 0.25
  {
    var one: seq<bool> := [true];
    var none: seq<bool> := [false, false, false];
    var a, b := TaskSamples("a", one, false), TaskSamples("b", none, false);
    TwoTasks(a, b);
    assert one[..0] == [];
    assert Successes(one) == 1;
    AllFail(none);
    hide Successes, Flatten, SumPassAtK;
    SuccessesConcat(one, none);
  }

  // ----- exactly when the mean is the pooled rate -----

  ghost predicate HasCounts(tasks: seq<TaskSamples>, counts: seq<nat>) {
    |tasks| == |counts| && forall i :: 0 <= i < |tasks| ==> |tasks[i].samples| == counts[i]
  }

  ghost predicate MeanIsPooledFor(tasks: seq<TaskSamples>) {
    tasks != [] && NonEmptyTasks(tasks) && MeanPassAtK(tasks, 1) == Ok(Pass1(tasks))
  }

  /** Whatever the samples, tasks with these sample counts have equal mean and pooled pass@1. */
  ghost predicate AlwaysAgree(counts: seq<nat>) {
    forall tasks :: HasCounts(tasks, counts) ==> MeanIsPooledFor(tasks)
  }

  /** The first `n` tasks: every sample of task `i` succeeds and every other fails. */
  function OnlyOne(counts: seq<nat>, n: nat, i: nat): (r: seq<TaskSamples>)
    requires n <= |counts|
    ensures |r| == n && forall j :: 0 <= j < n ==> |r[j].samples| == counts[j]
  {
    seq(n, j requires 0 <= j < n => TaskSamples("", seq(counts[j], _ => j == i), false))
  }

  lemma {:induction false} AllPass(samples: seq<bool>)
    requires forall i :: 0 <= i < |samples| ==> samples[i]
    ensures Successes(samples) == |samples|
  {
    if samples != [] { AllPass(samples[..|samples| - 1]); }
  }

  lemma {:induction false} OnlyOneTotals(counts: seq<nat>, n: nat, i: nat)
    requires n <= |counts| && forall j :: 0 <= j < n ==> counts[j] > 0
    ensures var tasks := OnlyOne(counts, n, i);
            && NonEmptyTasks(tasks) && EnoughSamples(tasks, 1)
            && Successes(Flatten(tasks)) == (if i < n then counts[i] else 0)
            && SumPassAtK(tasks, 1) == (if i < n then 1.0 else 0.0)
  {
    if n > 0 {
      hide Successes, Flatten, WeightedRates, SumPassAtK, PassAtK;
      OnlyOneTotals(counts, n - 1, i);
      var tasks := OnlyOne(counts, n, i);
      assert tasks[..n - 1] == OnlyOne(counts, n - 1, i);
      LastTask(tasks);
      SumStep(tasks);
      var last := tasks[n - 1];
      if i == n - 1 { AllPass(last.samples); } else { AllFail(last.samples); }
      RateIs(last);
    } else {
      assert OnlyOne(counts, 0, i) == [];
    }
  }

  lemma RateIs(t: TaskSamples)
    requires t.samples != []
    ensures Successes(t.samples) == |t.samples| ==> Rate(t) == 1.0
    ensures Successes(t.samples) == 0 ==> Rate(t) == 0.0
  {}

  lemma {:induction false} FlattenLength(a: seq<TaskSamples>, b: seq<TaskSamples>)
    requires |a| == |b| && forall i :: 0 <= i < |a| ==> |a[i].samples| == |b[i].samples|
    ensures |Flatten(a)| == |Flatten(b)|
  {
    if a != [] { FlattenLength(a[..|a| - 1], b[..|b| - 1]); }
  }

  lemma SameShare(a: nat, b: nat, n: nat)
    requires n > 0 && a as real / n as real == b as real / n as real
    ensures a == b
  {
    assert a as real == (a as real / n as real) * n as real;
    assert b as real == (b as real / n as real) * n as real;
  }

  /** For given positive sample counts, mean and pooled pass@1 agree for every outcome of the samples
      exactly when all counts are equal. */
  lemma AgreeExactlyWhenCountsEqual(counts: seq<nat>)
    requires counts != [] && forall i :: 0 <= i < |counts| ==> counts[i] > 0
    ensures AlwaysAgree(counts) <==> forall i, j :: 0 <= i < |counts| && 0 <= j < |counts| ==> counts[i] == counts[j]
  {
    if AlwaysAgree(counts) {
      forall i, j | 0 <= i < |counts| && 0 <= j < |counts| ensures counts[i] == counts[j] {
        AgreeMeansEqual(counts, i, j);
      }
    }
    if forall i, j :: 0 <= i < |counts| && 0 <= j < |counts| ==> counts[i] == counts[j] {
      forall tasks: seq<TaskSamples> | HasCounts(tasks, counts) ensures MeanIsPooledFor(tasks) {
        assert forall i :: 0 <= i < |tasks| ==> |tasks[i].samples| == counts[0];
        MeanIsPooled(tasks, counts[0]);
      }
    }
  }

  lemma AgreeMeansEqual(counts: seq<nat>, i: nat, j: nat)
    requires i < |counts| && j < |counts| && forall k :: 0 <= k < |counts| ==> counts[k] > 0
    requires AlwaysAgree(counts)
    ensures counts[i] == counts[j]
  {
    hide Successes, Flatten, SumPassAtK, PassAtK;
    var n := |counts|;
    var a, b := OnlyOne(counts, n, i), OnlyOne(counts, n, j);
    OnlyOneTotals(counts, n, i);
    OnlyOneTotals(counts, n, j);
    assert HasCounts(a, counts) && HasCounts(b, counts);
    assert MeanIsPooledFor(a) && MeanIsPooledFor(b);
    FlattenLength(a, b);
    FlattenNonEmpty(a);
    SameShare(counts[i], counts[j], |Flatten(a)|);
  }
}
