/** Paired comparison of a candidate with a baseline: deltas, bootstrap interval and report. */
module PairedComparison {
  import opened Records
  import opened Ordering
  import opened Combinatorics
  import opened Wilson
  import opened Statistics

  function Baselines(pairs: seq<Pair>): (r: seq<TaskSamples>)
    ensures |r| == |pairs| && forall i :: 0 <= i < |r| ==> r[i] == pairs[i].baseline
  {
    seq(|pairs|, i requires 0 <= i < |pairs| => pairs[i].baseline)
  }

  function Candidates(pairs: seq<Pair>): (r: seq<TaskSamples>)
    ensures |r| == |pairs| && forall i :: 0 <= i < |r| ==> r[i] == pairs[i].candidate
  {
    seq(|pairs|, i requires 0 <= i < |pairs| => pairs[i].candidate)
  }

  /** candidate pass@1 minus baseline pass@1 */
  ghost function Delta(pairs: seq<Pair>): real
    requires pairs != [] && PairsOk(pairs)
  {
    Pass1(Candidates(pairs)) - Pass1(Baselines(pairs))
  }

  // ----- what the delta measures -----

  /** Samples per side. */
  function SampleCount(pairs: seq<Pair>): nat {
    if pairs == [] then 0 else SampleCount(pairs[..|pairs| - 1]) + |pairs[|pairs| - 1].baseline.samples|
  }

  /** Extra successes of the candidate on one task. */
  function Gain(p: Pair): int { Successes(p.candidate.samples) - Successes(p.baseline.samples) }

  function Gains(pairs: seq<Pair>): int {
    if pairs == [] then 0 else Gains(pairs[..|pairs| - 1]) + Gain(pairs[|pairs| - 1])
  }

  lemma {:induction false} PairTotals(pairs: seq<Pair>)
    requires PairsOk(pairs)
    ensures |Flatten(Candidates(pairs))| == |Flatten(Baselines(pairs))| == SampleCount(pairs)
    ensures Successes(Flatten(Candidates(pairs))) - Successes(Flatten(Baselines(pairs))) == Gains(pairs)
  {
    if pairs != [] {
      hide Successes, Flatten, Candidates, Baselines;
      PairTotals(pairs[..|pairs| - 1]);
      LastPair(pairs);
    }
  }

  /** Both sides' samples, from those of all pairs but the last. */
  lemma LastPair(pairs: seq<Pair>)
    requires pairs != [] && PairsOk(pairs)
    ensures var init, last := pairs[..|pairs| - 1], pairs[|pairs| - 1];
            && |Flatten(Candidates(pairs))| == |Flatten(Candidates(init))| + |last.candidate.samples|
            && |Flatten(Baselines(pairs))| == |Flatten(Baselines(init))| + |last.baseline.samples|
            && |last.candidate.samples| == |last.baseline.samples|
            && Successes(Flatten(Candidates(pairs))) == Successes(Flatten(Candidates(init))) + Successes(last.candidate.samples)
            && Successes(Flatten(Baselines(pairs))) == Successes(Flatten(Baselines(init))) + Successes(last.baseline.samples)
  {
    var n := |pairs| - 1;
    var init := pairs[..n];
    assert Candidates(pairs)[..n] == Candidates(init) && Baselines(pairs)[..n] == Baselines(init);
    assert PairOk(pairs[n]);
    hide Successes, PairsOk;
    SuccessesConcat(Flatten(Candidates(init)), pairs[n].candidate.samples);
    SuccessesConcat(Flatten(Baselines(init)), pairs[n].baseline.samples);
  }

  /** The difference of pass@1 on one task. */
  function TaskDelta(p: Pair): real
    requires PairOk(p)
  {
    Rate(p.candidate) - Rate(p.baseline)
  }

  function WeightedDelta(p: Pair): real
    requires PairOk(p)
  {
    |p.baseline.samples| as real * TaskDelta(p)
  }

  function WeightedDeltas(pairs: seq<Pair>): real
    requires forall i :: 0 <= i < |pairs| ==> PairOk(pairs[i])
  {
    if pairs == [] then 0.0 else WeightedDeltas(pairs[..|pairs| - 1]) + WeightedDelta(pairs[|pairs| - 1])
  }

  lemma WeightedGain(p: Pair)
    requires PairOk(p)
    ensures WeightedDelta(p) == Gain(p) as real
  {
    hide Rate, Successes;
    var n := |p.baseline.samples|;
    RateScaled(p.candidate, n);
    RateScaled(p.baseline, n);
    Subtract(n as real, Rate(p.candidate), Rate(p.baseline), Successes(p.candidate.samples) as real,
             Successes(p.baseline.samples) as real);
  }

  lemma RateScaled(t: TaskSamples, n: nat)
    requires |t.samples| == n > 0
    ensures Times(n as real, Rate(t)) == Successes(t.samples) as real
  {}

  lemma Subtract(n: real, x: real, y: real, a: real, b: real)
    requires Times(n, x) == a && Times(n, y) == b
    ensures n * (x - y) == a - b
  {}

  lemma {:induction false} WeightedGains(pairs: seq<Pair>)
    requires PairsOk(pairs)
    ensures WeightedDeltas(pairs) == Gains(pairs) as real
  {
    if pairs != [] {
      hide WeightedDelta, Gain;
      WeightedGains(pairs[..|pairs| - 1]);
      WeightedGain(pairs[|pairs| - 1]);
    }
  }

  lemma {:induction false} SomeSamples(pairs: seq<Pair>)
    requires pairs != [] && PairsOk(pairs)
    ensures SampleCount(pairs) > 0
    ensures NonEmptyTasks(Candidates(pairs)) && NonEmptyTasks(Baselines(pairs))
  {
    assert PairOk(pairs[|pairs| - 1]);
  }

  lemma DivideDifference(a: nat, b: nat, n: nat)
    requires n > 0
    ensures a as real / n as real - b as real / n as real == (a - b) as real / n as real
  {}

  /** The delta is the sample-weighted mean of the per-task differences, which is the candidate's
      extra successes per sample. */
  lemma DeltaIsWeightedMean(pairs: seq<Pair>)
    requires pairs != [] && PairsOk(pairs)
    ensures SampleCount(pairs) > 0
    ensures Delta(pairs) == WeightedDeltas(pairs) / SampleCount(pairs) as real
    ensures Delta(pairs) == Gains(pairs) as real / SampleCount(pairs) as real
  {
    hide Flatten, Successes, Candidates, Baselines;
    SomeSamples(pairs);
    PairTotals(pairs);
    WeightedGains(pairs);
    DivideDifference(Successes(Flatten(Candidates(pairs))), Successes(Flatten(Baselines(pairs))), SampleCount(pairs));
  }

  /** The candidate has at least as many successes as the baseline on every task. */
  ghost predicate Dominates(pairs: seq<Pair>) {
    forall i :: 0 <= i < |pairs| ==> Gain(pairs[i]) >= 0
  }

  lemma {:induction false} GainsBounded(pairs: seq<Pair>)
    requires PairsOk(pairs)
    ensures 0 - SampleCount(pairs) <= Gains(pairs) <= SampleCount(pairs)
    ensures Dominates(pairs) ==> Gains(pairs) >= 0
  {
    if pairs != [] {
      hide Successes;
      GainsBounded(pairs[..|pairs| - 1]);
      assert PairOk(pairs[|pairs| - 1]);
    }
  }

  lemma RatioBounds(g: int, n: nat)
    requires n > 0 && 0 - n <= g <= n
    ensures -1.0 <= g as real / n as real <= 1.0
    ensures g >= 0 ==> g as real / n as real >= 0.0
  {}

  lemma DeltaBounds(pairs: seq<Pair>)
    requires pairs != [] && PairsOk(pairs)
    ensures -1.0 <= Delta(pairs) <= 1.0
    ensures Dominates(pairs) ==> Delta(pairs) >= 0.0
  {
    hide Delta, Dominates;
    DeltaIsWeightedMean(pairs);
    GainsBounded(pairs);
    RatioBounds(Gains(pairs), SampleCount(pairs));
  }

  // ----- the bootstrap -----

  predicate RealLeq(a: real, b: real) { a <= b }

  /** `choice(m, i, j)` is the j-th draw of round i among m pairs: any sequence of draws at all. */
  ghost predicate Draws(choice: (nat, nat, nat) -> nat) {
    forall m: nat, i: nat, j: nat :: m > 0 ==> choice(m, i, j) < m
  }

  function Resample(pairs: seq<Pair>, choice: (nat, nat, nat) -> nat, i: nat): (r: seq<Pair>)
    requires pairs != [] && forall j: nat :: choice(|pairs|, i, j) < |pairs|
    ensures |r| == |pairs| && forall j :: 0 <= j < |r| ==> r[j] == pairs[choice(|pairs|, i, j)]
  {
    seq(|pairs|, j requires j >= 0 => pairs[choice(|pairs|, i, j)])
  }

  ghost function Deltas(pairs: seq<Pair>, choice: (nat, nat, nat) -> nat, n: nat): (r: seq<real>)
    requires pairs != [] && PairsOk(pairs) && Draws(choice)
    ensures |r| == n
  {
    if n == 0 then [] else Deltas(pairs, choice, n - 1) + [Delta(Resample(pairs, choice, n - 1))]
  }

  /** int(0.025 * (n - 1)) and int(0.975 * (n - 1)) */
  function LowIndex(n: nat): int
    requires n > 0
  {
    (0.025 * (n - 1) as real).Floor
  }

  function HighIndex(n: nat): int
    requires n > 0
  {
    (0.975 * (n - 1) as real).Floor
  }

  lemma IndicesInRange(n: nat)
    requires n > 0
    ensures LowIndex(n) == (n - 1) / 40 && HighIndex(n) == 39 * (n - 1) / 40
    ensures 0 <= LowIndex(n) <= HighIndex(n) < n
  {
    FloorIs(0.025 * (n - 1) as real, n - 1, 1);
    FloorIs(0.975 * (n - 1) as real, n - 1, 39);
  }

  lemma FloorIs(x: real, n: nat, c: nat)
    requires 40.0 * x == (c * n) as real
    ensures x.Floor == c * n / 40
  {
    var q := c * n / 40;
    assert 40 * q <= c * n < 40 * (q + 1);
    assert q as real <= x < (q + 1) as real;
  }

  /** Delta `i` of the bootstrap is that of round `i`, however many rounds there are. */
  lemma {:induction false} DeltaOfRound(pairs: seq<Pair>, choice: (nat, nat, nat) -> nat, n: nat, i: nat)
    requires pairs != [] && PairsOk(pairs) && Draws(choice) && i < n
    ensures PairsOk(Resample(pairs, choice, i)) && Deltas(pairs, choice, n)[i] == Delta(Resample(pairs, choice, i))
  {
    hide Delta, Resample, PairsOk, Draws;
    ResampleOk(pairs, choice, i);
    if i < n - 1 { DeltaOfRound(pairs, choice, n - 1, i); }
  }

  lemma ResampleDominates(pairs: seq<Pair>, choice: (nat, nat, nat) -> nat, i: nat)
    requires pairs != [] && PairsOk(pairs) && Draws(choice) && Dominates(pairs)
    ensures Dominates(Resample(pairs, choice, i))
  {
    hide Gain;
  }

  lemma DeltasAre(pairs: seq<Pair>, choice: (nat, nat, nat) -> nat, n: nat)
    requires pairs != [] && PairsOk(pairs) && Draws(choice)
    ensures forall i :: 0 <= i < n ==> -1.0 <= Deltas(pairs, choice, n)[i] <= 1.0
    ensures Dominates(pairs) ==> forall i :: 0 <= i < n ==> Deltas(pairs, choice, n)[i] >= 0.0
  {
    hide Delta, Deltas, Dominates, Resample, PairsOk;
    forall i | 0 <= i < n
      ensures -1.0 <= Deltas(pairs, choice, n)[i] <= 1.0 && (Dominates(pairs) ==> Deltas(pairs, choice, n)[i] >= 0.0)
    {
      DeltaOfRound(pairs, choice, n, i);
      ResampleOk(pairs, choice, i);
      if Dominates(pairs) { ResampleDominates(pairs, choice, i); }
      DeltaBounds(Resample(pairs, choice, i));
    }
  }

  /** How many values lie below `v`, and how many do not exceed it. */
  function CountBelow(xs: seq<real>, v: real): nat {
    if xs == [] then 0 else CountBelow(xs[1..], v) + if xs[0] < v then 1 else 0
  }

  function CountUpTo(xs: seq<real>, v: real): nat {
    if xs == [] then 0 else CountUpTo(xs[1..], v) + if xs[0] <= v then 1 else 0
  }

  lemma {:induction false} CountsConcat(xs: seq<real>, ys: seq<real>, v: real)
    ensures CountBelow(xs + ys, v) == CountBelow(xs, v) + CountBelow(ys, v)
    ensures CountUpTo(xs + ys, v) == CountUpTo(xs, v) + CountUpTo(ys, v)
  {
    if xs == [] {
      assert xs + ys == ys;
    } else {
      assert (xs + ys)[1..] == xs[1..] + ys;
      CountsConcat(xs[1..], ys, v);
    }
  }

  lemma {:induction false} CountsPermute(xs: seq<real>, ys: seq<real>, v: real)
    requires multiset(xs) == multiset(ys)
    ensures CountBelow(xs, v) == CountBelow(ys, v) && CountUpTo(xs, v) == CountUpTo(ys, v)
  {
    if xs == [] {
      assert |multiset(ys)| == 0;
    } else {
      var i := RemoveHead(xs, ys);
      CountsPermute(xs[1..], ys[..i] + ys[i + 1..], v);
      CountsConcat(ys[..i], ys[i + 1..], v);
      CountsConcat(ys[..i], [ys[i]] + ys[i + 1..], v);
      assert ys == ys[..i] + ([ys[i]] + ys[i + 1..]);
    }
  }

  lemma {:induction false} CountsSorted(xs: seq<real>, k: nat)
    requires Ascending(xs, RealLeq) && k < |xs|
    ensures CountBelow(xs, xs[k]) <= k < CountUpTo(xs, xs[k])
  {
    CountsConcat(xs[..k], xs[k..], xs[k]);
    assert xs == xs[..k] + xs[k..];
    CountsAtMost(xs[..k], xs[k]);
    forall i | 0 <= i < |xs[k..]| ensures xs[k] <= xs[k..][i] {
      if i > 0 { assert RealLeq(xs[k], xs[k + i]); }
    }
    NoneBelow(xs[k..], xs[k]);
    forall i | 0 <= i < k ensures xs[..k][i] <= xs[k] { assert RealLeq(xs[i], xs[k]); }
    AllUpTo(xs[..k], xs[k]);
    assert xs[k..][0] == xs[k];
  }

  lemma {:induction false} CountsAtMost(xs: seq<real>, v: real)
    ensures CountBelow(xs, v) <= |xs|
  {
    if xs != [] { CountsAtMost(xs[1..], v); }
  }

  lemma {:induction false} NoneBelow(xs: seq<real>, v: real)
    requires forall i :: 0 <= i < |xs| ==> v <= xs[i]
    ensures CountBelow(xs, v) == 0
  {
    if xs != [] { NoneBelow(xs[1..], v); }
  }

  lemma {:induction false} AllUpTo(xs: seq<real>, v: real)
    requires forall i :: 0 <= i < |xs| ==> xs[i] <= v
    ensures CountUpTo(xs, v) == |xs|
  {
    if xs != [] { AllUpTo(xs[1..], v); }
  }

  /** `v` is the k-th smallest of `xs`, counting from 0. */
  ghost predicate OrderStatistic(xs: seq<real>, k: int, v: real) {
    v in xs && CountBelow(xs, v) <= k < CountUpTo(xs, v)
  }

  /** Draws `iterations` resamples, and takes two order statistics of their deltas. The interval is the
      2.5% and 97.5% order statistics, lies in [-1, 1], is ordered, and is not negative when the
      candidate is at least as good on every task, whatever was drawn. */
  method BootstrapDeltaCi(pairs: seq<Pair>, iterations: int, choice: (nat, nat, nat) -> nat)
    returns (r: Outcome<(real, real)>)
    requires pairs != [] && PairsOk(pairs) && Draws(choice)
    ensures r.Err? <==> iterations <= 0
    ensures r.Ok? ==>
      && OrderStatistic(Deltas(pairs, choice, iterations), (iterations - 1) / 40, r.value.0)
      && OrderStatistic(Deltas(pairs, choice, iterations), 39 * (iterations - 1) / 40, r.value.1)
      && -1.0 <= r.value.0 <= r.value.1 <= 1.0
      && (Dominates(pairs) ==> r.value.0 >= 0.0)
  {
    hide Delta, Dominates, OrderStatistic, LowIndex, HighIndex, Sorted, Pass1;
    if iterations <= 0 { return Err(InvalidArgument); }
    var deltas: seq<real> := [];
    for i := 0 to iterations
      invariant deltas == Deltas(pairs, choice, i)
    {
      var sample := Resample(pairs, choice, i);
      ResampleOk(pairs, choice, i);
      SomeSamples(sample);
      var baseline := Pass1(Baselines(sample));
      var candidate := Pass1(Candidates(sample));
      assert candidate - baseline == Delta(sample) by { DeltaIs(sample); }
      deltas := deltas + [candidate - baseline];
    }
    var sorted := Sorted(deltas, RealLeq);
    SortedEnds(deltas, iterations);
    DeltasAre(pairs, choice, iterations);
    r := Ok((sorted[LowIndex(iterations)], sorted[HighIndex(iterations)]));
  }

  lemma SortedEnds(xs: seq<real>, n: nat)
    requires |xs| == n > 0
    ensures var sorted := Sorted(xs, RealLeq); var low := LowIndex(n); var high := HighIndex(n);
            && 0 <= low <= high < |sorted| && sorted[low] <= sorted[high]
            && OrderStatistic(xs, (n - 1) / 40, sorted[low]) && OrderStatistic(xs, 39 * (n - 1) / 40, sorted[high])
            && (exists i :: 0 <= i < n && xs[i] == sorted[low]) && (exists i :: 0 <= i < n && xs[i] == sorted[high])
  {
    hide LowIndex, HighIndex, CountBelow, CountUpTo, Sorted;
    var sorted := Sorted(xs, RealLeq);
    var low, high := LowIndex(n), HighIndex(n);
    IndicesInRange(n);
    SortedArranges(xs, RealLeq);
    SortedLength(xs);
    SortedStatistic(xs, sorted, low);
    SortedStatistic(xs, sorted, high);
    if low < high { assert RealLeq(sorted[low], sorted[high]); }
  }

  lemma DeltaIs(pairs: seq<Pair>)
    requires pairs != [] && PairsOk(pairs)
    ensures NonEmptyTasks(Candidates(pairs)) && NonEmptyTasks(Baselines(pairs))
    ensures Delta(pairs) == Pass1(Candidates(pairs)) - Pass1(Baselines(pairs))
  {
    SomeSamples(pairs);
  }

  lemma ResampleOk(pairs: seq<Pair>, choice: (nat, nat, nat) -> nat, i: nat)
    requires pairs != [] && PairsOk(pairs) && Draws(choice)
    ensures PairsOk(Resample(pairs, choice, i)) && Resample(pairs, choice, i) != []
  {}

  lemma SortedLength(xs: seq<real>)
    ensures |Sorted(xs, RealLeq)| == |xs|
  {
    SortedArranges(xs, RealLeq);
    assert |multiset(Sorted(xs, RealLeq))| == |multiset(xs)|;
  }

  lemma SortedStatistic(xs: seq<real>, sorted: seq<real>, k: nat)
    requires multiset(sorted) == multiset(xs) && Ascending(sorted, RealLeq) && k < |sorted|
    ensures OrderStatistic(xs, k, sorted[k])
  {
    CountsSorted(sorted, k);
    CountsPermute(sorted, xs, sorted[k]);
    assert sorted[k] in multiset(xs);
  }

  // ----- the report -----

  datatype Policy = Policy(minPairedSamples: nat, maxExclusionRate: real)

  datatype Report = Report(
    pairedTasks: nat, excludedTasks: nat, baseline: Score, candidate: Score,
    delta: real, deltaInterval: (real, real), sufficient: bool, reasons: seq<string>)

  predicate IsIncluded(p: Pair) { !(p.baseline.excluded || p.candidate.excluded) }

  function Included(pairs: seq<Pair>): (r: seq<Pair>)
    ensures |r| <= |pairs| && forall p :: p in r <==> p in pairs && IsIncluded(p)
  {
    if pairs == [] then [] else (if IsIncluded(pairs[0]) then [pairs[0]] else []) + Included(pairs[1..])
  }

  /** Every pair is kept or left out as a whole, each as often as it occurs. */
  lemma {:induction false} IncludedExactly(pairs: seq<Pair>, p: Pair)
    ensures multiset(Included(pairs))[p] ==
              if p.baseline.excluded || p.candidate.excluded then 0 else multiset(pairs)[p]
  {
    if pairs != [] {
      IncludedExactly(pairs[1..], p);
      TailMultiset(pairs);
      if IsIncluded(pairs[0]) { TailMultiset(Included(pairs)); }
    }
  }

  ghost predicate UniqueTasks(pairs: seq<Pair>) {
    forall i, j :: 0 <= i < j < |pairs| ==> pairs[i].taskId != pairs[j].taskId
  }

  method TasksAreUnique(pairs: seq<Pair>) returns (unique: bool)
    ensures unique <==> UniqueTasks(pairs)
  {
    var seen: set<string> := {};
    for i := 0 to |pairs|
      invariant forall j :: 0 <= j < i ==> pairs[j].taskId in seen
      invariant forall t :: t in seen ==> exists j :: 0 <= j < i && pairs[j].taskId == t
      invariant forall j, k :: 0 <= j < k < i ==> pairs[j].taskId != pairs[k].taskId
    {
      if pairs[i].taskId in seen { return false; }
      seen := seen + {pairs[i].taskId};
    }
    unique := true;
  }

  /** The report can be made: there are pairs, each task once, some of them included, and every
      included task has enough samples for every requested k. */
  ghost predicate Reportable(pairs: seq<Pair>, ks: seq<int>) {
    && UniqueTasks(pairs)
    && (exists p :: p in pairs && IsIncluded(p))
    && forall k, p :: k in ks && p in pairs && IsIncluded(p) ==> 0 < k <= |p.baseline.samples|
  }

  const FEW_PAIRS := "paired_sample_threshold_not_met"
  const TOO_MANY_EXCLUDED := "infrastructure_exclusion_threshold_exceeded"
  const SATISFIED := "paired_evidence_policy_satisfied"

  predicate Few(policy: Policy, paired: nat) { paired < policy.minPairedSamples }

  predicate OverExcluded(policy: Policy, excluded: nat, total: nat)
    requires total > 0
  {
    excluded as real / total as real > policy.maxExclusionRate
  }

  function Reasons(few: bool, over: bool): seq<string> {
    if few && over then [FEW_PAIRS, TOO_MANY_EXCLUDED]
    else if few then [FEW_PAIRS]
    else if over then [TOO_MANY_EXCLUDED]
    else [SATISFIED]
  }

  ghost predicate ScoresReported(z: real, included: seq<Pair>, ks: seq<int>, root: (nat, nat) -> real,
                                 baseline: Score, candidate: Score)
  {
    && included != [] && NonEmptyTasks(Baselines(included)) && NonEmptyTasks(Candidates(included))
    && ScoreOk(z, Baselines(included), ks, root, baseline) && ScoreOk(z, Candidates(included), ks, root, candidate)
  }

  /** The interval ends at the order statistics 49 and 1949 of the deltas of 2000 resamples. */
  ghost predicate IntervalReported(included: seq<Pair>, choice: (nat, nat, nat) -> nat, interval: (real, real)) {
    && included != [] && PairsOk(included) && Draws(choice)
    && OrderStatistic(Deltas(included, choice, 2000), 49, interval.0)
    && OrderStatistic(Deltas(included, choice, 2000), 1949, interval.1)
  }

  ghost predicate DeltaReported(included: seq<Pair>, choice: (nat, nat, nat) -> nat, delta: real, interval: (real, real)) {
    && included != [] && PairsOk(included) && IntervalReported(included, choice, interval)
    && delta == Delta(included) && -1.0 <= delta <= 1.0
    && -1.0 <= interval.0 <= interval.1 <= 1.0
    && (Dominates(included) ==> delta >= 0.0 && interval.0 >= 0.0)
  }

  ghost predicate VerdictReported(few: bool, over: bool, sufficient: bool, reasons: seq<string>) {
    sufficient == !(few || over) && reasons == Reasons(few, over)
  }

  /** Everything a report says about its pairs: included and excluded add up, both scores and the delta
      are those of the included pairs, every number is in range, and the verdict follows the policy. */
  ghost predicate ReportOk(pairs: seq<Pair>, policy: Policy, ks: seq<int>, root: (nat, nat) -> real,
                           choice: (nat, nat, nat) -> nat, report: Report)
    requires pairs != []
  {
    var included := Included(pairs);
    && report.pairedTasks == |included| && report.pairedTasks + report.excludedTasks == |pairs|
    && ScoresReported(Z_95, included, ks, root, report.baseline, report.candidate)
    && DeltaReported(included, choice, report.delta, report.deltaInterval)
    && VerdictReported(Few(policy, |included|), OverExcluded(policy, |pairs| - |included|, |pairs|),
                       report.sufficient, report.reasons)
  }

  lemma IncludedOk(pairs: seq<Pair>)
    requires PairsOk(pairs)
    ensures PairsOk(Included(pairs))
  {
    var included := Included(pairs);
    forall i | 0 <= i < |included| ensures PairOk(included[i]) {
      assert included[i] in pairs;
    }
  }

  lemma EnoughSides(pairs: seq<Pair>, k: int)
    requires PairsOk(pairs)
    ensures EnoughSamples(Baselines(pairs), k) <==> k > 0 && forall p :: p in pairs ==> k <= |p.baseline.samples|
    ensures EnoughSamples(Candidates(pairs), k) <==> EnoughSamples(Baselines(pairs), k)
  {
    assert forall i :: 0 <= i < |pairs| ==> pairs[i] in pairs && PairOk(pairs[i]);
  }

  lemma DistinctReasons()
    ensures FEW_PAIRS != TOO_MANY_EXCLUDED && FEW_PAIRS != SATISFIED && TOO_MANY_EXCLUDED != SATISFIED
  {
    assert FEW_PAIRS[0] == 'p' && FEW_PAIRS[7] == 's' && TOO_MANY_EXCLUDED[0] == 'i' && SATISFIED[0] == 'p' && SATISFIED[7] == 'e';
  }

  lemma Exceeds(part: nat, total: nat, rate: real)
    requires total > 0
    ensures part as real / total as real > rate <==> part as real > rate * total as real
  {
    var share := part as real / total as real;
    assert share * total as real == part as real;
    if share > rate { Positive(share - rate, total as real); }
    if rate > share { Positive(rate - share, total as real); }
  }

  /** Which thresholds of the policy are missed, in order. */
  method Conclude(policy: Policy, included: nat, total: nat) returns (sufficient: bool, reasons: seq<string>)
    requires included <= total && total > 0
    ensures VerdictReported(Few(policy, included), OverExcluded(policy, total - included, total), sufficient, reasons)
    ensures sufficient <==>
              policy.minPairedSamples <= included && (total - included) as real <= policy.maxExclusionRate * total as real
    ensures FEW_PAIRS in reasons <==> included < policy.minPairedSamples
    ensures TOO_MANY_EXCLUDED in reasons <==> (total - included) as real > policy.maxExclusionRate * total as real
    ensures SATISFIED in reasons <==> sufficient
  {
    DistinctReasons();
    Exceeds(total - included, total, policy.maxExclusionRate);
    reasons := [];
    if included < policy.minPairedSamples { reasons := reasons + [FEW_PAIRS]; }
    var exclusionRate := (total - included) as real / total as real;
    if exclusionRate > policy.maxExclusionRate { reasons := reasons + [TOO_MANY_EXCLUDED]; }
    sufficient := reasons == [];
    if sufficient { reasons := [SATISFIED]; }
  }

  lemma DeltaIsReported(included: seq<Pair>, choice: (nat, nat, nat) -> nat, delta: real, interval: (real, real))
    requires included != [] && PairsOk(included) && delta == Delta(included)
    requires IntervalReported(included, choice, interval)
    requires -1.0 <= interval.0 <= interval.1 <= 1.0 && (Dominates(included) ==> interval.0 >= 0.0)
    ensures DeltaReported(included, choice, delta, interval)
  {
    hide Delta, Dominates, IntervalReported;
    DeltaBounds(included);
  }

  /** Scores a matched cohort, and says why evidence is insufficient. */
  method BuildReport(pairs: seq<Pair>, policy: Policy, ks: seq<int>, root: (nat, nat) -> real,
                     choice: (nat, nat, nat) -> nat) returns (r: Outcome<Report>)
    requires PairsOk(pairs) && Roots(Z_95, root) && Draws(choice)
    ensures r.Ok? <==> Reportable(pairs, ks)
    ensures r.Ok? ==> pairs != [] && ReportOk(pairs, policy, ks, root, choice, r.value)
  {
    hide Roots, CandidateScore, Dominates, EnoughSamples, Reportable, UniqueTasks, OrderStatistic, NonEmptyTasks,
         Few, OverExcluded, PairsOk, ScoresReported, DeltaReported, VerdictReported, Included, Delta, Deltas;
    if pairs == [] {
      NotReportable(pairs, ks);
      return Err(InvalidArgument);
    }
    var unique := TasksAreUnique(pairs);
    var included := Included(pairs);
    IncludedOk(pairs);
    ReportableWhen(pairs, ks);
    if !unique { return Err(InvalidArgument); }
    if included == [] { return Err(InvalidArgument); }
    SomeSamples(included);
    var baseline := CandidateScore(Z_95, Baselines(included), ks, root);
    var candidate := CandidateScore(Z_95, Candidates(included), ks, root);
    ScoresExist(Z_95, included, ks, root);
    if baseline.Err? || candidate.Err? { return Err(InvalidArgument); }
    var delta := candidate.value.pass1 - baseline.value.pass1;
    var sufficient, reasons := Conclude(policy, |included|, |pairs|);
    var interval := BootstrapDeltaCi(included, 2000, choice);
    assert IntervalReported(included, choice, interval.value);
    DeltaIsReported(included, choice, delta, interval.value);
    r := Ok(Report(|included|, |pairs| - |included|, baseline.value, candidate.value, delta, interval.value,
                   sufficient, reasons));
  }

  /** Both scores exist or neither does, and they give the delta. */
  lemma ScoresExist(z: real, included: seq<Pair>, ks: seq<int>, root: (nat, nat) -> real)
    requires included != [] && PairsOk(included) && z >= 0.0 && Roots(z, root)
    requires NonEmptyTasks(Baselines(included)) && NonEmptyTasks(Candidates(included))
    ensures var baseline := CandidateScore(z, Baselines(included), ks, root);
            var candidate := CandidateScore(z, Candidates(included), ks, root);
            && (baseline.Ok? <==> candidate.Ok?)
            && (baseline.Ok? <==> forall k :: k in ks ==> EnoughSamples(Baselines(included), k))
            && (baseline.Ok? ==> && ScoresReported(z, included, ks, root, baseline.value, candidate.value)
                                 && candidate.value.pass1 - baseline.value.pass1 == Delta(included))
  {
    hide Roots, CandidateScore, EnoughSamples, PairsOk, NonEmptyTasks, Pass1, IntervalOf;
    ScoreIsOk(z, Baselines(included), ks, root);
    ScoreIsOk(z, Candidates(included), ks, root);
    forall k ensures EnoughSamples(Candidates(included), k) <==> EnoughSamples(Baselines(included), k) {
      EnoughSides(included, k);
    }
    DeltaIs(included);
  }

  lemma NotReportable(pairs: seq<Pair>, ks: seq<int>)
    requires pairs == []
    ensures !Reportable(pairs, ks)
  {}

  lemma ReportableWhen(pairs: seq<Pair>, ks: seq<int>)
    requires PairsOk(pairs) && PairsOk(Included(pairs))
    ensures var included := Included(pairs);
            && (Reportable(pairs, ks) <==>
                  && UniqueTasks(pairs) && included != []
                  && forall k :: k in ks ==> EnoughSamples(Baselines(included), k))
  {
    var included := Included(pairs);
    hide EnoughSamples, UniqueTasks, PairsOk;
    forall k ensures EnoughSamples(Baselines(included), k) <==> k > 0 && forall p :: p in included ==> k <= |p.baseline.samples|
    {
      EnoughSides(included, k);
    }
    if included != [] { assert included[0] in included; }
  }
}
