/** The batch protocol: one producer, a bounded queue, workers that stop at a sentinel, fail-fast, and
    exceptions that leave a worker. */
module Batch {
  import opened Records
  import opened RetryLoop

  /** A queue item: the position of a request, or the sentinel that ends one worker. */
  datatype Item = Request(i: nat) | Sentinel

  datatype Worker = Idle | Busy(i: nat) | Exited | Crashed

  /** `tokens[i]` is what request `i` asks of the token budget. */
  datatype Job = Job(
    ids: seq<string>, tokens: seq<nat>, budget: nat, workerCount: nat, capacity: nat, failFast: bool)

  /** The first exception that left a worker: a fail-fast failure, or one raised for request `i`. */
  datatype Stop =
    | FailFast(failure: GenerationResult, partial: seq<GenerationResult>)
    | Uncaught(i: nat, cause: Cause)

  /** `raised` holds the requests that ended in an exception instead of a result. */
  datatype State = State(
    produced: nat, queue: seq<Item>, workers: seq<Worker>,
    results: map<string, GenerationResult>, raised: set<nat>, stop: Option<Stop>)

  ghost predicate JobOk(job: Job) {
    && (forall i, j :: 0 <= i < j < |job.ids| ==> job.ids[i] != job.ids[j])
    && |job.tokens| == |job.ids| && 0 < job.workerCount <= |job.ids| && job.capacity > 0
  }

  /** The token budget refuses the request before it is sent. */
  predicate TooLarge(job: Job, i: nat) {
    i < |job.tokens| && job.tokens[i] > job.budget
  }

  /** Everything the producer puts: the requests in order, then one sentinel per worker. */
  function Stream(job: Job): (r: seq<Item>)
    ensures |r| == |job.ids| + job.workerCount
  {
    seq(|job.ids| + job.workerCount, i requires 0 <= i => if i < |job.ids| then Request(i) else Sentinel)
  }

  function Start(job: Job): State {
    State(0, [], seq(job.workerCount, _ => Idle), map[], {}, None)
  }

  // ----- one step of the producer or of a worker -----

  datatype Step = Put | Get(w: nat) | Finish(w: nat, end: RequestEnd)

  /** How request `i` can end: over the budget it raises, otherwise it has a result or the client raises. */
  predicate CanEnd(job: Job, i: nat, end: RequestEnd)
    requires i < |job.ids|
  {
    if TooLarge(job, i) then end == Escaped(OverBudget)
    else if end.Answered? then end.result.requestId == job.ids[i] else end.cause.ClientFailure?
  }

  predicate Enabled(job: Job, s: State, step: Step) {
    match step
    case Put => s.produced < |Stream(job)| && |s.queue| < job.capacity
    case Get(w) => w < |s.workers| && s.workers[w].Idle? && s.queue != []
    case Finish(w, end) =>
      && w < |s.workers| && s.workers[w].Busy? && s.workers[w].i < |job.ids|
      && CanEnd(job, s.workers[w].i, end)
  }

  /** The results present, in request order. */
  function PartialResults(ids: seq<string>, results: map<string, GenerationResult>): seq<GenerationResult> {
    if ids == [] then []
    else (if ids[0] in results then [results[ids[0]]] else []) + PartialResults(ids[1..], results)
  }

  predicate Raises(job: Job, result: GenerationResult) { job.failFast && result.status.Failed? }

  function Next(job: Job, s: State, step: Step): State
    requires Enabled(job, s, step)
  {
    match step
    case Put => s.(produced := s.produced + 1, queue := s.queue + [Stream(job)[s.produced]])
    case Get(w) =>
      var item := s.queue[0];
      s.(queue := s.queue[1..], workers := s.workers[w := if item.Sentinel? then Exited else Busy(item.i)])
    case Finish(w, Answered(result)) =>
      var results := s.results[result.requestId := result];
      if Raises(job, result) then
        s.(results := results, workers := s.workers[w := Crashed],
           stop := First(s.stop, FailFast(result, PartialResults(job.ids, results))))
      else s.(results := results, workers := s.workers[w := Idle])
    case Finish(w, Escaped(cause)) =>
      s.(raised := s.raised + {s.workers[w].i}, workers := s.workers[w := Crashed],
         stop := First(s.stop, Uncaught(s.workers[w].i, cause)))
  }

  /** Only the first exception counts. */
  function First(stop: Option<Stop>, next: Stop): Option<Stop> {
    if stop.Some? then stop else Some(next)
  }

  // ----- the invariant -----

  /** Items taken from the queue so far. */
  function Taken(s: State): int { s.produced - |s.queue| }

  function Exits(workers: seq<Worker>): nat {
    if workers == [] then 0
    else Exits(workers[..|workers| - 1]) + if workers[|workers| - 1].Exited? then 1 else 0
  }

  function BusyCount(workers: seq<Worker>): nat {
    if workers == [] then 0
    else BusyCount(workers[..|workers| - 1]) + if workers[|workers| - 1].Busy? then 1 else 0
  }

  /** The queue is exactly the part of the stream between what was taken and what was produced. */
  ghost predicate QueueOk(job: Job, s: State) {
    && |s.queue| <= job.capacity && |s.queue| <= s.produced <= |Stream(job)|
    && s.queue == Stream(job)[Taken(s)..s.produced]
  }

  /** Request `i` is being worked on. */
  ghost predicate InWorker(workers: seq<Worker>, i: nat) {
    exists w :: 0 <= w < |workers| && workers[w] == Busy(i)
  }

  ghost predicate InOneWorker(workers: seq<Worker>) {
    forall v, w :: 0 <= v < w < |workers| && workers[v].Busy? ==> workers[v] != workers[w]
  }

  predicate ExactlyOne(a: bool, b: bool, c: bool) {
    (a || b || c) && !(a && b) && !(a && c) && !(b && c)
  }

  predicate NoneOf(a: bool, b: bool, c: bool) { !a && !b && !c }

  /** Each taken request is in exactly one place: in one worker, finished with a result, or ended by an
      exception; an untaken one is in none of them. */
  ghost predicate Conserved(job: Job, s: State) {
    && InOneWorker(s.workers)
    && (forall i: nat :: i < |job.ids| ==>
          if i < Taken(s) then ExactlyOne(InWorker(s.workers, i), job.ids[i] in s.results, i in s.raised)
          else NoneOf(InWorker(s.workers, i), job.ids[i] in s.results, i in s.raised))
    && (forall i: nat :: InWorker(s.workers, i) || i in s.raised ==> i < |job.ids|)
    && (forall id :: id in s.results ==> id in job.ids && s.results[id].requestId == id)
  }

  ghost predicate SomeRaised(workers: seq<Worker>) {
    exists w :: 0 <= w < |workers| && workers[w].Crashed?
  }

  ghost predicate WorkersOk(job: Job, s: State) {
    && |s.workers| == job.workerCount
    && Exits(s.workers) == (if Taken(s) <= |job.ids| then 0 else Taken(s) - |job.ids|)
    && (SomeRaised(s.workers) ==> s.stop.Some?)
    && (s.raised != {} ==> SomeRaised(s.workers))
  }

  /** A request too large for the budget never has a result. */
  ghost predicate WithinBudget(job: Job, s: State) {
    forall i: nat :: i < |job.ids| && job.ids[i] in s.results ==> !TooLarge(job, i)
  }

  /** What a fail-fast failure carries was a subset of today's results and includes the failure; any other
      exception belongs to a request that raised, and names the budget exactly when that was the reason. */
  ghost predicate StopOk(job: Job, s: State) {
    match s.stop
    case None => true
    case Some(FailFast(failure, partial)) =>
      && Raises(job, failure) && failure in partial && OrderedSubsequence(job.ids, partial)
      && forall r :: r in partial ==> r.requestId in s.results && s.results[r.requestId] == r
    case Some(Uncaught(i, cause)) =>
      i < |job.ids| && i in s.raised && (cause.OverBudget? <==> TooLarge(job, i))
  }

  /** Results of some of the requests, in request order, each once. */
  ghost predicate OrderedSubsequence(ids: seq<string>, rs: seq<GenerationResult>) {
    exists at :: Positions(ids, rs, at)
  }

  ghost predicate Positions(ids: seq<string>, rs: seq<GenerationResult>, at: seq<nat>) {
    && |at| == |rs|
    && (forall k :: 0 <= k < |at| ==> at[k] < |ids| && ids[at[k]] == rs[k].requestId)
    && (forall k, m :: 0 <= k < m < |at| ==> at[k] < at[m])
  }

  ghost predicate Inv(job: Job, s: State) {
    && JobOk(job) && QueueOk(job, s) && Conserved(job, s) && WorkersOk(job, s)
    && WithinBudget(job, s) && StopOk(job, s)
  }

  lemma StartOk(job: Job)
    requires JobOk(job)
    ensures Inv(job, Start(job))
  {
    NoneBusy(Start(job).workers);
  }

  lemma {:induction false} NoneBusy(workers: seq<Worker>)
    requires forall w :: 0 <= w < |workers| ==> workers[w].Idle?
    ensures Exits(workers) == 0 && BusyCount(workers) == 0
  {
    if workers != [] { NoneBusy(workers[..|workers| - 1]); }
  }

  lemma {:induction false} CountMove(workers: seq<Worker>, w: nat, x: Worker)
    requires w < |workers|
    ensures var after := workers[w := x];
            && Exits(after) == Exits(workers) + (if x.Exited? then 1 else 0) - (if workers[w].Exited? then 1 else 0)
            && BusyCount(after) == BusyCount(workers) + (if x.Busy? then 1 else 0) - (if workers[w].Busy? then 1 else 0)
  {
    var n := |workers| - 1;
    var after := workers[w := x];
    if w < n {
      CountMove(workers[..n], w, x);
      assert after[..n] == workers[..n][w := x];
    } else {
      assert after[..n] == workers[..n];
    }
  }

  // ----- the producer -----

  lemma PutKeeps(job: Job, s: State)
    requires Enabled(job, s, Put)
    requires Inv(job, s)
    ensures Inv(job, Next(job, s, Put))
  {
    hide Stream, StopOk, OrderedSubsequence, WithinBudget;
    var t := Next(job, s, Put);
    assert Taken(t) == Taken(s);
    assert Stream(job)[Taken(s)..t.produced] == Stream(job)[Taken(s)..s.produced] + [Stream(job)[s.produced]];
    StopKept(job, s, t);
  }

  lemma StopKept(job: Job, s: State, t: State)
    requires StopOk(job, s) && t.stop == s.stop && s.raised <= t.raised
    requires forall id :: id in s.results ==> id in t.results && t.results[id] == s.results[id]
    ensures StopOk(job, t)
    ensures WithinBudget(job, s) && t.results == s.results ==> WithinBudget(job, t)
  {
    hide OrderedSubsequence;
  }

  // ----- a worker takes an item -----

  /** A sentinel reaches the front of the queue only after every request has been taken. */
  lemma FrontItem(job: Job, s: State)
    requires QueueOk(job, s) && s.queue != []
    ensures s.queue[0] == if Taken(s) < |job.ids| then Request(Taken(s)) else Sentinel
    ensures QueueOk(job, s.(queue := s.queue[1..]))
  {
    assert s.queue[0] == Stream(job)[Taken(s)];
    assert Stream(job)[Taken(s)..s.produced][1..] == Stream(job)[Taken(s) + 1..s.produced];
  }

  lemma BusyAfter(workers: seq<Worker>, w: nat, x: Worker, i: nat)
    requires w < |workers| && InOneWorker(workers)
    ensures InWorker(workers[w := x], i) <==> x == Busy(i) || (InWorker(workers, i) && workers[w] != Busy(i))
  {
    var after := workers[w := x];
    if x == Busy(i) { assert after[w] == Busy(i); }
    if v :| 0 <= v < |workers| && workers[v] == Busy(i) && workers[w] != Busy(i) { assert after[v] == Busy(i); }
    if v :| 0 <= v < |after| && after[v] == Busy(i) && v != w { assert workers[v] == Busy(i); }
  }

  /** Request `i` is in a worker after worker `w` became `x`. */
  ghost predicate StillIn(workers: seq<Worker>, w: nat, x: Worker, i: nat)
    requires w < |workers|
  {
    x == Busy(i) || (InWorker(workers, i) && workers[w] != Busy(i))
  }

  lemma ConservedBy(job: Job, s: State, t: State, w: nat, x: Worker)
    requires Conserved(job, s) && w < |s.workers| && t.workers == s.workers[w := x]
    requires x.Busy? ==> x.i < |job.ids| && !InWorker(s.workers, x.i)
    requires forall i: nat :: i in t.raised ==> i < |job.ids|
    requires forall i: nat :: i < |job.ids| ==>
      if i < Taken(t) then ExactlyOne(StillIn(s.workers, w, x, i), job.ids[i] in t.results, i in t.raised)
      else NoneOf(StillIn(s.workers, w, x, i), job.ids[i] in t.results, i in t.raised)
    requires forall id :: id in t.results ==> id in job.ids && t.results[id].requestId == id
    ensures Conserved(job, t)
  {
    hide InWorker;
    forall i: nat ensures InWorker(t.workers, i) <==> StillIn(s.workers, w, x, i) {
      BusyAfter(s.workers, w, x, i);
    }
    if x.Busy? { NotInWorker(s.workers, x.i); }
  }

  lemma NotInWorker(workers: seq<Worker>, i: nat)
    requires !InWorker(workers, i)
    ensures forall v :: 0 <= v < |workers| ==> workers[v] != Busy(i)
  {}

  lemma IsInWorker(workers: seq<Worker>, w: nat)
    requires w < |workers| && workers[w].Busy?
    ensures InWorker(workers, workers[w].i)
  {}

  /** Whether some worker raised, after worker `w`, which had not, became `x`. */
  lemma RaisedAfter(workers: seq<Worker>, w: nat, x: Worker)
    requires w < |workers| && !workers[w].Crashed?
    ensures SomeRaised(workers[w := x]) <==> x.Crashed? || SomeRaised(workers)
  {
    var after := workers[w := x];
    if x.Crashed? { assert after[w].Crashed?; }
    if v :| 0 <= v < |workers| && workers[v].Crashed? { assert after[v].Crashed?; }
    if v :| 0 <= v < |after| && after[v].Crashed? && v != w { assert workers[v].Crashed?; }
  }

  lemma GetKeeps(job: Job, s: State, w: nat)
    requires Enabled(job, s, Get(w))
    requires Inv(job, s)
    ensures Inv(job, Next(job, s, Get(w)))
  {
    hide Stream, QueueOk, StopOk, WithinBudget, InWorker, OrderedSubsequence, Exits, BusyCount, InOneWorker, SomeRaised;
    var t := Next(job, s, Get(w));
    FrontItem(job, s);
    QueueFrame(job, s, t);
    CountMove(s.workers, w, t.workers[w]);
    RaisedAfter(s.workers, w, t.workers[w]);
    ConservedBy(job, s, t, w, t.workers[w]);
    StopKept(job, s, t);
  }

  lemma QueueFrame(job: Job, s: State, t: State)
    requires QueueOk(job, s.(queue := t.queue)) && t.produced == s.produced
    ensures QueueOk(job, t)
  {}

  // ----- a worker finishes a request -----

  lemma DistinctPositions(job: Job, i: nat, j: nat)
    requires JobOk(job) && i < |job.ids| && j < |job.ids|
    ensures job.ids[i] == job.ids[j] <==> i == j
  {}

  lemma FinishConserves(job: Job, s: State, w: nat, end: RequestEnd)
    requires Enabled(job, s, Finish(w, end))
    requires Inv(job, s)
    ensures Conserved(job, Next(job, s, Finish(w, end)))
  {
    hide Stream, QueueOk, StopOk, WithinBudget, InWorker, OrderedSubsequence, Exits, BusyCount, InOneWorker, JobOk, SomeRaised,
         PartialResults;
    var t := Next(job, s, Finish(w, end));
    var i := s.workers[w].i;
    IsInWorker(s.workers, w);
    forall j: nat | j < |job.ids| ensures job.ids[j] == job.ids[i] <==> j == i { DistinctPositions(job, j, i); }
    ConservedBy(job, s, t, w, t.workers[w]);
  }

  /** A request in a worker has no result yet, so finishing it overwrites nothing. */
  lemma FinishIsFirst(job: Job, s: State, w: nat, end: RequestEnd)
    requires Enabled(job, s, Finish(w, end))
    requires Inv(job, s)
    ensures job.ids[s.workers[w].i] !in s.results && s.workers[w].i !in s.raised
  {
    IsInWorker(s.workers, w);
  }

  lemma {:induction false} PartialMember(ids: seq<string>, results: map<string, GenerationResult>, r: GenerationResult)
    ensures r in PartialResults(ids, results) <==> exists id :: id in ids && id in results && results[id] == r
  {
    if ids != [] {
      PartialMember(ids[1..], results, r);
      assert ids == [ids[0]] + ids[1..];
    }
  }

  function Shifted(at: seq<nat>): (r: seq<nat>)
    ensures |r| == |at| && forall k :: 0 <= k < |r| ==> r[k] == at[k] + 1
  {
    seq(|at|, k requires 0 <= k < |at| => at[k] + 1)
  }

  lemma PositionsShift(ids: seq<string>, rs: seq<GenerationResult>, at: seq<nat>)
    requires ids != [] && Positions(ids[1..], rs, at)
    ensures Positions(ids, rs, Shifted(at))
  {
    forall k | 0 <= k < |at| ensures ids[Shifted(at)[k]] == rs[k].requestId {
      assert ids[at[k] + 1] == ids[1..][at[k]];
    }
  }

  lemma PositionsCons(ids: seq<string>, rs: seq<GenerationResult>, at: seq<nat>, r: GenerationResult)
    requires ids != [] && Positions(ids, rs, Shifted(at)) && r.requestId == ids[0]
    ensures Positions(ids, [r] + rs, [0] + Shifted(at))
  {}

  lemma {:induction false} PartialOrdered(ids: seq<string>, results: map<string, GenerationResult>) returns (at: seq<nat>)
    requires forall id :: id in results ==> results[id].requestId == id
    ensures Positions(ids, PartialResults(ids, results), at)
  {
    if ids == [] {
      at := [];
    } else {
      hide Positions, Shifted;
      var rest := PartialOrdered(ids[1..], results);
      var rs := PartialResults(ids[1..], results);
      PositionsShift(ids, rs, rest);
      if ids[0] in results {
        PositionsCons(ids, rs, rest, results[ids[0]]);
        at := [0] + Shifted(rest);
      } else {
        at := Shifted(rest);
        assert [] + rs == rs;
      }
    }
  }

  lemma FailFastOk(job: Job, s: State, w: nat, result: GenerationResult)
    requires Enabled(job, s, Finish(w, Answered(result))) && Raises(job, result) && s.stop.None?
    requires Inv(job, s)
    ensures StopOk(job, Next(job, s, Finish(w, Answered(result))))
  {
    hide Stream, QueueOk, WorkersOk, InWorker, PartialResults, InOneWorker, JobOk, WithinBudget;
    var t := Next(job, s, Finish(w, Answered(result)));
    var partial := PartialResults(job.ids, t.results);
    var id := job.ids[s.workers[w].i];
    assert id in job.ids && id in t.results && t.results[id] == result;
    PartialMember(job.ids, t.results, result);
    var at := PartialOrdered(job.ids, t.results);
    assert OrderedSubsequence(job.ids, partial);
    hide OrderedSubsequence;
    assert forall id :: id in t.results ==> t.results[id].requestId == id;
    forall r | r in partial ensures r.requestId in t.results && t.results[r.requestId] == r {
      PartialMember(job.ids, t.results, r);
    }
    hide Conserved;
  }

  /** A fail-fast failure carries every result there is at that moment, and nothing else. */
  lemma FailureCarriesEverything(job: Job, s: State, w: nat, result: GenerationResult, r: GenerationResult)
    requires Enabled(job, s, Finish(w, Answered(result))) && Raises(job, result) && s.stop.None?
    requires Inv(job, s)
    ensures var t := Next(job, s, Finish(w, Answered(result)));
            r in t.stop.value.partial <==> exists id :: id in t.results && t.results[id] == r
  {
    hide QueueOk, WorkersOk, StopOk, WithinBudget, InWorker, InOneWorker, PartialResults;
    PartialMember(job.ids, Next(job, s, Finish(w, Answered(result))).results, r);
  }

  lemma FinishStops(job: Job, s: State, w: nat, end: RequestEnd)
    requires Enabled(job, s, Finish(w, end))
    requires Inv(job, s)
    ensures StopOk(job, Next(job, s, Finish(w, end)))
  {
    var t := Next(job, s, Finish(w, end));
    FinishIsFirst(job, s, w, end);
    hide Stream, Conserved, InWorker, OrderedSubsequence, QueueOk, WorkersOk, JobOk, PartialResults, WithinBudget;
    if s.stop.None? && end.Answered? && Raises(job, end.result) {
      FailFastOk(job, s, w, end.result);
    } else if t.stop == s.stop {
      StopKept(job, s, t);
    }
  }

  lemma FinishWithinBudget(job: Job, s: State, w: nat, end: RequestEnd)
    requires Enabled(job, s, Finish(w, end))
    requires Inv(job, s)
    ensures WithinBudget(job, Next(job, s, Finish(w, end)))
  {
    hide Stream, Conserved, OrderedSubsequence, QueueOk, WorkersOk, StopOk, PartialResults;
    var t := Next(job, s, Finish(w, end));
    forall i: nat | i < |job.ids| && job.ids[i] in t.results ensures !TooLarge(job, i) {
      DistinctPositions(job, i, s.workers[w].i);
    }
  }

  lemma FinishWorkers(job: Job, s: State, w: nat, end: RequestEnd)
    requires Enabled(job, s, Finish(w, end))
    requires QueueOk(job, s) && WorkersOk(job, s)
    ensures QueueOk(job, Next(job, s, Finish(w, end))) && WorkersOk(job, Next(job, s, Finish(w, end)))
  {
    hide Stream, Exits, BusyCount, PartialResults, SomeRaised, CanEnd;
    var t := Next(job, s, Finish(w, end));
    CountMove(s.workers, w, t.workers[w]);
    RaisedAfter(s.workers, w, t.workers[w]);
  }

  lemma FinishKeeps(job: Job, s: State, w: nat, end: RequestEnd)
    requires Enabled(job, s, Finish(w, end))
    requires Inv(job, s)
    ensures Inv(job, Next(job, s, Finish(w, end)))
  {
    FinishConserves(job, s, w, end);
    FinishStops(job, s, w, end);
    FinishWithinBudget(job, s, w, end);
    FinishWorkers(job, s, w, end);
    hide Next, Conserved, QueueOk, WorkersOk, StopOk, WithinBudget, JobOk;
  }

  lemma StepKeeps(job: Job, s: State, step: Step)
    requires Enabled(job, s, step)
    requires Inv(job, s)
    ensures Inv(job, Next(job, s, step))
  {
    hide Inv, Next, Enabled;
    match step
    case Put => PutKeeps(job, s);
    case Get(w) => GetKeeps(job, s, w);
    case Finish(w, end) => FinishKeeps(job, s, w, end);
  }

  // ----- progress -----

  ghost predicate Complete(job: Job, s: State) {
    s.produced == |Stream(job)| && forall w :: 0 <= w < |s.workers| ==> s.workers[w].Exited?
  }

  ghost predicate CanStep(job: Job, s: State) {
    exists step :: Enabled(job, s, step)
  }

  /** The HTTP client raises nothing that the retry loop does not handle. */
  predicate Orderly(step: Step) {
    step.Finish? ==> step.end != Escaped(ClientFailure)
  }

  lemma {:induction false} AllExited(workers: seq<Worker>)
    ensures Exits(workers) <= |workers|
    ensures Exits(workers) == |workers| <==> forall w :: 0 <= w < |workers| ==> workers[w].Exited?
  {
    if workers != [] { AllExited(workers[..|workers| - 1]); }
  }

  /** Until the batch is complete or an exception has left a worker, some step is enabled, and one that
      needs no exception of the client. */
  lemma NeverStuck(job: Job, s: State)
    requires !Complete(job, s) && s.stop.None?
    requires Inv(job, s)
    ensures exists step :: Orderly(step) && Enabled(job, s, step)
  {
    hide Stream, StopOk, Exits, InWorker, OrderedSubsequence, WithinBudget;
    AllExited(s.workers);
    if w :| 0 <= w < |s.workers| && s.workers[w].Busy? {
      IsInWorker(s.workers, w);
      var i := s.workers[w].i;
      var end := if TooLarge(job, i) then Escaped(OverBudget)
                 else Answered(GenerationResult(job.ids[i], "", Succeeded, [""], 1, None, []));
      assert Orderly(Finish(w, end)) && Enabled(job, s, Finish(w, end));
    } else if w :| 0 <= w < |s.workers| && s.workers[w].Idle? && s.queue != [] {
      assert Orderly(Get(w)) && Enabled(job, s, Get(w));
    } else if s.produced < |Stream(job)| && s.queue == [] {
      assert Orderly(Put) && Enabled(job, s, Put);
    }
  }

  /** Steps ahead: three per item not produced, two per item queued, one per busy worker. */
  function Remaining(job: Job, s: State): int {
    3 * (|Stream(job)| - s.produced) + 2 * |s.queue| + BusyCount(s.workers)
  }

  lemma StepLowers(job: Job, s: State, step: Step)
    requires Enabled(job, s, step)
    requires Inv(job, s)
    ensures 0 <= Remaining(job, Next(job, s, step)) < Remaining(job, s)
  {
    hide Stream, StopOk, WithinBudget, Exits, BusyCount, InWorker, OrderedSubsequence, Conserved, WorkersOk, PartialResults;
    match step
    case Put =>
    case Get(w) => CountMove(s.workers, w, Next(job, s, step).workers[w]);
    case Finish(w, _) => CountMove(s.workers, w, Next(job, s, step).workers[w]);
  }

  // ----- whole schedules -----

  ghost predicate Schedule(job: Job, s: State, steps: seq<Step>)
    decreases |steps|
  {
    steps != [] ==> Enabled(job, s, steps[0]) && Schedule(job, Next(job, s, steps[0]), steps[1..])
  }

  ghost function After(job: Job, s: State, steps: seq<Step>): State
    requires Schedule(job, s, steps)
    decreases |steps|
  {
    if steps == [] then s else After(job, Next(job, s, steps[0]), steps[1..])
  }

  lemma {:induction false} ScheduleKeeps(job: Job, s: State, steps: seq<Step>)
    requires Schedule(job, s, steps)
    requires Inv(job, s)
    ensures Inv(job, After(job, s, steps))
    ensures |steps| + Remaining(job, After(job, s, steps)) <= Remaining(job, s)
    ensures steps != [] ==> Remaining(job, After(job, s, steps)) >= 0
    decreases |steps|
  {
    hide Inv, Next, Enabled, Remaining;
    if steps != [] {
      StepKeeps(job, s, steps[0]);
      StepLowers(job, s, steps[0]);
      ScheduleKeeps(job, Next(job, s, steps[0]), steps[1..]);
    }
  }

  // ----- stored results are the answers the requests ended with -----

  /** The step ends a request with this result. */
  predicate Ends(step: Step, result: GenerationResult) { step.Finish? && step.end == Answered(result) }

  ghost predicate Given(steps: seq<Step>, result: GenerationResult) {
    exists j :: 0 <= j < |steps| && Ends(steps[j], result)
  }

  /** The result is stored, under its own request ID. */
  predicate Has(results: map<string, GenerationResult>, result: GenerationResult) {
    result.requestId in results && results[result.requestId] == result
  }

  /** One step stores its answer as it is, under a new key, and nothing else. */
  lemma StepStores(job: Job, s: State, step: Step, result: GenerationResult)
    requires Enabled(job, s, step)
    requires Inv(job, s)
    ensures Has(Next(job, s, step).results, result) <==> Has(s.results, result) || Ends(step, result)
  {
    hide Stream, PartialResults, Conserved, WithinBudget, StopOk, QueueOk, WorkersOk;
    if step.Finish? { FinishIsFirst(job, s, step.w, step.end); }
  }

  lemma GivenCons(steps: seq<Step>, result: GenerationResult)
    requires steps != []
    ensures Given(steps, result) <==> Ends(steps[0], result) || Given(steps[1..], result)
  {
    if Given(steps[1..], result) {
      var j :| 0 <= j < |steps[1..]| && Ends(steps[1..][j], result);
      assert Ends(steps[j + 1], result);
    }
    if j :| 0 <= j < |steps| && Ends(steps[j], result) && j > 0 { assert Ends(steps[1..][j - 1], result); }
  }

  lemma {:induction false} ResultsGrow(job: Job, s: State, steps: seq<Step>, result: GenerationResult)
    requires Schedule(job, s, steps)
    requires Inv(job, s)
    ensures Has(After(job, s, steps).results, result) <==> Has(s.results, result) || Given(steps, result)
    decreases |steps|
  {
    hide Inv, Next, Enabled, Has, Ends, Given;
    if steps == [] {
      assert !Given(steps, result) by { NothingGiven(result); }
    } else {
      StepKeeps(job, s, steps[0]);
      StepStores(job, s, steps[0], result);
      ResultsGrow(job, Next(job, s, steps[0]), steps[1..], result);
      GivenCons(steps, result);
    }
  }

  lemma NothingGiven(result: GenerationResult)
    ensures !Given([], result)
  {}

  /** Under every schedule, the results present are exactly the answers the requests have ended with so far:
      an answer is stored unchanged and stays, and nothing else is stored. */
  lemma ResultsAreAnswers(job: Job, steps: seq<Step>, result: GenerationResult)
    requires JobOk(job) && Schedule(job, Start(job), steps)
    ensures Has(After(job, Start(job), steps).results, result) <==> Given(steps, result)
    ensures forall id :: id in After(job, Start(job), steps).results ==>
              After(job, Start(job), steps).results[id].requestId == id
  {
    hide Given;
    StartOk(job);
    ResultsGrow(job, Start(job), steps, result);
    ScheduleKeeps(job, Start(job), steps);
  }

  /** Exactly one result per request, in request order. */
  ghost predicate Answers(ids: seq<string>, rs: seq<GenerationResult>) {
    |rs| == |ids| && forall i :: 0 <= i < |ids| ==> rs[i].requestId == ids[i]
  }

  /** At completion every request has its own result, none was too large, and nothing is queued. */
  lemma CompleteMeansAll(job: Job, s: State)
    requires Complete(job, s)
    requires Inv(job, s)
    ensures s.queue == [] && s.raised == {}
    ensures forall i: nat :: i < |job.ids| ==>
      job.ids[i] in s.results && s.results[job.ids[i]].requestId == job.ids[i] && !TooLarge(job, i)
  {
    hide StopOk, Exits, OrderedSubsequence;
    AllExited(s.workers);
    assert !SomeRaised(s.workers);
    forall i: nat | i < |job.ids| ensures job.ids[i] in s.results {
      assert !InWorker(s.workers, i);
    }
  }

  /** Under every schedule: the queue never exceeds its capacity; each request is in exactly one place; a
      worker stops only after all requests are taken; the batch ends within three steps per item; and until
      it is complete or an exception has left a worker some step is enabled. */
  lemma BatchIsSafeAndLive(job: Job, steps: seq<Step>)
    requires JobOk(job) && Schedule(job, Start(job), steps)
    ensures var s := After(job, Start(job), steps);
            && |s.queue| <= job.capacity && Conserved(job, s)
            && (Exits(s.workers) > 0 ==> Taken(s) > |job.ids|)
            && |steps| <= 3 * (|job.ids| + job.workerCount)
            && (Complete(job, s) || s.stop.Some? || CanStep(job, s))
  {
    hide Conserved, CanStep, Complete, StopOk, WithinBudget, After, Exits, BusyCount;
    StartOk(job);
    ScheduleKeeps(job, Start(job), steps);
    var s := After(job, Start(job), steps);
    assert Remaining(job, Start(job)) == 3 * |Stream(job)| by { NoneBusy(Start(job).workers); }
    if !Complete(job, s) && s.stop.None? {
      NeverStuck(job, s);
      StepMeansCan(job, s);
    }
  }

  lemma StepMeansCan(job: Job, s: State)
    requires exists step :: Orderly(step) && Enabled(job, s, step)
    ensures CanStep(job, s)
  {}

  // ----- exactly when a batch returns -----

  ghost predicate AllOrderly(steps: seq<Step>) {
    forall i :: 0 <= i < |steps| ==> Orderly(steps[i])
  }

  /** The call is over: complete, or about to raise. */
  ghost predicate Ended(job: Job, s: State) { Complete(job, s) || s.stop.Some? }

  /** Any schedule can be continued to the end without an exception of the client. */
  lemma {:induction false} RunsToEnd(job: Job, s: State) returns (steps: seq<Step>)
    requires Inv(job, s)
    ensures Schedule(job, s, steps) && AllOrderly(steps) && Ended(job, After(job, s, steps))
    decreases Remaining(job, s)
  {
    hide Inv, Next, Enabled, Remaining, Complete;
    if Ended(job, s) {
      steps := [];
    } else {
      NeverStuck(job, s);
      var step :| Orderly(step) && Enabled(job, s, step);
      StepKeeps(job, s, step);
      StepLowers(job, s, step);
      var rest := RunsToEnd(job, Next(job, s, step));
      steps := [step] + rest;
      assert steps[1..] == rest;
    }
  }

  /** Without fail-fast and without exceptions of the client, only a request too large stops the batch. */
  lemma StepStaysClear(job: Job, s: State, step: Step)
    requires Enabled(job, s, step) && Orderly(step) && !job.failFast && s.stop.None?
    requires forall i: nat :: i < |job.ids| ==> !TooLarge(job, i)
    ensures Next(job, s, step).stop.None?
  {
    hide PartialResults;
  }

  lemma {:induction false} StaysClear(job: Job, s: State, steps: seq<Step>)
    requires Schedule(job, s, steps) && AllOrderly(steps) && !job.failFast && s.stop.None?
    requires forall i: nat :: i < |job.ids| ==> !TooLarge(job, i)
    ensures After(job, s, steps).stop.None?
    decreases |steps|
  {
    hide Next, Enabled, TooLarge, Orderly;
    if steps != [] {
      StepStaysClear(job, s, steps[0]);
      StaysClear(job, Next(job, s, steps[0]), steps[1..]);
    }
  }

  /** Every orderly schedule of the batch that is over returned all results. */
  ghost predicate AlwaysReturns(job: Job) {
    forall steps :: Schedule(job, Start(job), steps) && AllOrderly(steps) && Ended(job, After(job, Start(job), steps)) ==>
      Complete(job, After(job, Start(job), steps))
  }

  /** Without fail-fast a batch returns one result per request, under every schedule and whatever the
      replies, exactly when no request asks for more than the token budget. */
  lemma ReturnsExactlyWhenWithinBudget(job: Job)
    requires JobOk(job) && !job.failFast
    ensures AlwaysReturns(job) <==> forall i: nat :: i < |job.ids| ==> !TooLarge(job, i)
  {
    hide Conserved, StopOk, WithinBudget, QueueOk, WorkersOk, After, Complete, AllOrderly, Schedule;
    StartOk(job);
    if forall i: nat :: i < |job.ids| ==> !TooLarge(job, i) {
      forall steps | Schedule(job, Start(job), steps) && AllOrderly(steps) && Ended(job, After(job, Start(job), steps))
        ensures Complete(job, After(job, Start(job), steps))
      {
        StaysClear(job, Start(job), steps);
      }
    } else {
      var steps := RunsToEnd(job, Start(job));
      ScheduleKeeps(job, Start(job), steps);
      if Complete(job, After(job, Start(job), steps)) { CompleteMeansAll(job, After(job, Start(job), steps)); }
    }
  }

  /** One request of two is too large: without fail-fast the call raises and the other request's result is lost. */
  lemma OversizeRaises()
    ensures var job := Job(["large", "small"], [2, 1], 1, 1, 1, false);
            var steps := [Put, Get(0), Finish(0, Escaped(OverBudget))];
            && JobOk(job) && Schedule(job, Start(job), steps)
            && After(job, Start(job), steps).stop == Some(Uncaught(0, OverBudget))
            && After(job, Start(job), steps).results == map[]
  {
    var job := Job(["large", "small"], [2, 1], 1, 1, 1, false);
    var steps := [Put, Get(0), Finish(0, Escaped(OverBudget))];
    var s0 := Start(job);
    assert "large"[0] != "small"[0];
    assert TooLarge(job, 0);
    var s1 := Next(job, s0, Put);
    assert s1.queue == [Request(0)];
    var s2 := Next(job, s1, Get(0));
    assert s2.workers == [Busy(0)];
    ScheduleCons(job, s2, steps[2], []);
    ScheduleCons(job, s1, steps[1], [steps[2]]);
    ScheduleCons(job, s0, steps[0], [steps[1], steps[2]]);
    assert [steps[2]] + [] == [steps[2]] && [steps[1]] + [steps[2]] == [steps[1], steps[2]];
    assert [steps[0]] + [steps[1], steps[2]] == steps;
  }

  lemma ScheduleCons(job: Job, s: State, step: Step, rest: seq<Step>)
    requires Enabled(job, s, step) && Schedule(job, Next(job, s, step), rest)
    ensures Schedule(job, s, [step] + rest) && After(job, s, [step] + rest) == After(job, Next(job, s, step), rest)
  {
    hide Enabled, Next;
    assert ([step] + rest)[1..] == rest;
  }

  // ----- the batch call -----

  datatype BatchOutcome =
    | Results(results: seq<GenerationResult>)
    | FailedFast(failure: GenerationResult, partial: seq<GenerationResult>)
    | DuplicateIds
    | Raised(cause: Cause)

  ghost predicate DistinctIds(ids: seq<string>) {
    forall i, j :: 0 <= i < j < |ids| ==> ids[i] != ids[j]
  }

  /** An event loop that always runs something that can run. */
  ghost predicate Fair(schedule: (Job, State) -> Step) {
    forall job, s :: CanStep(job, s) ==> Enabled(job, s, schedule(job, s))
  }

  ghost predicate OrderlyLoop(schedule: (Job, State) -> Step) {
    forall job, s :: Orderly(schedule(job, s))
  }

  /** An orderly step where there is one, otherwise any. */
  ghost function AnyStep(job: Job, s: State): Step {
    if exists step :: Orderly(step) && Enabled(job, s, step) then
      var step :| Orderly(step) && Enabled(job, s, step); step
    else Put
  }

  lemma OrderlyStepExists(job: Job, s: State)
    requires CanStep(job, s)
    ensures exists step :: Orderly(step) && Enabled(job, s, step)
  {
    var step :| Enabled(job, s, step);
    if !Orderly(step) {
      var i := s.workers[step.w].i;
      var end := Answered(GenerationResult(job.ids[i], "", Succeeded, [""], 1, None, []));
      assert Orderly(Finish(step.w, end)) && Enabled(job, s, Finish(step.w, end));
    }
  }

  lemma FairExists()
    ensures exists schedule :: Fair(schedule) && OrderlyLoop(schedule)
  {
    hide Enabled, CanStep;
    var schedule := (job, s) => AnyStep(job, s);
    forall job, s | CanStep(job, s) ensures Enabled(job, s, schedule(job, s)) { OrderlyStepExists(job, s); }
    assert Fair(schedule) && OrderlyLoop(schedule);
  }

  ghost predicate NoneTooLarge(tokens: seq<nat>, budget: nat) {
    forall i :: 0 <= i < |tokens| ==> tokens[i] <= budget
  }

  /** What a batch call may answer. */
  ghost predicate AnswerOk(ids: seq<string>, tokens: seq<nat>, budget: nat, failFast: bool, r: BatchOutcome) {
    && (r.DuplicateIds? <==> !DistinctIds(ids))
    && match r
       case DuplicateIds => true
       case Results(rs) =>
         && Answers(ids, rs) && NoneTooLarge(tokens, budget)
         && (failFast ==> forall i :: 0 <= i < |rs| ==> rs[i].status.Succeeded?)
       case FailedFast(failure, partial) =>
         failFast && failure.status.Failed? && failure in partial && OrderedSubsequence(ids, partial)
       case Raised(cause) => cause.OverBudget? ==> !NoneTooLarge(tokens, budget)
  }

  function JobOf(ids: seq<string>, tokens: seq<nat>, budget: nat, maxConcurrency: nat, capacity: nat, failFast: bool): Job {
    Job(ids, tokens, budget, if maxConcurrency < |ids| then maxConcurrency else |ids|, capacity, failFast)
  }

  /** The steps the event loop chose, one after the other. */
  ghost predicate Follows(job: Job, schedule: (Job, State) -> Step, s: State, steps: seq<Step>)
    decreases |steps|
  {
    steps != [] ==>
      && steps[0] == schedule(job, s) && Enabled(job, s, steps[0])
      && Follows(job, schedule, Next(job, s, steps[0]), steps[1..])
  }

  lemma {:induction false} FollowsMore(job: Job, schedule: (Job, State) -> Step, s: State, steps: seq<Step>)
    requires Follows(job, schedule, s, steps)
    ensures Schedule(job, s, steps)
    ensures var t := After(job, s, steps); var step := schedule(job, t);
            Enabled(job, t, step) ==>
              && Follows(job, schedule, s, steps + [step]) && Schedule(job, s, steps + [step])
              && After(job, s, steps + [step]) == Next(job, t, step)
    decreases |steps|
  {
    hide Enabled, Next;
    if steps != [] {
      FollowsMore(job, schedule, Next(job, s, steps[0]), steps[1..]);
      var t := After(job, s, steps);
      assert (steps + [schedule(job, t)])[1..] == steps[1..] + [schedule(job, t)];
    }
  }

  /** The step ends in an exception that leaves its worker. */
  predicate Stops(job: Job, step: Step) {
    step.Finish? && (step.end.Escaped? || Raises(job, step.end.result))
  }

  ghost predicate Clear(job: Job, steps: seq<Step>) {
    forall j :: 0 <= j < |steps| ==> !Stops(job, steps[j])
  }

  /** The trace ran until its last step raised, if `s` has stopped, and without any exception otherwise. */
  ghost predicate StopFits(job: Job, trace: seq<Step>, s: State) {
    if s.stop.None? then Clear(job, trace)
    else
      && trace != [] && Clear(job, trace[..|trace| - 1]) && Stops(job, trace[|trace| - 1])
      && match s.stop.value
         case Uncaught(_, cause) => trace[|trace| - 1].end == Escaped(cause)
         case FailFast(failure, partial) =>
           && Ends(trace[|trace| - 1], failure)
           && forall result :: result in partial <==> Has(s.results, result)
  }

  lemma StopFitsNext(job: Job, trace: seq<Step>, s: State, step: Step)
    requires Enabled(job, s, step) && s.stop.None? && StopFits(job, trace, s)
    requires Inv(job, s)
    ensures StopFits(job, trace + [step], Next(job, s, step))
  {
    hide Stream, PartialResults, Conserved, WithinBudget, StopOk, QueueOk, WorkersOk, Has;
    var t := Next(job, s, step);
    assert (trace + [step])[..|trace|] == trace;
    if t.stop.Some? && t.stop.value.FailFast? {
      forall result ensures result in t.stop.value.partial <==> Has(t.results, result) {
        FailureCarriesEverything(job, s, step.w, step.end.result, result);
        StepKeeps(job, s, step);
        KeyedById(job, t, result);
      }
    }
  }

  lemma KeyedById(job: Job, s: State, result: GenerationResult)
    requires Inv(job, s)
    ensures Has(s.results, result) <==> exists id :: id in s.results && s.results[id] == result
  {}

  /** What the call answers are the answers its trace gave: the results are exactly those of its steps, a
      failure or an exception is that of the last step, and no earlier step raised. */
  ghost predicate Reports(job: Job, trace: seq<Step>, r: BatchOutcome) {
    match r
    case DuplicateIds => true
    case Results(rs) => Clear(job, trace) && forall result :: result in rs <==> Given(trace, result)
    case FailedFast(failure, partial) =>
      && trace != [] && Clear(job, trace[..|trace| - 1]) && Ends(trace[|trace| - 1], failure)
      && forall result :: result in partial <==> Given(trace, result)
    case Raised(cause) =>
      && trace != [] && Clear(job, trace[..|trace| - 1])
      && trace[|trace| - 1].Finish? && trace[|trace| - 1].end == Escaped(cause)
  }

  lemma ReportsStop(job: Job, trace: seq<Step>, s: State)
    requires JobOk(job) && Schedule(job, Start(job), trace) && s == After(job, Start(job), trace)
    requires s.stop.Some? && StopFits(job, trace, s)
    ensures Reports(job, trace, if s.stop.value.Uncaught? then Raised(s.stop.value.cause)
                                else FailedFast(s.stop.value.failure, s.stop.value.partial))
  {
    hide Given, Has, JobOk, After, Schedule, Raises;
    forall result ensures Has(s.results, result) <==> Given(trace, result) { ResultsAreAnswers(job, trace, result); }
  }

  lemma ReportsAll(job: Job, trace: seq<Step>, s: State, rs: seq<GenerationResult>)
    requires JobOk(job) && Schedule(job, Start(job), trace) && s == After(job, Start(job), trace)
    requires s.stop.None? && StopFits(job, trace, s) && |rs| == |job.ids|
    requires forall i :: 0 <= i < |rs| ==> job.ids[i] in s.results && rs[i] == s.results[job.ids[i]]
    requires Inv(job, s)
    ensures Reports(job, trace, Results(rs))
  {
    hide Given, JobOk, After, Schedule, Raises, QueueOk, WorkersOk, StopOk, WithinBudget, InWorker, InOneWorker;
    forall result ensures result in rs <==> Given(trace, result) {
      ResultsAreAnswers(job, trace, result);
      if Has(s.results, result) {
        var i :| 0 <= i < |job.ids| && job.ids[i] == result.requestId;
        assert rs[i] == result;
      }
    }
  }

  /** Runs the producer and the workers in any order the event loop chooses; `schedule` also supplies
      how each request ends. With a client that raises nothing unexpected and without fail-fast, the call
      returns all results exactly when no request is over the budget. */
  method GenerateMany(ids: seq<string>, tokens: seq<nat>, budget: nat, maxConcurrency: nat, capacity: nat, failFast: bool,
                      schedule: (Job, State) -> Step)
    returns (r: BatchOutcome, ghost trace: seq<Step>)
    requires maxConcurrency > 0 && capacity > 0 && |tokens| == |ids|
    requires Fair(schedule)
    ensures AnswerOk(ids, tokens, budget, failFast, r)
    ensures OrderlyLoop(schedule) && !failFast && DistinctIds(ids) ==> (r.Results? <==> NoneTooLarge(tokens, budget))
    ensures var job := JobOf(ids, tokens, budget, maxConcurrency, capacity, failFast);
            Follows(job, schedule, Start(job), trace) && Reports(job, trace, r)
  {
    hide Inv, Fair, OrderlyLoop, Follows, Reports, StopFits, Schedule, After;
    trace := [];
    var unique := AllDistinct(ids);
    var job := JobOf(ids, tokens, budget, maxConcurrency, capacity, failFast);
    TraceStarts(job, schedule);
    if !unique { return DuplicateIds, trace; }
    var workerCount := if maxConcurrency < |ids| then maxConcurrency else |ids|;
    if workerCount == 0 { return Results([]), trace; }
    var produced: nat, queue: seq<Item>, workers := 0, [], seq(workerCount, _ => Idle);
    var results: map<string, GenerationResult>, raised: set<nat>, stop := map[], {}, None;
    StartOk(job);
    ghost var s := Start(job);
    var running := true;
    while running && stop.None?
      invariant s == State(produced, queue, workers, results, raised, stop)
      invariant Inv(job, s)
      invariant Follows(job, schedule, Start(job), trace) && Schedule(job, Start(job), trace)
      invariant s == After(job, Start(job), trace) && StopFits(job, trace, s)
      invariant failFast && stop.None? ==> forall id :: id in results ==> results[id].status.Succeeded?
      invariant OrderlyLoop(schedule) && !failFast && NoneTooLarge(tokens, budget) ==> stop.None?
      invariant !running ==> Complete(job, s)
      decreases if running then Remaining(job, s) + 1 else 0
    {
      running := !(produced == |ids| + workerCount && AllWorkersExited(workers));
      if running {
        NeverStuck(job, s);
        StepMeansCan(job, s);
        var step := schedule(job, State(produced, queue, workers, results, raised, stop));
        assert Enabled(job, s, step) by { FairStep(job, schedule, s); }
        StepKeeps(job, s, step);
        StepLowers(job, s, step);
        StepClear(job, schedule, s);
        FollowsMore(job, schedule, Start(job), trace);
        StopFitsNext(job, trace, s, step);
        trace := trace + [step];
        s := Next(job, s, step);
        match step {
          case Put =>
            queue := queue + [if produced < |ids| then Request(produced) else Sentinel];
            produced := produced + 1;
          case Get(w) =>
            var item := queue[0];
            queue := queue[1..];
            workers := workers[w := if item.Sentinel? then Exited else Busy(item.i)];
          case Finish(w, end) =>
            if end.Escaped? {
              raised := raised + {workers[w].i};
              stop := Some(Uncaught(workers[w].i, end.cause));
              workers := workers[w := Crashed];
            } else {
              var result := end.result;
              results := results[result.requestId := result];
              if failFast && result.status.Failed? {
                workers := workers[w := Crashed];
                stop := Some(FailFast(result, PartialResults(ids, results)));
              } else {
                workers := workers[w := Idle];
              }
            }
        }
      }
    }
    if stop.Some? {
      StopIs(job, s);
      ReportsStop(job, trace, s);
      if stop.value.Uncaught? { return Raised(stop.value.cause), trace; }
      return FailedFast(stop.value.failure, stop.value.partial), trace;
    }
    CompleteMeansAll(job, s);
    assert NoneTooLarge(tokens, budget) by {
      forall i | 0 <= i < |tokens| ensures tokens[i] <= budget { assert !TooLarge(job, i); }
    }
    r := Results(seq(|ids|, i requires 0 <= i < |ids| => results[ids[i]]));
    ReportsAll(job, trace, s, r.results);
  }

  lemma TraceStarts(job: Job, schedule: (Job, State) -> Step)
    ensures Follows(job, schedule, Start(job), []) && Schedule(job, Start(job), [])
    ensures After(job, Start(job), []) == Start(job) && StopFits(job, [], Start(job))
    ensures Reports(job, [], Results([])) && Reports(job, [], DuplicateIds)
  {}

  lemma FairStep(job: Job, schedule: (Job, State) -> Step, s: State)
    requires Fair(schedule) && CanStep(job, s)
    ensures Enabled(job, s, schedule(job, s))
  {}

  lemma StepClear(job: Job, schedule: (Job, State) -> Step, s: State)
    requires Enabled(job, s, schedule(job, s)) && s.stop.None?
    ensures OrderlyLoop(schedule) && !job.failFast && NoneTooLarge(job.tokens, job.budget) ==>
              Next(job, s, schedule(job, s)).stop.None?
  {
    hide Enabled, Next;
    if OrderlyLoop(schedule) && !job.failFast && NoneTooLarge(job.tokens, job.budget) {
      StepStaysClear(job, s, schedule(job, s));
    }
  }

  lemma StopIs(job: Job, s: State)
    requires s.stop.Some?
    requires Inv(job, s)
    ensures match s.stop.value
            case FailFast(failure, partial) =>
              Raises(job, failure) && failure in partial && OrderedSubsequence(job.ids, partial)
            case Uncaught(i, cause) => i < |job.ids| == |job.tokens| && (cause.OverBudget? ==> job.tokens[i] > job.budget)
  {}

  predicate AllWorkersExited(workers: seq<Worker>) {
    forall w :: 0 <= w < |workers| ==> workers[w].Exited?
  }

  /** `len(set(ids)) == len(ids)`. */
  method AllDistinct(ids: seq<string>) returns (unique: bool)
    ensures unique <==> DistinctIds(ids)
  {
    var seen: set<string> := {};
    for i := 0 to |ids|
      invariant forall j :: 0 <= j < i ==> ids[j] in seen
      invariant forall id :: id in seen ==> id in ids[..i]
      invariant DistinctIds(ids[..i])
    {
      if ids[i] in seen { return false; }
      seen := seen + {ids[i]};
    }
    unique := true;
  }
}
