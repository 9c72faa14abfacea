/** The bounded driver: claim, submit, wait for any reply, commit; it may stop at any point. */
module Distributed {
  import opened Records
  import opened Ordering
  import opened ControlState
  import opened ControlInvariant
  import opened ControlHistory
  import opened ControlTheorems
  import opened InMemory
  import Encoding

  /** The immutable claim lineage handed to a worker. */
  datatype WorkItem = WorkItem(
    task: TaskKey, candidateHash: Sha256, attemptId: string, token: string, planId: string, planDigest: Sha256)

  /** What waiting on a reference yields: a framework failure or any envelope at all. */
  datatype WorkReply =
    | Crashed
    | Replied(attemptId: string, planDigest: Sha256, payload: Payload, domain: Option<FailureDomain>)

  datatype DriveFailure =
    | PlaneFailed(error: ControlError)
    | Outage
    | WorkerCrashed
    | LineageMismatch

  datatype DriveResult =
    | Returned(outcomes: seq<CommitOutcome>)
    | Failed(reason: DriveFailure)

  /** The inputs of one claim: a new attempt ID and token, the clock, and whether the process dies right
      after it. */
  datatype ClaimInput = ClaimInput(attempt: string, token: string, now: Time, outage: bool)

  /** The inputs of one commit: the clock, and whether an outage strikes before it or loses its answer. */
  datatype CommitInput = CommitInput(now: Time, before: bool, after: bool)

  /** Everything a drive does not control, by the number of claims and of rounds so far: IDs, clocks, outages
      and what each worker answers. */
  datatype Environment = Environment(
    claim: nat -> ClaimInput, commit: nat -> CommitInput, reply: (nat, WorkItem) -> WorkReply)

  // ----- bookkeeping of one drive: what was queued at the start is queued, in flight or committed -----

  function HeldKeys(inFlight: map<string, WorkItem>): set<TaskKey> {
    set a | a in inFlight :: inFlight[a].task
  }

  function DoneKeys(outcomes: seq<CommitOutcome>): set<TaskKey> {
    set i | 0 <= i < |outcomes| :: outcomes[i].result.key.task
  }

  /** Each item in flight is an active attempt of this worker on the item's task and plan. */
  ghost predicate FlightOk(s: State, worker: string, inFlight: map<string, WorkItem>) {
    forall a :: a in inFlight ==>
      && a in s.attempts && s.attempts[a].state.Active? && s.attempts[a].task == inFlight[a].task
      && s.attempts[a].worker == worker && s.attempts[a].token == inFlight[a].token
      && s.attempts[a].planId == inFlight[a].planId && s.attempts[a].planDigest == inFlight[a].planDigest
      && inFlight[a].attemptId == a
      && inFlight[a].task in s.tasks && inFlight[a].candidateHash == s.tasks[inFlight[a].task].candidateHash
  }

  ghost predicate OutcomesOk(s: State, outcomes: seq<CommitOutcome>) {
    && (forall i :: 0 <= i < |outcomes| ==>
          && outcomes[i].inserted && outcomes[i].result.key in s.results
          && s.results[outcomes[i].result.key] == outcomes[i].result)
    && (forall i, j :: 0 <= i < j < |outcomes| ==> outcomes[i].result.key.task != outcomes[j].result.key.task)
  }

  /** Every task queued at the start is in exactly one of three places. */
  ghost predicate Partition(start: set<TaskKey>, queued: set<TaskKey>, held: set<TaskKey>, done: set<TaskKey>) {
    && start == queued + held + done
    && queued !! held && queued !! done && held !! done
  }

  /** The drive only touches what was queued, and only adds attempts and results. */
  ghost predicate OnlyQueuedTouched(s0: State, s: State, start: set<TaskKey>) {
    && s.tasks.Keys == s0.tasks.Keys
    && s.attempts.Keys >= s0.attempts.Keys
    && (forall k :: k in s.tasks && k !in start ==> s.tasks[k] == s0.tasks[k])
    && (forall a :: a in s0.attempts ==> s.attempts[a] == s0.attempts[a])
    && (forall a :: a in s.attempts && a !in s0.attempts ==> s.attempts[a].task in start)
  }

  ghost predicate StoredExactly(s0: State, s: State, done: set<TaskKey>) {
    && s0.results.Keys <= s.results.Keys
    && (forall rk :: rk in s.results && rk !in s0.results ==> rk.task in done)
  }

  ghost predicate Driving(s0: State, s: State, run: string, worker: string,
                          inFlight: map<string, WorkItem>, outcomes: seq<CommitOutcome>)
  {
    && FlightOk(s, worker, inFlight)
    && inFlight.Keys !! s0.attempts.Keys
    && OutcomesOk(s, outcomes)
    && Partition(QueuedKeys(s0, run), QueuedKeys(s, run), HeldKeys(inFlight), DoneKeys(outcomes))
    && OnlyQueuedTouched(s0, s, QueuedKeys(s0, run))
    && StoredExactly(s0, s, DoneKeys(outcomes))
  }

  // ----- one claim -----

  lemma ClaimEffect(s: State, run: string, w: string, a: string, t: string, lease: Time, now: Time)
    requires ClaimTask(s, run, w, a, t, lease, now).outcome.Ok?
    requires ClaimTask(s, run, w, a, t, lease, now).outcome.value.Some?
    ensures var s' := ClaimTask(s, run, w, a, t, lease, now).state;
            var granted := ClaimTask(s, run, w, a, t, lease, now).outcome.value.value;
            && a !in s.attempts && granted.attemptId == a && granted.task in QueuedKeys(s, run)
            && granted.worker == w && granted.token == t && granted.state.Active?
            && s'.attempts == s.attempts[a := granted] && s'.results == s.results
            && s'.tasks == s.tasks[granted.task := s.tasks[granted.task].(state := TaskState.Leased, current := Some(a))]
            && QueuedKeys(s', run) == QueuedKeys(s, run) - {granted.task}
  {
    KeyOrder();
  }

  lemma FlightGrows(s: State, s': State, w: string, inFlight: map<string, WorkItem>, item: WorkItem, granted: AttemptLease)
    requires FlightOk(s, w, inFlight) && granted.attemptId !in s.attempts && granted.task in s.tasks
    requires s'.attempts == s.attempts[granted.attemptId := granted]
    requires s'.tasks == s.tasks[granted.task := s.tasks[granted.task].(state := TaskState.Leased, current := Some(granted.attemptId))]
    requires granted.state.Active? && granted.worker == w
    requires item == WorkItem(granted.task, s.tasks[granted.task].candidateHash, granted.attemptId, granted.token,
                              granted.planId, granted.planDigest)
    ensures FlightOk(s', w, inFlight[granted.attemptId := item])
    ensures HeldKeys(inFlight[granted.attemptId := item]) == HeldKeys(inFlight) + {granted.task}
  {
    var inFlight' := inFlight[granted.attemptId := item];
    assert granted.attemptId !in inFlight;
    forall k | k in HeldKeys(inFlight) ensures k in HeldKeys(inFlight') {
      var a :| a in inFlight && inFlight[a].task == k;
      assert inFlight'[a].task == k;
    }
    assert inFlight'[granted.attemptId].task == granted.task;
  }

  lemma PartitionClaim(start: set<TaskKey>, queued: set<TaskKey>, held: set<TaskKey>, done: set<TaskKey>, k: TaskKey)
    requires Partition(start, queued, held, done) && k in queued
    ensures Partition(start, queued - {k}, held + {k}, done) && k in start
  {}

  lemma ClaimAdvances(s0: State, s: State, run: string, w: string, inFlight: map<string, WorkItem>,
                      outcomes: seq<CommitOutcome>, a: string, t: string, lease: Time, now: Time, item: WorkItem)
    requires Driving(s0, s, run, w, inFlight, outcomes)
    requires ClaimTask(s, run, w, a, t, lease, now).outcome.Ok?
    requires ClaimTask(s, run, w, a, t, lease, now).outcome.value.Some?
    requires var granted := ClaimTask(s, run, w, a, t, lease, now).outcome.value.value;
             granted.task in s.tasks &&
             item == WorkItem(granted.task, s.tasks[granted.task].candidateHash, a, t, granted.planId, granted.planDigest)
    ensures a !in inFlight
    ensures Driving(s0, ClaimTask(s, run, w, a, t, lease, now).state, run, w, inFlight[a := item], outcomes)
  {
    hide QueuedKeys, HeldKeys, DoneKeys;
    ClaimEffect(s, run, w, a, t, lease, now);
    var s' := ClaimTask(s, run, w, a, t, lease, now).state;
    var granted := ClaimTask(s, run, w, a, t, lease, now).outcome.value.value;
    hide ClaimTask;
    FlightGrows(s, s', w, inFlight, item, granted);
    PartitionClaim(QueuedKeys(s0, run), QueuedKeys(s, run), HeldKeys(inFlight), DoneKeys(outcomes), granted.task);
    hide Partition;
  }

  // ----- one commit -----

  lemma CommitEffect(s: State, a: string, w: string, t: string, d: Sha256, p: Payload, f: Option<FailureDomain>, now: Time)
    requires CommitResult(s, a, w, t, d, p, f, now).outcome.Ok?
    requires a in s.attempts && s.attempts[a].state.Active?
    ensures var s' := CommitResult(s, a, w, t, d, p, f, now).state;
            var o := CommitResult(s, a, w, t, d, p, f, now).outcome.value; var k := s.attempts[a].task;
            && o.inserted && o.result.key == ResultKey(k, s.attempts[a].planDigest) && o.result.key !in s.results
            && s'.results == s.results[o.result.key := o.result]
            && s'.attempts == s.attempts[a := s.attempts[a].(state := LeaseState.Completed)]
            && k in s.tasks && s'.tasks == s.tasks[k := s.tasks[k].(state := TaskState.Completed)]
  {
    hide AllDone;
  }

  lemma HeldAfterRemoval(s: State, w: string, inFlight: map<string, WorkItem>, a: string)
    requires LeasesAgree(s) && FlightOk(s, w, inFlight) && a in inFlight
    ensures HeldKeys(inFlight - {a}) == HeldKeys(inFlight) - {inFlight[a].task}
  {
    forall k | k in HeldKeys(inFlight) - {inFlight[a].task} ensures k in HeldKeys(inFlight - {a}) {
      var b :| b in inFlight && inFlight[b].task == k;
      assert b in inFlight - {a};
    }
  }

  lemma QueuedAfterCommit(s: State, s': State, run: string, k: TaskKey)
    requires k in s.tasks && !s.tasks[k].state.Queued?
    requires s'.tasks == s.tasks[k := s.tasks[k].(state := TaskState.Completed)]
    ensures QueuedKeys(s', run) == QueuedKeys(s, run)
  {}

  lemma OutcomesGrow(s: State, s': State, outcomes: seq<CommitOutcome>, o: CommitOutcome)
    requires OutcomesOk(s, outcomes) && o.inserted && o.result.key !in s.results
    requires s'.results == s.results[o.result.key := o.result]
    requires o.result.key.task !in DoneKeys(outcomes)
    ensures OutcomesOk(s', outcomes + [o])
    ensures DoneKeys(outcomes + [o]) == DoneKeys(outcomes) + {o.result.key.task}
  {
    var all := outcomes + [o];
    forall k | k in DoneKeys(outcomes) ensures k in DoneKeys(all) {
      var i :| 0 <= i < |outcomes| && outcomes[i].result.key.task == k;
      assert all[i].result.key.task == k;
    }
    assert all[|outcomes|].result.key.task == o.result.key.task;
    forall i | 0 <= i < |outcomes| ensures outcomes[i].result.key.task in DoneKeys(outcomes) {}
  }

  lemma PartitionCommit(start: set<TaskKey>, queued: set<TaskKey>, held: set<TaskKey>, done: set<TaskKey>, k: TaskKey)
    requires Partition(start, queued, held, done) && k in held
    ensures Partition(start, queued, held - {k}, done + {k}) && k in start && k !in done && k !in queued
  {}

  lemma HeldMember(inFlight: map<string, WorkItem>, a: string)
    requires a in inFlight
    ensures inFlight[a].task in HeldKeys(inFlight)
  {}

  lemma FlightShrinks(s: State, s': State, w: string, inFlight: map<string, WorkItem>, a: string)
    requires FlightOk(s, w, inFlight) && a in inFlight
    requires a in s'.attempts && s'.attempts == s.attempts[a := s'.attempts[a]] && inFlight[a].task in s.tasks
    requires s'.tasks == s.tasks[inFlight[a].task := s.tasks[inFlight[a].task].(state := TaskState.Completed)]
    ensures FlightOk(s', w, inFlight - {a})
  {}

  lemma CommitAdvances(s0: State, s: State, run: string, w: string, inFlight: map<string, WorkItem>,
                       outcomes: seq<CommitOutcome>, a: string, d: Sha256, p: Payload, f: Option<FailureDomain>, now: Time)
    requires Driving(s0, s, run, w, inFlight, outcomes) && a in inFlight
    requires CommitResult(s, a, w, inFlight[a].token, d, p, f, now).outcome.Ok?
    requires Inv(s)
    ensures var step := CommitResult(s, a, w, inFlight[a].token, d, p, f, now);
            Driving(s0, step.state, run, w, inFlight - {a}, outcomes + [step.outcome.value])
  {
    hide Inv, QueuedKeys, HeldKeys, DoneKeys, LeasesAgree, Partition, OutcomesOk, StoredExactly;
    LeasesAgreeIn(s);
    var step := CommitResult(s, a, w, inFlight[a].token, d, p, f, now);
    CommitEffect(s, a, w, inFlight[a].token, d, p, f, now);
    var s' := step.state;
    hide CommitResult;
    var k := inFlight[a].task;
    HeldMember(inFlight, a);
    HeldAfterRemoval(s, w, inFlight, a);
    PartitionCommit(QueuedKeys(s0, run), QueuedKeys(s, run), HeldKeys(inFlight), DoneKeys(outcomes), k);
    ActiveMeansLeased(s, a);
    QueuedAfterCommit(s, s', run, k);
    OutcomesGrow(s, s', outcomes, step.outcome.value);
    FlightShrinks(s, s', w, inFlight, a);
    StoredGrows(s0, s, s', DoneKeys(outcomes), step.outcome.value);
    hide FlightOk;
  }

  lemma StoredGrows(s0: State, s: State, s': State, done: set<TaskKey>, o: CommitOutcome)
    requires StoredExactly(s0, s, done) && s'.results == s.results[o.result.key := o.result]
    ensures StoredExactly(s0, s', done + {o.result.key.task})
  {}

  lemma ActiveMeansLeased(s: State, a: string)
    requires LeasesAgree(s) && a in s.attempts && s.attempts[a].state.Active?
    ensures s.attempts[a].task in s.tasks && s.tasks[s.attempts[a].task].state.Leased?
  {}

  // ----- what a drive leaves behind -----

  /** Leased tasks among those queued at the start. */
  function HeldOf(s: State, start: set<TaskKey>): set<TaskKey> {
    set k | k in start && k in s.tasks && s.tasks[k].state.Leased?
  }

  function DoneOf(s: State, start: set<TaskKey>): set<TaskKey> {
    set k | k in start && k in s.tasks && s.tasks[k].state.Completed?
  }

  /** Wherever the drive stopped: earlier results are intact, each task queued at the start is queued,
      held by an active lease (at most `max` of them) or completed, new results are exactly those of
      the completed ones, and nothing else moved. */
  ghost predicate LeftBehind(s0: State, s: State, run: string, max: nat) {
    var start := QueuedKeys(s0, run);
    && Evolves(s0, s)
    && OnlyQueuedTouched(s0, s, start)
    && start == QueuedKeys(s, run) + HeldOf(s, start) + DoneOf(s, start)
    && StoredExactly(s0, s, DoneOf(s, start))
    && |HeldOf(s, start)| <= max
  }

  /** A drive that returned committed exactly what was queued at the start, each task once. */
  ghost predicate Finished(s0: State, s: State, run: string, outcomes: seq<CommitOutcome>) {
    && OutcomesOk(s, outcomes)
    && DoneKeys(outcomes) == DoneOf(s, QueuedKeys(s0, run)) == QueuedKeys(s0, run)
    && |outcomes| == |QueuedKeys(s0, run)|
    && run in s.runs && !s.runs[run].state.Cancelled?
  }

  lemma {:induction false} DistinctCount(outcomes: seq<CommitOutcome>)
    requires forall i, j :: 0 <= i < j < |outcomes| ==> outcomes[i].result.key.task != outcomes[j].result.key.task
    ensures |DoneKeys(outcomes)| == |outcomes|
  {
    if outcomes != [] {
      var n := |outcomes| - 1;
      var k := outcomes[n].result.key.task;
      DistinctCount(outcomes[..n]);
      assert DoneKeys(outcomes) == DoneKeys(outcomes[..n]) + {k};
      assert k !in DoneKeys(outcomes[..n]);
    }
  }

  lemma {:induction false} HeldCount(inFlight: map<string, WorkItem>)
    ensures |HeldKeys(inFlight)| <= |inFlight|
    decreases |inFlight|
  {
    if inFlight != map[] {
      var a :| a in inFlight;
      var rest := inFlight - {a};
      HeldCount(rest);
      forall k | k in HeldKeys(inFlight) ensures k in HeldKeys(rest) + {inFlight[a].task} {
        var b :| b in inFlight && inFlight[b].task == k;
        if b != a { assert b in rest && rest[b].task == k; }
      }
      SubsetCount(HeldKeys(inFlight), HeldKeys(rest) + {inFlight[a].task});
      assert |inFlight| == |inFlight.Keys| && rest.Keys == inFlight.Keys - {a};
    } else {
      assert HeldKeys(inFlight) == {};
    }
  }

  lemma {:induction false} SubsetCount<T>(a: set<T>, b: set<T>)
    requires a <= b
    ensures |a| <= |b|
  {
    if a != {} {
      var x :| x in a;
      SubsetCount(a - {x}, b - {x});
    }
  }

  lemma PlacesAreStates(s0: State, s: State, run: string, w: string, inFlight: map<string, WorkItem>,
                        outcomes: seq<CommitOutcome>)
    requires Driving(s0, s, run, w, inFlight, outcomes)
    requires Inv(s)
    ensures HeldKeys(inFlight) == HeldOf(s, QueuedKeys(s0, run)) && DoneKeys(outcomes) == DoneOf(s, QueuedKeys(s0, run))
  {
    hide Inv, LeasesAgree, OnlyQueuedTouched, StoredExactly;
    LeasesAgreeIn(s);
    var start := QueuedKeys(s0, run);
    forall k | k in HeldKeys(inFlight) ensures k in HeldOf(s, start) {
      var a :| a in inFlight && inFlight[a].task == k;
      ActiveMeansLeased(s, a);
    }
    forall k | k in DoneKeys(outcomes) ensures k in DoneOf(s, start) {
      var i :| 0 <= i < |outcomes| && outcomes[i].result.key.task == k;
      StoredMeansCompleted(s, outcomes[i].result.key);
    }
  }

  lemma StoredMeansCompleted(s: State, rk: ResultKey)
    requires rk in s.results
    requires Inv(s)
    ensures rk.task in s.tasks && s.tasks[rk.task].state.Completed?
  {
    hide RunsOk, TasksOk, AttemptsOk, ResultsOk, CohortsOk, ReceiptsOk, PlansOk;
    ResultIsOk(s, rk);
  }

  /** A claim that found nothing: the run is in progress and has no queued task. */
  ghost predicate NothingQueued(s: State, run: string) {
    QueuedKeys(s, run) == {} && run in s.runs && (s.runs[run].state.Pending? || s.runs[run].state.Running?)
  }

  /** A claim that hands out nothing changes nothing. */
  lemma ClaimKept(s0: State, s: State, run: string, w: string, a: string, t: string, lease: Time, now: Time)
    requires Evolves(s0, s)
    ensures var step := ClaimTask(s, run, w, a, t, lease, now);
            && Evolves(s0, step.state)
            && (step.outcome.Err? || step.outcome.value.None? ==> step.state == s)
            && (step.outcome.Ok? && step.outcome.value.None? ==> NothingQueued(s, run))
  {
    hide Evolves, QueuedKeys;
    ClaimEvolves(s, run, w, a, t, lease, now);
    EvolvesTransitive(s0, s, ClaimTask(s, run, w, a, t, lease, now).state);
  }

  lemma ClaimStep(s0: State, s: State, run: string, w: string, a: string, t: string, lease: Time, now: Time,
                  inFlight: map<string, WorkItem>, outcomes: seq<CommitOutcome>, item: WorkItem)
    requires Driving(s0, s, run, w, inFlight, outcomes)
    requires var step := ClaimTask(s, run, w, a, t, lease, now);
             && step.outcome.Ok? && step.outcome.value.Some?
             && var granted := step.outcome.value.value;
                && granted.task in step.state.tasks
                && item == WorkItem(granted.task, step.state.tasks[granted.task].candidateHash, granted.attemptId,
                                    granted.token, granted.planId, granted.planDigest)
    ensures var s' := ClaimTask(s, run, w, a, t, lease, now).state;
            && Driving(s0, s', run, w, inFlight[a := item], outcomes)
            && |inFlight[a := item]| == |inFlight| + 1
            && |QueuedKeys(s', run)| == |QueuedKeys(s, run)| - 1
  {
    hide Driving;
    ClaimEffect(s, run, w, a, t, lease, now);
    assert item.task in QueuedKeys(s, run);
    hide ClaimTask, QueuedKeys;
    ClaimAdvances(s0, s, run, w, inFlight, outcomes, a, t, lease, now, item) by { QueuedIsTask(s, run, item.task); }
    assert inFlight[a := item].Keys == inFlight.Keys + {a};
    assert |inFlight.Keys| == |inFlight|;
  }

  lemma QueuedIsTask(s: State, run: string, k: TaskKey)
    requires k in QueuedKeys(s, run)
    ensures k in s.tasks
  {}

  // ----- why a drive stops early -----

  /** The run can be worked on: it is not cancelled and its plan is still frozen. */
  ghost predicate Workable(s: State, run: string) {
    && run in s.runs && !s.runs[run].state.Cancelled?
    && s.runs[run].plan in s.plans && s.plans[s.runs[run].plan].state.Frozen?
  }

  lemma ClaimStaysWorkable(s: State, run: string, w: string, a: string, t: string, lease: Time, now: Time)
    requires Workable(s, run) && !s.runs[run].state.Completed? && lease > 0
    ensures var step := ClaimTask(s, run, w, a, t, lease, now);
            && Workable(step.state, run)
            && (step.outcome.Err? ==> step.outcome.error == IdempotencyConflict && a in s.attempts)
  {
    hide QueuedKeys;
  }

  lemma ClaimNeedsLease(s: State, run: string, w: string, a: string, t: string, lease: Time, now: Time)
    requires ClaimTask(s, run, w, a, t, lease, now).outcome.Ok?
    requires ClaimTask(s, run, w, a, t, lease, now).outcome.value.Some?
    ensures lease > 0
    ensures var s' := ClaimTask(s, run, w, a, t, lease, now).state; run in s'.runs && s'.runs[run].state.Running?
  {}

  /** A commit by the worker that holds the active lease is refused only when it is late. */
  lemma CommitStaysWorkable(s: State, run: string, a: string, d: Sha256, p: Payload, f: Option<FailureDomain>, now: Time)
    requires a in s.attempts && s.attempts[a].state.Active? && Workable(s, run)
    requires Inv(s)
    ensures var step := CommitResult(s, a, s.attempts[a].worker, s.attempts[a].token, d, p, f, now);
            && Workable(step.state, run)
            && (step.outcome.Err? ==> step.outcome.error == LateAttempt && s.attempts[a].expiresAt <= now)
  {
    hide RunsOk, TasksOk, AttemptsOk, ResultsOk, CohortsOk, ReceiptsOk, PlansOk;
    AttemptIsOk(s, a);
    TaskIsOk(s, s.attempts[a].task);
  }

  /** On a workable run with a positive lease the control plane refuses the driver only for a reused
      attempt ID or a commit at or after the expiry. */
  ghost predicate Excused(s: State, run: string, lease: Time, reason: DriveFailure) {
    Workable(s, run) && lease > 0 && reason.PlaneFailed? ==> reason.error in {IdempotencyConflict, LateAttempt}
  }

  ghost predicate OutageAt(env: Environment, n: nat) {
    env.claim(n).outage || env.commit(n).before || env.commit(n).after
  }

  ghost predicate Strays(reply: WorkReply, item: WorkItem) { reply.Replied? && !Honest(reply, item) }

  /** The failure names something that did go wrong: a worker that crashed, a reply that left its item's
      lineage, an outage, or an answer of the control plane. */
  ghost predicate Blames(env: Environment, reason: DriveFailure) {
    match reason
    case PlaneFailed(_) => true
    case Outage => exists n: nat :: OutageAt(env, n)
    case WorkerCrashed => exists n: nat, item :: env.reply(n, item).Crashed?
    case LineageMismatch => exists n: nat, item :: Strays(env.reply(n, item), item)
  }

  // ----- when a drive cannot fail -----

  ghost predicate FreshIds(env: Environment, s: State) {
    && (forall n: nat :: env.claim(n).attempt !in s.attempts)
    && (forall m: nat, n: nat :: env.claim(m).attempt == env.claim(n).attempt ==> m == n)
  }

  /** Every commit happens before any lease of the drive expires. */
  ghost predicate InTime(env: Environment, lease: Time) {
    forall m: nat, n: nat :: env.commit(m).now < env.claim(n).now + lease
  }

  ghost predicate NoOutage(env: Environment) {
    && (forall n: nat :: !env.claim(n).outage)
    && (forall n: nat :: !env.commit(n).before && !env.commit(n).after)
  }

  predicate Honest(reply: WorkReply, item: WorkItem) {
    reply.Replied? && reply.attemptId == item.attemptId && reply.planDigest == item.planDigest
  }

  ghost predicate HonestReplies(env: Environment) {
    forall n: nat, item :: Honest(env.reply(n, item), item)
  }

  /** Nothing goes wrong outside the driver. */
  ghost predicate Smooth(env: Environment, s: State, run: string, lease: Time) {
    && lease > 0 && Workable(s, run)
    && FreshIds(env, s) && InTime(env, lease) && NoOutage(env) && HonestReplies(env)
  }

  ghost predicate UsedBefore(env: Environment, a: string, n: nat) {
    exists m: nat :: m < n && env.claim(m).attempt == a
  }

  ghost predicate Outlives(env: Environment, held: AttemptLease) {
    forall n: nat :: env.commit(n).now < held.expiresAt
  }

  /** After `n` claims: new attempts carry IDs of those claims, and if every commit is in time the leases in
      flight outlive them all. */
  ghost predicate OnTrack(env: Environment, s0: State, s: State, inFlight: map<string, WorkItem>, n: nat, lease: Time) {
    && (forall a :: a in s.attempts && a !in s0.attempts ==> UsedBefore(env, a, n))
    && (InTime(env, lease) ==> forall a :: a in inFlight ==> a in s.attempts && Outlives(env, s.attempts[a]))
  }

  lemma TrackStarts(env: Environment, s: State, lease: Time)
    ensures OnTrack(env, s, s, map[], 0, lease)
  {}

  lemma NextIdIsFresh(env: Environment, s0: State, s: State, inFlight: map<string, WorkItem>, n: nat, run: string, lease: Time)
    requires OnTrack(env, s0, s, inFlight, n, lease) && Smooth(env, s0, run, lease)
    ensures env.claim(n).attempt !in s.attempts
  {
    hide InTime, Workable, NoOutage, HonestReplies;
  }

  lemma ClaimExpiry(s: State, run: string, w: string, a: string, t: string, lease: Time, now: Time)
    requires ClaimTask(s, run, w, a, t, lease, now).outcome.Ok?
    requires ClaimTask(s, run, w, a, t, lease, now).outcome.value.Some?
    ensures var s' := ClaimTask(s, run, w, a, t, lease, now).state;
            && s'.attempts.Keys == s.attempts.Keys + {a} && s'.attempts[a].expiresAt == now + lease
            && forall b :: b in s.attempts && b != a ==> s'.attempts[b] == s.attempts[b]
  {
    hide QueuedKeys;
  }

  lemma ClaimTracks(env: Environment, s0: State, s: State, s': State, inFlight: map<string, WorkItem>, n: nat, lease: Time,
                    item: WorkItem)
    requires OnTrack(env, s0, s, inFlight, n, lease)
    requires var c := env.claim(n);
             && c.attempt !in inFlight
             && s'.attempts.Keys == s.attempts.Keys + {c.attempt} && s'.attempts[c.attempt].expiresAt == c.now + lease
             && forall b :: b in s.attempts && b != c.attempt ==> s'.attempts[b] == s.attempts[b]
    ensures OnTrack(env, s0, s', inFlight[env.claim(n).attempt := item], n + 1, lease)
  {
    forall a | a in s'.attempts && a !in s0.attempts ensures UsedBefore(env, a, n + 1) {
      if a in s.attempts { UsedStays(env, a, n); }
    }
  }

  lemma UsedStays(env: Environment, a: string, n: nat)
    requires UsedBefore(env, a, n)
    ensures UsedBefore(env, a, n + 1)
  {}

  lemma EmptyClaimTracks(env: Environment, s0: State, s: State, inFlight: map<string, WorkItem>, n: nat, lease: Time)
    requires OnTrack(env, s0, s, inFlight, n, lease)
    ensures OnTrack(env, s0, s, inFlight, n + 1, lease)
  {
    hide Outlives, InTime;
    forall a | a in s.attempts && a !in s0.attempts ensures UsedBefore(env, a, n + 1) { UsedStays(env, a, n); }
  }

  lemma CommitTracks(env: Environment, s0: State, s: State, s': State, inFlight: map<string, WorkItem>, n: nat, lease: Time,
                     a: string)
    requires OnTrack(env, s0, s, inFlight, n, lease) && a in s.attempts
    requires s'.attempts == s.attempts[a := s.attempts[a].(state := LeaseState.Completed)]
    ensures OnTrack(env, s0, s', inFlight - {a}, n, lease)
  {
    hide Outlives, InTime, UsedBefore;
  }

  lemma CommitIsInTime(env: Environment, s0: State, s: State, inFlight: map<string, WorkItem>, n: nat, run: string, lease: Time,
                       a: string, round: nat)
    requires OnTrack(env, s0, s, inFlight, n, lease) && Smooth(env, s0, run, lease) && a in inFlight && a in s.attempts
    ensures env.commit(round).now < s.attempts[a].expiresAt
  {
    hide UsedBefore, FreshIds, Workable, NoOutage, HonestReplies;
  }

  lemma SmoothMeans(env: Environment, s: State, run: string, lease: Time)
    requires Smooth(env, s, run, lease)
    ensures lease > 0 && Workable(s, run) && run in s.runs
    ensures forall n: nat :: !env.claim(n).outage && !env.commit(n).before && !env.commit(n).after
    ensures forall n: nat, item :: Honest(env.reply(n, item), item)
  {
    hide FreshIds, InTime;
  }

  lemma {:induction false} LongestId(ids: set<string>) returns (m: nat)
    ensures forall id :: id in ids ==> |id| <= m
  {
    if ids == {} {
      m := 0;
    } else {
      var id :| id in ids;
      m := LongestId(ids - {id});
      m := if m < |id| then |id| else m;
      forall x | x in ids ensures |x| <= m { assert x == id || x in ids - {id}; }
    }
  }

  lemma {:induction false} CountLength(n: nat)
    ensures |Encoding.Count(n, "")| == n + 1
  {
    if n > 0 { CountLength(n - 1); }
  }

  /** IDs longer than `m`, a stopped clock, no outage, honest workers. */
  function Quiet(m: nat): Environment {
    Environment((n: nat) => ClaimInput(Encoding.Count(m + n, ""), "", 0, false),
                (n: nat) => CommitInput(0, false, false),
                (n: nat, item: WorkItem) => Replied(item.attemptId, item.planDigest, map[], None))
  }

  /** Every workable run has an environment in which nothing goes wrong. */
  lemma SmoothExists(s: State, run: string, lease: Time)
    requires Workable(s, run) && lease > 0
    ensures exists env :: Smooth(env, s, run, lease)
  {
    hide Workable;
    var m := LongestId(s.attempts.Keys);
    var env := Quiet(m);
    forall n: nat ensures env.claim(n).attempt !in s.attempts {
      CountLength(m + n);
      assert |env.claim(n).attempt| > m;
    }
    forall i: nat, j: nat | env.claim(i).attempt == env.claim(j).attempt ensures i == j {
      Encoding.CountBack(m + i, m + j, "", "");
    }
    assert FreshIds(env, s) && InTime(env, lease) && NoOutage(env) && HonestReplies(env);
    assert Smooth(env, s, run, lease);
  }

  /** What holds between any two steps of a drive that started in `s0`. */
  ghost predicate Underway(s0: State, s: State, run: string, worker: string,
                           inFlight: map<string, WorkItem>, outcomes: seq<CommitOutcome>)
  {
    && Evolves(s0, s) && Driving(s0, s, run, worker, inFlight, outcomes)
    && (Workable(s0, run) ==> Workable(s, run))
  }

  ghost predicate Unfinished(s: State, run: string) {
    run in s.runs && !s.runs[run].state.Completed?
  }

  /** Twice the queued tasks plus those in flight: every round of the driver lowers it. */
  ghost function Remaining(s: State, run: string, inFlight: map<string, WorkItem>): nat {
    2 * |QueuedKeys(s, run)| + |inFlight|
  }

  ghost predicate WindowFilled(s0: State, s: State, s': State, run: string, worker: string,
                               inFlight: map<string, WorkItem>, held: map<string, WorkItem>,
                               outcomes: seq<CommitOutcome>)
  {
    Underway(s0, s', run, worker, held, outcomes) && Remaining(s', run, held) <= Remaining(s, run, inFlight)
  }

  /** One commit, as the driver sees it. */
  ghost predicate CommitDone(s0: State, s: State, s': State, run: string, worker: string, a: string,
                             inFlight: map<string, WorkItem>, outcomes: seq<CommitOutcome>,
                             committed: Option<CommitOutcome>)
  {
    if committed.None? then Underway(s0, s', run, worker, inFlight, outcomes)
    else && Underway(s0, s', run, worker, inFlight - {a}, outcomes + [committed.value])
         && |inFlight - {a}| < |inFlight|
         && Remaining(s', run, inFlight - {a}) < Remaining(s, run, inFlight)
  }

  lemma BehindFrom(s0: State, s: State, run: string, w: string, inFlight: map<string, WorkItem>,
                   outcomes: seq<CommitOutcome>, max: nat)
    requires Underway(s0, s, run, w, inFlight, outcomes) && |inFlight| <= max
    requires Inv(s)
    ensures LeftBehind(s0, s, run, max)
  {
    hide Workable;
    PlacesAreStates(s0, s, run, w, inFlight, outcomes);
    hide Inv, Evolves, HeldOf, DoneOf, OnlyQueuedTouched, StoredExactly, FlightOk, OutcomesOk, QueuedKeys;
    HeldCount(inFlight);
  }

  lemma FinishedFrom(s0: State, s: State, run: string, w: string, inFlight: map<string, WorkItem>,
                     outcomes: seq<CommitOutcome>)
    requires Underway(s0, s, run, w, inFlight, outcomes)
    requires || (run in s.runs && s.runs[run].state.Completed?)
             || (inFlight == map[] && NothingQueued(s, run))
    requires Inv(s)
    ensures Finished(s0, s, run, outcomes)
  {
    hide Inv, Evolves, Workable, FlightOk, OnlyQueuedTouched, StoredExactly, Partition, OutcomesOk;
    PlacesAreStates(s0, s, run, w, inFlight, outcomes);
    var start := QueuedKeys(s0, run);
    if s.runs[run].state.Completed? {
      forall k | k in s.tasks && k.run == run ensures s.tasks[k].state.Completed? { TaskOfFinishedRun(s, run, k); }
      assert QueuedKeys(s, run) == {} && HeldOf(s, start) == {};
    }
    assert DoneKeys(outcomes) == start by { PlacesPartition(s0, s, run, w, inFlight, outcomes); }
    OutcomeCount(s, outcomes);
  }

  lemma PlacesPartition(s0: State, s: State, run: string, w: string, inFlight: map<string, WorkItem>,
                        outcomes: seq<CommitOutcome>)
    requires Driving(s0, s, run, w, inFlight, outcomes)
    ensures QueuedKeys(s0, run) == QueuedKeys(s, run) + HeldKeys(inFlight) + DoneKeys(outcomes)
  {}

  lemma OutcomeCount(s: State, outcomes: seq<CommitOutcome>)
    requires OutcomesOk(s, outcomes)
    ensures |DoneKeys(outcomes)| == |outcomes|
  {
    DistinctCount(outcomes);
  }

  lemma TaskOfFinishedRun(s: State, run: string, k: TaskKey)
    requires run in s.runs && s.runs[run].state.Completed? && k in s.tasks && k.run == run
    requires Inv(s)
    ensures s.tasks[k].state.Completed?
  {
    hide RunsOk, TasksOk, AttemptsOk, ResultsOk, CohortsOk, ReceiptsOk, PlansOk;
    TaskIsOk(s, k);
  }

  lemma UnderwayStarts(s: State, run: string, w: string)
    ensures Underway(s, s, run, w, map[], [])
  {
    EvolvesReflexive(s);
    assert HeldKeys(map[]) == {} && DoneKeys([]) == {};
  }

  /** A commit either changes nothing or moves one task from in flight to committed. */
  ghost predicate CommitMoves(s0: State, s: State, step: Step<CommitOutcome>, run: string, w: string,
                              inFlight: map<string, WorkItem>, outcomes: seq<CommitOutcome>, a: string)
  {
    && Evolves(s0, step.state)
    && (step.outcome.Err? ==> step.state == s)
    && (step.outcome.Ok? ==>
          && Driving(s0, step.state, run, w, inFlight - {a}, outcomes + [step.outcome.value])
          && |inFlight - {a}| == |inFlight| - 1
          && |QueuedKeys(step.state, run)| == |QueuedKeys(s, run)|)
  }

  lemma CommitStep(s0: State, s: State, run: string, w: string, inFlight: map<string, WorkItem>,
                   outcomes: seq<CommitOutcome>, a: string, d: Sha256, p: Payload, f: Option<FailureDomain>, now: Time)
    requires Driving(s0, s, run, w, inFlight, outcomes) && a in inFlight && Evolves(s0, s)
    requires Inv(s)
    ensures CommitMoves(s0, s, CommitResult(s, a, w, inFlight[a].token, d, p, f, now), run, w, inFlight, outcomes, a)
  {
    hide RunsOk, TasksOk, AttemptsOk, ResultsOk, CohortsOk, ReceiptsOk, PlansOk, Driving, Evolves, QueuedKeys;
    var step := CommitResult(s, a, w, inFlight[a].token, d, p, f, now);
    CommitEvolves(s, a, w, inFlight[a].token, d, p, f, now);
    EvolvesTransitive(s0, s, step.state);
    if step.outcome.Ok? {
      CommitAdvances(s0, s, run, w, inFlight, outcomes, a, d, p, f, now);
      assert (inFlight - {a}).Keys == inFlight.Keys - {a} && |inFlight.Keys| == |inFlight|;
      FlightMember(s0, s, run, w, inFlight, outcomes, a);
      LeasesAgreeIn(s);
      CommitEffect(s, a, w, inFlight[a].token, d, p, f, now);
      ActiveMeansLeased(s, a);
      QueuedAfterCommit(s, step.state, run, s.attempts[a].task);
    }
  }

  lemma FlightMember(s0: State, s: State, run: string, w: string, inFlight: map<string, WorkItem>,
                     outcomes: seq<CommitOutcome>, a: string)
    requires Driving(s0, s, run, w, inFlight, outcomes) && a in inFlight
    ensures a in s.attempts && s.attempts[a].state.Active? && s.attempts[a].task == inFlight[a].task
    ensures inFlight[a].attemptId == a && s.attempts[a].planDigest == inFlight[a].planDigest
    ensures s.attempts[a].worker == w && s.attempts[a].token == inFlight[a].token
  {}

  lemma InFlightNamed(s0: State, s: State, run: string, w: string, inFlight: map<string, WorkItem>,
                      outcomes: seq<CommitOutcome>, a: string)
    requires Underway(s0, s, run, w, inFlight, outcomes) && a in inFlight
    ensures inFlight[a].attemptId == a
  {
    hide Evolves, Workable;
  }

  lemma UnknownExcused(env: Environment, s0: State, s: State, run: string, w: string, inFlight: map<string, WorkItem>,
                       outcomes: seq<CommitOutcome>, lease: Time)
    requires Underway(s0, s, run, w, inFlight, outcomes) && run !in s.runs
    ensures Excused(s0, run, lease, PlaneFailed(Unknown)) && !Smooth(env, s0, run, lease)
  {
    hide Evolves, Driving, Smooth;
    if Smooth(env, s0, run, lease) { SmoothMeans(env, s0, run, lease); }
  }

  // ----- what is stored is what the workers answered -----

  /** In round `round` the driver waited for the worker that had `item`. */
  datatype Delivery = Delivery(round: nat, item: WorkItem)

  function KeyOf(d: Delivery): ResultKey { ResultKey(d.item.task, d.item.planDigest) }

  /** The record that stands for this worker's reply. */
  ghost function ReplyRecord(hash: Content -> Sha256, env: Environment, d: Delivery): FinalResult
    requires env.reply(d.round, d.item).Replied?
  {
    var reply := env.reply(d.round, d.item);
    FinalResult(KeyOf(d), d.item.planId, d.item.attemptId, hash(PayloadContent(reply.payload)), reply.payload,
                reply.domain, env.commit(d.round).now)
  }

  /** The item describes a task queued at the start, under an attempt that is new. */
  ghost predicate ItemOf(s0: State, run: string, item: WorkItem) {
    && item.task in QueuedKeys(s0, run) && item.task in s0.tasks && item.attemptId !in s0.attempts
    && item.candidateHash == s0.tasks[item.task].candidateHash
    && item.planId == s0.tasks[item.task].planId && item.planDigest == s0.tasks[item.task].planDigest
  }

  /** The item is one of the drive's, its worker's reply kept the item's lineage, and `result` is that reply. */
  ghost predicate Answers(env: Environment, s0: State, run: string, d: Delivery, result: FinalResult) {
    && ItemOf(s0, run, d.item) && Honest(env.reply(d.round, d.item), d.item)
    && result == ReplyRecord(s0.hash, env, d)
  }

  /** Outcome `i` is the reply of delivery `i`, at most one delivery a round. */
  ghost predicate OutcomesAnswer(env: Environment, s0: State, run: string, log: seq<Delivery>, outcomes: seq<CommitOutcome>) {
    && |log| == |outcomes|
    && (forall i :: 0 <= i < |log| ==> Answers(env, s0, run, log[i], outcomes[i].result))
    && (forall i, j :: 0 <= i < j < |log| ==> log[i].round < log[j].round)
  }

  ghost predicate Logged(env: Environment, s0: State, run: string, log: seq<Delivery>, outcomes: seq<CommitOutcome>, rounds: nat) {
    OutcomesAnswer(env, s0, run, log, outcomes) && forall i :: 0 <= i < |log| ==> log[i].round < rounds
  }

  lemma LogStarts(env: Environment, s0: State, run: string)
    ensures Logged(env, s0, run, [], [], 0)
  {}

  lemma LogGrows(env: Environment, s0: State, run: string, log: seq<Delivery>, outcomes: seq<CommitOutcome>, d: Delivery,
                 committed: Option<CommitOutcome>)
    requires Logged(env, s0, run, log, outcomes, d.round)
    requires committed.Some? ==> Answers(env, s0, run, d, committed.value.result)
    ensures if committed.None? then Logged(env, s0, run, log, outcomes, d.round + 1)
            else Logged(env, s0, run, log + [d], outcomes + [committed.value], d.round + 1)
  {
    hide Answers;
  }

  /** The results that are new since `s0` are exactly the replies of the deliveries, at most one a round. */
  ghost predicate StoresDeliveries(env: Environment, s0: State, s: State, run: string, log: seq<Delivery>) {
    && (forall i, j :: 0 <= i < j < |log| ==> log[i].round < log[j].round)
    && (forall i :: 0 <= i < |log| ==>
          KeyOf(log[i]) in s.results && KeyOf(log[i]) !in s0.results
          && Answers(env, s0, run, log[i], s.results[KeyOf(log[i])]))
    && forall rk :: rk in s.results && rk !in s0.results ==> DeliveredIn(log, rk)
  }

  ghost predicate DeliveredIn(log: seq<Delivery>, rk: ResultKey) {
    exists i :: 0 <= i < |log| && KeyOf(log[i]) == rk
  }

  lemma QueuedHasNoResult(s: State, run: string, item: WorkItem)
    requires ItemOf(s, run, item)
    requires Inv(s)
    ensures ResultKey(item.task, item.planDigest) !in s.results
  {
    hide Inv;
    TaskStatesAgreeIn(s);
  }

  lemma AnswerNames(env: Environment, s0: State, run: string, d: Delivery, result: FinalResult)
    requires Answers(env, s0, run, d, result)
    ensures ItemOf(s0, run, d.item) && result.key == KeyOf(d)
  {
    hide ItemOf;
  }

  lemma OutcomeStored(s: State, outcomes: seq<CommitOutcome>, i: nat)
    requires OutcomesOk(s, outcomes) && i < |outcomes|
    ensures outcomes[i].result.key in s.results && s.results[outcomes[i].result.key] == outcomes[i].result
  {}

  lemma NewResultIsOutcome(s0: State, s: State, outcomes: seq<CommitOutcome>, rk: ResultKey) returns (i: nat)
    requires OutcomesOk(s, outcomes) && StoredExactly(s0, s, DoneKeys(outcomes))
    requires rk in s.results && rk !in s0.results
    requires Inv(s)
    ensures i < |outcomes| && outcomes[i].result.key == rk
  {
    hide Inv;
    assert rk.task in DoneKeys(outcomes);
    i :| 0 <= i < |outcomes| && outcomes[i].result.key.task == rk.task;
    OneResultKeyPerTask(s, rk, outcomes[i].result.key);
  }

  /** Wherever the drive stopped, what it stored are the replies it logged. */
  lemma StoredFrom(env: Environment, s0: State, s: State, run: string, worker: string, inFlight: map<string, WorkItem>,
                   log: seq<Delivery>, outcomes: seq<CommitOutcome>)
    requires Underway(s0, s, run, worker, inFlight, outcomes) && OutcomesAnswer(env, s0, run, log, outcomes)
    requires Inv(s0) && Inv(s)
    ensures StoresDeliveries(env, s0, s, run, log)
  {
    hide Inv, Evolves, Workable, FlightOk, OnlyQueuedTouched, StoredExactly, Partition, OutcomesOk, Answers, ItemOf,
         DoneKeys;
    forall i | 0 <= i < |log|
      ensures KeyOf(log[i]) in s.results && KeyOf(log[i]) !in s0.results
      ensures s.results[KeyOf(log[i])] == outcomes[i].result
    {
      AnswerNames(env, s0, run, log[i], outcomes[i].result);
      OutcomeStored(s, outcomes, i);
      QueuedHasNoResult(s0, run, log[i].item);
    }
    forall rk | rk in s.results && rk !in s0.results ensures DeliveredIn(log, rk) {
      var i := NewResultIsOutcome(s0, s, outcomes, rk);
      AnswerNames(env, s0, run, log[i], outcomes[i].result);
    }
  }

  // ----- the driver -----

  /** The candidate hash of a claimed task, looked up in its run's listing. */
  method CandidateHash(plane: InMemoryControlPlane, lease: AttemptLease) returns (r: Outcome<Sha256>)
    requires plane.Valid() && lease.attemptId in plane.attempts && plane.attempts[lease.attemptId] == lease
    ensures lease.task in plane.tasks && r == Ok(plane.tasks[lease.task].candidateHash)
  {
    hide Inv, OrderedTasks;
    LookupsSucceed(plane.Abs(), lease.attemptId);
    var inspected := plane.InspectRun(lease.task.run);
    var list := inspected.value.1;
    ListedOnce(plane.Abs(), lease.task.run);
    for i := 0 to |list|
      invariant lease.task !in Listed(list, i)
    {
      ListedStep(plane.Abs(), lease.task.run, list, i);
      if list[i].key.task == lease.task.task && list[i].key.candidate == lease.task.candidate {
        return Ok(list[i].candidateHash);
      }
    }
    assert false;
    r := Err(Unknown);
  }

  /** Fills the window with claims until it is full or nothing is queued. `n` claims were made before. */
  method FillWindow(plane: InMemoryControlPlane, run: string, worker: string, max: nat, lease: Time, env: Environment, n: nat,
                    ghost s0: State, inFlight: map<string, WorkItem>, ghost outcomes: seq<CommitOutcome>)
    returns (filled: map<string, WorkItem>, stopped: Option<DriveFailure>, claims: nat, ghost held: map<string, WorkItem>)
    requires Underway(s0, plane.Abs(), run, worker, inFlight, outcomes) && |inFlight| <= max
    requires OnTrack(env, s0, plane.Abs(), inFlight, n, lease)
    requires Unfinished(plane.Abs(), run)
    requires plane.Valid()
    modifies plane
    ensures stopped.Some? ==> Excused(s0, run, lease, stopped.value) && !Smooth(env, s0, run, lease)
    ensures stopped.Some? ==> Blames(env, stopped.value)
    ensures stopped.None? ==> filled == held && (|filled| < max ==> NothingQueued(plane.Abs(), run))
    ensures |held| <= max && OnTrack(env, s0, plane.Abs(), held, claims, lease)
    ensures WindowFilled(s0, old(plane.Abs()), plane.Abs(), run, worker, inFlight, held, outcomes)
    ensures plane.Valid()
  {
    hide Inv, Evolves, Driving, QueuedKeys, Workable, OnTrack, Smooth, Excused, Blames;
    filled, held, claims := inFlight, inFlight, n;
    while |filled| < max
      invariant plane.Valid() && Unfinished(plane.Abs(), run)
      invariant Underway(s0, plane.Abs(), run, worker, filled, outcomes) && |filled| <= max && held == filled
      invariant OnTrack(env, s0, plane.Abs(), filled, claims, lease)
      invariant Remaining(plane.Abs(), run, filled) <= Remaining(old(plane.Abs()), run, inFlight)
      decreases |QueuedKeys(plane.Abs(), run)|
    {
      var c := env.claim(claims);
      ghost var s := plane.Abs();
      var claimed := plane.ClaimTask(run, worker, c.attempt, c.token, lease, c.now);
      ClaimAnswers(env, s0, s, run, worker, filled, outcomes, claims, lease);
      claims := claims + 1;
      if claimed.Err? { return filled, Some(PlaneFailed(claimed.error)), claims, filled; }
      if claimed.value.None? { return filled, None, claims, filled; }
      var granted := claimed.value.value;
      var hash := CandidateHash(plane, granted);
      var item := WorkItem(granted.task, hash.value, granted.attemptId, granted.token, granted.planId, granted.planDigest);
      ClaimStep(s0, s, run, worker, c.attempt, c.token, lease, c.now, filled, outcomes, item);
      ClaimStepTracks(env, s0, s, run, worker, filled, outcomes, claims - 1, lease, item);
      held := filled[c.attempt := item];
      if c.outage {
        OutageBlamed(env, s0, run, lease, claims - 1);
        return filled, Some(Outage), claims, held;
      }
      filled := filled[c.attempt := item];
    }
    stopped := None;
  }

  lemma OutageBlamed(env: Environment, s0: State, run: string, lease: Time, n: nat)
    requires OutageAt(env, n)
    ensures Excused(s0, run, lease, Outage) && !Smooth(env, s0, run, lease) && Blames(env, Outage)
  {
    hide Smooth;
    if Smooth(env, s0, run, lease) { SmoothMeans(env, s0, run, lease); }
  }

  /** Whatever the next claim answers, the drive stays underway and on track, and a refusal is excused. */
  lemma ClaimAnswers(env: Environment, s0: State, s: State, run: string, worker: string, inFlight: map<string, WorkItem>,
                     outcomes: seq<CommitOutcome>, n: nat, lease: Time)
    requires Underway(s0, s, run, worker, inFlight, outcomes) && OnTrack(env, s0, s, inFlight, n, lease)
    requires Unfinished(s, run)
    ensures var c := env.claim(n); var step := ClaimTask(s, run, worker, c.attempt, c.token, lease, c.now);
            && Evolves(s0, step.state) && (Workable(s0, run) ==> Workable(step.state, run))
            && (step.outcome.Err? || step.outcome.value.None? ==>
                  step.state == s && OnTrack(env, s0, s, inFlight, n + 1, lease))
            && (step.outcome.Ok? && step.outcome.value.None? ==> NothingQueued(s, run))
            && (step.outcome.Ok? && step.outcome.value.Some? ==> Unfinished(step.state, run))
            && (step.outcome.Err? ==>
                  && Excused(s0, run, lease, PlaneFailed(step.outcome.error)) && !Smooth(env, s0, run, lease)
                  && Blames(env, PlaneFailed(step.outcome.error)))
  {
    hide Evolves, Driving, QueuedKeys, Workable, OnTrack, Smooth, ClaimTask, NothingQueued;
    var c := env.claim(n);
    var step := ClaimTask(s, run, worker, c.attempt, c.token, lease, c.now);
    ClaimKept(s0, s, run, worker, c.attempt, c.token, lease, c.now);
    EmptyClaimTracks(env, s0, s, inFlight, n, lease);
    if Workable(s, run) && lease > 0 { ClaimStaysWorkable(s, run, worker, c.attempt, c.token, lease, c.now); }
    if step.outcome.Ok? && step.outcome.value.Some? { ClaimNeedsLease(s, run, worker, c.attempt, c.token, lease, c.now); }
    if Smooth(env, s0, run, lease) {
      SmoothMeans(env, s0, run, lease);
      NextIdIsFresh(env, s0, s, inFlight, n, run, lease);
    }
  }

  lemma ClaimStepTracks(env: Environment, s0: State, s: State, run: string, worker: string, inFlight: map<string, WorkItem>,
                        outcomes: seq<CommitOutcome>, n: nat, lease: Time, item: WorkItem)
    requires Driving(s0, s, run, worker, inFlight, outcomes) && OnTrack(env, s0, s, inFlight, n, lease)
    requires var c := env.claim(n); var step := ClaimTask(s, run, worker, c.attempt, c.token, lease, c.now);
             step.outcome.Ok? && step.outcome.value.Some?
    ensures var c := env.claim(n);
            OnTrack(env, s0, ClaimTask(s, run, worker, c.attempt, c.token, lease, c.now).state, inFlight[c.attempt := item],
                    n + 1, lease)
  {
    var c := env.claim(n);
    ClaimExpiry(s, run, worker, c.attempt, c.token, lease, c.now);
    ClaimEffect(s, run, worker, c.attempt, c.token, lease, c.now);
    if c.attempt in inFlight { FlightMember(s0, s, run, worker, inFlight, outcomes, c.attempt); }
    hide ClaimTask, Driving, OnTrack, QueuedKeys;
    ClaimTracks(env, s0, s, ClaimTask(s, run, worker, c.attempt, c.token, lease, c.now).state, inFlight, n, lease, item);
  }

  /** Checks the reply against the item's lineage and commits it. An outage may strike before the
      commit, or after it, when only its acknowledgement is lost. */
  method CommitReply(plane: InMemoryControlPlane, run: string, worker: string, item: WorkItem, env: Environment, round: nat,
                     ghost n: nat, ghost lease: Time,
                     ghost s0: State, ghost inFlight: map<string, WorkItem>, ghost outcomes: seq<CommitOutcome>)
    returns (committed: Option<CommitOutcome>, stopped: Option<DriveFailure>)
    requires Underway(s0, plane.Abs(), run, worker, inFlight, outcomes) && OnTrack(env, s0, plane.Abs(), inFlight, n, lease)
    requires item.attemptId in inFlight && inFlight[item.attemptId] == item
    requires plane.Valid()
    modifies plane
    ensures committed.None? ==> stopped.Some?
    ensures committed.Some? ==> OnTrack(env, s0, plane.Abs(), inFlight - {item.attemptId}, n, lease)
    ensures stopped.Some? ==> Excused(s0, run, lease, stopped.value) && !Smooth(env, s0, run, lease)
    ensures stopped.Some? ==> Blames(env, stopped.value)
    ensures CommitDone(s0, old(plane.Abs()), plane.Abs(), run, worker, item.attemptId, inFlight, outcomes, committed)
    ensures committed.Some? ==> Answers(env, s0, run, Delivery(round, item), committed.value.result)
    ensures plane.Valid()
  {
    hide Inv, Evolves, Driving, QueuedKeys, Workable, OnTrack, Smooth, CommitDone, Answers;
    var reply := env.reply(round, item);
    var c := env.commit(round);
    NothingDone(s0, plane.Abs(), run, worker, item.attemptId, inFlight, outcomes);
    if Smooth(env, s0, run, lease) {
      SmoothMeans(env, s0, run, lease);
      assert Honest(reply, item);
    }
    if !reply.Replied? { return None, Some(WorkerCrashed); }
    assert Honest(reply, item) || Strays(env.reply(round, item), item);
    assert c.before || c.after ==> OutageAt(env, round);
    if reply.attemptId != item.attemptId { return None, Some(LineageMismatch); }
    if reply.planDigest != item.planDigest { return None, Some(LineageMismatch); }
    if c.before { return None, Some(Outage); }
    var digest := plane.contentHash(PayloadContent(reply.payload));
    CommitAnswers(env, s0, plane.Abs(), run, worker, item, round, n, lease, inFlight, outcomes, digest, reply.payload,
                  reply.domain);
    CommitStoresReply(env, s0, plane.Abs(), run, worker, Delivery(round, item), inFlight, outcomes);
    var outcome := plane.CommitResult(item.attemptId, worker, item.token, digest, reply.payload, reply.domain, c.now);
    if outcome.Err? { return None, Some(PlaneFailed(outcome.error)); }
    committed, stopped := Some(outcome.value), None;
    if c.after { stopped := Some(Outage); }
  }

  /** The commit the driver makes for a reply. */
  ghost function CommitFor(s: State, env: Environment, worker: string, d: Delivery): Step<CommitOutcome>
    requires env.reply(d.round, d.item).Replied?
  {
    var reply := env.reply(d.round, d.item);
    CommitResult(s, d.item.attemptId, worker, d.item.token, s.hash(PayloadContent(reply.payload)), reply.payload,
                 reply.domain, env.commit(d.round).now)
  }

  lemma FlightIsItem(s0: State, s: State, run: string, worker: string, inFlight: map<string, WorkItem>,
                     outcomes: seq<CommitOutcome>, item: WorkItem)
    requires Underway(s0, s, run, worker, inFlight, outcomes)
    requires item.attemptId in inFlight && inFlight[item.attemptId] == item
    requires Inv(s)
    ensures ItemOf(s0, run, item) && s.hash == s0.hash
    ensures item.attemptId in s.attempts && s.attempts[item.attemptId].state.Active?
    ensures s.attempts[item.attemptId].task == item.task
    ensures s.attempts[item.attemptId].planId == item.planId && s.attempts[item.attemptId].planDigest == item.planDigest
  {
    hide RunsOk, TasksOk, AttemptsOk, ResultsOk, CohortsOk, ReceiptsOk, PlansOk,
         PlansForward, RunsKept, AttemptsKept, EntriesKept, OutcomesOk, OnlyQueuedTouched, StoredExactly, Workable;
    HeldMember(inFlight, item.attemptId);
    AttemptIsOk(s, item.attemptId);
  }

  /** An accepted commit of a live attempt stores exactly the reply's record. */
  lemma CommitRecord(s: State, env: Environment, worker: string, d: Delivery)
    requires env.reply(d.round, d.item).Replied?
    requires d.item.attemptId in s.attempts && s.attempts[d.item.attemptId].state.Active?
    requires s.attempts[d.item.attemptId].task == d.item.task
    requires s.attempts[d.item.attemptId].planId == d.item.planId
    requires s.attempts[d.item.attemptId].planDigest == d.item.planDigest
    requires CommitFor(s, env, worker, d).outcome.Ok?
    ensures CommitFor(s, env, worker, d).outcome.value.result == ReplyRecord(s.hash, env, d)
  {
    hide AllDone;
  }

  lemma CommitStoresReply(env: Environment, s0: State, s: State, run: string, worker: string, d: Delivery,
                          inFlight: map<string, WorkItem>, outcomes: seq<CommitOutcome>)
    requires Honest(env.reply(d.round, d.item), d.item)
    requires d.item.attemptId in inFlight && inFlight[d.item.attemptId] == d.item
    requires Underway(s0, s, run, worker, inFlight, outcomes)
    requires Inv(s)
    ensures var outcome := CommitFor(s, env, worker, d).outcome;
            outcome.Ok? ==> Answers(env, s0, run, d, outcome.value.result)
  {
    hide Inv, Underway, CommitFor, ReplyRecord, ItemOf;
    if CommitFor(s, env, worker, d).outcome.Ok? {
      FlightIsItem(s0, s, run, worker, inFlight, outcomes, d.item);
      CommitRecord(s, env, worker, d);
    }
  }

  lemma NothingDone(s0: State, s: State, run: string, worker: string, a: string, inFlight: map<string, WorkItem>,
                    outcomes: seq<CommitOutcome>)
    requires Underway(s0, s, run, worker, inFlight, outcomes)
    ensures CommitDone(s0, s, s, run, worker, a, inFlight, outcomes, None)
  {}

  /** A refused commit is excused and changes nothing; an accepted one keeps the drive underway and on track. */
  ghost predicate CommitAnswered(env: Environment, s0: State, s: State, step: Step<CommitOutcome>, run: string, worker: string,
                                 a: string, n: nat, lease: Time, inFlight: map<string, WorkItem>, outcomes: seq<CommitOutcome>)
  {
    match step.outcome
    case Err(e) => step.state == s && Excused(s0, run, lease, PlaneFailed(e)) && !Smooth(env, s0, run, lease)
    case Ok(o) =>
      && CommitDone(s0, s, step.state, run, worker, a, inFlight, outcomes, Some(o))
      && OnTrack(env, s0, step.state, inFlight - {a}, n, lease)
  }

  lemma CommitAnswers(env: Environment, s0: State, s: State, run: string, worker: string, item: WorkItem, round: nat, n: nat,
                      lease: Time, inFlight: map<string, WorkItem>, outcomes: seq<CommitOutcome>,
                      d: Sha256, p: Payload, f: Option<FailureDomain>)
    requires Underway(s0, s, run, worker, inFlight, outcomes) && OnTrack(env, s0, s, inFlight, n, lease)
    requires item.attemptId in inFlight && inFlight[item.attemptId] == item
    requires Inv(s)
    ensures CommitAnswered(env, s0, s, CommitResult(s, item.attemptId, worker, item.token, d, p, f, env.commit(round).now),
                           run, worker, item.attemptId, n, lease, inFlight, outcomes)
  {
    hide Inv, Evolves, Driving, QueuedKeys, Workable, OnTrack, Smooth, CommitResult;
    var a, now := item.attemptId, env.commit(round).now;
    var step := CommitResult(s, a, worker, item.token, d, p, f, now);
    FlightMember(s0, s, run, worker, inFlight, outcomes, a);
    CommitStep(s0, s, run, worker, inFlight, outcomes, a, d, p, f, now);
    if Workable(s, run) { CommitStaysWorkable(s, run, a, d, p, f, now); }
    if Smooth(env, s0, run, lease) {
      SmoothMeans(env, s0, run, lease);
      CommitIsInTime(env, s0, s, inFlight, n, run, lease, a, round);
    }
    if step.outcome.Ok? {
      CommitEffect(s, a, worker, item.token, d, p, f, now);
      CommitTracks(env, s0, s, step.state, inFlight, n, lease, a);
    }
  }

  /** No task of the run is leased. */
  ghost predicate LeaseFree(s: State, run: string) {
    forall k :: k in s.tasks && k.run == run ==> !s.tasks[k].state.Leased?
  }

  /** The run is completed, with one result per task. */
  ghost predicate Closed(s: State, run: string) {
    && run in s.runs && s.runs[run].state.Completed? && OpenKeys(s, run) == {}
    && |ResultsOfRun(s, run)| == |KeysOf(s, run)|
  }

  /** Claims, submits, waits for any one reference and commits it, until the run is complete or there
      is nothing left to do. Whatever the environment does, the drive ends and leaves behind what it
      should; when nothing goes wrong outside it, it returns. */
  method ExecuteClaims(plane: InMemoryControlPlane, run: string, worker: string, max: nat, lease: Time, env: Environment)
    returns (r: DriveResult, ghost log: seq<Delivery>)
    requires plane.Valid() && max > 0
    modifies plane
    ensures plane.Valid()
    ensures LeftBehind(old(plane.Abs()), plane.Abs(), run, max)
    ensures r.Returned? ==> Finished(old(plane.Abs()), plane.Abs(), run, r.outcomes)
    ensures r.Returned? && LeaseFree(old(plane.Abs()), run) ==> Closed(plane.Abs(), run)
    ensures r.Failed? ==> Excused(old(plane.Abs()), run, lease, r.reason) && Blames(env, r.reason)
    ensures Smooth(env, old(plane.Abs()), run, lease) ==> r.Returned?
    ensures StoresDeliveries(env, old(plane.Abs()), plane.Abs(), run, log)
    ensures r.Returned? ==> OutcomesAnswer(env, old(plane.Abs()), run, log, r.outcomes)
  {
    hide Inv, Underway, StoresDeliveries, OutcomesAnswer, Answers, LeftBehind, Finished, NothingQueued, Remaining, Excused, OnTrack, Smooth, LeaseFree, Closed, CommitDone;
    ghost var s0 := plane.Abs();
    var inFlight: map<string, WorkItem> := map[];
    var outcomes: seq<CommitOutcome> := [];
    var claims: nat, rounds: nat := 0, 0;
    log := [];
    UnderwayStarts(s0, run, worker);
    TrackStarts(env, s0, lease);
    LogStarts(env, s0, run);
    while true
      invariant plane.Valid()
      invariant Underway(s0, plane.Abs(), run, worker, inFlight, outcomes) && |inFlight| <= max
      invariant OnTrack(env, s0, plane.Abs(), inFlight, claims, lease)
      invariant Logged(env, s0, run, log, outcomes, rounds)
      decreases Remaining(plane.Abs(), run, inFlight)
    {
      BehindFrom(s0, plane.Abs(), run, worker, inFlight, outcomes, max);
      StoredFrom(env, s0, plane.Abs(), run, worker, inFlight, log, outcomes);
      var inspected := plane.InspectRun(run);
      if inspected.Err? {
        UnknownExcused(env, s0, plane.Abs(), run, worker, inFlight, outcomes, lease);
        return Failed(PlaneFailed(inspected.error)), log;
      }
      if inspected.value.0.state.Completed? {
        FinishedFrom(s0, plane.Abs(), run, worker, inFlight, outcomes);
        ClosedFrom(s0, plane.Abs(), run, max, outcomes);
        return Returned(outcomes), log;
      }
      var stopped; ghost var held;
      inFlight, stopped, claims, held := FillWindow(plane, run, worker, max, lease, env, claims, s0, inFlight, outcomes);
      BehindFrom(s0, plane.Abs(), run, worker, held, outcomes, max);
      StoredFrom(env, s0, plane.Abs(), run, worker, held, log, outcomes);
      if stopped.Some? { return Failed(stopped.value), log; }
      if inFlight == map[] {
        FinishedFrom(s0, plane.Abs(), run, worker, inFlight, outcomes);
        ClosedFrom(s0, plane.Abs(), run, max, outcomes);
        return Returned(outcomes), log;
      }
      var reference :| reference in inFlight;
      InFlightNamed(s0, plane.Abs(), run, worker, inFlight, outcomes, reference);
      var committed;
      ghost var s := plane.Abs();
      committed, stopped := CommitReply(plane, run, worker, inFlight[reference], env, rounds, claims, lease, s0, inFlight, outcomes);
      CommitDoneMeans(s0, s, plane.Abs(), run, worker, reference, inFlight, outcomes, committed);
      LogGrows(env, s0, run, log, outcomes, Delivery(rounds, inFlight[reference]), committed);
      if committed.Some? {
        log := log + [Delivery(rounds, inFlight[reference])];
        inFlight := inFlight - {reference};
        outcomes := outcomes + [committed.value];
      }
      rounds := rounds + 1;
      BehindFrom(s0, plane.Abs(), run, worker, inFlight, outcomes, max);
      StoredFrom(env, s0, plane.Abs(), run, worker, inFlight, log, outcomes);
      if stopped.Some? { return Failed(stopped.value), log; }
    }
  }

  lemma CommitDoneMeans(s0: State, s: State, s': State, run: string, worker: string, a: string,
                        inFlight: map<string, WorkItem>, outcomes: seq<CommitOutcome>, committed: Option<CommitOutcome>)
    requires CommitDone(s0, s, s', run, worker, a, inFlight, outcomes, committed)
    ensures if committed.None? then Underway(s0, s', run, worker, inFlight, outcomes)
            else && Underway(s0, s', run, worker, inFlight - {a}, outcomes + [committed.value])
                 && |inFlight - {a}| < |inFlight| && Remaining(s', run, inFlight - {a}) < Remaining(s, run, inFlight)
  {
    hide Underway, Remaining;
  }

  // ----- crash recovery -----

  function ActiveAttempts(s: State): set<string> {
    set a | a in s.attempts && s.attempts[a].state.Active?
  }

  function OpenKeys(s: State, run: string): set<TaskKey> {
    set k | k in s.tasks && k.run == run && !s.tasks[k].state.Completed?
  }

  function ResultsOfRun(s: State, run: string): set<ResultKey> {
    set rk | rk in s.results && rk.task.run == run
  }

  ghost predicate AllExpiredBy(s: State, t: Time) {
    forall a :: a in s.attempts && s.attempts[a].state.Active? ==> s.attempts[a].expiresAt <= t
  }

  lemma ReclaimCounts(s: State, t: Time)
    requires AllExpiredBy(s, t)
    requires Inv(s)
    ensures ReclaimExpired(s, t).outcome == Ok(|ActiveAttempts(s)|)
  {
    hide Inv, Requeued, ReclaimExpired;
    ReclaimIsExact(s, t);
    assert DueAttempts(s, t) == ActiveAttempts(s);
  }

  lemma ReclaimEndsLeases(s: State, t: Time)
    requires AllExpiredBy(s, t)
    ensures ActiveAttempts(ReclaimExpired(s, t).state) == {}
    ensures ReclaimExpired(s, t).state.results == s.results
  {
    hide Requeues;
  }

  lemma ReclaimKeepsOpen(s: State, t: Time, run: string)
    ensures OpenKeys(ReclaimExpired(s, t).state, run) == OpenKeys(s, run)
  {
    hide Overdue;
  }

  /** Every lease outstanding is an active attempt, so none outstanding means no task is leased. */
  lemma LeasedIsHeld(s: State, k: TaskKey)
    requires k in s.tasks && s.tasks[k].state.Leased?
    requires Inv(s)
    ensures s.tasks[k].current.Some? && s.tasks[k].current.value in ActiveAttempts(s)
  {
    hide Inv;
    LeasesAgreeIn(s);
  }

  lemma CancelledRun(s: State, k: TaskKey)
    requires k in s.tasks && s.tasks[k].state.Cancelled?
    requires Inv(s)
    ensures k.run in s.runs && s.runs[k.run].state.Cancelled?
  {
    hide Inv;
    TaskStatesAgreeIn(s);
  }

  lemma NoLeaseOutstanding(s: State, run: string)
    requires ActiveAttempts(s) == {}
    requires Inv(s)
    ensures LeaseFree(s, run)
  {
    hide Inv;
    forall k | k in s.tasks && k.run == run && s.tasks[k].state.Leased? ensures false { LeasedIsHeld(s, k); }
  }

  /** With no task of the run leased at the start, a drive that returns had every open task in its queue. */
  lemma OpenMeansQueued(s: State, t: State, run: string, max: nat, outcomes: seq<CommitOutcome>)
    requires LeaseFree(s, run) && LeftBehind(s, t, run, max) && Finished(s, t, run, outcomes)
    requires Inv(s) && Inv(t)
    ensures QueuedKeys(s, run) == OpenKeys(s, run)
  {
    hide Inv, Evolves, StoredExactly, OutcomesOk;
    forall k | k in OpenKeys(s, run) ensures k in QueuedKeys(s, run) {
      if s.tasks[k].state.Cancelled? && k !in QueuedKeys(s, run) { CancelledRun(t, k); }
    }
  }

  lemma {:induction false} KeyedCount(results: set<ResultKey>, keys: set<TaskKey>)
    requires forall rk :: rk in results ==> rk.task in keys
    requires forall k :: k in keys ==> exists rk :: rk in results && rk.task == k
    requires forall rk, rl :: rk in results && rl in results && rk.task == rl.task ==> rk == rl
    ensures |results| == |keys|
  {
    if results != {} {
      var rk :| rk in results;
      forall k | k in keys - {rk.task} ensures exists rl :: rl in results - {rk} && rl.task == k {
        var rl :| rl in results && rl.task == k;
        assert rl in results - {rk};
      }
      KeyedCount(results - {rk}, keys - {rk.task});
    }
  }

  /** A completed run has exactly one result per task. */
  lemma OneResultPerTask(s: State, run: string)
    requires OpenKeys(s, run) == {}
    requires Inv(s)
    ensures |ResultsOfRun(s, run)| == |KeysOf(s, run)|
  {
    hide Inv;
    TaskStatesAgreeIn(s);
    forall k | k in KeysOf(s, run) ensures exists rk :: rk in ResultsOfRun(s, run) && rk.task == k {
      assert k !in OpenKeys(s, run);
      assert ResultKey(k, s.tasks[k].planDigest) in ResultsOfRun(s, run);
    }
    forall rk | rk in ResultsOfRun(s, run) ensures rk.task in KeysOf(s, run) && rk.planDigest == s.tasks[rk.task].planDigest {
      ResultBelongs(s, rk);
    }
    KeyedCount(ResultsOfRun(s, run), KeysOf(s, run));
  }

  lemma ResultBelongs(s: State, rk: ResultKey)
    requires rk in s.results
    requires Inv(s)
    ensures rk.task in s.tasks && rk.planDigest == s.tasks[rk.task].planDigest
  {
    hide RunsOk, TasksOk, AttemptsOk, ResultsOk, CohortsOk, ReceiptsOk, PlansOk;
    ResultIsOk(s, rk);
  }

  lemma FinishedClosesRun(s: State, t: State, run: string, max: nat, outcomes: seq<CommitOutcome>)
    requires QueuedKeys(s, run) == OpenKeys(s, run) && LeftBehind(s, t, run, max) && Finished(s, t, run, outcomes)
    requires Inv(t)
    ensures OpenKeys(t, run) == {} && KeysOf(t, run) == KeysOf(s, run)
    ensures run in t.runs && t.runs[run].state.Completed? && |outcomes| == |OpenKeys(s, run)|
  {
    hide Inv, Evolves, StoredExactly, OutcomesOk;
    forall k | k in t.tasks && k.run == run ensures t.tasks[k].state.Completed? {
      if k in QueuedKeys(s, run) {
        assert k in DoneOf(t, QueuedKeys(s, run));
      } else {
        assert k !in OpenKeys(s, run) && t.tasks[k] == s.tasks[k];
      }
    }
    RunsFinishExactlyIn(t);
  }

  /** A drive that returned closed its run if no task of it was leased when the drive began. */
  lemma ClosedFrom(s: State, t: State, run: string, max: nat, outcomes: seq<CommitOutcome>)
    requires LeftBehind(s, t, run, max) && Finished(s, t, run, outcomes)
    requires Inv(s) && Inv(t)
    ensures LeaseFree(s, run) ==> Closed(t, run) && |outcomes| == |OpenKeys(s, run)|
  {
    hide Inv, LeftBehind, Finished, LeaseFree, QueuedKeys, OpenKeys, KeysOf;
    if LeaseFree(s, run) {
      OpenMeansQueued(s, t, run, max, outcomes);
      FinishedClosesRun(s, t, run, max, outcomes);
      OneResultPerTask(t, run);
    }
  }

  /** A drive failed anywhere (`s1`); some time past all expiries the leases are reclaimed (`s2`);
      a second drive returned (`s3`). Then reclaim counted exactly the outstanding leases, the second
      drive committed exactly the tasks the first left open, results committed before the crash are
      intact, and the run is complete with one result per task. */
  lemma CrashRecoveryConverges(s0: State, s1: State, s2: State, s3: State, run: string, max: nat, t: Time,
                               outcomes: seq<CommitOutcome>)
    requires LeftBehind(s0, s1, run, max) && AllExpiredBy(s1, t) && s2 == ReclaimExpired(s1, t).state
    requires LeftBehind(s2, s3, run, max) && Finished(s2, s3, run, outcomes)
    requires Inv(s1) && Inv(s3)
    ensures ReclaimExpired(s1, t).outcome == Ok(|ActiveAttempts(s1)|)
    ensures QueuedKeys(s2, run) == OpenKeys(s1, run) && |outcomes| == |OpenKeys(s1, run)|
    ensures EntriesKept(s0.results, s1.results) && EntriesKept(s1.results, s3.results)
    ensures run in s3.runs && s3.runs[run].state.Completed?
    ensures |ResultsOfRun(s3, run)| == |KeysOf(s3, run)|
  {
    hide Inv, QueuedKeys, OpenKeys, KeysOf, ActiveAttempts, OnlyQueuedTouched, StoredExactly, Finished, ReclaimExpired,
         TasksKept, PlansForward, RunsKept, AttemptsKept, EntriesKept, AllExpiredBy;
    ReclaimKeeps(s1, t);
    ReclaimCounts(s1, t);
    ReclaimEndsLeases(s1, t);
    ReclaimKeepsOpen(s1, t, run);
    NoLeaseOutstanding(s2, run);
    OpenMeansQueued(s2, s3, run, max, outcomes);
    ClosedFrom(s2, s3, run, max, outcomes);
  }
}
