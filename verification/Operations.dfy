/** When each operation is accepted and what it does to every record, in any state that satisfies the
    joint invariant. */
module Operations {
  import opened Records
  import opened Ordering
  import opened ControlState
  import opened ControlInvariant
  import opened ControlHistory
  import opened ControlTheorems
  import opened ControlCommands

  // ----- cancel and resume -----

  /** A task without a stored result. */
  predicate Unfinished(s: State, k: TaskKey) {
    k in s.tasks && ResultKey(k, s.tasks[k].planDigest) !in s.results
  }

  /** `t` has the same plans and results as `s`. */
  ghost predicate KeepsPlansAndResults(s: State, t: State) {
    t.hash == s.hash && t.plans == s.plans && t.results == s.results
  }

  /** Only run `r` differs: it is in state `st` since `now`. */
  predicate RunMoved(s: State, t: State, r: string, st: RunState, now: Time) {
    r in s.runs && t.runs == s.runs[r := s.runs[r].(state := st, updatedAt := now)]
  }

  /** Run `r` is cancelled, and with it exactly its unfinished tasks and its active attempts. */
  ghost predicate Cancelled(s: State, t: State, r: string, now: Time) {
    && KeepsPlansAndResults(s, t) && RunMoved(s, t, r, RunState.Cancelled, now)
    && t.tasks.Keys == s.tasks.Keys && t.attempts.Keys == s.attempts.Keys
    && (forall k :: k in s.tasks ==>
          t.tasks[k] == if k.run == r && Unfinished(s, k) then s.tasks[k].(state := TaskState.Cancelled) else s.tasks[k])
    && (forall a :: a in s.attempts ==>
          t.attempts[a] == if s.attempts[a].task.run == r && s.attempts[a].state.Active?
                           then s.attempts[a].(state := LeaseState.Cancelled) else s.attempts[a])
  }

  /** Run `r` is pending again, and the queue of the run is exactly its unfinished tasks, held by nobody. */
  ghost predicate Resumed(s: State, t: State, r: string, now: Time) {
    && KeepsPlansAndResults(s, t) && RunMoved(s, t, r, RunState.Pending, now)
    && t.tasks.Keys == s.tasks.Keys && t.attempts == s.attempts
    && (forall k :: k in s.tasks && !(k.run == r && Unfinished(s, k)) ==> t.tasks[k] == s.tasks[k])
    && (forall k :: k in s.tasks && k.run == r && Unfinished(s, k) ==>
          t.tasks[k] == s.tasks[k].(state := TaskState.Queued, current := None))
    && QueuedKeys(t, r) == set k | k in s.tasks && k.run == r && Unfinished(s, k)
  }

  /** `e` is refused with `error` and writes nothing. */
  ghost predicate RefusedWith(s: State, e: Event, error: ControlError) {
    Keyed(e) && Respond(s, e) == Err(error) && Next(s, e) == s
  }

  /** `e` is accepted: it answers the run as it now is and leaves its receipt. */
  ghost predicate Accepted(s: State, e: Event) {
    && Answerable(s, e) && Target(e) in Next(s, e).runs && Respond(s, e) == Ok(Next(s, e).runs[Target(e)])
    && Next(s, e).commands == s.commands[e.key := CommandReceipt(e.key, CommandOf(e), s.hash(Intent(s, e)), Target(e), e.now)]
  }

  lemma UnfinishedMeans(s: State)
    requires Inv(s)
    ensures forall k :: k in s.tasks ==> (Unfinished(s, k) <==> !s.tasks[k].state.Completed?)
  {
    hide RunsOk, TasksOk, AttemptsOk, ResultsOk, CohortsOk, ReceiptsOk, PlansOk;
    forall k | k in s.tasks ensures Unfinished(s, k) <==> !s.tasks[k].state.Completed? { TaskIsOk(s, k); }
  }

  lemma CancelEffect(s: State, key: string, r: string, now: Time)
    requires r in s.runs && key !in s.commands && !s.runs[r].state.Completed?
    requires Inv(s)
    ensures Accepted(s, Cancel(key, r, now)) && Cancelled(s, Next(s, Cancel(key, r, now)), r, now)
  {
    hide Inv, HeldOpen, Unfinished;
    UnfinishedMeans(s);
    BulkCancelIsLoop(s, r);
  }

  lemma NothingQueued(s: State, r: string)
    requires r in s.runs && s.runs[r].state.Cancelled?
    requires Inv(s)
    ensures QueuedKeys(s, r) == {}
  {
    hide RunsOk, TasksOk, AttemptsOk, ResultsOk, CohortsOk, ReceiptsOk, PlansOk;
    forall k | k in s.tasks && k.run == r ensures !s.tasks[k].state.Queued? { TaskIsOk(s, k); }
  }

  lemma ResumedQueue(s: State, t: State, r: string)
    requires t.tasks == ResumedTasks(s, r) && QueuedKeys(s, r) == {}
    requires forall k :: k in s.tasks ==> (Unfinished(s, k) <==> !s.tasks[k].state.Completed?)
    ensures QueuedKeys(t, r) == set k | k in s.tasks && k.run == r && Unfinished(s, k)
  {
    hide Unfinished;
    forall k | k in s.tasks && k.run == r ensures k in QueuedKeys(t, r) <==> Unfinished(s, k) {
      assert k !in QueuedKeys(s, r);
    }
  }

  lemma ResumeEffect(s: State, key: string, r: string, now: Time)
    requires r in s.runs && key !in s.commands && s.runs[r].state.Cancelled?
    requires Inv(s)
    ensures Accepted(s, Resume(key, r, now)) && Resumed(s, Next(s, Resume(key, r, now)), r, now)
  {
    hide Inv, Unfinished, QueuedKeys;
    UnfinishedMeans(s);
    NothingQueued(s, r);
    ResumedQueue(s, Next(s, Resume(key, r, now)), r);
  }

  /** Under a new key a known run is cancelled exactly when some task of it has no result. */
  lemma CancelIsExact(s: State, key: string, r: string, now: Time)
    requires key !in s.commands
    requires Inv(s)
    ensures var e := Cancel(key, r, now);
            if r !in s.runs then RefusedWith(s, e, Unknown)
            else if s.runs[r].state.Completed? then RefusedWith(s, e, InvalidTransition)
            else Accepted(s, e) && Cancelled(s, Next(s, e), r, now)
    ensures r in s.runs ==> (!s.runs[r].state.Completed? <==> exists k :: Unfinished(s, k) && k.run == r)
  {
    hide Inv, Accepted, Cancelled, Unfinished, CancelledTasks, CancelledAttempts;
    if r in s.runs {
      UnfinishedMeans(s);
      RunsFinishExactlyIn(s);
      if s.runs[r].state.Completed? {
        assert RefusedWith(s, Cancel(key, r, now), InvalidTransition);
        forall k: TaskKey | k.run == r ensures !Unfinished(s, k) { UnfinishedKnown(s, k); }
      } else {
        CancelEffect(s, key, r, now);
      }
    }
  }

  lemma UnfinishedKnown(s: State, k: TaskKey)
    ensures Unfinished(s, k) ==> k in s.tasks
  {}

  /** Under a new key a known run is resumed exactly when it is cancelled. */
  lemma ResumeIsExact(s: State, key: string, r: string, now: Time)
    requires key !in s.commands
    requires Inv(s)
    ensures var e := Resume(key, r, now);
            if r !in s.runs then RefusedWith(s, e, Unknown)
            else if !s.runs[r].state.Cancelled? then RefusedWith(s, e, InvalidTransition)
            else Accepted(s, e) && Resumed(s, Next(s, e), r, now)
  {
    hide Inv, Accepted, Resumed, ResumedTasks;
    if r in s.runs && s.runs[r].state.Cancelled? { ResumeEffect(s, key, r, now); }
  }

  // ----- heartbeat and commit -----

  /** The worker and token own the live attempt. */
  predicate Owns(s: State, a: string, worker: string, token: string) {
    && a in s.attempts && s.attempts[a].state.Active?
    && s.attempts[a].worker == worker && s.attempts[a].token == token
  }

  /** The lease of the attempt has run out. */
  predicate Overran(s: State, a: string, now: Time) { a in s.attempts && s.attempts[a].expiresAt <= now }

  /** All of `step.state` is as in `s` but the attempt, whose lease now runs from `now` for `lease` and which is
      the answer. */
  ghost predicate Renewed(s: State, step: Step<AttemptLease>, a: string, lease: Time, now: Time) {
    && a in s.attempts
    && var renewed := s.attempts[a].(heartbeatAt := now, expiresAt := now + lease);
       step == Step(s.(attempts := s.attempts[a := renewed]), Ok(renewed))
  }

  ghost function BeatOf(s: State, e: Event): Step<AttemptLease>
    requires e.Beat?
  {
    Heartbeat(s, e.attempt, e.worker, e.token, e.lease, e.now)
  }

  /** A heartbeat with a positive lease is accepted exactly when a commit by the same owner would store a
      result at that instant; it moves only the expiry of that lease. */
  lemma HeartbeatIsExact(s: State, e: Event, c: Event)
    requires e.Beat? && c.Commit?
    requires c.attempt == e.attempt && c.worker == e.worker && c.token == e.token && c.now == e.now
    requires Inv(s)
    ensures Next(s, e) == BeatOf(s, e).state
    ensures if e.lease > 0 && Inserts(s, c) then Renewed(s, BeatOf(s, e), e.attempt, e.lease, e.now)
            else BeatOf(s, e).outcome.Err? && Next(s, e) == s
    ensures BeatOf(s, e).outcome == Err(InvalidArgument) <==> e.lease <= 0
    ensures BeatOf(s, e).outcome == Err(LeaseConflict) <==> e.lease > 0 && !Owns(s, e.attempt, e.worker, e.token)
    ensures BeatOf(s, e).outcome == Err(LateAttempt) <==>
              e.lease > 0 && Owns(s, e.attempt, e.worker, e.token) && Overran(s, e.attempt, e.now)
  {
    hide AllDone, RunsOk, TasksOk, AttemptsOk, ResultsOk, CohortsOk, ReceiptsOk, PlansOk;
    if e.attempt in s.attempts {
      AttemptIsOk(s, e.attempt);
      TaskIsOk(s, s.attempts[e.attempt].task);
    }
  }

  /** The result a commit stores: the attempt's identity and the caller's content. */
  function ResultOf(s: State, c: Event): FinalResult
    requires c.Commit? && c.attempt in s.attempts
  {
    var held := s.attempts[c.attempt];
    FinalResult(ResultKey(held.task, held.planDigest), held.planId, c.attempt, c.digest, c.payload, c.domain, c.now)
  }

  /** What a commit answers, by the attempt's own record. */
  ghost function CommitAnswer(s: State, c: Event): Outcome<CommitOutcome>
    requires c.Commit?
  {
    if c.attempt !in s.attempts then Err(LeaseConflict)
    else
      var held := s.attempts[c.attempt];
      match held.state
      case Active =>
        if !Owns(s, c.attempt, c.worker, c.token) then Err(LeaseConflict)
        else if held.expiresAt <= c.now then Err(LateAttempt)
        else Ok(CommitOutcome(ResultOf(s, c), true))
      case Completed =>
        var key := ResultKey(held.task, held.planDigest);
        if key in s.results && s.results[key].(committedAt := c.now) == ResultOf(s, c) then
          Ok(CommitOutcome(s.results[key], false))
        else Err(FinalResultConflict)
      case Expired => Err(LateAttempt)
      case Cancelled => Err(LateAttempt)
  }

  lemma ResultStored(s: State, a: string)
    requires a in s.attempts && s.attempts[a].state.Completed?
    requires Inv(s)
    ensures StoredAs(s, a, s.results[ResultKey(s.attempts[a].task, s.attempts[a].planDigest)])
    ensures s.results[ResultKey(s.attempts[a].task, s.attempts[a].planDigest)].planId == s.attempts[a].planId
  {
    hide RunsOk, TasksOk, AttemptsOk, ResultsOk, CohortsOk, ReceiptsOk, PlansOk;
    AttemptIsOk(s, a);
    TaskIsOk(s, s.attempts[a].task);
    ResultIsOk(s, ResultKey(s.attempts[a].task, s.attempts[a].planDigest));
  }

  /** A stored result completes its attempt and its task, and its run exactly when no other task of the
      run is unfinished; nothing else changes. */
  ghost predicate Stored(s: State, t: State, c: Event) {
    && c.Commit? && c.attempt in s.attempts
    && var k := s.attempts[c.attempt].task;
       && k in s.tasks && k.run in s.runs
       && t.hash == s.hash && t.plans == s.plans && t.commands == s.commands
       && t.results == s.results[ResultOf(s, c).key := ResultOf(s, c)]
       && t.attempts == s.attempts[c.attempt := s.attempts[c.attempt].(state := LeaseState.Completed)]
       && t.tasks == s.tasks[k := s.tasks[k].(state := TaskState.Completed)]
       && if exists o :: Unfinished(s, o) && o != k && o.run == k.run then t.runs == s.runs
          else RunMoved(s, t, k.run, RunState.Completed, c.now)
  }

  lemma CommitEffect(s: State, c: Event)
    requires Inserts(s, c)
    requires Inv(s)
    ensures Stored(s, Next(s, c), c)
  {
    hide Inv, Unfinished;
    UnfinishedMeans(s);
    var k := s.attempts[c.attempt].task;
    if AllDone(Next(s, c).tasks, k.run) {
      forall o: TaskKey | o != k && o.run == k.run ensures !Unfinished(s, o) {
        if o in s.tasks { assert o in Next(s, c).tasks; } else { UnfinishedKnown(s, o); }
      }
    } else {
      var o :| o in Next(s, c).tasks && o.run == k.run && !Next(s, c).tasks[o].state.Completed?;
      assert o != k && Unfinished(s, o);
    }
  }

  /** A commit answers by the attempt's own record alone and stores exactly for the owner of a live,
      unexpired attempt. */
  lemma CommitIsExact(s: State, c: Event)
    requires c.Commit?
    requires Inv(s)
    ensures CommitOf(s, c).outcome == CommitAnswer(s, c)
    ensures if Inserts(s, c) then Stored(s, Next(s, c), c) else Next(s, c) == s
  {
    hide AllDone, Stored, RunsOk, TasksOk, AttemptsOk, ResultsOk, CohortsOk, ReceiptsOk, PlansOk;
    if Inserts(s, c) { CommitEffect(s, c); }
    if c.attempt in s.attempts {
      AttemptIsOk(s, c.attempt);
      TaskIsOk(s, s.attempts[c.attempt].task);
      if s.attempts[c.attempt].state.Completed? { ResultStored(s, c.attempt); }
    }
  }

  /** After a cancel was accepted no attempt the run had ever stores a result, whatever happens next. */
  lemma CancelFences(s: State, key: string, r: string, now: Time, after: seq<Event>, c: Event)
    requires key !in s.commands && r in s.runs && !s.runs[r].state.Completed?
    requires c.Commit? && c.attempt in s.attempts && s.attempts[c.attempt].task.run == r
    requires Inv(s)
    ensures !Inserts(Run(Next(s, Cancel(key, r, now)), after), c)
  {
    hide Inv, Next, Run, Inserts, Accepted;
    CancelEffect(s, key, r, now);
    NextKeeps(s, Cancel(key, r, now));
    EndedAttemptNeverStores(Next(s, Cancel(key, r, now)), after, c);
  }

  // ----- claim and reclaim -----

  ghost function ClaimOf(s: State, e: Event): Step<Option<AttemptLease>>
    requires e.Claim?
  {
    ClaimTask(s, e.runId, e.worker, e.attempt, e.token, e.lease, e.now)
  }

  /** The run is known and neither cancelled nor completed. */
  predicate Open(s: State, r: string) {
    r in s.runs && (s.runs[r].state.Pending? || s.runs[r].state.Running?)
  }

  /** The least queued task of the run, in (task_id, candidate_id) order. */
  ghost predicate FirstQueued(s: State, r: string, k: TaskKey) {
    k in QueuedKeys(s, r) && forall o :: o in QueuedKeys(s, r) ==> KeyLeq(k, o)
  }

  /** The claim `e` leases task `k` to its caller; nothing else changes but the run, which is running. */
  ghost predicate Leases(s: State, step: Step<Option<AttemptLease>>, e: Event, k: TaskKey) {
    && e.Claim? && k in s.tasks && e.attempt !in s.attempts && e.runId in s.runs
    && var t := step.state;
       var granted := AttemptLease(e.attempt, k, s.runs[e.runId].plan.planId, s.runs[e.runId].planDigest, e.worker, e.token,
                                   LeaseState.Active, e.now, e.now, e.now + e.lease);
       && step.outcome == Ok(Some(granted)) && t.attempts == s.attempts[e.attempt := granted]
       && KeepsPlansAndResults(s, t) && t.commands == s.commands && RunMoved(s, t, e.runId, RunState.Running, e.now)
       && t.tasks == s.tasks[k := s.tasks[k].(state := TaskState.Leased, current := Some(e.attempt))]
  }

  /** It leases the first queued task of its run. */
  ghost predicate LeasesFirst(s: State, step: Step<Option<AttemptLease>>, e: Event) {
    e.Claim? && exists k :: FirstQueued(s, e.runId, k) && Leases(s, step, e, k)
  }

  /** The claim reaches the queue of its run: it is positive, the run is open and its plan frozen. */
  ghost predicate Ready(s: State, e: Event) {
    e.Claim? && e.lease > 0 && Open(s, e.runId) && !Withdrawn(s, e.runId)
  }

  /** A claim is answered exactly for an open run with a frozen plan, and grants the first queued task under
      the run's own plan; a used attempt ID is refused only when there is a task to give. */
  ghost predicate ClaimDecided(s: State, e: Event, step: Step<Option<AttemptLease>>)
    requires e.Claim?
  {
    var queued := QueuedKeys(s, e.runId) != {};
    && (step.outcome == Ok(None) <==> Ready(s, e) && !queued)
    && (step.outcome == Err(IdempotencyConflict) <==> Ready(s, e) && queued && e.attempt in s.attempts)
    && if Ready(s, e) && queued && e.attempt !in s.attempts then LeasesFirst(s, step, e)
       else step.state == s && (step.outcome.Err? || step.outcome.value.None?)
  }

  lemma ClaimIsExact(s: State, e: Event)
    requires e.Claim?
    requires Inv(s)
    ensures Next(s, e) == ClaimOf(s, e).state && ClaimDecided(s, e, ClaimOf(s, e))
  {
    hide RunsOk, TasksOk, AttemptsOk, ResultsOk, CohortsOk, ReceiptsOk, PlansOk;
    KeyOrder();
    if e.runId in s.runs { RunIsOk(s, e.runId); }
    if Ready(s, e) && QueuedKeys(s, e.runId) != {} && e.attempt !in s.attempts {
      ClaimLeases(s, e);
    }
  }

  lemma ClaimLeases(s: State, e: Event)
    requires Ready(s, e) && QueuedKeys(s, e.runId) != {} && e.attempt !in s.attempts
    requires Inv(s)
    ensures LeasesFirst(s, ClaimOf(s, e), e)
  {
    hide RunsOk, TasksOk, AttemptsOk, ResultsOk, CohortsOk, ReceiptsOk, PlansOk;
    KeyOrder();
    var k := Least(QueuedKeys(s, e.runId), KeyLeq);
    RunIsOk(s, e.runId);
    TaskIsOk(s, k);
    assert FirstQueued(s, e.runId, k) && Leases(s, ClaimOf(s, e), e, k);
  }

  /** Why a claim is refused before any task is looked at. */
  lemma ClaimRefusals(s: State, e: Event)
    requires e.Claim?
    requires Inv(s)
    ensures var outcome := ClaimOf(s, e).outcome;
            && (outcome == Err(InvalidArgument) <==> e.lease <= 0)
            && (outcome == Err(Unknown) <==> e.lease > 0 && e.runId !in s.runs)
            && (outcome == Err(InvalidTransition) <==> e.lease > 0 && e.runId in s.runs && !Open(s, e.runId))
            && (outcome == Err(PlanNotSchedulable) <==> e.lease > 0 && Open(s, e.runId) && Withdrawn(s, e.runId))
  {
    hide RunsOk, TasksOk, AttemptsOk, ResultsOk, CohortsOk, ReceiptsOk, PlansOk;
    if e.runId in s.runs { RunIsOk(s, e.runId); }
  }

  /** Reclaim ends exactly the active attempts whose lease has run out and queues exactly their tasks. */
  ghost predicate Reclaimed(s: State, t: State, now: Time) {
    && KeepsPlansAndResults(s, t) && t.commands == s.commands && t.runs == s.runs
    && t.tasks.Keys == s.tasks.Keys && t.attempts.Keys == s.attempts.Keys
    && (forall a :: a in s.attempts ==>
          t.attempts[a] == if s.attempts[a].state.Active? && s.attempts[a].expiresAt <= now
                           then s.attempts[a].(state := LeaseState.Expired) else s.attempts[a])
    && Requeued(s, t, TasksOfAttempts(s, DueAttempts(s, now)))
  }

  lemma ReclaimEffect(s: State, now: Time)
    requires Inv(s)
    ensures Reclaimed(s, Next(s, Reclaim(now)), now)
  {
    hide Inv, Requeued, Requeues;
    ControlTheorems.ReclaimIsExact(s, now);
  }

  // ----- plans -----

  /** The six moves of a plan. */
  predicate PlanMove(p: PlanState, q: PlanState) {
    || (p.Draft? && (q.Validated? || q.Invalid?))
    || (p.Validated? && (q.Frozen? || q.Invalid?))
    || (p.Frozen? && (q.Superseded? || q.Invalid?))
  }

  /** A plan moves exactly along the six edges, and only its state, reason and time change. */
  lemma TransitionIsExact(s: State, key: PlanKey, target: PlanState, reason: string, now: Time)
    ensures var step := TransitionPlan(s, key, target, reason, now);
            && (step.outcome.Ok? <==> key in s.plans && PlanMove(s.plans[key].state, target))
            && (step.outcome == Err(Unknown) <==> key !in s.plans)
            && (step.outcome == Err(InvalidTransition) <==> key in s.plans && !PlanMove(s.plans[key].state, target))
            && (if step.outcome.Ok? then
                  && step.state == s.(plans := s.plans[key :=
                       s.plans[key].(state := target, reason := Some(reason), updatedAt := now)])
                  && step.outcome == Ok(step.state.plans[key])
                else step.state == s)
  {}

  /** A plan is registered exactly when its digest is its content's and its key is free or holds the very
      same record; then it is there, and no other entry changes. */
  lemma RegisterIsExact(s: State, p: VerificationPlan)
    ensures var step := RegisterPlan(s, p);
            && (step.outcome.Ok? <==> s.hash(PlanContent(p.spec)) == p.digest && (p.key in s.plans ==> s.plans[p.key] == p))
            && (step.outcome == Err(InvalidArgument) <==> s.hash(PlanContent(p.spec)) != p.digest)
            && (step.outcome.Ok? || step.outcome == Err(InvalidArgument) || step.outcome == Err(IdempotencyConflict))
            && (step.outcome.Ok? ==> step.outcome == Ok(p) && p.key in step.state.plans && step.state.plans[p.key] == p)
            && step.state == s.(plans := step.state.plans)
            && EntriesKept(s.plans, step.state.plans) && step.state.plans.Keys <= s.plans.Keys + {p.key}
            && (!step.outcome.Ok? || p.key in s.plans ==> step.state == s)
  {}

  // ----- create and replay -----

  /** What a create asks of the registry and of its own task list. */
  predicate Schedules(s: State, c: CreateIntent) {
    && c.plan in s.plans && s.plans[c.plan].state.Frozen?
    && s.plans[c.plan].digest == c.planDigest && s.plans[c.plan].spec.comparisonCohort == c.requestedCohort
  }

  /** One pending run with the intent's fields, the intent's tasks, and nothing else. */
  ghost predicate Created(s: State, t: State, c: CreateIntent, now: Time) {
    && KeepsPlansAndResults(s, t) && t.attempts == s.attempts
    && c.runId in t.runs
    && t.runs == s.runs[c.runId := EvalRun(c.runId, c.requestedCohort, t.runs[c.runId].cohortId, c.plan, c.planDigest,
                                           RunState.Pending, c.sourceRun, now, now)]
    && EntriesKept(s.tasks, t.tasks)
    && (forall k :: k in t.tasks && k !in s.tasks ==>
          exists i :: 0 <= i < |c.tasks| && k == TaskKey(c.runId, c.tasks[i].taskId, c.tasks[i].candidateId))
    && (forall i :: 0 <= i < |c.tasks| ==> QueuedFor(t.tasks, c, c.tasks[i]))
  }

  predicate QueuedFor(tasks: Tasks, c: CreateIntent, input: RunTaskInput) {
    var k := TaskKey(c.runId, input.taskId, input.candidateId);
    k in tasks && tasks[k] == RunTask(k, input.candidateHash, c.plan.planId, c.planDigest, TaskState.Queued, None)
  }

  lemma CreatedFrom(s: State, t: State, c: CreateIntent)
    requires HasExactly(t.tasks, c) && forall k :: k in s.tasks ==> k.run != c.runId
    requires forall k :: k in t.tasks && k !in s.tasks ==> k.run == c.runId
    ensures forall k :: k in t.tasks && k !in s.tasks ==>
              exists i :: 0 <= i < |c.tasks| && k == TaskKey(c.runId, c.tasks[i].taskId, c.tasks[i].candidateId)
    ensures forall i :: 0 <= i < |c.tasks| ==> QueuedFor(t.tasks, c, c.tasks[i])
  {
    forall k | k in t.tasks && k !in s.tasks
      ensures exists i :: 0 <= i < |c.tasks| && k == TaskKey(c.runId, c.tasks[i].taskId, c.tasks[i].candidateId)
    {
      var i :| 0 <= i < |c.tasks| && k == NewTask(c, c.tasks[i]).key;
    }
    forall i | 0 <= i < |c.tasks| ensures QueuedFor(t.tasks, c, c.tasks[i]) {
      assert NewTask(c, c.tasks[i]).key in t.tasks;
    }
  }

  lemma CreateEffect(s: State, key: string, c: CreateIntent, now: Time)
    requires key !in s.commands && CreateRun(s, key, c, now).outcome.Ok?
    requires Inv(s)
    ensures Accepted(s, Create(key, c, now)) && Created(s, Next(s, Create(key, c, now)), c, now)
  {
    hide Inv, NewTasks, HasExactly, CohortFor, QueuedFor, CreateRun;
    CreateAddsRun(s, key, c, now);
    CreateMakesItsTasks(s, key, c, now);
    CreateLeavesReceipt(s, key, c, now);
    CreateLeavesRest(s, key, c, now);
    NewTasksExactly(c);
    NoTasksYet(s, c.runId);
    CreatedFrom(s, CreateRun(s, key, c, now).state, c);
  }

  lemma CreateLeavesRest(s: State, key: string, c: CreateIntent, now: Time)
    ensures var step := CreateRun(s, key, c, now);
            && KeepsPlansAndResults(s, step.state) && step.state.attempts == s.attempts
            && (key !in s.commands && step.outcome.Ok? ==>
                  c.runId in step.state.runs && step.outcome == Ok(step.state.runs[c.runId]))
  {
    hide NewTasks, CohortFor, DistinctIdentities;
  }

  /** Under a new key a create is accepted exactly when its run ID is new, its task list is a non-empty list
      of distinct candidates, and its plan is frozen with that digest and cohort. */
  lemma CreateIsExact(s: State, key: string, c: CreateIntent, now: Time)
    requires key !in s.commands
    requires Inv(s)
    ensures var e := Create(key, c, now);
            if c.runId in s.runs then RefusedWith(s, e, IdempotencyConflict)
            else if c.tasks == [] || !DistinctIdentities(c.tasks) || c.plan !in s.plans then RefusedWith(s, e, Unknown)
            else if !Schedules(s, c) then RefusedWith(s, e, PlanNotSchedulable)
            else Accepted(s, e) && Created(s, Next(s, e), c, now)
  {
    hide Inv, NewTasks, CohortFor, DistinctIdentities, Accepted, Created;
    if CreateRun(s, key, c, now).outcome.Ok? { CreateEffect(s, key, c, now); }
  }

  lemma ReplayAsksForTasks(s: State, source: string, id: string)
    requires source in s.runs
    requires Inv(s)
    ensures var c := ReplayIntent(s, source, id);
            c.tasks != [] && DistinctIdentities(c.tasks) && c.plan in s.plans && c.runId == id
            && (Schedules(s, c) <==> !Withdrawn(s, source))
  {
    hide RunsOk, TasksOk, AttemptsOk, ResultsOk, CohortsOk, ReceiptsOk, PlansOk, OrderedKeys;
    RunIsOk(s, source);
    var keys := OrderedKeys(s, source);
    assert keys != [] by {
      var k :| k in s.tasks && k.run == source;
      assert k in keys;
    }
    var c := ReplayIntent(s, source, id);
    forall i | 0 <= i < |keys|
      ensures |c.tasks| == |keys| && keys[i] in s.tasks && keys[i].run == source
      ensures c.tasks[i].taskId == keys[i].task && c.tasks[i].candidateId == keys[i].candidate
    {
      assert keys[i] in keys;
      TaskIsOk(s, keys[i]);
    }
  }

  /** Under a new key and run ID a replay is accepted exactly when its source is known and the source's plan
      is still frozen: the task list and the registry never refuse it. */
  lemma ReplayIsExact(s: State, key: string, source: string, id: string, now: Time)
    requires key !in s.commands
    requires Inv(s)
    ensures var e := Replay(key, source, id, now);
            if source !in s.runs then RefusedWith(s, e, Unknown)
            else if id in s.runs then RefusedWith(s, e, IdempotencyConflict)
            else if Withdrawn(s, source) then RefusedWith(s, e, PlanNotSchedulable)
            else Accepted(s, e) && Created(s, Next(s, e), ReplayIntent(s, source, id), now)
  {
    hide RunsOk, TasksOk, AttemptsOk, ResultsOk, CohortsOk, ReceiptsOk, PlansOk, CreateRun, ReplayIntent, Created,
         Schedules, Withdrawn, DistinctIdentities;
    if source in s.runs {
      PlanOfRunMatches(s, source);
      ReplayAsksForTasks(s, source, id);
      ReplayIntentNames(s, source, id);
      CreateIsExact(s, key, ReplayIntent(s, source, id), now);
    }
  }
}
