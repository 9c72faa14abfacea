/** The reference back end: six dictionaries updated in place, one operation at a time. */
module InMemory {
  import opened Records
  import opened Ordering
  import opened ControlState
  import opened ControlInvariant

  class InMemoryControlPlane {
    const contentHash: Content -> Sha256
    var plans: map<PlanKey, VerificationPlan>
    var runs: map<string, EvalRun>
    var tasks: map<TaskKey, RunTask>
    var attempts: map<string, AttemptLease>
    var results: map<ResultKey, FinalResult>
    var commands: map<string, CommandReceipt>

    function Abs(): State
      reads this
    {
      State(contentHash, plans, runs, tasks, attempts, results, commands)
    }

    ghost predicate Valid()
      reads this
    {
      Inv(Abs())
    }

    constructor (contentHash: Content -> Sha256)
      requires Injective(contentHash)
      ensures Abs() == Empty(contentHash) && Valid()
    {
      this.contentHash := contentHash;
      plans, runs, tasks, attempts, results, commands := map[], map[], map[], map[], map[], map[];
      new;
      EmptyInv(contentHash);
    }

    method RegisterPlan(plan: VerificationPlan) returns (r: Outcome<VerificationPlan>)
      requires Valid()
      modifies this
      ensures Valid()
      ensures Step(Abs(), r) == ControlState.RegisterPlan(old(Abs()), plan)
    {
      hide Inv;
      RegisterKeeps(Abs(), plan);
      if contentHash(PlanContent(plan.spec)) != plan.digest { return Err(InvalidArgument); }
      if plan.key in plans && plans[plan.key] != plan { return Err(IdempotencyConflict); }
      plans := plans[plan.key := plan];
      r := Ok(plan);
    }

    method TransitionPlan(key: PlanKey, target: PlanState, reason: string, now: Time)
      returns (r: Outcome<VerificationPlan>)
      requires Valid()
      modifies this
      ensures Valid()
      ensures Step(Abs(), r) == ControlState.TransitionPlan(old(Abs()), key, target, reason, now)
    {
      hide Inv;
      TransitionPlanKeeps(Abs(), key, target, reason, now);
      if key !in plans { return Err(Unknown); }
      var current := plans[key];
      if target !in PlanTargets(current.state) { return Err(InvalidTransition); }
      var updated := current.(state := target, reason := Some(reason), updatedAt := now);
      plans := plans[key := updated];
      r := Ok(updated);
    }

    method InspectRun(runId: string) returns (r: Outcome<(EvalRun, seq<RunTask>)>)
      ensures r == if runId in runs then Ok((runs[runId], OrderedTasks(Abs(), runId))) else Err(Unknown)
    {
      if runId !in runs { return Err(Unknown); }
      r := Ok((runs[runId], OrderedTasks(Abs(), runId)));
    }

    /** The effective cohort of a new run, found by scanning all runs in any order. */
    method FindCohort(requested: string, digest: Sha256) returns (cohort: string)
      requires Valid()
      ensures cohort == CohortFor(Abs(), requested, digest)
    {
      hide RunsOk, TasksOk, AttemptsOk, ResultsOk, ReceiptsOk, PlansOk;
      var rest := runs.Keys;
      var related := false;
      while rest != {}
        invariant rest <= runs.Keys
        invariant forall r :: r in runs && r !in rest ==> !SamePlan(Abs(), r, requested, digest)
        invariant related <==> exists r :: r in runs && r !in rest && Related(Abs(), r, requested)
      {
        var r :| r in rest;
        if runs[r].requestedCohort == requested {
          related := true;
          assert Related(Abs(), r, requested);
          if runs[r].planDigest == digest {
            assert SamePlan(Abs(), r, requested, digest);
            forall q | SamePlan(Abs(), q, requested, digest) ensures runs[q].cohortId == runs[r].cohortId {
              assert CohortsAgree(runs[q], runs[r]);
            }
            return runs[r].cohortId;
          }
        }
        rest := rest - {r};
      }
      cohort := if related then requested + "~" + Prefix12(digest) else requested;
    }

    method CreateRun(key: string, c: CreateIntent, now: Time) returns (r: Outcome<EvalRun>)
      requires Valid()
      modifies this
      ensures Valid()
      ensures Step(Abs(), r) == ControlState.CreateRun(old(Abs()), key, c, now)
    {
      hide Inv, CohortFor;
      ghost var s := Abs();
      CreateKeeps(s, key, c, now);
      var digest := contentHash(CreateContent(c));
      if key in commands {
        r := AnswerReceipt(key, Command.CreateCommand, digest);
        return;
      }
      if c.runId in runs { return Err(IdempotencyConflict); }
      if c.tasks == [] || !DistinctIdentities(c.tasks) { return Err(Unknown); }
      if c.plan !in plans { return Err(Unknown); }
      var plan := plans[c.plan];
      if !plan.state.Frozen? || plan.digest != c.planDigest || plan.spec.comparisonCohort != c.requestedCohort {
        return Err(PlanNotSchedulable);
      }
      var cohort := FindCohort(c.requestedCohort, plan.digest);
      var run := EvalRun(c.runId, c.requestedCohort, cohort, c.plan, plan.digest, RunState.Pending, c.sourceRun, now, now);
      runs := runs[c.runId := run];
      InsertTasks(c);
      commands := commands[key := CommandReceipt(key, Command.CreateCommand, digest, c.runId, now)];
      r := Ok(run);
    }

    /** The insertion loop: one queued task per input. */
    method InsertTasks(c: CreateIntent)
      modifies this`tasks
      ensures tasks == old(tasks) + NewTasks(c, |c.tasks|)
    {
      assert tasks == old(tasks) + NewTasks(c, 0);
      for i := 0 to |c.tasks|
        invariant tasks == old(tasks) + NewTasks(c, i)
      {
        var t := c.tasks[i];
        var k := TaskKey(c.runId, t.taskId, t.candidateId);
        tasks := tasks[k := RunTask(k, t.candidateHash, c.plan.planId, c.planDigest, TaskState.Queued, None)];
        assert tasks == old(tasks) + NewTasks(c, i + 1);
      }
    }

    /** A stored receipt answers; every receipt names a run that exists. */
    method AnswerReceipt(key: string, command: Command, digest: Sha256) returns (r: Outcome<EvalRun>)
      requires Valid() && key in commands
      ensures Some(r) == Replayed(Abs(), key, command, digest)
    {
      hide RunsOk, TasksOk, AttemptsOk, ResultsOk, CohortsOk, PlansOk;
      var receipt := commands[key];
      if receipt.command != command || receipt.intentDigest != digest { return Err(IdempotencyConflict); }
      assert ReceiptOk(contentHash, runs.Keys, receipt);
      r := Ok(runs[receipt.resourceId]);
    }
  
    method TransitionRun(command: Command, key: string, runId: string, now: Time) returns (r: Outcome<EvalRun>)
      requires Valid() && !command.CreateCommand?
      modifies this
      ensures Valid()
      ensures Step(Abs(), r) == ControlState.TransitionRun(old(Abs()), command, key, runId, now)
    {
      hide Inv, CancelledTasks, CancelledAttempts, ResumedTasks, OrderedTasks;
      ghost var s := Abs();
      TransitionRunKeeps(s, command, key, runId, now);
      var digest := contentHash(TransitionContent(command, runId));
      if key in commands {
        r := AnswerReceipt(key, command, digest);
        return;
      }
      var inspected := InspectRun(runId);
      if inspected.Err? { return Err(Unknown); }
      var (run, list) := inspected.value;
      var target;
      if command.CancelCommand? {
        if run.state.Completed? { return Err(InvalidTransition); }
        target := RunState.Cancelled;
        CancelAll(runId, list);
      } else {
        if !run.state.Cancelled? { return Err(InvalidTransition); }
        target := RunState.Pending;
        RequeueAll(runId, list);
      }
      var updated := run.(state := target, updatedAt := now);
      runs := runs[runId := updated];
      commands := commands[key := CommandReceipt(key, command, digest, runId, now)];
      r := Ok(updated);
    }

    /** The cancel loop: every unfinished task, and whatever attempt it names. */
    method CancelAll(runId: string, list: seq<RunTask>)
      requires Valid() && list == OrderedTasks(Abs(), runId)
      modifies this`tasks, this`attempts
      ensures tasks == CancelledTasks(old(Abs()), runId) && attempts == CancelledAttempts(old(Abs()), runId)
    {
      hide Inv, OrderedTasks, CancelledTasks, CancelledAttempts, Mixed, MixedAttempts, Listed;
      ghost var s := Abs();
      CancelStart(s, runId);
      for i := 0 to |list|
        invariant Mixed(tasks, s.tasks, CancelledTasks(s, runId), Listed(list, i))
        invariant MixedAttempts(attempts, s.attempts, CancelledAttempts(s, runId), Listed(list, i))
      {
        var task := list[i];
        ListedStep(s, runId, list, i);
        HeldByItsTask(s, task.key);
        CancelStep(s, runId, task, tasks, attempts, Listed(list, i));
        if !task.state.Completed? {
          tasks := tasks[task.key := task.(state := TaskState.Cancelled)];
          if task.current.Some? {
            var attempt := attempts[task.current.value];
            attempts := attempts[attempt.attemptId := attempt.(state := LeaseState.Cancelled)];
          }
        }
      }
      CancelEnd(s, runId, tasks, attempts);
    }

    /** The resume loop: every unfinished task goes back to the queue. */
    method RequeueAll(runId: string, list: seq<RunTask>)
      requires Valid() && list == OrderedTasks(Abs(), runId)
      modifies this`tasks
      ensures tasks == ResumedTasks(old(Abs()), runId)
    {
      hide Inv, OrderedTasks, ResumedTasks, Mixed, Listed;
      ghost var s := Abs();
      ResumeStart(s, runId);
      for i := 0 to |list|
        invariant Mixed(tasks, s.tasks, ResumedTasks(s, runId), Listed(list, i))
      {
        var task := list[i];
        ListedStep(s, runId, list, i);
        ResumeStep(s, runId, task, tasks, Listed(list, i));
        if !task.state.Completed? {
          tasks := tasks[task.key := task.(state := TaskState.Queued, current := None)];
        }
      }
      ResumeEnd(s, runId, tasks);
    }

    method ReplayRun(source: string, replayId: string, key: string, now: Time) returns (r: Outcome<EvalRun>)
      requires Valid()
      modifies this
      ensures Valid()
      ensures Step(Abs(), r) == ControlState.ReplayRun(old(Abs()), source, replayId, key, now)
    {
      hide Inv;
      var inspected := InspectRun(source);
      if inspected.Err? { return Err(Unknown); }
      var (run, list) := inspected.value;
      if !PlanMatches(Abs(), run.plan, run) { return Err(Unknown); }
      r := CreateRun(key, CreateIntent(replayId, run.requestedCohort, run.plan, plans[run.plan].digest,
                                       Inputs(list), Some(source)), now);
    }

    method ClaimTask(runId: string, worker: string, attempt: string, token: string, lease: Time, now: Time)
      returns (r: Outcome<Option<AttemptLease>>)
      requires Valid()
      modifies this
      ensures Valid()
      ensures Step(Abs(), r) == ControlState.ClaimTask(old(Abs()), runId, worker, attempt, token, lease, now)
    {
      hide Inv, TotalOrder, KeyLeq, OrderedTasks, OrderedKeys, Least, SortSet;
      ghost var s := Abs();
      ClaimKeeps(s, runId, worker, attempt, token, lease, now);
      if lease <= 0 { return Err(InvalidArgument); }
      var inspected := InspectRun(runId);
      if inspected.Err? { return Err(Unknown); }
      var (run, list) := inspected.value;
      if !run.state.Pending? && !run.state.Running? { return Err(InvalidTransition); }
      if run.plan !in plans { return Err(Unknown); }
      if !plans[run.plan].state.Frozen? { return Err(PlanNotSchedulable); }
      var queued := FirstQueued(list);
      FirstQueuedIsLeast(s, runId);
      if queued.None? { return Ok(None); }
      if attempt in attempts { return Err(IdempotencyConflict); }
      var task := queued.value;
      var granted := AttemptLease(attempt, task.key, task.planId, task.planDigest, worker, token,
                                  LeaseState.Active, now, now, now + lease);
      attempts := attempts[attempt := granted];
      tasks := tasks[task.key := task.(state := TaskState.Leased, current := Some(attempt))];
      runs := runs[runId := run.(state := RunState.Running, updatedAt := now)];
      r := Ok(Some(granted));
    }

    method Heartbeat(attempt: string, worker: string, token: string, lease: Time, now: Time)
      returns (r: Outcome<AttemptLease>)
      requires Valid()
      modifies this
      ensures Valid()
      ensures Step(Abs(), r) == ControlState.Heartbeat(old(Abs()), attempt, worker, token, lease, now)
    {
      hide Inv;
      HeartbeatKeeps(Abs(), attempt, worker, token, lease, now);
      if lease <= 0 { return Err(InvalidArgument); }
      if attempt !in attempts { return Err(LeaseConflict); }
      var current := attempts[attempt];
      if !current.state.Active? || current.worker != worker || current.token != token { return Err(LeaseConflict); }
      if current.expiresAt <= now { return Err(LateAttempt); }
      var updated := current.(heartbeatAt := now, expiresAt := now + lease);
      attempts := attempts[attempt := updated];
      r := Ok(updated);
    }

    method ReclaimExpired(now: Time) returns (r: Outcome<nat>)
      requires Valid()
      modifies this
      ensures Valid()
      ensures Step(Abs(), r) == ControlState.ReclaimExpired(old(Abs()), now)
    {
      hide Inv, PartTasks, PartAttempts, PartKeys, Requeues, ControlState.ReclaimExpired;
      ghost var s := Abs();
      ReclaimKeeps(s, now);
      ReclaimStart(s, now);
      var reclaimed := 0;
      var rest := attempts.Keys;
      while rest != {}
        invariant rest <= s.attempts.Keys && Abs() == s.(tasks := tasks, attempts := attempts)
        invariant tasks == PartTasks(s, now, s.attempts.Keys - rest)
        invariant attempts == PartAttempts(s, now, s.attempts.Keys - rest)
        invariant reclaimed == |PartKeys(s, now, s.attempts.Keys - rest)|
      {
        var a :| a in rest;
        ReclaimStep(s, now, s.attempts.Keys - rest, a);
        assert s.attempts.Keys - (rest - {a}) == (s.attempts.Keys - rest) + {a};
        var attempt := attempts[a];
        if attempt.state.Active? && attempt.expiresAt <= now {
          attempts := attempts[a := attempt.(state := LeaseState.Expired)];
          var task := tasks[attempt.task];
          var run := runs[attempt.task.run];
          if task.current == Some(a) && task.state.Leased? && (run.state.Pending? || run.state.Running?) {
            tasks := tasks[attempt.task := task.(state := TaskState.Queued, current := None)];
            reclaimed := reclaimed + 1;
          }
        }
        rest := rest - {a};
      }
      assert s.attempts.Keys - rest == s.attempts.Keys;
      ReclaimEnd(s, now);
      r := Ok(reclaimed);
    }

    method CommitResult(attempt: string, worker: string, token: string, digest: Sha256, payload: Payload,
                        domain: Option<FailureDomain>, now: Time) returns (r: Outcome<CommitOutcome>)
      requires Valid()
      modifies this
      ensures Valid()
      ensures Step(Abs(), r) ==
              ControlState.CommitResult(old(Abs()), attempt, worker, token, digest, payload, domain, now)
    {
      hide Inv, OrderedTasks, AllListedDone, AllDone;
      ghost var s := Abs();
      CommitKeeps(s, attempt, worker, token, digest, payload, domain, now);
      if attempt !in attempts { return Err(LeaseConflict); }
      var held := attempts[attempt];
      var key := ResultKey(held.task, held.planDigest);
      if held.state.Completed? && key in results {
        var existing := results[key];
        if existing.attemptId == attempt && existing.digest == digest && existing.payload == payload
           && existing.domain == domain {
          return Ok(CommitOutcome(existing, false));
        }
        return Err(FinalResultConflict);
      }
      LookupsSucceed(s, attempt);
      var task := tasks[held.task];
      if !held.state.Active? || task.current != Some(attempt) { return Err(LateAttempt); }
      if held.worker != worker || held.token != token { return Err(LeaseConflict); }
      if held.expiresAt <= now { return Err(LateAttempt); }
      if key in results { return Err(FinalResultConflict); }
      var result := FinalResult(key, held.planId, attempt, digest, payload, domain, now);
      results := results[key := result];
      attempts := attempts[attempt := held.(state := LeaseState.Completed)];
      tasks := tasks[held.task := task.(state := TaskState.Completed)];
      var inspected := InspectRun(held.task.run);
      var (run, list) := inspected.value;
      EveryListed(Abs(), held.task.run);
      if AllListedDone(list) {
        runs := runs[held.task.run := run.(state := RunState.Completed, updatedAt := now)];
      }
      r := Ok(CommitOutcome(result, true));
    }

    method AssertAggregateable(runIds: seq<string>) returns (r: Outcome<Sha256>)
      ensures r == Aggregate(Abs(), runIds)
    {
      if runIds == [] { return Err(MixedCohort); }
      var digests: set<Sha256>, cohorts: set<string> := {}, {};
      for i := 0 to |runIds|
        invariant forall r :: r in runIds[..i] ==> r in runs
        invariant digests == Digests(Abs(), runIds[..i]) && cohorts == Cohorts(Abs(), runIds[..i])
      {
        assert runIds[..i + 1] == runIds[..i] + [runIds[i]];
        var inspected := InspectRun(runIds[i]);
        if inspected.Err? { return Err(Unknown); }
        digests := digests + {inspected.value.0.planDigest};
        cohorts := cohorts + {inspected.value.0.cohortId};
      }
      assert runIds[..|runIds|] == runIds;
      if |digests| != 1 || |cohorts| != 1 { return Err(MixedCohort); }
      r := Ok(runs[runIds[0]].planDigest);
    }
  }

  // ----- lookups the operations rely on -----

  lemma HeldByItsTask(s: State, k: TaskKey)
    requires k in s.tasks
    requires Inv(s)
    ensures s.tasks[k].key == k
    ensures s.tasks[k].current.Some? ==>
      var a := s.tasks[k].current.value; a in s.attempts && s.attempts[a].task == k && s.attempts[a].attemptId == a
  {
    hide RunsOk, TasksOk, AttemptsOk, ResultsOk, CohortsOk, ReceiptsOk, PlansOk;
    TaskIsOk(s, k);
    if s.tasks[k].current.Some? { AttemptIsOk(s, s.tasks[k].current.value); }
  }

  lemma OverdueRequeues(s: State, a: string, now: Time)
    requires a in s.attempts && Overdue(s, a, now)
    requires Inv(s)
    ensures s.attempts[a].task in s.tasks && s.tasks[s.attempts[a].task].current == Some(a)
    ensures Requeues(s, s.attempts[a].task, now)
  {
    hide RunsOk, TasksOk, AttemptsOk, ResultsOk, CohortsOk, ReceiptsOk, PlansOk;
    AttemptIsOk(s, a);
    TaskIsOk(s, s.attempts[a].task);
  }

  predicate AllListedDone(list: seq<RunTask>) {
    forall i :: 0 <= i < |list| ==> list[i].state.Completed?
  }

  /** `all(...)` over the sorted listing is `all(...)` over the run's tasks. */
  lemma EveryListed(s: State, r: string)
    ensures AllListedDone(OrderedTasks(s, r)) <==> AllDone(s.tasks, r)
  {
    hide OrderedKeys;
    var keys := OrderedKeys(s, r);
    if AllListedDone(OrderedTasks(s, r)) {
      forall k | k in s.tasks && k.run == r ensures s.tasks[k].state.Completed? {
        assert k in keys;
        var i :| 0 <= i < |keys| && keys[i] == k;
        assert OrderedTasks(s, r)[i] == s.tasks[k];
      }
    } else {
      var i :| 0 <= i < |keys| && !OrderedTasks(s, r)[i].state.Completed?;
      assert keys[i] in keys;
    }
  }

  /** `queued[0]` of the listing, when there is one. */
  function FirstQueued(list: seq<RunTask>): (r: Option<RunTask>)
    ensures match r
            case None => forall i :: 0 <= i < |list| ==> !list[i].state.Queued?
            case Some(t) => exists i :: 0 <= i < |list| && list[i] == t && t.state.Queued?
                                        && forall j :: 0 <= j < i ==> !list[j].state.Queued?
  {
    if list == [] then None
    else if list[0].state.Queued? then Some(list[0])
    else
      var rest := FirstQueued(list[1..]);
      assert rest.Some? ==> forall j :: 1 <= j < |list| ==> list[j] == list[1..][j - 1];
      rest
  }

  // ----- the sorted listing as a traversal -----

  function Listed(list: seq<RunTask>, n: nat): set<TaskKey>
    requires n <= |list|
  {
    set i | 0 <= i < n :: list[i].key
  }

  /** The listing holds every task of the run, once. */
  lemma ListedOnce(s: State, r: string)
    requires Inv(s)
    ensures var list := OrderedTasks(s, r);
            && Listed(list, |list|) == KeysOf(s, r)
            && forall i :: 0 <= i < |list| ==> list[i].key == OrderedKeys(s, r)[i]
  {
    hide Inv, OrderedKeys;
    var keys := OrderedKeys(s, r);
    forall i | 0 <= i < |keys| ensures OrderedTasks(s, r)[i].key == keys[i] {
      assert keys[i] in keys;
      HeldByItsTask(s, keys[i]);
    }
    forall k | k in KeysOf(s, r) ensures k in Listed(OrderedTasks(s, r), |keys|) { assert k in keys; }
    forall i | 0 <= i < |keys| ensures keys[i] in KeysOf(s, r) { assert keys[i] in keys; }
  }

  lemma ListedStep(s: State, r: string, list: seq<RunTask>, i: nat)
    requires i < |list| && list == OrderedTasks(s, r)
    requires Inv(s)
    ensures var k := list[i].key;
            && k in s.tasks && k.run == r && list[i] == s.tasks[k] && k !in Listed(list, i)
            && Listed(list, i + 1) == Listed(list, i) + {k}
  {
    hide Inv;
    ListedOnce(s, r);
    assert OrderedKeys(s, r)[i] in OrderedKeys(s, r);
  }

  ghost predicate Mixed<K, V>(m: map<K, V>, before: map<K, V>, after: map<K, V>, done: set<K>) {
    && m.Keys == before.Keys == after.Keys
    && forall k :: k in m ==> m[k] == if k in done then after[k] else before[k]
  }

  ghost predicate MixedAttempts(m: Attempts, before: Attempts, after: Attempts, done: set<TaskKey>) {
    && m.Keys == before.Keys == after.Keys
    && forall a :: a in m ==> m[a] == if before[a].task in done then after[a] else before[a]
  }

  lemma MixedStep<K, V>(m: map<K, V>, before: map<K, V>, after: map<K, V>, done: set<K>, k: K)
    requires Mixed(m, before, after, done) && k in m && k !in done
    ensures k in after && m[k] == before[k] && Mixed(m[k := after[k]], before, after, done + {k})
    ensures m[k] == after[k] ==> m[k := after[k]] == m
  {}

  /** What cancellation does to one task and to the attempts on it: only the one it names. */
  lemma CancelledAt(s: State, r: string, k: TaskKey)
    requires k in s.tasks && k.run == r
    ensures k in CancelledTasks(s, r) && CancelledTasks(s, r)[k] ==
            if s.tasks[k].state.Completed? then s.tasks[k] else s.tasks[k].(state := TaskState.Cancelled)
    ensures forall a :: a in s.attempts && s.attempts[a].task == k ==>
              a in CancelledAttempts(s, r) && CancelledAttempts(s, r)[a] ==
                if !s.tasks[k].state.Completed? && s.tasks[k].current == Some(a)
                then s.attempts[a].(state := LeaseState.Cancelled) else s.attempts[a]
  {}

  /** The attempts after the loop has visited task `k` as well. */
  ghost function NextAttempts(s: State, k: TaskKey, attempts: Attempts): Attempts
    requires k in s.tasks
  {
    var t := s.tasks[k];
    if !t.state.Completed? && t.current.Some? && t.current.value in attempts then
      attempts[t.current.value := attempts[t.current.value].(state := LeaseState.Cancelled)]
    else attempts
  }

  lemma CancelStart(s: State, r: string)
    ensures Mixed(s.tasks, s.tasks, CancelledTasks(s, r), Listed(OrderedTasks(s, r), 0))
    ensures MixedAttempts(s.attempts, s.attempts, CancelledAttempts(s, r), Listed(OrderedTasks(s, r), 0))
  {
    hide OrderedTasks;
  }

  lemma CancelAttemptsStep(s: State, r: string, k: TaskKey, done: set<TaskKey>, attempts: Attempts)
    requires k in s.tasks && k.run == r && k !in done
    requires MixedAttempts(attempts, s.attempts, CancelledAttempts(s, r), done)
    requires s.tasks[k].current.Some? ==>
      s.tasks[k].current.value in s.attempts && s.attempts[s.tasks[k].current.value].task == k
    ensures MixedAttempts(NextAttempts(s, k, attempts), s.attempts, CancelledAttempts(s, r), done + {k})
  {
    CancelledAt(s, r, k);
    hide CancelledAttempts;
  }

  /** What one round of the cancel loop establishes about the task it visits. */
  ghost predicate CancelsOne(s: State, r: string, t: RunTask, tasks: Tasks, attempts: Attempts, done: set<TaskKey>) {
    && t.key in s.tasks && s.tasks[t.key] == t
    && (t.current.Some? ==> t.current.value in attempts && attempts[t.current.value].attemptId == t.current.value)
    && Mixed(if t.state.Completed? then tasks else tasks[t.key := t.(state := TaskState.Cancelled)],
             s.tasks, CancelledTasks(s, r), done)
    && MixedAttempts(NextAttempts(s, t.key, attempts), s.attempts, CancelledAttempts(s, r), done)
  }

  lemma CancelStep(s: State, r: string, t: RunTask, tasks: Tasks, attempts: Attempts, done: set<TaskKey>)
    requires t.key in s.tasks && t.key.run == r && t == s.tasks[t.key] && t.key !in done
    requires Mixed(tasks, s.tasks, CancelledTasks(s, r), done)
    requires MixedAttempts(attempts, s.attempts, CancelledAttempts(s, r), done)
    requires t.current.Some? ==>
      var a := t.current.value; a in s.attempts && s.attempts[a].task == t.key && s.attempts[a].attemptId == a
    ensures CancelsOne(s, r, t, tasks, attempts, done + {t.key})
  {
    hide CancelledTasks, CancelledAttempts, Mixed;
    CancelledAt(s, r, t.key);
    MixedKey(tasks, s.tasks, CancelledTasks(s, r), done, t.key);
    MixedStep(tasks, s.tasks, CancelledTasks(s, r), done, t.key);
    CancelAttemptsStep(s, r, t.key, done, attempts);
  }

  lemma MixedKey<K, V>(m: map<K, V>, before: map<K, V>, after: map<K, V>, done: set<K>, k: K)
    requires Mixed(m, before, after, done)
    ensures k in m <==> k in before
  {}

  lemma CancelEnd(s: State, r: string, tasks: Tasks, attempts: Attempts)
    requires Mixed(tasks, s.tasks, CancelledTasks(s, r), Listed(OrderedTasks(s, r), |OrderedTasks(s, r)|))
    requires MixedAttempts(attempts, s.attempts, CancelledAttempts(s, r), Listed(OrderedTasks(s, r), |OrderedTasks(s, r)|))
    requires Inv(s)
    ensures tasks == CancelledTasks(s, r) && attempts == CancelledAttempts(s, r)
  {
    hide Inv, OrderedTasks, Listed;
    ListedOnce(s, r);
  }

  lemma ResumeStart(s: State, r: string)
    ensures Mixed(s.tasks, s.tasks, ResumedTasks(s, r), Listed(OrderedTasks(s, r), 0))
  {
    hide OrderedTasks;
  }

  ghost predicate ResumesOne(s: State, r: string, t: RunTask, tasks: Tasks, done: set<TaskKey>) {
    Mixed(if t.state.Completed? then tasks else tasks[t.key := t.(state := TaskState.Queued, current := None)],
          s.tasks, ResumedTasks(s, r), done)
  }

  lemma ResumeStep(s: State, r: string, t: RunTask, tasks: Tasks, done: set<TaskKey>)
    requires t.key in s.tasks && t.key.run == r && t == s.tasks[t.key] && t.key !in done
    requires Mixed(tasks, s.tasks, ResumedTasks(s, r), done)
    ensures ResumesOne(s, r, t, tasks, done + {t.key})
  {
    hide Mixed;
    MixedKey(tasks, s.tasks, ResumedTasks(s, r), done, t.key);
    MixedStep(tasks, s.tasks, ResumedTasks(s, r), done, t.key);
  }

  lemma ResumeEnd(s: State, r: string, tasks: Tasks)
    requires Mixed(tasks, s.tasks, ResumedTasks(s, r), Listed(OrderedTasks(s, r), |OrderedTasks(s, r)|))
    requires Inv(s)
    ensures tasks == ResumedTasks(s, r)
  {
    hide Inv, OrderedTasks, Listed;
    ListedOnce(s, r);
  }

  // ----- the reclaim loop, after the attempts in `done` -----

  ghost function PartKeys(s: State, now: Time, done: set<string>): set<TaskKey> {
    set k | k in s.tasks && Requeues(s, k, now) && s.tasks[k].current.value in done
  }

  ghost function PartTasks(s: State, now: Time, done: set<string>): Tasks {
    map k | k in s.tasks ::
      if k in PartKeys(s, now, done) then s.tasks[k].(state := TaskState.Queued, current := None) else s.tasks[k]
  }

  ghost function PartAttempts(s: State, now: Time, done: set<string>): Attempts {
    map a | a in s.attempts ::
      if a in done && Overdue(s, a, now) then s.attempts[a].(state := LeaseState.Expired) else s.attempts[a]
  }

  lemma ReclaimStart(s: State, now: Time)
    ensures PartKeys(s, now, {}) == {} && PartTasks(s, now, {}) == s.tasks && PartAttempts(s, now, {}) == s.attempts
    ensures s.attempts.Keys - s.attempts.Keys == {}
  {
    hide Requeues, Overdue;
  }

  lemma ReclaimEnd(s: State, now: Time)
    ensures var t := ControlState.ReclaimExpired(s, now);
            && t.outcome == Ok(|PartKeys(s, now, s.attempts.Keys)|)
            && t.state == s.(tasks := PartTasks(s, now, s.attempts.Keys), attempts := PartAttempts(s, now, s.attempts.Keys))
  {
    assert PartKeys(s, now, s.attempts.Keys) == RequeuedKeys(s, now);
    hide Requeues, Overdue, PartKeys, RequeuedKeys;
    forall k | k in s.tasks
      ensures PartTasks(s, now, s.attempts.Keys)[k] == ControlState.ReclaimExpired(s, now).state.tasks[k]
    {
      assert k in RequeuedKeys(s, now) <==> Requeues(s, k, now) by { RequeuedIn(s, k, now); }
    }
    assert PartTasks(s, now, s.attempts.Keys) == ControlState.ReclaimExpired(s, now).state.tasks;
    assert PartAttempts(s, now, s.attempts.Keys) == ControlState.ReclaimExpired(s, now).state.attempts;
  }

  lemma RequeuedIn(s: State, k: TaskKey, now: Time)
    requires k in s.tasks
    ensures k in RequeuedKeys(s, now) <==> Requeues(s, k, now)
  {}

  /** One round: an overdue attempt is always the one its task names, in a run still in progress. */
  lemma ReclaimStep(s: State, now: Time, done: set<string>, a: string)
    requires a in s.attempts && a !in done
    requires Inv(s)
    ensures a in PartAttempts(s, now, done) && PartAttempts(s, now, done)[a] == s.attempts[a]
    ensures if Overdue(s, a, now) then
              var k := s.attempts[a].task;
              && k in s.tasks && k in PartTasks(s, now, done) && PartTasks(s, now, done)[k] == s.tasks[k]
              && s.tasks[k].current == Some(a) && s.tasks[k].state.Leased?
              && k.run in s.runs && (s.runs[k.run].state.Pending? || s.runs[k.run].state.Running?)
              && PartKeys(s, now, done + {a}) == PartKeys(s, now, done) + {k} && k !in PartKeys(s, now, done)
              && PartTasks(s, now, done + {a}) ==
                   PartTasks(s, now, done)[k := s.tasks[k].(state := TaskState.Queued, current := None)]
              && PartAttempts(s, now, done + {a}) ==
                   PartAttempts(s, now, done)[a := s.attempts[a].(state := LeaseState.Expired)]
            else
              && PartKeys(s, now, done + {a}) == PartKeys(s, now, done)
              && PartTasks(s, now, done + {a}) == PartTasks(s, now, done)
              && PartAttempts(s, now, done + {a}) == PartAttempts(s, now, done)
  {
    hide Inv;
    if Overdue(s, a, now) {
      OverdueRequeues(s, a, now);
      var k := s.attempts[a].task;
      assert PartKeys(s, now, done + {a}) == PartKeys(s, now, done) + {k};
    } else {
      assert PartKeys(s, now, done + {a}) == PartKeys(s, now, done);
    }
  }

  lemma FirstQueuedIsLeast(s: State, r: string)
    requires Inv(s)
    ensures TotalOrder(KeyLeq)
    ensures match FirstQueued(OrderedTasks(s, r))
            case None => QueuedKeys(s, r) == {}
            case Some(t) => QueuedKeys(s, r) != {} && t.key == Least(QueuedKeys(s, r), KeyLeq) && s.tasks[t.key] == t
  {
    hide Inv, OrderedTasks, KeyLeq, TotalOrder, Ascending, Distinct;
    KeyOrder();
    var list := OrderedTasks(s, r);
    ListedOnce(s, r);
    forall k | k in QueuedKeys(s, r) ensures exists i :: 0 <= i < |list| && list[i].key == k {
      assert k in Listed(list, |list|);
    }
    if FirstQueued(list).Some? {
      var t := FirstQueued(list).value;
      var i :| 0 <= i < |list| && list[i] == t && t.state.Queued? && forall j :: 0 <= j < i ==> !list[j].state.Queued?;
      ListedStep(s, r, list, i);
      forall k | k in QueuedKeys(s, r) ensures KeyLeq(t.key, k) {
        var j :| 0 <= j < |list| && list[j].key == k;
        ListedStep(s, r, list, j);
        assert i <= j;
        OrderedAt(s, r, i, j);
      }
      KeyAntisymmetric(Least(QueuedKeys(s, r), KeyLeq), t.key);
    }
  }

  lemma OrderedAt(s: State, r: string, i: nat, j: nat)
    requires i <= j < |OrderedKeys(s, r)|
    ensures KeyLeq(OrderedKeys(s, r)[i], OrderedKeys(s, r)[j])
  {
    hide OrderedKeys;
    KeyOrder();
  }

  lemma KeyAntisymmetric(a: TaskKey, b: TaskKey)
    requires KeyLeq(a, b) && KeyLeq(b, a)
    ensures a == b
  {
    KeyOrder();
  }
}
