/** The joint invariant of plans, runs, tasks, attempts, results and receipts, and the
    proof that every operation of every client keeps it. */
module ControlInvariant {
  import opened Records
  import opened Ordering
  import opened ControlState

  type Plans = map<PlanKey, VerificationPlan>
  type Runs = map<string, EvalRun>
  type Tasks = map<TaskKey, RunTask>
  type Attempts = map<string, AttemptLease>
  type Results = map<ResultKey, FinalResult>

  ghost predicate PlansOk(hash: Content -> Sha256, plans: Plans) {
    forall p :: p in plans ==> plans[p].key == p && hash(PlanContent(plans[p].spec)) == plans[p].digest
  }

  // ----- runs against plans and tasks -----

  /** The plan of a run is frozen or has left the frozen state. */
  predicate Schedulable(p: PlanState) { p.Frozen? || p.Superseded? || p.Invalid? }

  ghost predicate LineageOk(plans: Plans, run: EvalRun) {
    && run.plan in plans
    && plans[run.plan].digest == run.planDigest
    && plans[run.plan].spec.comparisonCohort == run.requestedCohort
    && Schedulable(plans[run.plan].state)
  }

  ghost predicate HasTask(tasks: Tasks, r: string) {
    exists k :: k in tasks && k.run == r
  }

  ghost predicate HasOpenTask(tasks: Tasks, r: string) {
    exists k :: k in tasks && k.run == r && !tasks[k].state.Completed?
  }

  ghost predicate ProgressOk(tasks: Tasks, run: EvalRun) {
    HasTask(tasks, run.runId) && (!run.state.Completed? ==> HasOpenTask(tasks, run.runId))
  }

  ghost predicate RunsOk(plans: Plans, runs: Runs, tasks: Tasks) {
    forall r :: r in runs ==> runs[r].runId == r && LineageOk(plans, runs[r]) && ProgressOk(tasks, runs[r])
  }

  // ----- tasks, attempts and results -----

  /** An attempt that exists, belongs to task `k` and is in state `st`. */
  predicate Holds(attempts: Attempts, k: TaskKey, a: Option<string>, st: LeaseState) {
    a.Some? && a.value in attempts && attempts[a.value].task == k && attempts[a.value].state == st
  }

  ghost predicate TaskOk(run: EvalRun, attempts: Attempts, results: Results, k: TaskKey, t: RunTask) {
    && t.key == k
    && t.planId == run.plan.planId
    && t.planDigest == run.planDigest
    && (run.state.Completed? ==> t.state.Completed?)
    && (run.state.Cancelled? ==> t.state.Cancelled? || t.state.Completed?)
    && (t.state.Completed? <==> ResultKey(k, t.planDigest) in results)
    && match t.state
       case Queued => t.current.None?
       case Leased => run.state.Running? && Holds(attempts, k, t.current, LeaseState.Active)
       case Cancelled => && run.state.Cancelled?
                         && (t.current.Some? ==> Holds(attempts, k, t.current, LeaseState.Cancelled))
       case Completed => Holds(attempts, k, t.current, LeaseState.Completed)
  }

  ghost predicate TasksOk(runs: Runs, tasks: Tasks, attempts: Attempts, results: Results) {
    forall k :: k in tasks ==> k.run in runs && TaskOk(runs[k.run], attempts, results, k, tasks[k])
  }

  ghost predicate AttemptOk(tasks: Tasks, a: string, held: AttemptLease) {
    && held.attemptId == a
    && held.task in tasks
    && held.planId == tasks[held.task].planId
    && held.planDigest == tasks[held.task].planDigest
    && (held.state.Active? ==> tasks[held.task].state.Leased? && tasks[held.task].current == Some(a))
    && (held.state.Completed? ==> tasks[held.task].state.Completed? && tasks[held.task].current == Some(a))
  }

  ghost predicate AttemptsOk(tasks: Tasks, attempts: Attempts) {
    forall a :: a in attempts ==> AttemptOk(tasks, a, attempts[a])
  }

  ghost predicate ResultOk(tasks: Tasks, rk: ResultKey, res: FinalResult) {
    && res.key == rk
    && rk.task in tasks
    && rk.planDigest == tasks[rk.task].planDigest
    && res.planId == tasks[rk.task].planId
    && tasks[rk.task].state.Completed?
    && tasks[rk.task].current == Some(res.attemptId)
  }

  ghost predicate ResultsOk(tasks: Tasks, results: Results) {
    forall rk :: rk in results ==> ResultOk(tasks, rk, results[rk])
  }

  // ----- receipts -----

  /** The command whose content hash the receipt stores, and the run it was issued for. */
  ghost predicate StandsFor(hash: Content -> Sha256, receipt: CommandReceipt, c: Content) {
    && hash(c) == receipt.intentDigest
    && match c
       case CreateContent(i) => receipt.command.CreateCommand? && i.runId == receipt.resourceId && i.tasks != []
                                && DistinctIdentities(i.tasks)
       case TransitionContent(cmd, r) => receipt.command == cmd && !cmd.CreateCommand? && r == receipt.resourceId
       case _ => false
  }

  ghost predicate ReceiptOk(hash: Content -> Sha256, runIds: set<string>, receipt: CommandReceipt) {
    receipt.resourceId in runIds && exists c :: StandsFor(hash, receipt, c)
  }

  ghost predicate ReceiptsOk(hash: Content -> Sha256, runIds: set<string>, commands: map<string, CommandReceipt>) {
    forall key :: key in commands ==> ReceiptOk(hash, runIds, commands[key])
  }

  // ----- cohorts -----

  function Suffixed(requested: string, digest: Sha256): string { requested + "~" + Prefix12(digest) }

  ghost predicate CohortNamed(run: EvalRun) {
    run.cohortId == run.requestedCohort || run.cohortId == Suffixed(run.requestedCohort, run.planDigest)
  }

  /** Two runs of one requested cohort: equal plans share the id, and only one plan has the bare name. */
  ghost predicate CohortsAgree(r: EvalRun, q: EvalRun) {
    r.requestedCohort == q.requestedCohort ==>
      && (r.planDigest == q.planDigest ==> r.cohortId == q.cohortId)
      && (r.cohortId == r.requestedCohort && q.cohortId == q.requestedCohort ==> r.planDigest == q.planDigest)
  }

  ghost predicate BareNameTaken(runs: Runs, requested: string) {
    exists q :: q in runs && runs[q].requestedCohort == requested && runs[q].cohortId == requested
  }

  ghost predicate CohortsOk(runs: Runs) {
    && (forall r :: r in runs ==> CohortNamed(runs[r]) && BareNameTaken(runs, runs[r].requestedCohort))
    && (forall r, q :: r in runs && q in runs ==> CohortsAgree(runs[r], runs[q]))
  }

  ghost predicate Inv(s: State) {
    && Injective(s.hash)
    && PlansOk(s.hash, s.plans)
    && RunsOk(s.plans, s.runs, s.tasks)
    && TasksOk(s.runs, s.tasks, s.attempts, s.results)
    && AttemptsOk(s.tasks, s.attempts)
    && ResultsOk(s.tasks, s.results)
    && ReceiptsOk(s.hash, s.runs.Keys, s.commands)
    && CohortsOk(s.runs)
  }

  lemma EmptyInv(hash: Content -> Sha256)
    requires Injective(hash)
    ensures Inv(Empty(hash))
  {}

  // ----- the invariant, one record at a time -----

  lemma RunIsOk(s: State, r: string)
    requires RunsOk(s.plans, s.runs, s.tasks) && r in s.runs
    ensures s.runs[r].runId == r && LineageOk(s.plans, s.runs[r]) && ProgressOk(s.tasks, s.runs[r])
  {}

  lemma TaskIsOk(s: State, k: TaskKey)
    requires TasksOk(s.runs, s.tasks, s.attempts, s.results) && k in s.tasks
    ensures k.run in s.runs && TaskOk(s.runs[k.run], s.attempts, s.results, k, s.tasks[k])
  {}

  lemma AttemptIsOk(s: State, a: string)
    requires AttemptsOk(s.tasks, s.attempts) && a in s.attempts
    ensures AttemptOk(s.tasks, a, s.attempts[a])
  {}

  lemma ResultIsOk(s: State, rk: ResultKey)
    requires ResultsOk(s.tasks, s.results) && rk in s.results
    ensures ResultOk(s.tasks, rk, s.results[rk])
  {}

  /** A known attempt has its task, and its task has its run. */
  lemma LookupsSucceed(s: State, a: string)
    requires a in s.attempts
    requires Inv(s)
    ensures s.attempts[a].task in s.tasks && s.attempts[a].task.run in s.runs
  {
    hide RunsOk, TasksOk, AttemptsOk, ResultsOk, CohortsOk, ReceiptsOk, PlansOk;
    AttemptIsOk(s, a);
    TaskIsOk(s, s.attempts[a].task);
  }

  // ----- one run changes state -----

  /** A run keeps its identity; only its state and update time may differ. */
  predicate SameRun(a: EvalRun, b: EvalRun) {
    b == a.(state := b.state, updatedAt := b.updatedAt)
  }

  lemma CohortsFrame(runs: Runs, r: string, run: EvalRun)
    requires CohortsOk(runs) && r in runs && SameRun(runs[r], run)
    ensures CohortsOk(runs[r := run])
  {
    var runs' := runs[r := run];
    forall x | x in runs' ensures BareNameTaken(runs', runs'[x].requestedCohort) {
      assert BareNameTaken(runs, runs[x].requestedCohort);
      var q :| q in runs && runs[q].requestedCohort == runs[x].requestedCohort && runs[q].cohortId == runs[x].requestedCohort;
      assert q in runs';
    }
    forall x, y | x in runs' && y in runs' ensures CohortsAgree(runs'[x], runs'[y]) {
      assert CohortsAgree(runs[x], runs[y]);
    }
  }

  // ----- plans -----

  predicate Supersedes(was: VerificationPlan, plan: VerificationPlan) {
    plan.digest == was.digest && plan.spec == was.spec && (Schedulable(was.state) ==> Schedulable(plan.state))
  }

  lemma PlansEdit(hash: Content -> Sha256, plans: Plans, plan: VerificationPlan)
    requires PlansOk(hash, plans) && hash(PlanContent(plan.spec)) == plan.digest
    ensures PlansOk(hash, plans[plan.key := plan])
  {}

  lemma RunsPlanEdit(plans: Plans, runs: Runs, tasks: Tasks, plan: VerificationPlan)
    requires RunsOk(plans, runs, tasks)
    requires plan.key in plans ==> Supersedes(plans[plan.key], plan)
    ensures RunsOk(plans[plan.key := plan], runs, tasks)
  {
    forall r | r in runs ensures LineageOk(plans[plan.key := plan], runs[r]) {
      assert LineageOk(plans, runs[r]);
    }
  }

  lemma PlanEditKeeps(s: State, plan: VerificationPlan)
    requires Inv(s)
    requires s.hash(PlanContent(plan.spec)) == plan.digest
    requires plan.key in s.plans ==> Supersedes(s.plans[plan.key], plan)
    ensures Inv(s.(plans := s.plans[plan.key := plan]))
  {
    PlansEdit(s.hash, s.plans, plan);
    RunsPlanEdit(s.plans, s.runs, s.tasks, plan);
  }

  lemma RegisterKeeps(s: State, p: VerificationPlan)
    requires Inv(s)
    ensures Inv(RegisterPlan(s, p).state)
  {
    if RegisterPlan(s, p).state != s {
      PlanEditKeeps(s, p);
    }
  }

  lemma TransitionPlanKeeps(s: State, key: PlanKey, target: PlanState, reason: string, now: Time)
    requires Inv(s)
    ensures Inv(TransitionPlan(s, key, target, reason, now).state)
  {
    if TransitionPlan(s, key, target, reason, now).outcome.Ok? {
      PlanEditKeeps(s, s.plans[key].(state := target, reason := Some(reason), updatedAt := now));
    }
  }

  // ----- edits confined to one run -----

  /** Nothing outside run `r` changes, and tasks of `r` only change state and holder. */
  ghost predicate TasksLocal(tasks: Tasks, tasks': Tasks, r: string) {
    && tasks'.Keys == tasks.Keys
    && forall k :: k in tasks ==>
         if k.run == r then tasks'[k] == tasks[k].(state := tasks'[k].state, current := tasks'[k].current)
         else tasks'[k] == tasks[k]
  }

  ghost predicate AttemptsLocal(attempts: Attempts, attempts': Attempts, r: string) {
    && attempts.Keys <= attempts'.Keys
    && (forall a :: a in attempts && attempts[a].task.run != r ==> attempts'[a] == attempts[a])
    && (forall a :: a in attempts' && a !in attempts ==> attempts'[a].task.run == r)
    && (forall a :: a in attempts ==> attempts'[a].task == attempts[a].task)
  }

  ghost predicate DoneTasksKept(tasks: Tasks, tasks': Tasks) {
    forall k :: k in tasks && tasks[k].state.Completed? ==> k in tasks' && tasks'[k] == tasks[k]
  }

  ghost predicate RunTasksOk(r: string, run: EvalRun, tasks: Tasks, attempts: Attempts, results: Results) {
    forall k :: k in tasks && k.run == r ==> TaskOk(run, attempts, results, k, tasks[k])
  }

  ghost predicate RunAttemptsOk(r: string, tasks: Tasks, attempts: Attempts) {
    forall a :: a in attempts && attempts[a].task.run == r ==> AttemptOk(tasks, a, attempts[a])
  }

  lemma RunsLocal(plans: Plans, runs: Runs, tasks: Tasks, r: string, run: EvalRun, tasks': Tasks)
    requires RunsOk(plans, runs, tasks)
    requires r in runs && SameRun(runs[r], run) && TasksLocal(tasks, tasks', r) && ProgressOk(tasks', run)
    ensures RunsOk(plans, runs[r := run], tasks')
  {
    forall x | x in runs && x != r ensures ProgressOk(tasks', runs[x]) {
      assert ProgressOk(tasks, runs[x]);
      var k :| k in tasks && k.run == x;
      assert k in tasks';
      if !runs[x].state.Completed? {
        var o :| o in tasks && o.run == x && !tasks[o].state.Completed?;
        assert o in tasks';
      }
    }
  }

  lemma WorkLocal(runs: Runs, tasks: Tasks, attempts: Attempts, results: Results,
                  r: string, run: EvalRun, tasks': Tasks, attempts': Attempts, results': Results)
    requires TasksOk(runs, tasks, attempts, results) && TasksLocal(tasks, tasks', r)
    requires AttemptsLocal(attempts, attempts', r)
    requires forall rk: ResultKey :: rk.task.run != r ==> (rk in results' <==> rk in results)
    requires RunTasksOk(r, run, tasks', attempts', results')
    ensures TasksOk(runs[r := run], tasks', attempts', results')
  {
    forall k | k in tasks' && k.run != r ensures TaskOk(runs[k.run], attempts', results', k, tasks'[k]) {
      assert TaskOk(runs[k.run], attempts, results, k, tasks[k]);
    }
  }

  lemma AttemptsFrame(tasks: Tasks, attempts: Attempts, r: string, tasks': Tasks, attempts': Attempts)
    requires AttemptsOk(tasks, attempts) && TasksLocal(tasks, tasks', r) && AttemptsLocal(attempts, attempts', r)
    requires RunAttemptsOk(r, tasks', attempts')
    ensures AttemptsOk(tasks', attempts')
  {
    forall a | a in attempts' && attempts'[a].task.run != r ensures AttemptOk(tasks', a, attempts'[a]) {
      assert AttemptOk(tasks, a, attempts[a]);
    }
  }

  lemma ResultsFrame(tasks: Tasks, results: Results, r: string, tasks': Tasks)
    requires ResultsOk(tasks, results) && TasksLocal(tasks, tasks', r)
    requires DoneTasksKept(tasks, tasks')
    ensures ResultsOk(tasks', results)
  {
    forall rk | rk in results ensures ResultOk(tasks', rk, results[rk]) {
      assert ResultOk(tasks, rk, results[rk]);
    }
  }

  /** An edit of one run's tasks and attempts that leaves its tasks and attempts well formed. */
  lemma LocalEditKeeps(s: State, r: string, run: EvalRun, tasks: Tasks, attempts: Attempts)
    requires r in s.runs && SameRun(s.runs[r], run)
    requires TasksLocal(s.tasks, tasks, r) && AttemptsLocal(s.attempts, attempts, r)
    requires DoneTasksKept(s.tasks, tasks)
    requires ProgressOk(tasks, run)
    requires RunTasksOk(r, run, tasks, attempts, s.results)
    requires RunAttemptsOk(r, tasks, attempts)
    requires Inv(s)
    ensures Inv(s.(runs := s.runs[r := run], tasks := tasks, attempts := attempts))
  {
    hide RunsOk, TasksOk, AttemptsOk, ResultsOk, CohortsOk, ReceiptsOk, PlansOk,
         TasksLocal, AttemptsLocal, DoneTasksKept, ProgressOk, RunTasksOk, RunAttemptsOk;
    RunsLocal(s.plans, s.runs, s.tasks, r, run, tasks);
    WorkLocal(s.runs, s.tasks, s.attempts, s.results, r, run, tasks, attempts, s.results);
    AttemptsFrame(s.tasks, s.attempts, r, tasks, attempts);
    ResultsFrame(s.tasks, s.results, r, tasks);
    CohortsFrame(s.runs, r, run);
    assert s.runs[r := run].Keys == s.runs.Keys;
  }

  // ----- leases -----

  lemma ClaimLocal(runs: Runs, tasks: Tasks, attempts: Attempts, results: Results, r: string, run: EvalRun,
                   k: TaskKey, granted: AttemptLease)
    requires TasksOk(runs, tasks, attempts, results) && AttemptsOk(tasks, attempts)
    requires r in runs && (runs[r].state.Pending? || runs[r].state.Running?)
    requires SameRun(runs[r], run) && run.state.Running? && run.runId == r
    requires k in tasks && k.run == r && tasks[k].state.Queued? && granted.attemptId !in attempts
    requires granted.task == k && granted.state.Active?
    requires granted.planId == tasks[k].planId && granted.planDigest == tasks[k].planDigest
    ensures var tasks' := tasks[k := tasks[k].(state := TaskState.Leased, current := Some(granted.attemptId))];
            var attempts' := attempts[granted.attemptId := granted];
            && TasksLocal(tasks, tasks', r) && AttemptsLocal(attempts, attempts', r)
            && DoneTasksKept(tasks, tasks') && ProgressOk(tasks', run)
            && RunTasksOk(r, run, tasks', attempts', results) && RunAttemptsOk(r, tasks', attempts')
  {
    var tasks' := tasks[k := tasks[k].(state := TaskState.Leased, current := Some(granted.attemptId))];
    var attempts' := attempts[granted.attemptId := granted];
    assert k in tasks';
    forall x | x in tasks && x.run == r ensures TaskOk(run, attempts', results, x, tasks'[x]) {
      assert TaskOk(runs[r], attempts, results, x, tasks[x]);
    }
    forall a | a in attempts' && attempts'[a].task.run == r ensures AttemptOk(tasks', a, attempts'[a]) {
      assert a in attempts ==> AttemptOk(tasks, a, attempts[a]);
    }
  }

  lemma ClaimKeeps(s: State, r: string, w: string, a: string, t: string, lease: Time, now: Time)
    requires Inv(s)
    ensures Inv(ClaimTask(s, r, w, a, t, lease, now).state)
  {
    hide RunsOk, TasksOk, AttemptsOk, ResultsOk, CohortsOk, ReceiptsOk, PlansOk,
         TasksLocal, AttemptsLocal, DoneTasksKept, ProgressOk, RunTasksOk, RunAttemptsOk;
    var s' := ClaimTask(s, r, w, a, t, lease, now).state;
    if s' != s {
      KeyOrder();
      var k := Least(QueuedKeys(s, r), KeyLeq);
      RunIsOk(s, r);
      ClaimLocal(s.runs, s.tasks, s.attempts, s.results, r, s'.runs[r], k, s'.attempts[a]);
      LocalEditKeeps(s, r, s'.runs[r], s'.tasks, s'.attempts);
    }
  }

  /** Renewing an active lease changes no field the invariant reads. */
  lemma HeartbeatLocal(runs: Runs, tasks: Tasks, attempts: Attempts, results: Results, a: string, held: AttemptLease)
    requires TasksOk(runs, tasks, attempts, results) && AttemptsOk(tasks, attempts)
    requires a in attempts
    requires held == attempts[a].(heartbeatAt := held.heartbeatAt, expiresAt := held.expiresAt)
    ensures TasksOk(runs, tasks, attempts[a := held], results) && AttemptsOk(tasks, attempts[a := held])
  {
    forall k | k in tasks ensures TaskOk(runs[k.run], attempts[a := held], results, k, tasks[k]) {
      assert TaskOk(runs[k.run], attempts, results, k, tasks[k]);
    }
    forall b | b in attempts ensures AttemptOk(tasks, b, attempts[a := held][b]) {
      assert AttemptOk(tasks, b, attempts[b]);
    }
  }

  lemma HeartbeatKeeps(s: State, a: string, w: string, t: string, lease: Time, now: Time)
    requires Inv(s)
    ensures Inv(Heartbeat(s, a, w, t, lease, now).state)
  {
    hide RunsOk, TasksOk, AttemptsOk, ResultsOk, CohortsOk, ReceiptsOk, PlansOk;
    var s' := Heartbeat(s, a, w, t, lease, now).state;
    if s' != s {
      HeartbeatLocal(s.runs, s.tasks, s.attempts, s.results, a, s'.attempts[a]);
    }
  }

  // ----- reclaim -----

  lemma ReclaimTasks(s: State, s': State, now: Time)
    requires s' == ReclaimExpired(s, now).state
    requires TasksOk(s.runs, s.tasks, s.attempts, s.results)
    ensures TasksOk(s'.runs, s'.tasks, s'.attempts, s'.results)
  {
    forall k | k in s'.tasks ensures k.run in s.runs && TaskOk(s.runs[k.run], s'.attempts, s.results, k, s'.tasks[k]) {
      assert TaskOk(s.runs[k.run], s.attempts, s.results, k, s.tasks[k]);
    }
  }

  lemma ReclaimAttempts(s: State, s': State, now: Time)
    requires s' == ReclaimExpired(s, now).state
    requires AttemptsOk(s.tasks, s.attempts)
    requires TasksOk(s.runs, s.tasks, s.attempts, s.results)
    ensures AttemptsOk(s'.tasks, s'.attempts)
  {
    forall a | a in s'.attempts ensures AttemptOk(s'.tasks, a, s'.attempts[a]) {
      assert AttemptOk(s.tasks, a, s.attempts[a]);
    }
  }

  lemma ReclaimRuns(s: State, s': State, now: Time)
    requires s' == ReclaimExpired(s, now).state
    requires RunsOk(s.plans, s.runs, s.tasks)
    ensures RunsOk(s'.plans, s'.runs, s'.tasks)
  {
    forall r | r in s.runs ensures ProgressOk(s'.tasks, s.runs[r]) {
      assert ProgressOk(s.tasks, s.runs[r]);
      var k :| k in s.tasks && k.run == r;
      assert k in s'.tasks;
      if !s.runs[r].state.Completed? {
        var o :| o in s.tasks && o.run == r && !s.tasks[o].state.Completed?;
        assert o in s'.tasks;
      }
    }
  }

  lemma ReclaimResults(s: State, s': State, now: Time)
    requires s' == ReclaimExpired(s, now).state
    requires ResultsOk(s.tasks, s.results)
    ensures ResultsOk(s'.tasks, s'.results)
  {
    forall rk | rk in s.results ensures ResultOk(s'.tasks, rk, s.results[rk]) {
      assert ResultOk(s.tasks, rk, s.results[rk]);
    }
  }

  lemma ReclaimKeeps(s: State, now: Time)
    requires Inv(s)
    ensures Inv(ReclaimExpired(s, now).state)
  {
    hide RunsOk, TasksOk, AttemptsOk, ResultsOk, CohortsOk, ReceiptsOk, PlansOk;
    var s' := ReclaimExpired(s, now).state;
    ReclaimTasks(s, s', now);
    ReclaimAttempts(s, s', now);
    ReclaimRuns(s, s', now);
    ReclaimResults(s, s', now);
  }

  // ----- commit -----

  lemma CommitTasks(runs: Runs, tasks: Tasks, attempts: Attempts, results: Results, a: string,
                    result: FinalResult, run: EvalRun, r: string)
    requires TasksOk(runs, tasks, attempts, results)
    requires a in attempts && AttemptOk(tasks, a, attempts[a]) && attempts[a].state.Active?
    requires r == attempts[a].task.run && r in runs
    requires var tasks' := tasks[attempts[a].task := tasks[attempts[a].task].(state := TaskState.Completed)];
             if AllDone(tasks', r) then SameRun(runs[r], run) && run.state.Completed? else run == runs[r]
    ensures var k := attempts[a].task;
            var tasks' := tasks[k := tasks[k].(state := TaskState.Completed)];
            var attempts' := attempts[a := attempts[a].(state := LeaseState.Completed)];
            RunTasksOk(r, run, tasks', attempts', results[ResultKey(k, attempts[a].planDigest) := result])
  {
    var k := attempts[a].task;
    var tasks' := tasks[k := tasks[k].(state := TaskState.Completed)];
    var attempts' := attempts[a := attempts[a].(state := LeaseState.Completed)];
    var results' := results[ResultKey(k, attempts[a].planDigest) := result];
    assert TaskOk(runs[r], attempts, results, k, tasks[k]);
    assert k in tasks';
    forall x | x in tasks && x.run == r ensures TaskOk(run, attempts', results', x, tasks'[x]) {
      assert TaskOk(runs[r], attempts, results, x, tasks[x]);
    }
  }

  lemma CommitLocal(tasks: Tasks, attempts: Attempts, a: string, run: EvalRun, r: string)
    requires AttemptsOk(tasks, attempts)
    requires a in attempts && attempts[a].state.Active? && r == attempts[a].task.run && run.runId == r
    requires var tasks' := tasks[attempts[a].task := tasks[attempts[a].task].(state := TaskState.Completed)];
             AllDone(tasks', r) ==> run.state.Completed?
    ensures var k := attempts[a].task;
            var tasks' := tasks[k := tasks[k].(state := TaskState.Completed)];
            var attempts' := attempts[a := attempts[a].(state := LeaseState.Completed)];
            && TasksLocal(tasks, tasks', r) && AttemptsLocal(attempts, attempts', r) && ProgressOk(tasks', run)
            && RunAttemptsOk(r, tasks', attempts')
  {
    var k := attempts[a].task;
    var tasks' := tasks[k := tasks[k].(state := TaskState.Completed)];
    var attempts' := attempts[a := attempts[a].(state := LeaseState.Completed)];
    assert AttemptOk(tasks, a, attempts[a]);
    assert k in tasks';
    forall b | b in attempts' && attempts'[b].task.run == r ensures AttemptOk(tasks', b, attempts'[b]) {
      assert AttemptOk(tasks, b, attempts[b]);
    }
  }

  lemma CommitResults(s: State, s': State, a: string, w: string, t: string, d: Sha256, p: Payload,
                      f: Option<FailureDomain>, now: Time)
    requires s' == CommitResult(s, a, w, t, d, p, f, now).state && s' != s
    requires ResultsOk(s.tasks, s.results) && AttemptsOk(s.tasks, s.attempts)
    ensures ResultsOk(s'.tasks, s'.results)
  {
    assert AttemptOk(s.tasks, a, s.attempts[a]);
    forall rk | rk in s'.results ensures ResultOk(s'.tasks, rk, s'.results[rk]) {
      assert rk in s.results ==> ResultOk(s.tasks, rk, s.results[rk]);
    }
  }

  lemma CommitKeeps(s: State, a: string, w: string, t: string, d: Sha256, p: Payload,
                    f: Option<FailureDomain>, now: Time)
    requires Inv(s)
    ensures Inv(CommitResult(s, a, w, t, d, p, f, now).state)
  {
    hide RunsOk, TasksOk, AttemptsOk, ResultsOk, CohortsOk, ReceiptsOk, PlansOk,
         TasksLocal, AttemptsLocal, DoneTasksKept, ProgressOk, RunTasksOk, RunAttemptsOk;
    var s' := CommitResult(s, a, w, t, d, p, f, now).state;
    if s' != s {
      var r := s.attempts[a].task.run;
      RunIsOk(s, r);
      var k := s.attempts[a].task;
      AttemptIsOk(s, a);
      CommitTasks(s.runs, s.tasks, s.attempts, s.results, a, s'.results[ResultKey(k, s.attempts[a].planDigest)],
                  s'.runs[r], r);
      CommitLocal(s.tasks, s.attempts, a, s'.runs[r], r);
      CommitResults(s, s', a, w, t, d, p, f, now);
      assert s'.runs == s.runs[r := s'.runs[r]];
      RunsLocal(s.plans, s.runs, s.tasks, r, s'.runs[r], s'.tasks);
      WorkLocal(s.runs, s.tasks, s.attempts, s.results, r, s'.runs[r], s'.tasks, s'.attempts, s'.results);
      AttemptsFrame(s.tasks, s.attempts, r, s'.tasks, s'.attempts);
      CohortsFrame(s.runs, r, s'.runs[r]);
      assert s'.runs.Keys == s.runs.Keys;
    }
  }

  // ----- receipts -----

  lemma ReceiptsAdd(hash: Content -> Sha256, runIds: set<string>, commands: map<string, CommandReceipt>,
                    key: string, receipt: CommandReceipt, runIds': set<string>, c: Content)
    requires ReceiptsOk(hash, runIds, commands) && runIds <= runIds' && receipt.resourceId in runIds'
    requires StandsFor(hash, receipt, c)
    ensures ReceiptsOk(hash, runIds', commands[key := receipt])
  {
    var commands' := commands[key := receipt];
    forall x | x in commands' ensures ReceiptOk(hash, runIds', commands'[x]) {
      assert x in commands ==> ReceiptOk(hash, runIds, commands[x]);
    }
  }

  // ----- cancel and resume -----

  lemma CancelTasks(s: State, r: string, run: EvalRun)
    requires r in s.runs && SameRun(s.runs[r], run) && run.state.Cancelled? && !s.runs[r].state.Completed?
    requires TasksOk(s.runs, s.tasks, s.attempts, s.results)
    ensures RunTasksOk(r, run, CancelledTasks(s, r), CancelledAttempts(s, r), s.results)
  {
    forall x | x in s.tasks && x.run == r
      ensures TaskOk(run, CancelledAttempts(s, r), s.results, x, CancelledTasks(s, r)[x])
    {
      assert TaskOk(s.runs[r], s.attempts, s.results, x, s.tasks[x]);
    }
  }

  lemma CancelAttempts(s: State, r: string)
    requires AttemptsOk(s.tasks, s.attempts)
    ensures RunAttemptsOk(r, CancelledTasks(s, r), CancelledAttempts(s, r))
  {
    forall b | b in s.attempts && s.attempts[b].task.run == r
      ensures AttemptOk(CancelledTasks(s, r), b, CancelledAttempts(s, r)[b])
    {
      assert AttemptOk(s.tasks, b, s.attempts[b]);
    }
  }

  lemma CancelLocal(s: State, r: string, run: EvalRun)
    requires r in s.runs && SameRun(s.runs[r], run) && run.state.Cancelled? && !s.runs[r].state.Completed?
    requires s.runs[r].runId == r && ProgressOk(s.tasks, s.runs[r])
    ensures var tasks' := CancelledTasks(s, r);
            && TasksLocal(s.tasks, tasks', r) && AttemptsLocal(s.attempts, CancelledAttempts(s, r), r)
            && DoneTasksKept(s.tasks, tasks') && ProgressOk(tasks', run)
  {
    var o :| o in s.tasks && o.run == r && !s.tasks[o].state.Completed?;
    assert o in CancelledTasks(s, r);
  }

  lemma ResumeLocal(s: State, r: string, run: EvalRun)
    requires r in s.runs && SameRun(s.runs[r], run) && run.state.Pending? && s.runs[r].state.Cancelled?
    requires s.runs[r].runId == r && ProgressOk(s.tasks, s.runs[r])
    requires TasksOk(s.runs, s.tasks, s.attempts, s.results) && AttemptsOk(s.tasks, s.attempts)
    ensures var tasks' := ResumedTasks(s, r);
            && TasksLocal(s.tasks, tasks', r) && AttemptsLocal(s.attempts, s.attempts, r)
            && DoneTasksKept(s.tasks, tasks') && ProgressOk(tasks', run)
            && RunTasksOk(r, run, tasks', s.attempts, s.results) && RunAttemptsOk(r, tasks', s.attempts)
  {
    var tasks' := ResumedTasks(s, r);
    var o :| o in s.tasks && o.run == r && !s.tasks[o].state.Completed?;
    assert o in tasks';
    forall x | x in s.tasks && x.run == r ensures TaskOk(run, s.attempts, s.results, x, tasks'[x]) {
      assert TaskOk(s.runs[r], s.attempts, s.results, x, s.tasks[x]);
    }
    forall b | b in s.attempts && s.attempts[b].task.run == r ensures AttemptOk(tasks', b, s.attempts[b]) {
      assert AttemptOk(s.tasks, b, s.attempts[b]);
      assert s.attempts[b].task in s.tasks ==> TaskOk(s.runs[r], s.attempts, s.results, s.attempts[b].task, s.tasks[s.attempts[b].task]);
    }
  }

  lemma TransitionRunKeeps(s: State, command: Command, key: string, r: string, now: Time)
    requires Inv(s) && !command.CreateCommand?
    ensures Inv(TransitionRun(s, command, key, r, now).state)
  {
    hide RunsOk, TasksOk, AttemptsOk, ResultsOk, CohortsOk, ReceiptsOk, PlansOk, CancelledTasks, CancelledAttempts,
         ResumedTasks, TasksLocal, AttemptsLocal, DoneTasksKept, ProgressOk, RunTasksOk, RunAttemptsOk;
    var s' := TransitionRun(s, command, key, r, now).state;
    if s' != s {
      RunIsOk(s, r);
      if command.CancelCommand? {
        CancelLocal(s, r, s'.runs[r]);
        CancelTasks(s, r, s'.runs[r]);
        CancelAttempts(s, r);
      } else {
        ResumeLocal(s, r, s'.runs[r]);
      }
      LocalEditKeeps(s, r, s'.runs[r], s'.tasks, s'.attempts);
      ReceiptsAdd(s.hash, s.runs.Keys, s.commands, key, s'.commands[key], s.runs.Keys, TransitionContent(command, r));
      assert s'.runs.Keys == s.runs.Keys;
    }
  }

  /** Cancelling the attempt each open task names is cancelling every active attempt of the run. */
  lemma BulkCancelIsLoop(s: State, r: string)
    requires Inv(s)
    ensures CancelledAttempts(s, r) == map a | a in s.attempts ::
              if s.attempts[a].task.run == r && s.attempts[a].state.Active?
              then s.attempts[a].(state := LeaseState.Cancelled) else s.attempts[a]
  {
    hide RunsOk, TasksOk, AttemptsOk, ResultsOk, CohortsOk, ReceiptsOk, PlansOk;
    forall a | a in s.attempts
      ensures HeldOpen(s, r, a) ==> s.attempts[a].state.Active? || s.attempts[a].state.Cancelled?
      ensures s.attempts[a].state.Active? && s.attempts[a].task.run == r ==> HeldOpen(s, r, a)
    {
      AttemptIsOk(s, a);
      TaskIsOk(s, s.attempts[a].task);
    }
  }

  // ----- create -----

  lemma {:induction false} NewTasksAre(c: CreateIntent, n: nat)
    requires n <= |c.tasks|
    ensures forall k :: k in NewTasks(c, n) <==>
              exists i :: 0 <= i < n && k == TaskKey(c.runId, c.tasks[i].taskId, c.tasks[i].candidateId)
    ensures forall k :: k in NewTasks(c, n) ==>
              && k.run == c.runId
              && NewTasks(c, n)[k] == RunTask(k, NewTasks(c, n)[k].candidateHash, c.plan.planId, c.planDigest,
                                             TaskState.Queued, None)
  {
    if n > 0 {
      NewTasksAre(c, n - 1);
      var last := NewTask(c, c.tasks[n - 1]).key;
      forall k | k in NewTasks(c, n)
        ensures exists i :: 0 <= i < n && k == TaskKey(c.runId, c.tasks[i].taskId, c.tasks[i].candidateId)
      {
        if k == last {
          assert k == TaskKey(c.runId, c.tasks[n - 1].taskId, c.tasks[n - 1].candidateId);
        } else {
          var i :| 0 <= i < n - 1 && k == TaskKey(c.runId, c.tasks[i].taskId, c.tasks[i].candidateId);
        }
      }
    }
  }

  lemma CreateRunsOk(plans: Plans, runs: Runs, tasks: Tasks, run: EvalRun, added: Tasks)
    requires RunsOk(plans, runs, tasks) && run.runId !in runs && LineageOk(plans, run)
    requires added != map[] && forall k :: k in added ==> k.run == run.runId && !added[k].state.Completed?
    ensures RunsOk(plans, runs[run.runId := run], tasks + added)
  {
    var tasks' := tasks + added;
    var k :| k in added;
    assert k in tasks' && tasks'[k] == added[k];
    forall r | r in runs ensures ProgressOk(tasks', runs[r]) {
      assert ProgressOk(tasks, runs[r]);
      var k :| k in tasks && k.run == r;
      assert k in tasks';
      if !runs[r].state.Completed? {
        var o :| o in tasks && o.run == r && !tasks[o].state.Completed?;
        assert o in tasks' && tasks'[o] == tasks[o];
      }
    }
  }

  lemma CreateWorkOk(s: State, run: EvalRun, added: Tasks)
    requires run.runId !in s.runs && run.state.Pending?
    requires TasksOk(s.runs, s.tasks, s.attempts, s.results) && AttemptsOk(s.tasks, s.attempts)
    requires ResultsOk(s.tasks, s.results)
    requires forall k :: k in added ==>
      && k.run == run.runId
      && added[k] == RunTask(k, added[k].candidateHash, run.plan.planId, run.planDigest, TaskState.Queued, None)
    ensures TasksOk(s.runs[run.runId := run], s.tasks + added, s.attempts, s.results)
    ensures AttemptsOk(s.tasks + added, s.attempts)
    ensures ResultsOk(s.tasks + added, s.results)
  {
    var tasks' := s.tasks + added;
    var runs' := s.runs[run.runId := run];
    assert forall k :: k in s.tasks ==> k !in added && tasks'[k] == s.tasks[k];
    forall k | k in tasks' ensures k.run in runs' && TaskOk(runs'[k.run], s.attempts, s.results, k, tasks'[k]) {
      if k in s.tasks {
        assert TaskOk(s.runs[k.run], s.attempts, s.results, k, s.tasks[k]);
      } else {
        assert ResultKey(k, run.planDigest) !in s.results;
      }
    }
    forall a | a in s.attempts ensures AttemptOk(tasks', a, s.attempts[a]) {
      assert AttemptOk(s.tasks, a, s.attempts[a]);
    }
    forall rk | rk in s.results ensures ResultOk(tasks', rk, s.results[rk]) {
      assert ResultOk(s.tasks, rk, s.results[rk]);
    }
  }

  lemma NewRunAgrees(s: State, run: EvalRun, q: string)
    requires CohortsOk(s.runs) && q in s.runs
    requires run.cohortId == CohortFor(s, run.requestedCohort, run.planDigest)
    ensures CohortsAgree(s.runs[q], run) && CohortsAgree(run, s.runs[q])
  {
    var n := run.requestedCohort;
    if exists r :: SamePlan(s, r, n, run.planDigest) {
      var r :| SamePlan(s, r, n, run.planDigest) && run.cohortId == s.runs[r].cohortId;
      assert CohortsAgree(s.runs[q], s.runs[r]) && CohortsAgree(s.runs[r], s.runs[q]);
    } else {
      assert |Suffixed(n, run.planDigest)| > |n|;
      assert !SamePlan(s, q, n, run.planDigest);
      assert Related(s, q, n) <==> s.runs[q].requestedCohort == n;
    }
  }

  lemma NewRunNamed(s: State, run: EvalRun)
    requires CohortsOk(s.runs) && run.runId !in s.runs
    requires run.cohortId == CohortFor(s, run.requestedCohort, run.planDigest)
    ensures CohortNamed(run) && BareNameTaken(s.runs[run.runId := run], run.requestedCohort)
  {
    hide CohortsAgree;
    var runs', n := s.runs[run.runId := run], run.requestedCohort;
    if exists r :: SamePlan(s, r, n, run.planDigest) {
      var r :| SamePlan(s, r, n, run.planDigest) && run.cohortId == s.runs[r].cohortId;
      assert CohortNamed(s.runs[r]);
      BareNameGrows(s.runs, runs', n);
    } else if exists r :: Related(s, r, n) {
      var r :| Related(s, r, n);
      assert BareNameTaken(s.runs, s.runs[r].requestedCohort);
      BareNameGrows(s.runs, runs', n);
    } else {
      assert runs'[run.runId].cohortId == n;
    }
  }

  lemma CreateCohortsOk(s: State, run: EvalRun)
    requires CohortsOk(s.runs) && run.runId !in s.runs
    requires run.cohortId == CohortFor(s, run.requestedCohort, run.planDigest)
    ensures CohortsOk(s.runs[run.runId := run])
  {
    hide CohortFor, CohortNamed, BareNameTaken;
    var runs' := s.runs[run.runId := run];
    NewRunNamed(s, run);
    forall q | q in s.runs ensures CohortsAgree(s.runs[q], run) && CohortsAgree(run, s.runs[q]) {
      NewRunAgrees(s, run, q);
    }
    forall x | x in s.runs ensures BareNameTaken(runs', s.runs[x].requestedCohort) {
      BareNameGrows(s.runs, runs', s.runs[x].requestedCohort);
    }
    SelfAgrees(run);
    hide CohortsAgree;
    forall x | x in runs' ensures CohortNamed(runs'[x]) && BareNameTaken(runs', runs'[x].requestedCohort) {}
    forall x, y | x in runs' && y in runs' ensures CohortsAgree(runs'[x], runs'[y]) {}
  }

  lemma SelfAgrees(run: EvalRun)
    ensures CohortsAgree(run, run)
  {}

  lemma BareNameGrows(runs: Runs, runs': Runs, n: string)
    requires BareNameTaken(runs, n) && forall r :: r in runs ==> r in runs' && runs'[r] == runs[r]
    ensures BareNameTaken(runs', n)
  {
    var q :| q in runs && runs[q].requestedCohort == n && runs[q].cohortId == n;
    assert q in runs';
  }

  lemma CreateKeeps(s: State, key: string, c: CreateIntent, now: Time)
    requires Inv(s)
    ensures Inv(CreateRun(s, key, c, now).state)
  {
    hide RunsOk, TasksOk, AttemptsOk, ResultsOk, CohortsOk, ReceiptsOk, PlansOk, CohortFor, NewTasks;
    var s' := CreateRun(s, key, c, now).state;
    if s' != s {
      var run := s'.runs[c.runId];
      var added := NewTasks(c, |c.tasks|);
      NewTasksAre(c, |c.tasks|);
      assert TaskKey(c.runId, c.tasks[0].taskId, c.tasks[0].candidateId) in added;
      CreateRunsOk(s.plans, s.runs, s.tasks, run, added);
      CreateWorkOk(s, run, added);
      CreateCohortsOk(s, run);
      ReceiptsAdd(s.hash, s.runs.Keys, s.commands, key, s'.commands[key], s'.runs.Keys, CreateContent(c));
    }
  }

  // ----- every event, every history -----

  lemma NextKeeps(s: State, e: Event)
    requires Inv(s)
    ensures Inv(Next(s, e))
  {
    hide Inv, RegisterPlan, TransitionPlan, CreateRun, TransitionRun, ClaimTask, Heartbeat, ReclaimExpired, CommitResult;
    match e
    case Register(p) => RegisterKeeps(s, p);
    case Transition(k, t, r, now) => TransitionPlanKeeps(s, k, t, r, now);
    case Create(key, c, now) => CreateKeeps(s, key, c, now);
    case Cancel(key, r, now) => TransitionRunKeeps(s, Command.CancelCommand, key, r, now);
    case Resume(key, r, now) => TransitionRunKeeps(s, Command.ResumeCommand, key, r, now);
    case Replay(key, src, id, now) =>
      if src in s.runs && PlanMatches(s, s.runs[src].plan, s.runs[src]) {
        CreateKeeps(s, key, ReplayIntent(s, src, id), now);
      }
    case Claim(r, w, a, t, l, now) => ClaimKeeps(s, r, w, a, t, l, now);
    case Beat(a, w, t, l, now) => HeartbeatKeeps(s, a, w, t, l, now);
    case Reclaim(now) => ReclaimKeeps(s, now);
    case Commit(a, w, t, d, p, f, now) => CommitKeeps(s, a, w, t, d, p, f, now);
  }

  lemma {:induction false} RunKeeps(s: State, es: seq<Event>)
    requires Inv(s)
    ensures Inv(Run(s, es))
    decreases |es|
  {
    hide Inv;
    if es != [] {
      NextKeeps(s, es[0]);
      RunKeeps(Next(s, es[0]), es[1..]);
    }
  }
}
