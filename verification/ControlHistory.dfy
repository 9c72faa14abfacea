/** What no operation may undo: how any later state is related to an earlier one. */
module ControlHistory {
  import opened Records
  import opened ControlState
  import opened ControlInvariant

  function Rank(p: PlanState): nat {
    match p
    case Draft => 0
    case Validated => 1
    case Frozen => 2
    case Superseded => 3
    case Invalid => 3
  }

  predicate PlanForward(was: VerificationPlan, now: VerificationPlan) {
    && now == was.(state := now.state, updatedAt := now.updatedAt, reason := now.reason)
    && (now == was || Rank(was.state) < Rank(now.state))
  }

  ghost predicate PlansForward(plans: Plans, plans': Plans) {
    forall p :: p in plans ==> p in plans' && PlanForward(plans[p], plans'[p])
  }

  ghost predicate RunsKept(runs: Runs, runs': Runs) {
    forall r :: r in runs ==> r in runs' && SameRun(runs[r], runs'[r])
  }

  /** Identity is fixed; a completed task never changes again. */
  predicate TaskKept(was: RunTask, now: RunTask) {
    now == was.(state := now.state, current := now.current) && (was.state.Completed? ==> now == was)
  }

  ghost predicate TasksKept(runs: Runs, tasks: Tasks, tasks': Tasks) {
    && (forall k :: k in tasks ==> k in tasks' && TaskKept(tasks[k], tasks'[k]))
    // a run never gains a task
    && (forall k :: k in tasks' && k.run in runs ==> k in tasks)
  }

  /** Lineage and owner are fixed; an attempt that is not active never changes again. */
  predicate AttemptKept(was: AttemptLease, now: AttemptLease) {
    && now == was.(state := now.state, heartbeatAt := now.heartbeatAt, expiresAt := now.expiresAt)
    && (!was.state.Active? ==> now == was)
  }

  ghost predicate AttemptsKept(attempts: Attempts, attempts': Attempts) {
    forall a :: a in attempts ==> a in attempts' && AttemptKept(attempts[a], attempts'[a])
  }

  ghost predicate EntriesKept<K, V>(m: map<K, V>, m': map<K, V>) {
    forall k :: k in m ==> k in m' && m'[k] == m[k]
  }

  ghost predicate Evolves(s: State, t: State) {
    && t.hash == s.hash
    && PlansForward(s.plans, t.plans)
    && RunsKept(s.runs, t.runs)
    && TasksKept(s.runs, s.tasks, t.tasks)
    && AttemptsKept(s.attempts, t.attempts)
    && EntriesKept(s.results, t.results)
    && EntriesKept(s.commands, t.commands)
  }

  lemma NothingChanges(s: State)
    ensures PlansForward(s.plans, s.plans) && RunsKept(s.runs, s.runs) && TasksKept(s.runs, s.tasks, s.tasks)
    ensures AttemptsKept(s.attempts, s.attempts) && EntriesKept(s.results, s.results)
    ensures EntriesKept(s.commands, s.commands)
  {}

  lemma EvolvesReflexive(s: State)
    ensures Evolves(s, s)
  {}

  lemma TasksKeptTransitive(s: State, t: State, u: State)
    requires TasksKept(s.runs, s.tasks, t.tasks) && TasksKept(t.runs, t.tasks, u.tasks) && RunsKept(s.runs, t.runs)
    ensures TasksKept(s.runs, s.tasks, u.tasks)
  {}

  lemma EvolvesTransitive(s: State, t: State, u: State)
    requires Evolves(s, t) && Evolves(t, u)
    ensures Evolves(s, u)
  {
    hide TasksKept;
    TasksKeptTransitive(s, t, u);
  }

  lemma PlanEvolves(s: State, plan: VerificationPlan)
    requires plan.key in s.plans ==> PlanForward(s.plans[plan.key], plan)
    ensures Evolves(s, s.(plans := s.plans[plan.key := plan]))
  {}

  lemma RegisterEvolves(s: State, p: VerificationPlan)
    ensures Evolves(s, RegisterPlan(s, p).state)
  {
    hide Evolves;
    EvolvesReflexive(s);
    if RegisterPlan(s, p).state != s { PlanEvolves(s, p); }
  }

  lemma TransitionPlanEvolves(s: State, key: PlanKey, target: PlanState, reason: string, now: Time)
    requires PlansOk(s.hash, s.plans)
    ensures Evolves(s, TransitionPlan(s, key, target, reason, now).state)
  {
    hide Evolves;
    EvolvesReflexive(s);
    if TransitionPlan(s, key, target, reason, now).outcome.Ok? {
      PlanEvolves(s, s.plans[key].(state := target, reason := Some(reason), updatedAt := now));
    }
  }

  lemma RunEdit(runs: Runs, r: string, run: EvalRun)
    requires r in runs ==> SameRun(runs[r], run)
    ensures RunsKept(runs, runs[r := run])
  {}

  lemma AttemptEdit(attempts: Attempts, a: string, held: AttemptLease)
    requires a in attempts ==> AttemptKept(attempts[a], held)
    ensures AttemptsKept(attempts, attempts[a := held])
  {}

  lemma TaskEdit(runs: Runs, tasks: Tasks, k: TaskKey, t: RunTask)
    requires k in tasks && TaskKept(tasks[k], t)
    ensures TasksKept(runs, tasks, tasks[k := t])
  {}

  lemma EntryAdd<K, V>(m: map<K, V>, k: K, v: V)
    requires k !in m
    ensures EntriesKept(m, m[k := v])
  {}

  lemma ClaimEvolves(s: State, r: string, w: string, a: string, t: string, lease: Time, now: Time)
    ensures Evolves(s, ClaimTask(s, r, w, a, t, lease, now).state)
  {
    hide PlansForward, RunsKept, TasksKept, AttemptsKept, EntriesKept;
    NothingChanges(s);
    var s' := ClaimTask(s, r, w, a, t, lease, now).state;
    if s' != s {
      KeyOrder();
      var k := s'.attempts[a].task;
      RunEdit(s.runs, r, s'.runs[r]);
      TaskEdit(s.runs, s.tasks, k, s'.tasks[k]);
      AttemptEdit(s.attempts, a, s'.attempts[a]);
    }
  }

  lemma HeartbeatEvolves(s: State, a: string, w: string, t: string, lease: Time, now: Time)
    ensures Evolves(s, Heartbeat(s, a, w, t, lease, now).state)
  {
    hide PlansForward, RunsKept, TasksKept, AttemptsKept, EntriesKept;
    NothingChanges(s);
    var s' := Heartbeat(s, a, w, t, lease, now).state;
    if s' != s { AttemptEdit(s.attempts, a, s'.attempts[a]); }
  }

  lemma ReclaimEvolves(s: State, now: Time)
    ensures Evolves(s, ReclaimExpired(s, now).state)
  {}

  lemma CommitEvolves(s: State, a: string, w: string, t: string, d: Sha256, p: Payload,
                      f: Option<FailureDomain>, now: Time)
    requires AttemptsOk(s.tasks, s.attempts)
    ensures Evolves(s, CommitResult(s, a, w, t, d, p, f, now).state)
  {
    hide PlansForward, RunsKept, TasksKept, AttemptsKept, EntriesKept, AttemptsOk;
    NothingChanges(s);
    var s' := CommitResult(s, a, w, t, d, p, f, now).state;
    if s' != s {
      AttemptIsOk(s, a);
      var k := s.attempts[a].task;
      var rk := ResultKey(k, s.attempts[a].planDigest);
      RunEdit(s.runs, k.run, s'.runs[k.run]);
      TaskEdit(s.runs, s.tasks, k, s'.tasks[k]);
      AttemptEdit(s.attempts, a, s'.attempts[a]);
      EntryAdd(s.results, rk, s'.results[rk]);
    }
  }

  lemma CancelKept(s: State, r: string)
    requires TasksOk(s.runs, s.tasks, s.attempts, s.results)
    ensures AttemptsKept(s.attempts, CancelledAttempts(s, r))
    ensures TasksKept(s.runs, s.tasks, CancelledTasks(s, r)) && TasksKept(s.runs, s.tasks, ResumedTasks(s, r))
  {
    forall a | a in s.attempts && HeldOpen(s, r, a) ensures AttemptKept(s.attempts[a], CancelledAttempts(s, r)[a]) {
      var k := s.attempts[a].task;
      assert TaskOk(s.runs[k.run], s.attempts, s.results, k, s.tasks[k]);
    }
  }

  lemma TransitionRunEvolves(s: State, command: Command, key: string, r: string, now: Time)
    requires !command.CreateCommand? && TasksOk(s.runs, s.tasks, s.attempts, s.results)
    ensures Evolves(s, TransitionRun(s, command, key, r, now).state)
  {
    hide PlansForward, RunsKept, TasksKept, AttemptsKept, EntriesKept, TasksOk, CancelledTasks, CancelledAttempts,
         ResumedTasks;
    NothingChanges(s);
    var s' := TransitionRun(s, command, key, r, now).state;
    if s' != s {
      CancelKept(s, r);
      RunEdit(s.runs, r, s'.runs[r]);
      EntryAdd(s.commands, key, s'.commands[key]);
    }
  }

  lemma TasksAdd(runs: Runs, tasks: Tasks, r: string, added: Tasks)
    requires r !in runs && (forall k :: k in added ==> k.run == r) && (forall k :: k in tasks ==> k.run in runs)
    ensures TasksKept(runs, tasks, tasks + added)
  {}

  lemma CreateEvolves(s: State, key: string, c: CreateIntent, now: Time)
    requires TasksOk(s.runs, s.tasks, s.attempts, s.results)
    ensures Evolves(s, CreateRun(s, key, c, now).state)
  {
    hide CohortFor, NewTasks, PlansForward, RunsKept, TasksKept, AttemptsKept, EntriesKept;
    NothingChanges(s);
    var s' := CreateRun(s, key, c, now).state;
    if s' != s {
      NewTasksAre(c, |c.tasks|);
      RunEdit(s.runs, c.runId, s'.runs[c.runId]);
      TasksAdd(s.runs, s.tasks, c.runId, NewTasks(c, |c.tasks|));
      EntryAdd(s.commands, key, s'.commands[key]);
    }
  }

  lemma NextEvolves(s: State, e: Event)
    requires Inv(s)
    ensures Evolves(s, Next(s, e))
  {
    hide Evolves, RegisterPlan, TransitionPlan, CreateRun, TransitionRun, ClaimTask, Heartbeat, ReclaimExpired, CommitResult,
         RunsOk, TasksOk, AttemptsOk, ResultsOk, CohortsOk, ReceiptsOk, PlansOk;
    match e
    case Register(p) => RegisterEvolves(s, p);
    case Transition(k, t, r, now) => TransitionPlanEvolves(s, k, t, r, now);
    case Create(key, c, now) => CreateEvolves(s, key, c, now);
    case Cancel(key, r, now) => TransitionRunEvolves(s, Command.CancelCommand, key, r, now);
    case Resume(key, r, now) => TransitionRunEvolves(s, Command.ResumeCommand, key, r, now);
    case Replay(key, src, id, now) =>
      EvolvesReflexive(s);
      if src in s.runs && PlanMatches(s, s.runs[src].plan, s.runs[src]) {
        CreateEvolves(s, key, ReplayIntent(s, src, id), now);
      }
    case Claim(r, w, a, t, l, now) => ClaimEvolves(s, r, w, a, t, l, now);
    case Beat(a, w, t, l, now) => HeartbeatEvolves(s, a, w, t, l, now);
    case Reclaim(now) => ReclaimEvolves(s, now);
    case Commit(a, w, t, d, p, f, now) => CommitEvolves(s, a, w, t, d, p, f, now);
  }

  /** Over any history: plans only move forward, identities are fixed, completed tasks, ended
      attempts, results and receipts are immutable, and nothing disappears. */
  lemma {:induction false} RunEvolves(s: State, es: seq<Event>)
    requires Inv(s)
    ensures Inv(Run(s, es)) && Evolves(s, Run(s, es))
    decreases |es|
  {
    hide Inv, Evolves;
    if es == [] {
      EvolvesReflexive(s);
    } else {
      NextKeeps(s, es[0]);
      NextEvolves(s, es[0]);
      RunEvolves(Next(s, es[0]), es[1..]);
      EvolvesTransitive(s, Next(s, es[0]), Run(s, es));
    }
  }
}
