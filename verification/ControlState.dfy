/** The control plane as a state machine on values: one transition function per public
    operation, written over whole maps. The imperative back ends are proved against it. */
module ControlState {
  import opened Records
  import opened Ordering

  datatype State = State(
    hash: Content -> Sha256,
    plans: map<PlanKey, VerificationPlan>,
    runs: map<string, EvalRun>,
    tasks: map<TaskKey, RunTask>,
    attempts: map<string, AttemptLease>,
    results: map<ResultKey, FinalResult>,
    commands: map<string, CommandReceipt>)

  function Empty(hash: Content -> Sha256): State {
    State(hash, map[], map[], map[], map[], map[], map[])
  }

  datatype Step<+T> = Step(state: State, outcome: Outcome<T>)

  function Fail<T>(s: State, e: ControlError): Step<T> { Step(s, Err(e)) }

  // ----- orders -----

  /** (task_id, candidate_id) order, extended to a total order by the run. */
  predicate KeyLeq(a: TaskKey, b: TaskKey) {
    if a.run != b.run then StringLeq(a.run, b.run)
    else if a.task != b.task then StringLeq(a.task, b.task)
    else StringLeq(a.candidate, b.candidate)
  }

  lemma KeyOrder()
    ensures TotalOrder(KeyLeq)
  {
    StringOrder();
    forall a, b, c | KeyLeq(a, b) && KeyLeq(b, c) ensures KeyLeq(a, c) {
      assert StringLeq(a.run, b.run) && StringLeq(b.run, c.run);
      if a.run == b.run == c.run {
        assert StringLeq(a.task, b.task) && StringLeq(b.task, c.task);
      }
    }
  }

  // ----- queries -----

  function KeysOf(s: State, runId: string): set<TaskKey> {
    set k | k in s.tasks && k.run == runId
  }

  function QueuedKeys(s: State, runId: string): set<TaskKey> {
    set k | k in s.tasks && k.run == runId && s.tasks[k].state.Queued?
  }

  function OrderedKeys(s: State, runId: string): (r: seq<TaskKey>)
    ensures forall k :: k in r <==> k in s.tasks && k.run == runId
    ensures Ascending(r, KeyLeq) && Distinct(r)
  {
    KeyOrder();
    SortSet(KeysOf(s, runId), KeyLeq)
  }

  /** The tasks of a run in (task_id, candidate_id) order. */
  function OrderedTasks(s: State, runId: string): (r: seq<RunTask>)
    ensures |r| == |OrderedKeys(s, runId)|
    ensures forall i :: 0 <= i < |r| ==>
      OrderedKeys(s, runId)[i] in s.tasks && r[i] == s.tasks[OrderedKeys(s, runId)[i]]
  {
    var keys := OrderedKeys(s, runId);
    seq(|keys|, i requires 0 <= i < |keys| => assert keys[i] in keys; s.tasks[keys[i]])
  }

  function Inputs(tasks: seq<RunTask>): (r: seq<RunTaskInput>)
    ensures |r| == |tasks|
  {
    seq(|tasks|, i requires 0 <= i < |tasks| =>
      RunTaskInput(tasks[i].key.task, tasks[i].key.candidate, tasks[i].candidateHash))
  }

  predicate DistinctIdentities(tasks: seq<RunTaskInput>) {
    forall i, j :: 0 <= i < j < |tasks| ==>
      tasks[i].taskId != tasks[j].taskId || tasks[i].candidateId != tasks[j].candidateId
  }

  // ----- plans -----

  function PlanTargets(p: PlanState): set<PlanState> {
    match p
    case Draft => {PlanState.Validated, PlanState.Invalid}
    case Validated => {PlanState.Frozen, PlanState.Invalid}
    case Frozen => {PlanState.Superseded, PlanState.Invalid}
    case Superseded => {}
    case Invalid => {}
  }

  /** A plan record whose digest is not its spec's content hash cannot be constructed. */
  function RegisterPlan(s: State, plan: VerificationPlan): Step<VerificationPlan> {
    if s.hash(PlanContent(plan.spec)) != plan.digest then Fail(s, InvalidArgument)
    else if plan.key in s.plans && s.plans[plan.key] != plan then Fail(s, IdempotencyConflict)
    else Step(s.(plans := s.plans[plan.key := plan]), Ok(plan))
  }

  function TransitionPlan(s: State, key: PlanKey, target: PlanState, reason: string, now: Time)
    : Step<VerificationPlan>
  {
    if key !in s.plans then Fail(s, Unknown)
    else if target !in PlanTargets(s.plans[key].state) then Fail(s, InvalidTransition)
    else
      var updated := s.plans[key].(state := target, reason := Some(reason), updatedAt := now);
      Step(s.(plans := s.plans[key := updated]), Ok(updated))
  }

  // ----- commands -----

  /** What a stored receipt answers; None when the key is new. */
  function Replayed(s: State, key: string, command: Command, digest: Sha256): Option<Outcome<EvalRun>> {
    if key !in s.commands then None
    else if s.commands[key].command != command || s.commands[key].intentDigest != digest then
      Some(Err(IdempotencyConflict))
    else if s.commands[key].resourceId !in s.runs then Some(Err(MissingRow))
    else Some(Ok(s.runs[s.commands[key].resourceId]))
  }

  ghost predicate SamePlan(s: State, r: string, requested: string, digest: Sha256) {
    r in s.runs && s.runs[r].requestedCohort == requested && s.runs[r].planDigest == digest
  }

  ghost predicate Related(s: State, r: string, requested: string) {
    r in s.runs && s.runs[r].requestedCohort == requested
  }

  /** The effective cohort of a new run. Any run with the same plan may answer: the
      invariant makes the choice irrelevant. */
  ghost function CohortFor(s: State, requested: string, digest: Sha256): string {
    if exists r :: SamePlan(s, r, requested, digest) then
      var r :| SamePlan(s, r, requested, digest);
      s.runs[r].cohortId
    else if exists r :: Related(s, r, requested) then requested + "~" + Prefix12(digest)
    else requested
  }

  function NewTask(c: CreateIntent, t: RunTaskInput): RunTask {
    RunTask(TaskKey(c.runId, t.taskId, t.candidateId), t.candidateHash, c.plan.planId, c.planDigest,
            TaskState.Queued, None)
  }

  function NewTasks(c: CreateIntent, n: nat): map<TaskKey, RunTask>
    requires n <= |c.tasks|
  {
    if n == 0 then map[]
    else var t := NewTask(c, c.tasks[n - 1]); NewTasks(c, n - 1)[t.key := t]
  }

  ghost function CreateRun(s: State, key: string, c: CreateIntent, now: Time): Step<EvalRun> {
    var digest := s.hash(CreateContent(c));
    var replayed := Replayed(s, key, Command.CreateCommand, digest);
    if replayed.Some? then Step(s, replayed.value)
    else if c.runId in s.runs then Fail(s, IdempotencyConflict)
    else if c.tasks == [] || !DistinctIdentities(c.tasks) then Fail(s, Unknown)
    else if c.plan !in s.plans then Fail(s, Unknown)
    else
      var plan := s.plans[c.plan];
      if !plan.state.Frozen? || plan.digest != c.planDigest
         || plan.spec.comparisonCohort != c.requestedCohort then Fail(s, PlanNotSchedulable)
      else
        var run := EvalRun(c.runId, c.requestedCohort, CohortFor(s, c.requestedCohort, c.planDigest),
                           c.plan, c.planDigest, RunState.Pending, c.sourceRun, now, now);
        Step(s.(runs := s.runs[c.runId := run],
                tasks := s.tasks + NewTasks(c, |c.tasks|),
                commands := s.commands[key := CommandReceipt(key, Command.CreateCommand, digest, c.runId, now)]),
             Ok(run))
  }

  /** Cancellation of task `k` of the run and, with it, of the attempt that holds it. */
  function CancelledTasks(s: State, runId: string): map<TaskKey, RunTask> {
    map k | k in s.tasks ::
      if k.run == runId && !s.tasks[k].state.Completed? then s.tasks[k].(state := TaskState.Cancelled)
      else s.tasks[k]
  }

  predicate HeldOpen(s: State, runId: string, a: string)
    requires a in s.attempts
  {
    var k := s.attempts[a].task;
    k.run == runId && k in s.tasks && !s.tasks[k].state.Completed? && s.tasks[k].current == Some(a)
  }

  function CancelledAttempts(s: State, runId: string): map<string, AttemptLease> {
    map a | a in s.attempts ::
      if HeldOpen(s, runId, a) then s.attempts[a].(state := LeaseState.Cancelled) else s.attempts[a]
  }

  function ResumedTasks(s: State, runId: string): map<TaskKey, RunTask> {
    map k | k in s.tasks ::
      if k.run == runId && !s.tasks[k].state.Completed? then
        s.tasks[k].(state := TaskState.Queued, current := None)
      else s.tasks[k]
  }

  /** `cancel_run` and `resume_run`. */
  function TransitionRun(s: State, command: Command, key: string, runId: string, now: Time): Step<EvalRun>
    requires !command.CreateCommand?
  {
    var digest := s.hash(TransitionContent(command, runId));
    var replayed := Replayed(s, key, command, digest);
    if replayed.Some? then Step(s, replayed.value)
    else if runId !in s.runs then Fail(s, Unknown)
    else
      var run := s.runs[runId];
      var receipt := CommandReceipt(key, command, digest, runId, now);
      if command.CancelCommand? then
        if run.state.Completed? then Fail(s, InvalidTransition)
        else
          var updated := run.(state := RunState.Cancelled, updatedAt := now);
          Step(s.(tasks := CancelledTasks(s, runId), attempts := CancelledAttempts(s, runId),
                  runs := s.runs[runId := updated], commands := s.commands[key := receipt]), Ok(updated))
      else
        if !run.state.Cancelled? then Fail(s, InvalidTransition)
        else
          var updated := run.(state := RunState.Pending, updatedAt := now);
          Step(s.(tasks := ResumedTasks(s, runId),
                  runs := s.runs[runId := updated], commands := s.commands[key := receipt]), Ok(updated))
  }

  predicate PlanMatches(s: State, p: PlanKey, run: EvalRun) {
    p in s.plans && p == run.plan && s.plans[p].digest == run.planDigest
  }

  function ReplayIntent(s: State, source: string, replayId: string): CreateIntent
    requires source in s.runs
  {
    var run := s.runs[source];
    CreateIntent(replayId, run.requestedCohort, run.plan, run.planDigest,
                 Inputs(OrderedTasks(s, source)), Some(source))
  }

  ghost function ReplayRun(s: State, source: string, replayId: string, key: string, now: Time): Step<EvalRun> {
    if source !in s.runs then Fail(s, Unknown)
    else if !PlanMatches(s, s.runs[source].plan, s.runs[source]) then Fail(s, Unknown)
    else CreateRun(s, key, ReplayIntent(s, source, replayId), now)
  }

  // ----- leases -----

  function ClaimTask(s: State, runId: string, worker: string, attempt: string, token: string,
                     lease: Time, now: Time): Step<Option<AttemptLease>>
  {
    if lease <= 0 then Fail(s, InvalidArgument)
    else if runId !in s.runs then Fail(s, Unknown)
    else
      var run := s.runs[runId];
      if !run.state.Pending? && !run.state.Running? then Fail(s, InvalidTransition)
      else if run.plan !in s.plans then Fail(s, Unknown)
      else if !s.plans[run.plan].state.Frozen? then Fail(s, PlanNotSchedulable)
      else if QueuedKeys(s, runId) == {} then Step(s, Ok(None))
      else if attempt in s.attempts then Fail(s, IdempotencyConflict)
      else
        KeyOrder();
        var k := Least(QueuedKeys(s, runId), KeyLeq);
        var task := s.tasks[k];
        var granted := AttemptLease(attempt, k, task.planId, task.planDigest, worker, token,
                                    LeaseState.Active, now, now, now + lease);
        Step(s.(attempts := s.attempts[attempt := granted],
                tasks := s.tasks[k := task.(state := TaskState.Leased, current := Some(attempt))],
                runs := s.runs[runId := run.(state := RunState.Running, updatedAt := now)]),
             Ok(Some(granted)))
  }

  function Heartbeat(s: State, attempt: string, worker: string, token: string, lease: Time, now: Time)
    : Step<AttemptLease>
  {
    if lease <= 0 then Fail(s, InvalidArgument)
    else if attempt !in s.attempts then Fail(s, LeaseConflict)
    else
      var held := s.attempts[attempt];
      if !held.state.Active? || held.worker != worker || held.token != token then Fail(s, LeaseConflict)
      else if held.expiresAt <= now then Fail(s, LateAttempt)
      else
        var renewed := held.(heartbeatAt := now, expiresAt := now + lease);
        Step(s.(attempts := s.attempts[attempt := renewed]), Ok(renewed))
  }

  predicate Overdue(s: State, a: string, now: Time)
    requires a in s.attempts
  {
    s.attempts[a].state.Active? && s.attempts[a].expiresAt <= now
  }

  function DueAttempts(s: State, now: Time): set<string> {
    set a | a in s.attempts && Overdue(s, a, now)
  }

  /** Task `k` goes back to the queue when the attempt it names is overdue. */
  predicate Requeues(s: State, k: TaskKey, now: Time)
    requires k in s.tasks
  {
    var t := s.tasks[k];
    && t.state.Leased? && t.current.Some? && t.current.value in s.attempts
    && s.attempts[t.current.value].task == k && Overdue(s, t.current.value, now)
    && k.run in s.runs && (s.runs[k.run].state.Pending? || s.runs[k.run].state.Running?)
  }

  function RequeuedKeys(s: State, now: Time): set<TaskKey> {
    set k | k in s.tasks && Requeues(s, k, now)
  }

  function ReclaimExpired(s: State, now: Time): Step<nat> {
    Step(s.(attempts := map a | a in s.attempts ::
              if Overdue(s, a, now) then s.attempts[a].(state := LeaseState.Expired) else s.attempts[a],
            tasks := map k | k in s.tasks ::
              if Requeues(s, k, now) then s.tasks[k].(state := TaskState.Queued, current := None)
              else s.tasks[k]),
         Ok(|RequeuedKeys(s, now)|))
  }

  predicate AllDone(tasks: map<TaskKey, RunTask>, r: string) {
    forall k :: k in tasks && k.run == r ==> tasks[k].state.Completed?
  }

  function CommitResult(s: State, attempt: string, worker: string, token: string, digest: Sha256,
                        payload: Payload, domain: Option<FailureDomain>, now: Time): Step<CommitOutcome>
  {
    if attempt !in s.attempts then Fail(s, LeaseConflict)
    else
      var held := s.attempts[attempt];
      var key := ResultKey(held.task, held.planDigest);
      if held.state.Completed? && key in s.results then
        var existing := s.results[key];
        if existing.attemptId == attempt && existing.digest == digest && existing.payload == payload
           && existing.domain == domain then Step(s, Ok(CommitOutcome(existing, false)))
        else Fail(s, FinalResultConflict)
      else if held.task !in s.tasks then Fail(s, MissingRow)
      else
        var task := s.tasks[held.task];
        if !held.state.Active? || task.current != Some(attempt) then Fail(s, LateAttempt)
        else if held.worker != worker || held.token != token then Fail(s, LeaseConflict)
        else if held.expiresAt <= now then Fail(s, LateAttempt)
        else if key in s.results then Fail(s, FinalResultConflict)
        else if held.task.run !in s.runs then Fail(s, Unknown)
        else
          var result := FinalResult(key, held.planId, attempt, digest, payload, domain, now);
          var tasks := s.tasks[held.task := task.(state := TaskState.Completed)];
          var run := s.runs[held.task.run];
          Step(s.(results := s.results[key := result],
                  attempts := s.attempts[attempt := held.(state := LeaseState.Completed)],
                  tasks := tasks,
                  runs := if AllDone(tasks, held.task.run) then
                            s.runs[held.task.run := run.(state := RunState.Completed, updatedAt := now)]
                          else s.runs),
               Ok(CommitOutcome(result, true)))
  }

  // ----- aggregation -----

  function Digests(s: State, runIds: seq<string>): set<Sha256>
    requires forall r :: r in runIds ==> r in s.runs
  {
    set r | r in runIds :: s.runs[r].planDigest
  }

  function Cohorts(s: State, runIds: seq<string>): set<string>
    requires forall r :: r in runIds ==> r in s.runs
  {
    set r | r in runIds :: s.runs[r].cohortId
  }

  function Aggregate(s: State, runIds: seq<string>): Outcome<Sha256> {
    if runIds == [] then Err(MixedCohort)
    else if exists r :: r in runIds && r !in s.runs then Err(Unknown)
    else if |Digests(s, runIds)| != 1 || |Cohorts(s, runIds)| != 1 then Err(MixedCohort)
    else Ok(s.runs[runIds[0]].planDigest)
  }

  // ----- one event of any client -----

  datatype Event =
    | Register(plan: VerificationPlan)
    | Transition(planKey: PlanKey, target: PlanState, reason: string, now: Time)
    | Create(key: string, intent: CreateIntent, now: Time)
    | Cancel(key: string, runId: string, now: Time)
    | Resume(key: string, runId: string, now: Time)
    | Replay(key: string, source: string, replayId: string, now: Time)
    | Claim(runId: string, worker: string, attempt: string, token: string, lease: Time, now: Time)
    | Beat(attempt: string, worker: string, token: string, lease: Time, now: Time)
    | Reclaim(now: Time)
    | Commit(attempt: string, worker: string, token: string, digest: Sha256, payload: Payload,
             domain: Option<FailureDomain>, now: Time)

  ghost function Next(s: State, e: Event): State {
    match e
    case Register(p) => RegisterPlan(s, p).state
    case Transition(k, t, r, now) => TransitionPlan(s, k, t, r, now).state
    case Create(key, c, now) => CreateRun(s, key, c, now).state
    case Cancel(key, r, now) => TransitionRun(s, Command.CancelCommand, key, r, now).state
    case Resume(key, r, now) => TransitionRun(s, Command.ResumeCommand, key, r, now).state
    case Replay(key, src, id, now) => ReplayRun(s, src, id, key, now).state
    case Claim(r, w, a, t, l, now) => ClaimTask(s, r, w, a, t, l, now).state
    case Beat(a, w, t, l, now) => Heartbeat(s, a, w, t, l, now).state
    case Reclaim(now) => ReclaimExpired(s, now).state
    case Commit(a, w, t, d, p, f, now) => CommitResult(s, a, w, t, d, p, f, now).state
  }

  /** The state after a whole history of events, in any interleaving of any clients. */
  ghost function Run(s: State, es: seq<Event>): State
    decreases |es|
  {
    if es == [] then s else Run(Next(s, es[0]), es[1..])
  }
}
