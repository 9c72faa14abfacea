/** Record types shared by the plan compiler, the two control planes and the driver.
    Timestamps, lease lengths and CPU estimates are whole microseconds. */
module Records {

  datatype Option<+T> = None | Some(value: T)

  type Sha256 = string
  type Time = int
  /** A result payload; the source's JSON object. */
  type Payload = map<string, string>

  datatype ControlError =
    | PlanCompilationError
    | InvalidTransition
    | PlanNotSchedulable
    | IdempotencyConflict
    | LeaseConflict
    | LateAttempt
    | FinalResultConflict
    | MixedCohort
    | Unknown            // the base ControlPlaneError: unknown run or plan, empty or repeated tasks
    | InvalidArgument    // ValueError
    | MissingRow         // a KeyError on an internal dictionary

  datatype Outcome<+T> = Ok(value: T) | Err(error: ControlError)

  datatype PlanState = Draft | Validated | Frozen | Superseded | Invalid
  datatype RunState = Pending | Running | Cancelled | Completed
  datatype TaskState = Queued | Leased | Cancelled | Completed
  datatype LeaseState = Active | Expired | Cancelled | Completed
  datatype FailureDomain = Plan | Model | UserCode | Verifier | Sandbox | Scheduler | Storage

  // ----- plans -----

  datatype TaskSpec = TaskSpec(taskId: string, taskFamily: string, verifierTags: seq<string>)
  datatype EvaluationIntent = EvaluationIntent(name: string, requiredVerifierTags: seq<string>)
  datatype AggregationPolicy =
    AggregationPolicy(policyId: string, version: string, reducer: string, configDigest: Sha256)
  datatype VerifierNode = VerifierNode(
    verifierId: string, adapter: string, version: string, configDigest: Sha256, imageDigest: Sha256,
    requiredEvidence: seq<string>, expectedModelTokens: nat, expectedCpuMicros: nat)
  datatype BudgetEstimate = BudgetEstimate(
    candidateCount: nat, expectedModelTokens: nat, expectedCpuMicros: nat, maxConcurrency: nat)
  datatype PlanSpec = PlanSpec(
    taskSpec: TaskSpec, intent: EvaluationIntent, graph: seq<VerifierNode>,
    requiredEvidence: seq<string>, policy: AggregationPolicy, policyRevision: string,
    inputEvidence: seq<Sha256>, comparisonCohort: string, budget: BudgetEstimate)

  datatype PlanKey = PlanKey(planId: string, revision: nat)
  datatype VerificationPlan = VerificationPlan(
    key: PlanKey, digest: Sha256, spec: PlanSpec, state: PlanState,
    createdAt: Time, updatedAt: Time, reason: Option<string>)

  // ----- runs, tasks, attempts, results -----

  datatype RunTaskInput = RunTaskInput(taskId: string, candidateId: string, candidateHash: Sha256)

  datatype CreateIntent = CreateIntent(
    runId: string, requestedCohort: string, plan: PlanKey, planDigest: Sha256,
    tasks: seq<RunTaskInput>, sourceRun: Option<string>)

  datatype EvalRun = EvalRun(
    runId: string, requestedCohort: string, cohortId: string, plan: PlanKey, planDigest: Sha256,
    state: RunState, sourceRun: Option<string>, createdAt: Time, updatedAt: Time)

  datatype TaskKey = TaskKey(run: string, task: string, candidate: string)

  datatype RunTask = RunTask(
    key: TaskKey, candidateHash: Sha256, planId: string, planDigest: Sha256,
    state: TaskState, current: Option<string>)

  datatype AttemptLease = AttemptLease(
    attemptId: string, task: TaskKey, planId: string, planDigest: Sha256,
    worker: string, token: string, state: LeaseState,
    claimedAt: Time, heartbeatAt: Time, expiresAt: Time)

  datatype ResultKey = ResultKey(task: TaskKey, planDigest: Sha256)

  datatype FinalResult = FinalResult(
    key: ResultKey, planId: string, attemptId: string, digest: Sha256, payload: Payload,
    domain: Option<FailureDomain>, committedAt: Time)

  datatype CommitOutcome = CommitOutcome(result: FinalResult, inserted: bool)

  datatype Command = CreateCommand | CancelCommand | ResumeCommand
  datatype CommandReceipt = CommandReceipt(
    key: string, command: Command, intentDigest: Sha256, resourceId: string, createdAt: Time)

  // ----- content identity -----

  /** Everything the source passes to `content_hash`. */
  datatype Content =
    | PlanContent(spec: PlanSpec)
    | CreateContent(intent: CreateIntent)
    | TransitionContent(command: Command, runId: string)
    | PayloadContent(payload: Payload)

  /** `content_hash` is any function that gives different contents different digests. */
  ghost predicate Injective(hash: Content -> Sha256) {
    forall x, y :: hash(x) == hash(y) ==> x == y
  }

  function Prefix12(digest: Sha256): string {
    if |digest| < 12 then digest else digest[..12]
  }
}
