/** Frozen-plan lineage, idempotent commands and comparison cohorts, over every history. */
module ControlCommands {
  import opened Records
  import opened Ordering
  import opened ControlState
  import opened ControlInvariant
  import opened ControlHistory
  import opened ControlTheorems

  // ----- frozen-plan lineage -----

  /** The registry entry a plan ID and digest point at, for the run `r`. */
  ghost predicate CarriesPlan(s: State, r: string, planId: string, digest: Sha256) {
    && r in s.runs && s.runs[r].plan in s.plans
    && s.runs[r].plan.planId == planId
    && s.plans[s.runs[r].plan].digest == digest == s.hash(PlanContent(s.plans[s.runs[r].plan].spec))
    && Schedulable(s.plans[s.runs[r].plan].state)
  }

  ghost predicate Lineage(s: State) {
    && (forall r :: r in s.runs ==> CarriesPlan(s, r, s.runs[r].plan.planId, s.runs[r].planDigest))
    && (forall k :: k in s.tasks ==> CarriesPlan(s, k.run, s.tasks[k].planId, s.tasks[k].planDigest))
    && (forall a :: a in s.attempts ==>
          CarriesPlan(s, s.attempts[a].task.run, s.attempts[a].planId, s.attempts[a].planDigest))
    && (forall rk :: rk in s.results ==> CarriesPlan(s, rk.task.run, s.results[rk].planId, rk.planDigest))
  }

  lemma LineageIn(s: State)
    requires Inv(s)
    ensures Lineage(s)
  {
    hide RunsOk, TasksOk, AttemptsOk, ResultsOk, CohortsOk, ReceiptsOk;
    forall r | r in s.runs ensures CarriesPlan(s, r, s.runs[r].plan.planId, s.runs[r].planDigest) { RunIsOk(s, r); }
    forall k | k in s.tasks ensures CarriesPlan(s, k.run, s.tasks[k].planId, s.tasks[k].planDigest) { TaskIsOk(s, k); }
    forall a | a in s.attempts
      ensures CarriesPlan(s, s.attempts[a].task.run, s.attempts[a].planId, s.attempts[a].planDigest)
    {
      AttemptIsOk(s, a);
    }
    forall rk | rk in s.results ensures CarriesPlan(s, rk.task.run, s.results[rk].planId, rk.planDigest) {
      ResultIsOk(s, rk);
    }
  }

  /** In every reachable state. */
  lemma ReachableLineage(hash: Content -> Sha256, es: seq<Event>)
    requires Injective(hash)
    ensures Lineage(Reached(hash, es))
  {
    hide *;
    ReachedInv(hash, es);
    LineageIn(Reached(hash, es));
  }

  ghost predicate Withdrawn(s: State, r: string) {
    r in s.runs && s.runs[r].plan in s.plans && !s.plans[s.runs[r].plan].state.Frozen?
  }

  lemma CreateAddsNoAttempt(s: State, key: string, c: CreateIntent, now: Time)
    ensures CreateRun(s, key, c, now).state.attempts == s.attempts
  {
    hide CohortFor, NewTasks;
  }

  lemma TransitionAddsNoAttempt(s: State, command: Command, key: string, r: string, now: Time)
    requires !command.CreateCommand?
    ensures TransitionRun(s, command, key, r, now).state.attempts.Keys == s.attempts.Keys
  {
    hide CancelledTasks, ResumedTasks, HeldOpen;
  }

  lemma CommitAddsNoAttempt(s: State, a: string, w: string, t: string, d: Sha256, p: Payload,
                            f: Option<FailureDomain>, now: Time)
    ensures CommitResult(s, a, w, t, d, p, f, now).state.attempts.Keys == s.attempts.Keys
  {
    hide AllDone;
  }

  lemma OnlyClaimsAddAttempts(s: State, e: Event)
    requires !e.Claim?
    ensures Next(s, e).attempts.Keys == s.attempts.Keys
  {
    hide CreateRun, TransitionRun, CommitResult, ReplayIntent, Overdue;
    match e
    case Create(key, c, now) => CreateAddsNoAttempt(s, key, c, now);
    case Cancel(key, r, now) => TransitionAddsNoAttempt(s, Command.CancelCommand, key, r, now);
    case Resume(key, r, now) => TransitionAddsNoAttempt(s, Command.ResumeCommand, key, r, now);
    case Replay(key, src, id, now) =>
      if src in s.runs { CreateAddsNoAttempt(s, key, ReplayIntent(s, src, id), now); }
    case Commit(a, w, t, d, p, f, now) => CommitAddsNoAttempt(s, a, w, t, d, p, f, now);
    case Register(_) =>
    case Transition(_, _, _, _) =>
    case Beat(_, _, _, _, _) =>
    case Reclaim(_) =>
  }

  /** A new attempt only comes from a claim under a frozen plan. */
  lemma AttemptsComeFromFrozenPlans(s: State, e: Event, a: string)
    requires a in Next(s, e).attempts && a !in s.attempts
    ensures e.Claim? && Next(s, e).attempts[a].task.run == e.runId && e.runId in s.runs && !Withdrawn(s, e.runId)
  {
    if e.Claim? {
      KeyOrder();
    } else {
      hide Next;
      OnlyClaimsAddAttempts(s, e);
    }
  }

  lemma StaysWithdrawn(s: State, t: State, r: string)
    requires Withdrawn(s, r) && RunsOk(s.plans, s.runs, s.tasks) && Evolves(s, t)
    ensures Withdrawn(t, r)
  {
    hide RunsOk, TasksKept, AttemptsKept, EntriesKept;
    RunIsOk(s, r);
  }

  ghost predicate NoNewAttempts(s: State, t: State, r: string) {
    forall a :: a in t.attempts && t.attempts[a].task.run == r ==> a in s.attempts
  }

  lemma {:induction false} WithdrawnPlanStopsClaims(s: State, es: seq<Event>, r: string)
    requires Withdrawn(s, r) && Inv(s)
    ensures NoNewAttempts(s, Run(s, es), r)
    decreases |es|
  {
    hide RunsOk, TasksOk, AttemptsOk, ResultsOk, CohortsOk, ReceiptsOk, PlansOk, Next, Evolves, Withdrawn;
    if es != [] {
      var t := Next(s, es[0]);
      NextKeeps(s, es[0]);
      NextEvolves(s, es[0]);
      StaysWithdrawn(s, t, r);
      WithdrawnPlanStopsClaims(t, es[1..], r);
      assert NoNewAttempts(t, Run(t, es[1..]), r);
      forall a | a in Run(s, es).attempts && Run(s, es).attempts[a].task.run == r ensures a in s.attempts {
        if a !in s.attempts {
          AttemptsComeFromFrozenPlans(s, es[0], a);
          RunEvolves(t, es[1..]);
          TaskOfAttemptFixed(t, Run(t, es[1..]), a);
        }
      }
    }
  }

  lemma TaskOfAttemptFixed(s: State, t: State, a: string)
    requires Evolves(s, t) && a in s.attempts
    ensures a in t.attempts && t.attempts[a].task == s.attempts[a].task
  {
    hide TasksKept, PlansForward, RunsKept, EntriesKept;
  }

  /** Once a run's plan has left the frozen state, every result stored later comes from an
      attempt that was active at that moment. */
  lemma WithdrawnPlanOnlyFinishesLiveWork(s: State, es: seq<Event>, r: string, rk: ResultKey)
    requires Withdrawn(s, r) && rk.task.run == r && rk in Run(s, es).results && rk !in s.results
    requires Inv(s)
    ensures var a := Run(s, es).results[rk].attemptId; a in s.attempts && s.attempts[a].state.Active?
  {
    hide RunsOk, TasksOk, AttemptsOk, ResultsOk, CohortsOk, ReceiptsOk, PlansOk, Run, Withdrawn,
         TasksKept, PlansForward, RunsKept, EntriesKept;
    var t := Run(s, es);
    RunEvolves(s, es);
    WithdrawnPlanStopsClaims(s, es, r);
    var a := t.results[rk].attemptId;
    ResultIsOk(t, rk);
    TaskIsOk(t, rk.task);
    assert a in s.attempts;
    AttemptIsOk(t, a);
    AttemptIsOk(s, a);
    TaskIsOk(s, s.attempts[a].task);
  }

  // ----- command idempotency -----

  predicate Keyed(e: Event) { e.Create? || e.Cancel? || e.Resume? || e.Replay? }

  ghost function Respond(s: State, e: Event): Outcome<EvalRun>
    requires Keyed(e)
  {
    match e
    case Create(key, c, now) => CreateRun(s, key, c, now).outcome
    case Cancel(key, r, now) => TransitionRun(s, Command.CancelCommand, key, r, now).outcome
    case Resume(key, r, now) => TransitionRun(s, Command.ResumeCommand, key, r, now).outcome
    case Replay(key, src, id, now) => ReplayRun(s, src, id, key, now).outcome
  }

  /** The run a command creates or moves. */
  function Target(e: Event): string
    requires Keyed(e)
  {
    match e
    case Create(_, c, _) => c.runId
    case Cancel(_, r, _) => r
    case Resume(_, r, _) => r
    case Replay(_, _, id, _) => id
  }

  /** What a command asks for, apart from its key and time. */
  ghost function Intent(s: State, e: Event): Content
    requires Keyed(e) && (e.Replay? ==> e.source in s.runs)
  {
    match e
    case Create(_, c, _) => CreateContent(c)
    case Cancel(_, r, _) => TransitionContent(Command.CancelCommand, r)
    case Resume(_, r, _) => TransitionContent(Command.ResumeCommand, r)
    case Replay(_, src, id, _) => CreateContent(ReplayIntent(s, src, id))
  }

  ghost predicate Answerable(s: State, e: Event) {
    Keyed(e) && (e.Replay? ==> e.source in s.runs)
  }

  lemma KeysStable(s: State, t: State, r: string)
    requires TasksKept(s.runs, s.tasks, t.tasks) && r in s.runs
    ensures OrderedKeys(t, r) == OrderedKeys(s, r)
  {
    KeyOrder();
    assert KeysOf(t, r) == KeysOf(s, r);
  }

  /** A replay asks for the same thing however much later it is issued. */
  lemma ReplayIntentStable(s: State, t: State, r: string, id: string)
    requires TasksKept(s.runs, s.tasks, t.tasks) && RunsKept(s.runs, t.runs) && r in s.runs
    requires TasksOk(s.runs, s.tasks, s.attempts, s.results)
    ensures r in t.runs && ReplayIntent(t, r, id) == ReplayIntent(s, r, id)
  {
    hide TasksOk, OrderedKeys, KeysOf;
    KeysStable(s, t, r);
    var keys := OrderedKeys(s, r);
    forall i | 0 <= i < |keys| ensures Inputs(OrderedTasks(t, r))[i] == Inputs(OrderedTasks(s, r))[i] {
      assert keys[i] in keys;
      assert TaskKept(s.tasks[keys[i]], t.tasks[keys[i]]);
    }
    assert Inputs(OrderedTasks(t, r)) == Inputs(OrderedTasks(s, r));
  }

  lemma IntentStable(s: State, t: State, e: Event)
    requires Answerable(s, e)
    requires Evolves(s, t) && Inv(s)
    ensures Answerable(t, e) && Intent(t, e) == Intent(s, e)
  {
    hide RunsOk, TasksOk, AttemptsOk, ResultsOk, CohortsOk, ReceiptsOk, PlansOk, TasksKept, RunsKept, ReplayIntent;
    if e.Replay? { ReplayIntentStable(s, t, e.source, e.replayId); }
  }

  function CommandOf(e: Event): Command
    requires Keyed(e)
  {
    match e
    case Create(_, _, _) => Command.CreateCommand
    case Cancel(_, _, _) => Command.CancelCommand
    case Resume(_, _, _) => Command.ResumeCommand
    case Replay(_, _, _, _) => Command.CreateCommand
  }

  lemma PlanOfRunMatches(s: State, r: string)
    requires RunsOk(s.plans, s.runs, s.tasks) && r in s.runs
    ensures PlanMatches(s, s.runs[r].plan, s.runs[r])
  {}

  lemma ReceiptIsOk(s: State, key: string)
    requires ReceiptsOk(s.hash, s.runs.Keys, s.commands) && key in s.commands
    ensures ReceiptOk(s.hash, s.runs.Keys, s.commands[key])
  {}

  /** The receipt was left by the same command with the same intent. */
  ghost predicate Fits(s: State, e: Event, receipt: CommandReceipt) {
    Answerable(s, e) && receipt.command == CommandOf(e) && receipt.intentDigest == s.hash(Intent(s, e))
  }

  /** The command answers with the current record of the run it is about. */
  ghost predicate ReturnsCurrent(s: State, e: Event) {
    Keyed(e) && Target(e) in s.runs && Respond(s, e) == Ok(s.runs[Target(e)])
  }

  ghost predicate Refuses(s: State, e: Event) {
    Keyed(e) && Respond(s, e) == Err(IdempotencyConflict)
  }

  /** A key that has a receipt: the same intent returns the current record of the run the first
      command was for, any other intent is refused, and nothing changes. */
  lemma ReceiptAnswers(s: State, e: Event)
    requires Answerable(s, e) && e.key in s.commands
    requires Inv(s)
    ensures Next(s, e) == s
    ensures if Fits(s, e, s.commands[e.key]) then ReturnsCurrent(s, e) else Refuses(s, e)
  {
    hide RunsOk, TasksOk, AttemptsOk, ResultsOk, CohortsOk, ReceiptsOk, PlansOk, OrderedTasks, CohortFor, NewTasks;
    ReceiptIsOk(s, e.key);
    var c :| StandsFor(s.hash, s.commands[e.key], c);
    if e.Replay? { PlanOfRunMatches(s, e.source); }
  }

  lemma CreateLeavesReceipt(s: State, key: string, c: CreateIntent, now: Time)
    requires key !in s.commands && CreateRun(s, key, c, now).outcome.Ok?
    ensures CreateRun(s, key, c, now).state.commands ==
            s.commands[key := CommandReceipt(key, Command.CreateCommand, s.hash(CreateContent(c)), c.runId, now)]
  {
    hide CohortFor, NewTasks;
  }

  lemma TransitionLeavesReceipt(s: State, command: Command, key: string, r: string, now: Time)
    requires !command.CreateCommand? && key !in s.commands && TransitionRun(s, command, key, r, now).outcome.Ok?
    ensures TransitionRun(s, command, key, r, now).state.commands ==
            s.commands[key := CommandReceipt(key, command, s.hash(TransitionContent(command, r)), r, now)]
  {}

  lemma SuccessLeavesReceipt(s: State, e: Event)
    requires Answerable(s, e) && e.key !in s.commands && Respond(s, e).Ok?
    ensures e.key in Next(s, e).commands && Fits(s, e, Next(s, e).commands[e.key])
  {
    hide CreateRun, TransitionRun, ReplayIntent;
    match e
    case Create(key, c, now) => CreateLeavesReceipt(s, key, c, now);
    case Cancel(key, r, now) => TransitionLeavesReceipt(s, Command.CancelCommand, key, r, now);
    case Resume(key, r, now) => TransitionLeavesReceipt(s, Command.ResumeCommand, key, r, now);
    case Replay(key, src, id, now) => CreateLeavesReceipt(s, key, ReplayIntent(s, src, id), now);
  }

  lemma ReceiptKept(s: State, t: State, key: string)
    requires Evolves(s, t) && key in s.commands
    ensures key in t.commands && t.commands[key] == s.commands[key]
  {
    hide TasksKept, PlansForward, RunsKept, AttemptsKept;
  }

  /** Equal digests are equal intents, and equal intents are the same command on the same run. */
  lemma FitsMeansSameIntent(s: State, t: State, e: Event, again: Event, receipt: CommandReceipt)
    requires Injective(s.hash) && t.hash == s.hash && Fits(s, e, receipt) && Answerable(t, again)
    ensures Fits(t, again, receipt) <==> Intent(t, again) == Intent(s, e)
    ensures Intent(t, again) == Intent(s, e) ==> Target(again) == Target(e)
  {
    hide ReplayIntent;
    if Intent(t, again) == Intent(s, e) {
      if e.Replay? { ReplayIntentNames(s, e.source, e.replayId); }
      if again.Replay? { ReplayIntentNames(t, again.source, again.replayId); }
    }
  }

  lemma ReplayIntentNames(s: State, source: string, id: string)
    requires source in s.runs
    ensures ReplayIntent(s, source, id).runId == id && ReplayIntent(s, source, id).sourceRun == Some(source)
  {}

  /** `again` is issued in `t` under the key of the earlier command `e`, issued in `s`. */
  ghost predicate AnsweredAs(s: State, e: Event, t: State, again: Event) {
    && Answerable(s, e) && Answerable(t, again)
    && Next(t, again) == t
    && if Intent(t, again) == Intent(s, e) then Target(again) == Target(e) && ReturnsCurrent(t, again)
       else Refuses(t, again)
  }

  /** After a command succeeded, any history may follow: issuing its key again with the same intent,
      at any time, returns the current record of the same run and changes nothing; issuing it with a
      different intent is refused and changes nothing. */
  lemma CommandsAreIdempotent(s: State, e: Event, es: seq<Event>, again: Event)
    requires Answerable(s, e) && e.key !in s.commands && Respond(s, e).Ok?
    requires Answerable(Run(Next(s, e), es), again) && again.key == e.key
    requires Inv(s)
    ensures AnsweredAs(s, e, Run(Next(s, e), es), again)
  {
    hide RunsOk, TasksOk, AttemptsOk, ResultsOk, CohortsOk, ReceiptsOk, PlansOk, Next, Run, Respond, ReplayIntent,
         TasksKept, PlansForward, RunsKept, AttemptsKept, EntriesKept, Fits, Intent, Injective, ReturnsCurrent, Refuses;
    var s1 := Next(s, e);
    var t := Run(s1, es);
    NextKeeps(s, e);
    NextEvolves(s, e);
    SuccessLeavesReceipt(s, e);
    RunEvolves(s1, es);
    ReceiptKept(s1, t, e.key);
    FitsMeansSameIntent(s, t, e, again, t.commands[e.key]);
    ReceiptAnswers(t, again);
  }

  /** The command itself, at any later time, is such a repetition: its intent does not drift. */
  lemma RepeatedCommandReturnsItsRun(s: State, e: Event, es: seq<Event>)
    requires Answerable(s, e) && e.key !in s.commands && Respond(s, e).Ok?
    requires Inv(s)
    ensures Next(Run(Next(s, e), es), e) == Run(Next(s, e), es) && ReturnsCurrent(Run(Next(s, e), es), e)
  {
    hide RunsOk, TasksOk, AttemptsOk, ResultsOk, CohortsOk, ReceiptsOk, PlansOk, Next, Run, Respond, ReplayIntent,
         TasksKept, PlansForward, RunsKept, AttemptsKept, EntriesKept, Fits, Intent, Injective, ReturnsCurrent, Refuses;
    var s1 := Next(s, e);
    var t := Run(s1, es);
    NextKeeps(s, e);
    NextEvolves(s, e);
    RunEvolves(s1, es);
    EvolvesTransitive(s, s1, t);
    IntentStable(s, t, e);
    CommandsAreIdempotent(s, e, es, e);
  }

  // ----- what a create or a replay makes -----

  lemma {:induction false} NewTaskAt(c: CreateIntent, n: nat, i: nat)
    requires i < n <= |c.tasks| && DistinctIdentities(c.tasks)
    ensures NewTask(c, c.tasks[i]).key in NewTasks(c, n)
    ensures NewTasks(c, n)[NewTask(c, c.tasks[i]).key] == NewTask(c, c.tasks[i])
  {
    if i < n - 1 { NewTaskAt(c, n - 1, i); }
  }

  /** The tasks of run `r` are exactly those of the intent, each queued with its candidate hash. */
  ghost predicate HasExactly(tasks: Tasks, c: CreateIntent) {
    && (forall k :: k in tasks && k.run == c.runId ==> exists i :: 0 <= i < |c.tasks| && k == NewTask(c, c.tasks[i]).key)
    && (forall i :: 0 <= i < |c.tasks| ==>
          NewTask(c, c.tasks[i]).key in tasks && tasks[NewTask(c, c.tasks[i]).key] == NewTask(c, c.tasks[i]))
  }

  lemma NewTasksExactly(c: CreateIntent)
    requires DistinctIdentities(c.tasks)
    ensures HasExactly(NewTasks(c, |c.tasks|), c)
    ensures forall k :: k in NewTasks(c, |c.tasks|) ==> k.run == c.runId
  {
    NewTasksAre(c, |c.tasks|);
    forall i | 0 <= i < |c.tasks|
      ensures NewTask(c, c.tasks[i]).key in NewTasks(c, |c.tasks|)
      ensures NewTasks(c, |c.tasks|)[NewTask(c, c.tasks[i]).key] == NewTask(c, c.tasks[i])
    {
      NewTaskAt(c, |c.tasks|, i);
    }
    forall k | k in NewTasks(c, |c.tasks|) ensures exists i :: 0 <= i < |c.tasks| && k == NewTask(c, c.tasks[i]).key {
      var i :| 0 <= i < |c.tasks| && k == TaskKey(c.runId, c.tasks[i].taskId, c.tasks[i].candidateId);
      assert k == NewTask(c, c.tasks[i]).key;
    }
  }

  lemma AddedExactly(tasks: Tasks, added: Tasks, c: CreateIntent)
    requires HasExactly(added, c) && (forall k :: k in added ==> k.run == c.runId)
    requires forall k :: k in tasks ==> k.run != c.runId
    ensures HasExactly(tasks + added, c)
    ensures forall k :: k in tasks ==> k in tasks + added && (tasks + added)[k] == tasks[k]
  {
    hide NewTask;
  }

  lemma NoTasksYet(s: State, r: string)
    requires r !in s.runs
    requires Inv(s)
    ensures forall k :: k in s.tasks ==> k.run != r
  {
    hide RunsOk, TasksOk, AttemptsOk, ResultsOk, CohortsOk, ReceiptsOk, PlansOk;
    forall k | k in s.tasks ensures k.run in s.runs { TaskIsOk(s, k); }
  }

  lemma CreateAddsRun(s: State, key: string, c: CreateIntent, now: Time)
    requires key !in s.commands && CreateRun(s, key, c, now).outcome.Ok?
    ensures var t := CreateRun(s, key, c, now).state;
            && c.runId !in s.runs && c.tasks != [] && DistinctIdentities(c.tasks)
            && t.tasks == s.tasks + NewTasks(c, |c.tasks|)
            && t.runs == s.runs[c.runId := EvalRun(c.runId, c.requestedCohort, CohortFor(s, c.requestedCohort, c.planDigest),
                                                   c.plan, c.planDigest, RunState.Pending, c.sourceRun, now, now)]
  {
    hide CohortFor, NewTasks, DistinctIdentities;
  }

  /** A new command creates one pending run with exactly the tasks of its intent; every other task
      stays as it was. */
  lemma CreateMakesItsTasks(s: State, key: string, c: CreateIntent, now: Time)
    requires key !in s.commands && CreateRun(s, key, c, now).outcome.Ok?
    requires Inv(s)
    ensures var t := CreateRun(s, key, c, now).state;
            && c.runId in t.runs && t.runs[c.runId].state.Pending? && t.runs[c.runId].sourceRun == c.sourceRun
            && HasExactly(t.tasks, c) && EntriesKept(s.tasks, t.tasks)
  {
    hide Inv, CreateRun, NewTasks, HasExactly, CohortFor;
    CreateAddsRun(s, key, c, now);
    NewTasksExactly(c);
    NoTasksYet(s, c.runId);
    AddedExactly(s.tasks, NewTasks(c, |c.tasks|), c);
  }

  /** The same task and candidate in another run. */
  function InRun(k: TaskKey, r: string): TaskKey { k.(run := r) }

  /** The tasks of `id` in `t` are those of `source` in `s`, candidate by candidate, queued afresh. */
  ghost predicate CopiesTasks(s: State, source: string, t: State, id: string) {
    && (forall k :: k in s.tasks && k.run == source ==>
          && InRun(k, id) in t.tasks && t.tasks[InRun(k, id)].state.Queued?
          && t.tasks[InRun(k, id)].candidateHash == s.tasks[k].candidateHash)
    && (forall k :: k in t.tasks && k.run == id ==> InRun(k, source) in s.tasks)
  }

  lemma InputsAreTasks(s: State, source: string, id: string, i: nat)
    requires source in s.runs && i < |OrderedKeys(s, source)|
    requires Inv(s)
    ensures var c := ReplayIntent(s, source, id); var k := OrderedKeys(s, source)[i];
            && |c.tasks| == |OrderedKeys(s, source)| && k in s.tasks && k.run == source
            && NewTask(c, c.tasks[i]).key == InRun(k, id)
            && NewTask(c, c.tasks[i]).candidateHash == s.tasks[k].candidateHash
  {
    hide RunsOk, TasksOk, AttemptsOk, ResultsOk, CohortsOk, ReceiptsOk, PlansOk, OrderedKeys;
    var keys := OrderedKeys(s, source);
    assert keys[i] in keys;
    TaskIsOk(s, keys[i]);
  }

  /** A replay repeats its source task for task, whatever state the source's tasks are in. */
  lemma ReplayCopiesTasks(s: State, key: string, source: string, id: string, now: Time)
    requires key !in s.commands && ReplayRun(s, source, id, key, now).outcome.Ok?
    requires Inv(s)
    ensures var t := ReplayRun(s, source, id, key, now).state;
            && id in t.runs && t.runs[id].sourceRun == Some(source) && t.runs[id].state.Pending?
            && CopiesTasks(s, source, t, id)
  {
    hide Inv, CreateRun, OrderedKeys, InRun;
    var c := ReplayIntent(s, source, id);
    ReplayIntentNames(s, source, id);
    CreateMakesItsTasks(s, key, c, now);
    hide ReplayIntent, NewTask;
    var t := ReplayRun(s, source, id, key, now).state;
    var keys := OrderedKeys(s, source);
    forall i | 0 <= i < |keys|
      ensures |c.tasks| == |keys| && keys[i] in s.tasks && NewTask(c, c.tasks[i]).key == InRun(keys[i], id)
      ensures NewTask(c, c.tasks[i]).candidateHash == s.tasks[keys[i]].candidateHash
    {
      InputsAreTasks(s, source, id, i);
    }
    CopiedFrom(s, source, t, c);
  }

  lemma CopiedFrom(s: State, source: string, t: State, c: CreateIntent)
    requires HasExactly(t.tasks, c) && |c.tasks| == |OrderedKeys(s, source)|
    requires forall i :: 0 <= i < |OrderedKeys(s, source)| ==>
      && OrderedKeys(s, source)[i] in s.tasks
      && NewTask(c, c.tasks[i]).key == InRun(OrderedKeys(s, source)[i], c.runId)
      && NewTask(c, c.tasks[i]).candidateHash == s.tasks[OrderedKeys(s, source)[i]].candidateHash
    ensures CopiesTasks(s, source, t, c.runId)
  {
    hide OrderedKeys;
    var keys := OrderedKeys(s, source);
    forall k | k in s.tasks && k.run == source
      ensures InRun(k, c.runId) in t.tasks && t.tasks[InRun(k, c.runId)].state.Queued?
      ensures t.tasks[InRun(k, c.runId)].candidateHash == s.tasks[k].candidateHash
    {
      var i :| 0 <= i < |keys| && keys[i] == k;
      assert NewTask(c, c.tasks[i]).key in t.tasks;
    }
    forall k | k in t.tasks && k.run == c.runId ensures InRun(k, source) in s.tasks {
      var i :| 0 <= i < |c.tasks| && k == NewTask(c, c.tasks[i]).key;
      assert keys[i] in keys;
    }
  }

  // ----- comparison cohorts -----

  lemma CohortPair(s: State, r: string, q: string)
    requires CohortsOk(s.runs) && r in s.runs && q in s.runs
    ensures CohortNamed(s.runs[r]) && CohortNamed(s.runs[q]) && CohortsAgree(s.runs[r], s.runs[q])
    ensures BareNameTaken(s.runs, s.runs[r].requestedCohort)
  {}

  predicate OwnsBareName(run: EvalRun) { run.cohortId == run.requestedCohort }

  lemma SuffixInjective(n: string, d: Sha256, e: Sha256)
    ensures Suffixed(n, d) == Suffixed(n, e) <==> Prefix12(d) == Prefix12(e)
    ensures Suffixed(n, d) != n
  {
    assert |Suffixed(n, d)| > |n|;
    assert Suffixed(n, d)[|n| + 1..] == Prefix12(d) && Suffixed(n, e)[|n| + 1..] == Prefix12(e);
  }

  /** Exactly one plan of every requested cohort that has runs owns the bare name. */
  lemma OneOwnerPerCohort(s: State, r: string)
    requires r in s.runs
    requires Inv(s)
    ensures exists q :: && q in s.runs && s.runs[q].requestedCohort == s.runs[r].requestedCohort
                        && OwnsBareName(s.runs[q])
    ensures forall p, q :: p in s.runs && q in s.runs && s.runs[p].requestedCohort == s.runs[q].requestedCohort
                           && OwnsBareName(s.runs[p]) && OwnsBareName(s.runs[q]) ==>
                             s.runs[p].planDigest == s.runs[q].planDigest
  {
    hide RunsOk, TasksOk, AttemptsOk, ResultsOk, CohortsOk, ReceiptsOk, PlansOk;
    CohortPair(s, r, r);
    forall p, q | p in s.runs && q in s.runs ensures CohortsAgree(s.runs[p], s.runs[q]) { CohortPair(s, p, q); }
  }

  /** Because a digest fixes the whole plan, equal digests mean equal cohorts across all runs. */
  lemma EqualDigestsShareCohort(s: State, r: string, q: string)
    requires r in s.runs && q in s.runs && s.runs[r].planDigest == s.runs[q].planDigest
    requires Inv(s)
    ensures s.runs[r].cohortId == s.runs[q].cohortId && s.runs[r].requestedCohort == s.runs[q].requestedCohort
  {
    hide RunsOk, TasksOk, AttemptsOk, ResultsOk, CohortsOk, ReceiptsOk;
    RunIsOk(s, r);
    RunIsOk(s, q);
    CohortPair(s, r, q);
    assert s.hash(PlanContent(s.plans[s.runs[r].plan].spec)) == s.hash(PlanContent(s.plans[s.runs[q].plan].spec));
  }

  /** Two runs of different plans were given one name: the same suffixed name, or a bare name that is
      the other's suffixed name. */
  predicate NamesMeet(a: EvalRun, b: EvalRun) {
    if OwnsBareName(a) then !OwnsBareName(b) && a.requestedCohort == Suffixed(b.requestedCohort, b.planDigest)
    else if OwnsBareName(b) then b.requestedCohort == Suffixed(a.requestedCohort, a.planDigest)
    else Suffixed(a.requestedCohort, a.planDigest) == Suffixed(b.requestedCohort, b.planDigest)
  }

  /** The ids of two runs, whatever cohorts they asked for, coincide exactly when their plans do or
      their names meet; within one requested cohort that is a collision of twelve characters. */
  lemma CohortIdsSeparatePlans(s: State, r: string, q: string)
    requires r in s.runs && q in s.runs
    requires Inv(s)
    ensures var a := s.runs[r]; var b := s.runs[q];
            && (a.cohortId == b.cohortId <==> a.planDigest == b.planDigest || NamesMeet(a, b))
            && (a.requestedCohort == b.requestedCohort && a.planDigest != b.planDigest ==>
                  (NamesMeet(a, b) <==>
                     !OwnsBareName(a) && !OwnsBareName(b) && Prefix12(a.planDigest) == Prefix12(b.planDigest)))
  {
    hide RunsOk, TasksOk, AttemptsOk, ResultsOk, CohortsOk, ReceiptsOk, PlansOk, Suffixed;
    CohortPair(s, r, q);
    if s.runs[r].planDigest == s.runs[q].planDigest { EqualDigestsShareCohort(s, r, q); }
    SuffixInjective(s.runs[r].requestedCohort, s.runs[r].planDigest, s.runs[q].planDigest);
    SuffixInjective(s.runs[q].requestedCohort, s.runs[q].planDigest, s.runs[q].planDigest);
  }

  lemma SingletonIff<T>(xs: set<T>, x: T)
    requires x in xs
    ensures |xs| == 1 <==> xs == {x}
  {
    if |xs| == 1 {
      assert |xs - {x}| == 0;
    }
  }

  /** Aggregation is accepted exactly for known runs, at least one, whose plan digests are all equal. */
  lemma AggregatesExactlyOnePlan(s: State, runIds: seq<string>)
    requires Inv(s)
    ensures Aggregate(s, runIds) ==
              if runIds == [] then Err(MixedCohort)
              else if exists r :: r in runIds && r !in s.runs then Err(Unknown)
              else if forall r :: r in runIds ==> s.runs[r].planDigest == s.runs[runIds[0]].planDigest
              then Ok(s.runs[runIds[0]].planDigest) else Err(MixedCohort)
  {
    hide RunsOk, TasksOk, AttemptsOk, ResultsOk, CohortsOk, ReceiptsOk, PlansOk;
    if runIds == [] || exists r :: r in runIds && r !in s.runs { return; }
    var first := runIds[0];
    assert first in runIds;
    SingletonIff(Digests(s, runIds), s.runs[first].planDigest);
    SingletonIff(Cohorts(s, runIds), s.runs[first].cohortId);
    if forall r :: r in runIds ==> s.runs[r].planDigest == s.runs[first].planDigest {
      assert Digests(s, runIds) == {s.runs[first].planDigest};
      forall r | r in runIds ensures s.runs[r].cohortId == s.runs[first].cohortId {
        EqualDigestsShareCohort(s, r, first);
      }
      assert Cohorts(s, runIds) == {s.runs[first].cohortId};
    } else {
      var r :| r in runIds && s.runs[r].planDigest != s.runs[first].planDigest;
      assert s.runs[r].planDigest in Digests(s, runIds);
    }
  }

  lemma ReplayCarriesDigest(s: State, key: string, source: string, id: string, now: Time)
    requires ReplayRun(s, source, id, key, now).outcome.Ok? && key !in s.commands
    ensures var t := ReplayRun(s, source, id, key, now).state;
            && source in s.runs && source in t.runs && id in t.runs
            && t.runs[source] == s.runs[source] && t.runs[id].planDigest == s.runs[source].planDigest
  {
    hide CohortFor, NewTasks, OrderedTasks;
  }

  lemma RunDigestKept(s: State, t: State, r: string)
    requires Evolves(s, t) && r in s.runs
    ensures r in t.runs && t.runs[r].planDigest == s.runs[r].planDigest
  {
    hide TasksKept, PlansForward, AttemptsKept, EntriesKept;
  }

  /** A replay can always be aggregated with its source, then and ever after. */
  lemma ReplayAggregatesWithSource(s: State, key: string, source: string, id: string, now: Time, es: seq<Event>)
    requires Respond(s, Replay(key, source, id, now)).Ok? && key !in s.commands
    requires Inv(s)
    ensures source in s.runs
    ensures Aggregate(Run(Next(s, Replay(key, source, id, now)), es), [source, id]) == Ok(s.runs[source].planDigest)
  {
    hide Inv, Run, ReplayRun, Evolves, Aggregate;
    var e := Replay(key, source, id, now);
    var s1 := Next(s, e);
    ReplayCarriesDigest(s, key, source, id, now);
    NextKeeps(s, e);
    RunEvolves(s1, es);
    RunDigestKept(s1, Run(s1, es), source);
    RunDigestKept(s1, Run(s1, es), id);
    AggregatesExactlyOnePlan(Run(s1, es), [source, id]);
  }
}
