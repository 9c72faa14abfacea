/** The PostgreSQL back end, one transaction as one atomic step on tables keyed by their primary
    keys. A refused or aborted transaction changes nothing. */
module Postgres {
  import opened Records
  import opened Ordering
  import opened ControlState
  import opened ControlInvariant

  datatype CohortKey = CohortKey(requested: string, digest: Sha256)

  datatype DbOutcome<+T> =
    | Done(value: T)
    | Refused(error: ControlError)
    | ConstraintViolated

  function IndexKey(run: EvalRun): CohortKey { CohortKey(run.requestedCohort, run.planDigest) }

  ghost predicate EveryRunIndexed(runs: Runs, cohorts: map<CohortKey, string>) {
    forall r :: r in runs ==> IndexKey(runs[r]) in cohorts && cohorts[IndexKey(runs[r])] == runs[r].cohortId
  }

  ghost predicate EveryRowUsed(runs: Runs, cohorts: map<CohortKey, string>) {
    forall c :: c in cohorts ==> exists r :: r in runs && IndexKey(runs[r]) == c
  }

  ghost predicate UniqueCohortIds(cohorts: map<CohortKey, string>) {
    forall c, d :: c in cohorts && d in cohorts && cohorts[c] == cohorts[d] ==> c == d
  }

  /** `comparison_cohorts` is the index of the runs by requested cohort and digest, and its
      UNIQUE column holds. */
  ghost predicate CohortIndex(runs: Runs, cohorts: map<CohortKey, string>) {
    EveryRunIndexed(runs, cohorts) && EveryRowUsed(runs, cohorts) && UniqueCohortIds(cohorts)
  }

  /** The effective cohort of the intent is already the name of a different comparison. */
  ghost predicate CohortClash(s: State, c: CreateIntent) {
    exists r :: r in s.runs && s.runs[r].cohortId == CohortFor(s, c.requestedCohort, c.planDigest)
                && IndexKey(s.runs[r]) != CohortKey(c.requestedCohort, c.planDigest)
  }

  predicate SourceKnown(s: State, c: CreateIntent) {
    c.sourceRun.None? || c.sourceRun.value in s.runs || c.sourceRun.value == c.runId
  }

  class PostgresControlPlane {
    const contentHash: Content -> Sha256
    var plans: map<PlanKey, VerificationPlan>
    var cohorts: map<CohortKey, string>
    var runs: map<string, EvalRun>
    var tasks: map<TaskKey, RunTask>
    var leases: map<string, AttemptLease>
    var results: map<ResultKey, FinalResult>
    var receipts: map<string, CommandReceipt>

    function Abs(): State
      reads this
    {
      State(contentHash, plans, runs, tasks, leases, results, receipts)
    }

    ghost predicate Valid()
      reads this
    {
      Inv(Abs()) && CohortIndex(runs, cohorts)
    }

    /** Agrees with the reference machine whenever it accepts, and accepts whatever the reference
        accepts unless a table constraint forbids it. */
    method CreateRun(key: string, c: CreateIntent, now: Time) returns (r: DbOutcome<EvalRun>)
      requires Valid()
      modifies this
      ensures Valid()
      ensures r.Done? ==> Step(Abs(), Ok(r.value)) == ControlState.CreateRun(old(Abs()), key, c, now)
      ensures !r.Done? ==> Abs() == old(Abs()) && cohorts == old(cohorts)
      ensures ControlState.CreateRun(old(Abs()), key, c, now).outcome.Ok? ==>
                (r.Done? <==> key in old(receipts) || (SourceKnown(old(Abs()), c) && !CohortClash(old(Abs()), c)))
    {
      hide Inv, CohortFor, CohortIndex, CohortClash, NewTasks, SourceKnown, DistinctIdentities, IndexKey, Prefix12;
      ghost var s := Abs();
      CreateKeeps(s, key, c, now);
      var digest := contentHash(CreateContent(c));
      if c.tasks == [] || !DistinctIdentities(c.tasks) {
        EmptyIntentHasNoReceipt(s, key, c);
        return Refused(Unknown);
      }
      if key in receipts {
        var receipt := receipts[key];
        if receipt.command != Command.CreateCommand || receipt.intentDigest != digest {
          return Refused(IdempotencyConflict);
        }
        ReceiptRunExists(s, key);
        return Done(runs[receipt.resourceId]);
      }
      if c.runId in runs { return Refused(IdempotencyConflict); }
      if c.plan !in plans { return Refused(Unknown); }
      var plan := plans[c.plan];
      if !plan.state.Frozen? || plan.digest != c.planDigest || plan.spec.comparisonCohort != c.requestedCohort {
        return Refused(PlanNotSchedulable);
      }
      var cohort, clash := CohortRow(c);
      if clash || !SourceKnown(Abs(), c) { return ConstraintViolated; }
      var run := EvalRun(c.runId, c.requestedCohort, cohort, c.plan, c.planDigest, RunState.Pending, c.sourceRun, now, now);
      KeyOfRun(run);
      IndexAfterInsert(runs, cohorts, run);
      cohorts := cohorts[IndexKey(run) := cohort];
      runs := runs[c.runId := run];
      InsertTasks(c);
      receipts := receipts[key := CommandReceipt(key, Command.CreateCommand, digest, c.runId, now)];
      r := Done(run);
    }

    /** The row of `comparison_cohorts` for the intent, or the one to insert, and whether the UNIQUE
        column forbids inserting it. */
    method CohortRow(c: CreateIntent) returns (cohort: string, clash: bool)
      requires Valid()
      ensures cohort == CohortFor(Abs(), c.requestedCohort, c.planDigest)
      ensures clash <==> CohortClash(Abs(), c)
      ensures var index := CohortKey(c.requestedCohort, c.planDigest);
              !clash ==> if index in cohorts then cohorts[index] == cohort
                         else forall d :: d in cohorts ==> cohorts[d] != cohort
    {
      hide Inv, CohortFor, CohortIndex, CohortClash;
      var index := CohortKey(c.requestedCohort, c.planDigest);
      CohortRowIsAnswer(Abs(), cohorts, index);
      cohort := c.requestedCohort;
      if index in cohorts {
        cohort := cohorts[index];
      } else if exists d :: d in cohorts && d.requested == c.requestedCohort {
        cohort := c.requestedCohort + "~" + Prefix12(c.planDigest);
      }
      ClashIsUniqueViolation(Abs(), cohorts, c, cohort);
      clash := index !in cohorts && exists d :: d in cohorts && cohorts[d] == cohort;
    }

    method InsertTasks(c: CreateIntent)
      modifies this`tasks
      ensures tasks == old(tasks) + NewTasks(c, |c.tasks|)
    {
      assert tasks == old(tasks) + NewTasks(c, 0);
      for i := 0 to |c.tasks|
        invariant tasks == old(tasks) + NewTasks(c, i)
      {
        var t := c.tasks[i];
        var k := TaskKey(c.runId, t.taskId, t.candidateId);
        tasks := tasks[k := RunTask(k, t.candidateHash, c.plan.planId, c.planDigest, TaskState.Queued, None)];
        assert tasks == old(tasks) + NewTasks(c, i + 1);
      }
    }

    /** Two bulk updates instead of a loop over the run's tasks. */
    method TransitionRun(command: Command, key: string, runId: string, now: Time) returns (r: DbOutcome<EvalRun>)
      requires Valid() && !command.CreateCommand?
      modifies this
      ensures Valid()
      ensures !r.ConstraintViolated?
      ensures Step(Abs(), if r.Done? then Ok(r.value) else Err(r.error)) ==
              ControlState.TransitionRun(old(Abs()), command, key, runId, now)
    {
      hide Inv, CohortIndex, CancelledAttempts, CancelledTasks, ResumedTasks;
      ghost var s := Abs();
      TransitionRunKeeps(s, command, key, runId, now);
      var digest := contentHash(TransitionContent(command, runId));
      if key in receipts {
        var receipt := receipts[key];
        if receipt.command != command || receipt.intentDigest != digest { return Refused(IdempotencyConflict); }
        ReceiptRunExists(s, key);
        return Done(runs[receipt.resourceId]);
      }
      if runId !in runs { return Refused(Unknown); }
      var run := runs[runId];
      var target;
      if command.CancelCommand? {
        if run.state.Completed? { return Refused(InvalidTransition); }
        CancelRows(runId);
        target := RunState.Cancelled;
      } else {
        if !run.state.Cancelled? { return Refused(InvalidTransition); }
        RequeueRows(runId);
        target := RunState.Pending;
      }
      var updated := run.(state := target, updatedAt := now);
      IndexAfterUpdate(runs, cohorts, runId, updated);
      runs := runs[runId := updated];
      receipts := receipts[key := CommandReceipt(key, command, digest, runId, now)];
      r := Done(updated);
    }

    /** UPDATE of every active lease of the run, then of every unfinished task. */
    method CancelRows(runId: string)
      requires Valid()
      modifies this`tasks, this`leases
      ensures tasks == CancelledTasks(old(Abs()), runId) && leases == CancelledAttempts(old(Abs()), runId)
    {
      hide Inv, CancelledAttempts;
      BulkCancelIsLoop(Abs(), runId);
      leases := map a | a in leases ::
        if leases[a].task.run == runId && leases[a].state.Active? then leases[a].(state := LeaseState.Cancelled)
        else leases[a];
      tasks := map k | k in tasks ::
        if k.run == runId && !tasks[k].state.Completed? then tasks[k].(state := TaskState.Cancelled) else tasks[k];
    }

    method RequeueRows(runId: string)
      modifies this`tasks
      ensures tasks == ResumedTasks(old(Abs()), runId)
    {
      tasks := map k | k in tasks ::
        if k.run == runId && !tasks[k].state.Completed? then tasks[k].(state := TaskState.Queued, current := None)
        else tasks[k];
    }

    /** Refuses a used attempt ID before it looks for work; otherwise it is the reference claim. */
    method ClaimTask(runId: string, worker: string, attempt: string, token: string, lease: Time, now: Time)
      returns (r: DbOutcome<Option<AttemptLease>>)
      requires Valid()
      modifies this
      ensures Valid()
      ensures !r.ConstraintViolated?
      ensures r.Done? ==> Step(Abs(), Ok(r.value)) ==
                          ControlState.ClaimTask(old(Abs()), runId, worker, attempt, token, lease, now)
      ensures !r.Done? ==> Abs() == old(Abs())
      ensures ControlState.ClaimTask(old(Abs()), runId, worker, attempt, token, lease, now).outcome.Ok? ==>
                (r.Done? <==> attempt !in old(leases))
    {
      hide Inv, CohortIndex, KeyLeq, TotalOrder;
      ghost var s := Abs();
      ClaimKeeps(s, runId, worker, attempt, token, lease, now);
      if lease <= 0 { return Refused(InvalidArgument); }
      if runId !in runs { return Refused(Unknown); }
      var run := runs[runId];
      if run.plan !in plans { return Refused(Unknown); }
      if !run.state.Pending? && !run.state.Running? { return Refused(InvalidTransition); }
      if !plans[run.plan].state.Frozen? { return Refused(PlanNotSchedulable); }
      if attempt in leases { return Refused(IdempotencyConflict); }
      var queued := set k | k in tasks && k.run == runId && tasks[k].state.Queued?;
      if queued == {} { return Done(None); }
      KeyOrder();
      var k := Least(queued, KeyLeq);
      var task := tasks[k];
      var granted := AttemptLease(attempt, k, task.planId, task.planDigest, worker, token,
                                  LeaseState.Active, now, now, now + lease);
      leases := leases[attempt := granted];
      tasks := tasks[k := task.(state := TaskState.Leased, current := Some(attempt))];
      IndexAfterUpdate(runs, cohorts, runId, run.(state := RunState.Running, updatedAt := now));
      runs := runs[runId := run.(state := RunState.Running, updatedAt := now)];
      r := Done(Some(granted));
    }

    /** The join of overdue active leases with runs in progress. */
    method OverdueRows(now: Time) returns (rows: set<string>)
      requires Valid()
      ensures rows == DueAttempts(Abs(), now)
    {
      hide Inv, CohortIndex;
      RowsAreExactlyOverdue(Abs(), now);
      rows := set a | a in leases && leases[a].state.Active? && leases[a].expiresAt <= now
                      && leases[a].task.run in runs
                      && (runs[leases[a].task.run].state.Pending? || runs[leases[a].task.run].state.Running?);
    }

    /** Selects overdue leases of runs in progress only, and counts updated task rows. */
    method ReclaimExpired(now: Time) returns (reclaimed: nat)
      requires Valid()
      modifies this
      ensures Valid()
      ensures Abs() == ControlState.ReclaimExpired(old(Abs()), now).state
      ensures Ok(reclaimed) == ControlState.ReclaimExpired(old(Abs()), now).outcome
    {
      hide Inv, CohortIndex, ReclaimedTasks, ReclaimedLeases, RequeuedBy, DueAttempts, ControlState.ReclaimExpired;
      ghost var s := Abs();
      ReclaimKeeps(s, now);
      var rows := OverdueRows(now);
      ghost var selected := rows;
      assert selected - rows == {};
      reclaimed := 0;
      ReclaimBegins(s);
      while rows != {}
        invariant rows <= selected == DueAttempts(s, now)
        invariant Abs() == s.(tasks := tasks, attempts := leases) && cohorts == old(cohorts)
        invariant tasks == ReclaimedTasks(s, selected - rows) && leases == ReclaimedLeases(s, selected - rows)
        invariant reclaimed == |RequeuedBy(s, selected - rows)|
      {
        var a :| a in rows;
        ReclaimRow(s, now, selected - rows, a);
        assert selected - (rows - {a}) == (selected - rows) + {a};
        var row := leases[a];
        leases := leases[a := row.(state := LeaseState.Expired)];
        var k := row.task;
        if k in tasks && tasks[k].current == Some(a) && tasks[k].state.Leased? {
          tasks := tasks[k := tasks[k].(state := TaskState.Queued, current := None)];
          reclaimed := reclaimed + 1;
        }
        rows := rows - {a};
      }
      assert selected - rows == selected;
      ReclaimEnds(s, now);
    }

    /** The primary key and the UNIQUE attempt of `final_results` are checked on insert and never fire. */
    method CommitResult(attempt: string, worker: string, token: string, digest: Sha256, payload: Payload,
                        domain: Option<FailureDomain>, now: Time) returns (r: DbOutcome<CommitOutcome>)
      requires Valid()
      modifies this
      ensures Valid()
      ensures !r.ConstraintViolated?
      ensures Step(Abs(), if r.Done? then Ok(r.value) else Err(r.error)) ==
              ControlState.CommitResult(old(Abs()), attempt, worker, token, digest, payload, domain, now)
    {
      hide Inv, CohortIndex, AllDone;
      ghost var s := Abs();
      CommitKeeps(s, attempt, worker, token, digest, payload, domain, now);
      if attempt !in leases { return Refused(LeaseConflict); }
      var held := leases[attempt];
      var key := ResultKey(held.task, held.planDigest);
      if held.state.Completed? && key in results {
        var existing := results[key];
        if existing.attemptId == attempt && existing.digest == digest && existing.payload == payload
           && existing.domain == domain {
          return Done(CommitOutcome(existing, false));
        }
        return Refused(FinalResultConflict);
      }
      LookupsSucceed(s, attempt);
      var task := tasks[held.task];
      if !held.state.Active? || task.current != Some(attempt) { return Refused(LateAttempt); }
      if held.worker != worker || held.token != token { return Refused(LeaseConflict); }
      if held.expiresAt <= now { return Refused(LateAttempt); }
      if key in results { return Refused(FinalResultConflict); }
      ResultRowIsNew(s, attempt);
      if key in results || exists rk :: rk in results && results[rk].attemptId == attempt { return ConstraintViolated; }
      var result := FinalResult(key, held.planId, attempt, digest, payload, domain, now);
      results := results[key := result];
      leases := leases[attempt := held.(state := LeaseState.Completed)];
      tasks := tasks[held.task := task.(state := TaskState.Completed)];
      if AllDone(tasks, held.task.run) {
        var run := runs[held.task.run].(state := RunState.Completed, updatedAt := now);
        IndexAfterUpdate(runs, cohorts, held.task.run, run);
        runs := runs[held.task.run := run];
      }
      r := Done(CommitOutcome(result, true));
    }
  }

  // ----- receipts and lookups -----

  lemma ReceiptRunExists(s: State, key: string)
    requires key in s.commands
    requires Inv(s)
    ensures s.commands[key].resourceId in s.runs
  {
    hide RunsOk, TasksOk, AttemptsOk, ResultsOk, CohortsOk, PlansOk;
    assert ReceiptOk(s.hash, s.runs.Keys, s.commands[key]);
  }

  /** No receipt stands for an intent without tasks, so testing the tasks first loses nothing. */
  lemma EmptyIntentHasNoReceipt(s: State, key: string, c: CreateIntent)
    requires c.tasks == [] || !DistinctIdentities(c.tasks)
    requires Inv(s)
    ensures key in s.commands ==> s.commands[key].command != Command.CreateCommand
                                  || s.commands[key].intentDigest != s.hash(CreateContent(c))
  {
    hide RunsOk, TasksOk, AttemptsOk, ResultsOk, CohortsOk, PlansOk;
    if key in s.commands {
      assert ReceiptOk(s.hash, s.runs.Keys, s.commands[key]);
    }
  }

  lemma ResultRowIsNew(s: State, a: string)
    requires a in s.attempts && s.attempts[a].state.Active?
    requires Inv(s)
    ensures ResultKey(s.attempts[a].task, s.attempts[a].planDigest) !in s.results
    ensures forall rk :: rk in s.results ==> s.results[rk].attemptId != a
  {
    hide RunsOk, TasksOk, AttemptsOk, CohortsOk, ReceiptsOk, PlansOk;
    AttemptIsOk(s, a);
    TaskIsOk(s, s.attempts[a].task);
    forall rk | rk in s.results ensures s.results[rk].attemptId != a {
      assert ResultOk(s.tasks, rk, s.results[rk]);
      TaskIsOk(s, rk.task);
    }
  }

  // ----- the cohort index -----

  lemma RunOfRow(runs: Runs, cohorts: map<CohortKey, string>, c: CohortKey) returns (r: string)
    requires CohortIndex(runs, cohorts) && c in cohorts
    ensures r in runs && IndexKey(runs[r]) == c && cohorts[c] == runs[r].cohortId
  {
    hide UniqueCohortIds;
    r :| r in runs && IndexKey(runs[r]) == c;
  }

  lemma RowOfRun(runs: Runs, cohorts: map<CohortKey, string>, r: string)
    requires CohortIndex(runs, cohorts) && r in runs
    ensures IndexKey(runs[r]) in cohorts && cohorts[IndexKey(runs[r])] == runs[r].cohortId
  {
    hide UniqueCohortIds, EveryRowUsed;
  }

  /** Reading the index gives what scanning the runs gives. */
  lemma CohortRowIsAnswer(s: State, cohorts: map<CohortKey, string>, c: CohortKey)
    requires CohortIndex(s.runs, cohorts)
    ensures CohortFor(s, c.requested, c.digest) ==
              if c in cohorts then cohorts[c]
              else if exists d :: d in cohorts && d.requested == c.requested then c.requested + "~" + Prefix12(c.digest)
              else c.requested
  {
    hide CohortIndex;
    forall r | r in s.runs ensures IndexKey(s.runs[r]) in cohorts && cohorts[IndexKey(s.runs[r])] == s.runs[r].cohortId {
      RowOfRun(s.runs, cohorts, r);
    }
    if c in cohorts {
      var r := RunOfRow(s.runs, cohorts, c);
      assert SamePlan(s, r, c.requested, c.digest);
    } else if d :| d in cohorts && d.requested == c.requested {
      var r := RunOfRow(s.runs, cohorts, d);
      assert Related(s, r, c.requested);
    }
  }

  /** The UNIQUE column rejects exactly the cohort clashes. */
  lemma ClashIsUniqueViolation(s: State, cohorts: map<CohortKey, string>, c: CreateIntent, cohort: string)
    requires CohortIndex(s.runs, cohorts)
    requires cohort == CohortFor(s, c.requestedCohort, c.planDigest)
    requires var index := CohortKey(c.requestedCohort, c.planDigest); index in cohorts ==> cohorts[index] == cohort
    ensures CohortClash(s, c) <==>
              && CohortKey(c.requestedCohort, c.planDigest) !in cohorts
              && exists d :: d in cohorts && cohorts[d] == cohort
  {
    hide CohortFor, EveryRunIndexed, EveryRowUsed;
    var index := CohortKey(c.requestedCohort, c.planDigest);
    if r :| r in s.runs && s.runs[r].cohortId == cohort && IndexKey(s.runs[r]) != index {
      RowOfRun(s.runs, cohorts, r);
    }
    if d :| index !in cohorts && d in cohorts && cohorts[d] == cohort {
      var r := RunOfRow(s.runs, cohorts, d);
    }
  }

  lemma KeyOfRun(run: EvalRun)
    ensures IndexKey(run) == CohortKey(run.requestedCohort, run.planDigest)
  {}

  lemma IndexAfterInsert(runs: Runs, cohorts: map<CohortKey, string>, run: EvalRun)
    requires CohortIndex(runs, cohorts) && run.runId !in runs
    requires if IndexKey(run) in cohorts then cohorts[IndexKey(run)] == run.cohortId
             else forall d :: d in cohorts ==> cohorts[d] != run.cohortId
    ensures CohortIndex(runs[run.runId := run], cohorts[IndexKey(run) := run.cohortId])
  {
    var runs' := runs[run.runId := run];
    var cohorts' := cohorts[IndexKey(run) := run.cohortId];
    assert UniqueCohortIds(cohorts') by { hide EveryRunIndexed, EveryRowUsed; }
    hide UniqueCohortIds, EveryRunIndexed, EveryRowUsed;
    forall r | r in runs' ensures IndexKey(runs'[r]) in cohorts' && cohorts'[IndexKey(runs'[r])] == runs'[r].cohortId {
      if r in runs { RowOfRun(runs, cohorts, r); }
    }
    forall c | c in cohorts' ensures exists r :: r in runs' && IndexKey(runs'[r]) == c {
      if c == IndexKey(run) {
        assert IndexKey(runs'[run.runId]) == c;
      } else {
        var r := RunOfRow(runs, cohorts, c);
        assert runs'[r] == runs[r];
      }
    }
    IndexFrom(runs', cohorts');
  }

  lemma IndexFrom(runs: Runs, cohorts: map<CohortKey, string>)
    requires UniqueCohortIds(cohorts)
    requires forall r | r in runs :: IndexKey(runs[r]) in cohorts && cohorts[IndexKey(runs[r])] == runs[r].cohortId
    requires forall c | c in cohorts :: exists r :: r in runs && IndexKey(runs[r]) == c
    ensures CohortIndex(runs, cohorts)
  {
    hide UniqueCohortIds;
    assert EveryRowUsed(runs, cohorts) by { hide EveryRunIndexed; }
  }

  lemma IndexAfterUpdate(runs: Runs, cohorts: map<CohortKey, string>, r: string, run: EvalRun)
    requires CohortIndex(runs, cohorts) && r in runs && SameRun(runs[r], run)
    ensures CohortIndex(runs[r := run], cohorts)
  {
    var runs' := runs[r := run];
    hide UniqueCohortIds, EveryRunIndexed, EveryRowUsed;
    forall x | x in runs' ensures IndexKey(runs'[x]) in cohorts && cohorts[IndexKey(runs'[x])] == runs'[x].cohortId {
      RowOfRun(runs, cohorts, x);
    }
    forall c | c in cohorts ensures exists x :: x in runs' && IndexKey(runs'[x]) == c {
      var x := RunOfRow(runs, cohorts, c);
      assert IndexKey(runs'[x]) == c;
    }
    IndexFrom(runs', cohorts);
  }

  // ----- reclaim over the selected rows -----

  ghost function RequeuedBy(s: State, done: set<string>): set<TaskKey> {
    set k | k in s.tasks && s.tasks[k].state.Leased? && s.tasks[k].current.Some? && s.tasks[k].current.value in done
  }

  ghost function ReclaimedTasks(s: State, done: set<string>): Tasks {
    map k | k in s.tasks ::
      if k in RequeuedBy(s, done) then s.tasks[k].(state := TaskState.Queued, current := None) else s.tasks[k]
  }

  ghost function ReclaimedLeases(s: State, done: set<string>): Attempts {
    map a | a in s.attempts :: if a in done then s.attempts[a].(state := LeaseState.Expired) else s.attempts[a]
  }

  /** An overdue active attempt always belongs to a run in progress, so the filter drops none. */
  lemma RowsAreExactlyOverdue(s: State, now: Time)
    requires Inv(s)
    ensures forall a :: a in DueAttempts(s, now) ==>
      && s.attempts[a].task.run in s.runs
      && (s.runs[s.attempts[a].task.run].state.Pending? || s.runs[s.attempts[a].task.run].state.Running?)
  {
    hide RunsOk, TasksOk, AttemptsOk, ResultsOk, CohortsOk, ReceiptsOk, PlansOk;
    forall a | a in DueAttempts(s, now)
      ensures s.attempts[a].task.run in s.runs && s.runs[s.attempts[a].task.run].state.Running?
    {
      AttemptIsOk(s, a);
      TaskIsOk(s, s.attempts[a].task);
    }
  }

  lemma ReclaimBegins(s: State)
    ensures ReclaimedTasks(s, {}) == s.tasks && ReclaimedLeases(s, {}) == s.attempts && RequeuedBy(s, {}) == {}
  {}

  /** Only its own task names an active attempt. */
  lemma OnlyItsTaskNamesIt(s: State, a: string)
    requires a in s.attempts && s.attempts[a].state.Active?
    requires Inv(s)
    ensures var k := s.attempts[a].task; k in s.tasks && s.tasks[k].state.Leased? && s.tasks[k].current == Some(a)
    ensures forall x :: x in s.tasks && s.tasks[x].state.Leased? && s.tasks[x].current == Some(a) ==> x == s.attempts[a].task
  {
    hide RunsOk, TasksOk, AttemptsOk, ResultsOk, CohortsOk, ReceiptsOk, PlansOk;
    AttemptIsOk(s, a);
    forall x | x in s.tasks && s.tasks[x].state.Leased? && s.tasks[x].current == Some(a) ensures x == s.attempts[a].task {
      TaskIsOk(s, x);
    }
  }

  ghost predicate ReclaimsRow(s: State, done: set<string>, a: string, k: TaskKey) {
    && k in s.tasks && k in ReclaimedTasks(s, done) && ReclaimedTasks(s, done)[k] == s.tasks[k]
    && a in s.attempts && a in ReclaimedLeases(s, done) && ReclaimedLeases(s, done)[a] == s.attempts[a]
    && s.tasks[k].current == Some(a) && s.tasks[k].state.Leased?
    && RequeuedBy(s, done + {a}) == RequeuedBy(s, done) + {k} && k !in RequeuedBy(s, done)
    && ReclaimedTasks(s, done + {a}) ==
         ReclaimedTasks(s, done)[k := s.tasks[k].(state := TaskState.Queued, current := None)]
    && ReclaimedLeases(s, done + {a}) ==
         ReclaimedLeases(s, done)[a := s.attempts[a].(state := LeaseState.Expired)]
  }

  lemma ReclaimRow(s: State, now: Time, done: set<string>, a: string)
    requires a in DueAttempts(s, now) && a !in done
    requires Inv(s)
    ensures ReclaimsRow(s, done, a, s.attempts[a].task)
  {
    hide Inv;
    OnlyItsTaskNamesIt(s, a);
    assert RequeuedBy(s, done + {a}) == RequeuedBy(s, done) + {s.attempts[a].task};
  }

  lemma RequeuesIff(s: State, now: Time, k: TaskKey)
    requires k in s.tasks
    requires Inv(s)
    ensures Requeues(s, k, now) <==> k in RequeuedBy(s, DueAttempts(s, now))
  {
    hide RunsOk, TasksOk, AttemptsOk, ResultsOk, CohortsOk, ReceiptsOk, PlansOk;
    TaskIsOk(s, k);
  }

  lemma ReclaimEnds(s: State, now: Time)
    requires Inv(s)
    ensures var t := ControlState.ReclaimExpired(s, now); var due := DueAttempts(s, now);
            && t.outcome == Ok(|RequeuedBy(s, due)|)
            && t.state == s.(tasks := ReclaimedTasks(s, due), attempts := ReclaimedLeases(s, due))
  {
    hide Inv;
    var due := DueAttempts(s, now);
    forall k | k in s.tasks ensures Requeues(s, k, now) <==> k in RequeuedBy(s, due) { RequeuesIff(s, now, k); }
    hide Requeues, RequeuedBy;
    assert RequeuedKeys(s, now) == RequeuedBy(s, due) by { RequeuedInTasks(s, due); }
    assert ReclaimedTasks(s, due) == ControlState.ReclaimExpired(s, now).state.tasks;
    assert ReclaimedLeases(s, due) == ControlState.ReclaimExpired(s, now).state.attempts;
  }

  lemma RequeuedInTasks(s: State, done: set<string>)
    ensures RequeuedBy(s, done) <= s.tasks.Keys
  {}
}
