/** What the control plane promises, for every history of every interleaving of clients. */
module ControlTheorems {
  import opened Records
  import opened Ordering
  import opened ControlState
  import opened ControlInvariant
  import opened ControlHistory

  ghost function Reached(hash: Content -> Sha256, es: seq<Event>): State {
    Run(Empty(hash), es)
  }

  lemma ReachedInv(hash: Content -> Sha256, es: seq<Event>)
    requires Injective(hash)
    ensures Inv(Reached(hash, es))
  {
    hide Inv, Run;
    EmptyInv(hash);
    RunKeeps(Empty(hash), es);
  }

  // ----- the joint invariant, read off -----

  /** Active attempts and leased tasks name each other, one to one, and only in running runs. */
  ghost predicate LeasesAgree(s: State) {
    && (forall a :: a in s.attempts && s.attempts[a].state.Active? ==>
          var k := s.attempts[a].task;
          k in s.tasks && s.tasks[k].state.Leased? && s.tasks[k].current == Some(a))
    && (forall k :: k in s.tasks && s.tasks[k].state.Leased? ==>
          && s.tasks[k].current.Some? && s.tasks[k].current.value in s.attempts
          && s.attempts[s.tasks[k].current.value].state.Active?
          && s.attempts[s.tasks[k].current.value].task == k
          && k.run in s.runs && s.runs[k.run].state.Running?)
    && (forall a, b | a in s.attempts && b in s.attempts && s.attempts[a].task == s.attempts[b].task ::
          s.attempts[a].state.Active? && s.attempts[b].state.Active? ==> a == b)
  }

  ghost predicate TaskStatesAgree(s: State) {
    forall k :: k in s.tasks ==>
      && k.run in s.runs
      && (s.tasks[k].state.Queued? ==>
            && s.tasks[k].current.None? && ResultKey(k, s.tasks[k].planDigest) !in s.results
            && (s.runs[k.run].state.Pending? || s.runs[k.run].state.Running?))
      && (s.tasks[k].state.Cancelled? ==> s.runs[k.run].state.Cancelled?)
      && (s.tasks[k].state.Completed? <==>
            && ResultKey(k, s.tasks[k].planDigest) in s.results
            && s.tasks[k].current == Some(s.results[ResultKey(k, s.tasks[k].planDigest)].attemptId)
            && s.tasks[k].current.value in s.attempts
            && s.attempts[s.tasks[k].current.value].state.Completed?)
  }

  ghost predicate RunsFinishExactly(s: State) {
    forall r :: r in s.runs ==>
      && (exists k :: k in s.tasks && k.run == r)
      && (s.runs[r].state.Completed? <==> forall k :: k in s.tasks && k.run == r ==> s.tasks[k].state.Completed?)
  }

  lemma LeasesAgreeIn(s: State)
    requires Inv(s)
    ensures LeasesAgree(s)
  {
    hide RunsOk, TasksOk, AttemptsOk, ResultsOk, CohortsOk, ReceiptsOk, PlansOk;
    forall a | a in s.attempts ensures AttemptOk(s.tasks, a, s.attempts[a]) { AttemptIsOk(s, a); }
    forall k | k in s.tasks ensures k.run in s.runs && TaskOk(s.runs[k.run], s.attempts, s.results, k, s.tasks[k]) {
      TaskIsOk(s, k);
    }
  }

  lemma TaskStatesAgreeIn(s: State)
    requires Inv(s)
    ensures TaskStatesAgree(s)
  {
    hide RunsOk, TasksOk, AttemptsOk, ResultsOk, CohortsOk, ReceiptsOk, PlansOk;
    forall k | k in s.tasks ensures k.run in s.runs && TaskOk(s.runs[k.run], s.attempts, s.results, k, s.tasks[k]) {
      TaskIsOk(s, k);
    }
    forall rk | rk in s.results ensures ResultOk(s.tasks, rk, s.results[rk]) { ResultIsOk(s, rk); }
  }

  lemma RunsFinishExactlyIn(s: State)
    requires Inv(s)
    ensures RunsFinishExactly(s)
  {
    hide RunsOk, TasksOk, AttemptsOk, ResultsOk, CohortsOk, ReceiptsOk, PlansOk;
    forall r | r in s.runs
      ensures exists k :: k in s.tasks && k.run == r
      ensures s.runs[r].state.Completed? <==> forall k :: k in s.tasks && k.run == r ==> s.tasks[k].state.Completed?
    {
      RunIsOk(s, r);
      forall k | k in s.tasks && k.run == r && s.runs[r].state.Completed? ensures s.tasks[k].state.Completed? {
        TaskIsOk(s, k);
      }
    }
  }

  lemma ReachableStatesAgree(hash: Content -> Sha256, es: seq<Event>)
    requires Injective(hash)
    ensures LeasesAgree(Reached(hash, es)) && TaskStatesAgree(Reached(hash, es)) && RunsFinishExactly(Reached(hash, es))
  {
    hide *;
    ReachedInv(hash, es);
    LeasesAgreeIn(Reached(hash, es));
    TaskStatesAgreeIn(Reached(hash, es));
    RunsFinishExactlyIn(Reached(hash, es));
  }

  // ----- effectively-once commit -----

  ghost function CommitOf(s: State, e: Event): Step<CommitOutcome>
    requires e.Commit?
  {
    CommitResult(s, e.attempt, e.worker, e.token, e.digest, e.payload, e.domain, e.now)
  }

  /** The event stores a new result: the outcome says `inserted`. */
  ghost predicate Inserts(s: State, e: Event) {
    e.Commit? && CommitOf(s, e).outcome.Ok? && CommitOf(s, e).outcome.value.inserted
  }

  ghost function InsertedKey(s: State, e: Event): ResultKey
    requires Inserts(s, e)
  {
    CommitOf(s, e).outcome.value.result.key
  }

  lemma CreateStoresNothing(s: State, key: string, c: CreateIntent, now: Time)
    ensures CreateRun(s, key, c, now).state.results == s.results
  {
    hide CohortFor, NewTasks;
  }

  lemma TransitionStoresNothing(s: State, command: Command, key: string, r: string, now: Time)
    requires !command.CreateCommand?
    ensures TransitionRun(s, command, key, r, now).state.results == s.results
  {
    hide CancelledTasks, CancelledAttempts, ResumedTasks;
  }

  lemma CommandsStoreNothing(s: State, e: Event)
    requires e.Create? || e.Cancel? || e.Resume? || e.Replay?
    ensures Next(s, e).results == s.results
  {
    hide CreateRun, TransitionRun, ReplayIntent;
    match e
    case Create(key, c, now) => CreateStoresNothing(s, key, c, now);
    case Cancel(key, r, now) => TransitionStoresNothing(s, Command.CancelCommand, key, r, now);
    case Resume(key, r, now) => TransitionStoresNothing(s, Command.ResumeCommand, key, r, now);
    case Replay(key, src, id, now) =>
      if src in s.runs { CreateStoresNothing(s, key, ReplayIntent(s, src, id), now); }
  }

  lemma OnlyInsertionsStore(s: State, e: Event)
    ensures if Inserts(s, e) then
              && InsertedKey(s, e) !in s.results
              && Next(s, e).results == s.results[InsertedKey(s, e) := CommitOf(s, e).outcome.value.result]
            else Next(s, e).results == s.results
  {
    if e.Create? || e.Cancel? || e.Resume? || e.Replay? {
      hide CreateRun, TransitionRun, ReplayRun, Next;
      CommandsStoreNothing(s, e);
    }
  }

  ghost function Insertions(s: State, es: seq<Event>): nat
    decreases |es|
  {
    if es == [] then 0 else (if Inserts(s, es[0]) then 1 else 0) + Insertions(Next(s, es[0]), es[1..])
  }

  ghost function InsertionsFor(s: State, es: seq<Event>, rk: ResultKey): nat
    decreases |es|
  {
    if es == [] then 0
    else (if Inserts(s, es[0]) && InsertedKey(s, es[0]) == rk then 1 else 0)
         + InsertionsFor(Next(s, es[0]), es[1..], rk)
  }

  /** Inserted outcomes are counted exactly by the stored results. */
  lemma {:induction false} InsertionsAreResults(s: State, es: seq<Event>)
    ensures |Run(s, es).results| == |s.results| + Insertions(s, es)
    decreases |es|
  {
    hide Next, Inserts;
    if es != [] {
      OnlyInsertionsStore(s, es[0]);
      InsertionsAreResults(Next(s, es[0]), es[1..]);
    }
  }

  /** A task/candidate/plan sees an inserted outcome at most once, and only when it had no result. */
  lemma {:induction false} InsertedOncePerKey(s: State, es: seq<Event>, rk: ResultKey)
    ensures InsertionsFor(s, es, rk) == (if rk in Run(s, es).results && rk !in s.results then 1 else 0)
    ensures rk in s.results ==> rk in Run(s, es).results
    decreases |es|
  {
    hide Next, Inserts, InsertedKey;
    if es != [] {
      OnlyInsertionsStore(s, es[0]);
      InsertedOncePerKey(Next(s, es[0]), es[1..], rk);
    }
  }

  ghost predicate HasResult(s: State, k: TaskKey) {
    exists rk :: rk in s.results && rk.task == k
  }

  ghost function InsertionsForTask(s: State, es: seq<Event>, k: TaskKey): nat
    decreases |es|
  {
    if es == [] then 0
    else (if Inserts(s, es[0]) && InsertedKey(s, es[0]).task == k then 1 else 0)
         + InsertionsForTask(Next(s, es[0]), es[1..], k)
  }

  lemma OneResultKeyPerTask(s: State, rk: ResultKey, rl: ResultKey)
    requires rk in s.results && rl in s.results && rk.task == rl.task
    requires Inv(s)
    ensures rk == rl
  {
    hide RunsOk, TasksOk, AttemptsOk, ResultsOk, CohortsOk, ReceiptsOk, PlansOk;
    ResultIsOk(s, rk);
    ResultIsOk(s, rl);
  }

  lemma InsertionIsFirst(s: State, e: Event, k: TaskKey)
    requires Inv(s)
    ensures Inv(Next(s, e))
    ensures HasResult(Next(s, e), k) <==> HasResult(s, k) || (Inserts(s, e) && InsertedKey(s, e).task == k)
    ensures Inserts(s, e) ==> !HasResult(s, InsertedKey(s, e).task)
  {
    hide Inv, Next, Inserts, InsertedKey;
    NextKeeps(s, e);
    OnlyInsertionsStore(s, e);
    if Inserts(s, e) {
      var rk := InsertedKey(s, e);
      assert rk in Next(s, e).results;
      if rl :| rl in s.results && rl.task == rk.task { OneResultKeyPerTask(Next(s, e), rk, rl); }
    }
    if rk :| rk in s.results && rk.task == k { assert rk in Next(s, e).results; }
  }

  /** A run, task and candidate sees an inserted outcome at most once, whatever the plan digest: exactly
      when it has no result before and one after. */
  lemma {:induction false} InsertedOncePerTask(s: State, es: seq<Event>, k: TaskKey)
    requires Inv(s)
    ensures InsertionsForTask(s, es, k) == (if HasResult(Run(s, es), k) && !HasResult(s, k) then 1 else 0)
    ensures HasResult(s, k) ==> HasResult(Run(s, es), k)
    decreases |es|
  {
    hide Inv, Next, Inserts, InsertedKey, HasResult;
    if es != [] {
      InsertionIsFirst(s, es[0], k);
      InsertedOncePerTask(Next(s, es[0]), es[1..], k);
    }
  }

  predicate SameAttempt(s: State, t: State, a: string) {
    a in s.attempts && a in t.attempts && t.attempts[a] == s.attempts[a]
  }

  /** An attempt that has ended never stores a result again, whatever happens in between. */
  lemma EndedAttemptNeverStores(s: State, es: seq<Event>, e: Event)
    requires e.Commit? && e.attempt in s.attempts && !s.attempts[e.attempt].state.Active?
    requires Inv(s)
    ensures !Inserts(Run(s, es), e)
    ensures SameAttempt(s, Run(s, es), e.attempt)
  {
    hide Inv, Run, TasksKept, PlansForward, RunsKept;
    RunEvolves(s, es);
  }

  /** In a state that satisfies the invariant, a live attempt has no stored result to collide
      with, and no internal lookup of a commit is missing. */
  lemma LiveAttemptNeverConflicts(s: State, e: Event)
    requires Inv(s) && e.Commit?
    ensures CommitOf(s, e).outcome == Err(FinalResultConflict) ==> s.attempts[e.attempt].state.Completed?
    ensures CommitOf(s, e).outcome != Err(MissingRow)
    ensures CommitOf(s, e).outcome != Err(Unknown)
  {
    hide RunsOk, TasksOk, AttemptsOk, ResultsOk, CohortsOk, ReceiptsOk, PlansOk;
    if e.attempt in s.attempts {
      AttemptIsOk(s, e.attempt);
      TaskIsOk(s, s.attempts[e.attempt].task);
    }
  }

  /** The result `stored` answers the commit `e` and nothing is written. */
  ghost predicate AnsweredBy(s: State, e: Event, stored: FinalResult) {
    && e.Commit?
    && Next(s, e) == s
    && CommitOf(s, e).outcome ==
         if e.digest == stored.digest && e.payload == stored.payload && e.domain == stored.domain
         then Ok(CommitOutcome(stored, false)) else Err(FinalResultConflict)
  }

  lemma StoredResultAnswers(s: State, e: Event)
    requires e.Commit? && e.attempt in s.attempts && s.attempts[e.attempt].state.Completed?
    requires var rk := ResultKey(s.attempts[e.attempt].task, s.attempts[e.attempt].planDigest);
             rk in s.results && s.results[rk].attemptId == e.attempt
    ensures AnsweredBy(s, e, s.results[ResultKey(s.attempts[e.attempt].task, s.attempts[e.attempt].planDigest)])
  {}

  ghost predicate StoredAs(s: State, a: string, stored: FinalResult) {
    && a in s.attempts && s.attempts[a].state.Completed?
    && stored.key == ResultKey(s.attempts[a].task, s.attempts[a].planDigest)
    && stored.key in s.results && s.results[stored.key] == stored && stored.attemptId == a
  }

  lemma InsertionStores(s: State, e: Event)
    requires Inserts(s, e)
    ensures var stored := CommitOf(s, e).outcome.value.result;
            && StoredAs(Next(s, e), e.attempt, stored)
            && stored.digest == e.digest && stored.payload == e.payload && stored.domain == e.domain
  {
    hide AllDone;
  }

  lemma StaysStored(s: State, t: State, a: string, stored: FinalResult)
    requires StoredAs(s, a, stored) && Evolves(s, t)
    ensures StoredAs(t, a, stored)
  {
    hide TasksKept, PlansForward, RunsKept;
  }

  /** Once stored, a result answers every later commit of its attempt: the same content by anyone
      returns it unchanged, any other content is refused, and nothing is written. */
  lemma CommitIsIdempotent(s: State, first: Event, es: seq<Event>, again: Event)
    requires Inserts(s, first) && again.Commit? && again.attempt == first.attempt
    requires Inv(s)
    ensures AnsweredBy(Run(Next(s, first), es), again, CommitOf(s, first).outcome.value.result)
    ensures var stored := CommitOf(s, first).outcome.value.result;
            stored.digest == first.digest && stored.payload == first.payload && stored.domain == first.domain
  {
    hide Inv, Run, Next, Evolves, AnsweredBy;
    var s1 := Next(s, first);
    NextKeeps(s, first);
    RunEvolves(s1, es);
    InsertionStores(s, first);
    StaysStored(s1, Run(s1, es), first.attempt, CommitOf(s, first).outcome.value.result);
    StoredResultAnswers(Run(s1, es), again);
  }

  // ----- lease windows -----

  /** The claim or heartbeat `e` grants or renews its lease. */
  ghost predicate Grants(s: State, e: Event) {
    || (e.Claim? && var step := ClaimTask(s, e.runId, e.worker, e.attempt, e.token, e.lease, e.now);
                    step.outcome.Ok? && step.outcome.value.Some?)
    || (e.Beat? && Heartbeat(s, e.attempt, e.worker, e.token, e.lease, e.now).outcome.Ok?)
  }

  ghost predicate ExpiredBy(s: State, a: string, now: Time) {
    && a in s.attempts && a in Next(s, Reclaim(now)).attempts
    && Next(s, Reclaim(now)).attempts[a] == s.attempts[a].(state := LeaseState.Expired)
  }

  /** A granted or renewed lease lets its owner commit exactly before `now + lease`, and a
      reclaim takes it away exactly from that instant on. */
  lemma LeaseWindow(s: State, e: Event, c: Event, later: Time)
    requires Grants(s, e) && c.Commit? && c.attempt == e.attempt
    requires Inv(s)
    ensures Inserts(Next(s, e), c) <==> c.worker == e.worker && c.token == e.token && c.now < e.now + e.lease
    ensures if later < e.now + e.lease then SameAttempt(Next(s, e), Next(Next(s, e), Reclaim(later)), e.attempt)
            else ExpiredBy(Next(s, e), e.attempt, later)
  {
    hide RunsOk, TasksOk, AttemptsOk, ResultsOk, CohortsOk, ReceiptsOk, PlansOk;
    var t := Next(s, e);
    NextKeeps(s, e);
    AttemptIsOk(t, e.attempt);
    TaskIsOk(t, t.attempts[e.attempt].task);
  }

  /** A claim takes the first queued task in (task_id, candidate_id) order. */
  lemma ClaimTakesFirstQueued(s: State, r: string, w: string, a: string, t: string, lease: Time, now: Time)
    requires ClaimTask(s, r, w, a, t, lease, now).outcome.Ok?
    ensures var granted := ClaimTask(s, r, w, a, t, lease, now).outcome.value;
            && (granted.None? <==> QueuedKeys(s, r) == {})
            && (granted.Some? ==>
                  && granted.value.task in QueuedKeys(s, r)
                  && forall k :: k in QueuedKeys(s, r) ==> KeyLeq(granted.value.task, k))
            && QueuedKeys(ClaimTask(s, r, w, a, t, lease, now).state, r) ==
                 QueuedKeys(s, r) - (if granted.Some? then {granted.value.task} else {})
  {
    KeyOrder();
  }

  function TasksOfAttempts(s: State, due: set<string>): set<TaskKey>
    requires due <= s.attempts.Keys
  {
    set a | a in due :: s.attempts[a].task
  }

  ghost predicate Requeued(s: State, t: State, keys: set<TaskKey>) {
    forall k | k in s.tasks ::
      && k in t.tasks
      && t.tasks[k] == if k in keys then s.tasks[k].(state := TaskState.Queued, current := None) else s.tasks[k]
  }

  /** Reclaim counts the overdue active attempts and returns exactly their tasks to the queue. */
  lemma ReclaimIsExact(s: State, now: Time)
    requires Inv(s)
    ensures ReclaimExpired(s, now).outcome == Ok(|DueAttempts(s, now)|)
    ensures Requeued(s, ReclaimExpired(s, now).state, TasksOfAttempts(s, DueAttempts(s, now)))
  {
    hide RunsOk, TasksOk, AttemptsOk, ResultsOk, CohortsOk, ReceiptsOk, PlansOk;
    var due := DueAttempts(s, now);
    forall a | a in due ensures s.attempts[a].task in RequeuedKeys(s, now) {
      AttemptIsOk(s, a);
      TaskIsOk(s, s.attempts[a].task);
    }
    forall k | k in RequeuedKeys(s, now) ensures k in TasksOfAttempts(s, due) {
      assert s.tasks[k].current.value in due;
    }
    forall a, b | a in due && b in due && s.attempts[a].task == s.attempts[b].task ensures a == b {
      AttemptIsOk(s, a);
      AttemptIsOk(s, b);
    }
    assert RequeuedKeys(s, now) == TasksOfAttempts(s, due);
    ImageSize(due, s.attempts, RequeuedKeys(s, now));
  }

  lemma {:induction false} ImageSize(due: set<string>, attempts: Attempts, keys: set<TaskKey>)
    requires forall a :: a in due ==> a in attempts
    requires forall a, b :: a in due && b in due && attempts[a].task == attempts[b].task ==> a == b
    requires keys == set a | a in due :: attempts[a].task
    ensures |keys| == |due|
  {
    if due != {} {
      var a :| a in due;
      var rest := due - {a};
      var k := attempts[a].task;
      assert keys - {k} == set b | b in rest :: attempts[b].task;
      ImageSize(rest, attempts, keys - {k});
    }
  }
}
