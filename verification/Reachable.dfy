/** The main results on the control plane, for every state that any history of any clients reaches
    from the empty control plane. */
module Reachable {
  import opened Records
  import opened ControlState
  import opened ControlInvariant
  import opened ControlHistory
  import opened ControlTheorems
  import C = ControlCommands
  import O = Operations

  /** An attempt that has ended never stores a result again, whatever happens in between. */
  lemma EndedAttemptNeverStores(hash: Content -> Sha256, before: seq<Event>, between: seq<Event>, e: Event)
    requires e.Commit? && e.attempt in Reached(hash, before).attempts
    requires !Reached(hash, before).attempts[e.attempt].state.Active?
    requires Injective(hash)
    ensures !Inserts(Run(Reached(hash, before), between), e)
    ensures SameAttempt(Reached(hash, before), Run(Reached(hash, before), between), e.attempt)
  {
    hide *;
    ReachedInv(hash, before);
    ControlTheorems.EndedAttemptNeverStores(Reached(hash, before), between, e);
  }

  /** Whatever the plan digest, a run, task and candidate sees an inserted outcome at most once, and exactly
      once if it ends with a result it did not have. */
  lemma InsertedOncePerTask(hash: Content -> Sha256, before: seq<Event>, es: seq<Event>, k: TaskKey)
    requires Injective(hash)
    ensures var s := Reached(hash, before);
            InsertionsForTask(s, es, k) == (if HasResult(Run(s, es), k) && !HasResult(s, k) then 1 else 0)
  {
    hide *;
    ReachedInv(hash, before);
    ControlTheorems.InsertedOncePerTask(Reached(hash, before), es, k);
  }

  /** A live attempt has no stored result to collide with, and no internal lookup of a commit is missing. */
  lemma LiveAttemptNeverConflicts(hash: Content -> Sha256, before: seq<Event>, e: Event)
    requires e.Commit?
    requires Injective(hash)
    ensures CommitOf(Reached(hash, before), e).outcome == Err(FinalResultConflict) ==>
              e.attempt in Reached(hash, before).attempts && Reached(hash, before).attempts[e.attempt].state.Completed?
    ensures CommitOf(Reached(hash, before), e).outcome !in {Err(MissingRow), Err(Unknown)}
  {
    hide Inv, Run, Reached, AllDone;
    ReachedInv(hash, before);
    ControlTheorems.LiveAttemptNeverConflicts(Reached(hash, before), e);
  }

  /** Once stored, a result answers every later commit of its attempt: the same content by anyone
      returns it unchanged, any other content is refused, and nothing is written. */
  lemma CommitIsIdempotent(hash: Content -> Sha256, before: seq<Event>, first: Event, between: seq<Event>, again: Event)
    requires Inserts(Reached(hash, before), first) && again.Commit? && again.attempt == first.attempt
    requires Injective(hash)
    ensures var stored := CommitOf(Reached(hash, before), first).outcome.value.result;
            && stored.digest == first.digest && stored.payload == first.payload && stored.domain == first.domain
            && AnsweredBy(Run(Next(Reached(hash, before), first), between), again, stored)
  {
    hide Inv, Run, Reached, Next, AnsweredBy, Evolves, CommitResult;
    ReachedInv(hash, before);
    ControlTheorems.CommitIsIdempotent(Reached(hash, before), first, between, again);
  }

  /** A granted or renewed lease lets its owner commit exactly before `now + lease`, and a
      reclaim takes it away exactly from that instant on. */
  lemma LeaseWindow(hash: Content -> Sha256, before: seq<Event>, e: Event, c: Event, later: Time)
    requires Grants(Reached(hash, before), e) && c.Commit? && c.attempt == e.attempt
    requires Injective(hash)
    ensures var t := Next(Reached(hash, before), e);
            && (Inserts(t, c) <==> c.worker == e.worker && c.token == e.token && c.now < e.now + e.lease)
            && (if later < e.now + e.lease then SameAttempt(t, Next(t, Reclaim(later)), e.attempt)
                else ExpiredBy(t, e.attempt, later))
  {
    hide Inv, Run, Reached, Next, Inserts, SameAttempt, ExpiredBy, ClaimTask, Heartbeat;
    ReachedInv(hash, before);
    ControlTheorems.LeaseWindow(Reached(hash, before), e, c, later);
  }

  /** Reclaim counts the overdue active attempts and returns exactly their tasks to the queue. */
  lemma ReclaimIsExact(hash: Content -> Sha256, before: seq<Event>, now: Time)
    requires Injective(hash)
    ensures var s := Reached(hash, before);
            && ReclaimExpired(s, now).outcome == Ok(|DueAttempts(s, now)|)
            && Requeued(s, ReclaimExpired(s, now).state, TasksOfAttempts(s, DueAttempts(s, now)))
  {
    hide Inv, Run, Reached, ReclaimExpired, Requeued;
    ReachedInv(hash, before);
    ControlTheorems.ReclaimIsExact(Reached(hash, before), now);
  }

  /** Once a run's plan has left the frozen state no history adds an attempt to the run, and every later
      result of the run comes from an attempt that was active at that moment. */
  lemma WithdrawnPlanOnlyFinishesLiveWork(hash: Content -> Sha256, before: seq<Event>, after: seq<Event>, r: string)
    requires C.Withdrawn(Reached(hash, before), r)
    requires Injective(hash)
    ensures var s := Reached(hash, before); var t := Run(s, after);
            && C.NoNewAttempts(s, t, r)
            && forall rk :: rk in t.results && rk.task.run == r && rk !in s.results ==>
                 t.results[rk].attemptId in s.attempts && s.attempts[t.results[rk].attemptId].state.Active?
  {
    hide Inv, Run, Reached, C.NoNewAttempts, C.Withdrawn;
    ReachedInv(hash, before);
    var s := Reached(hash, before);
    C.WithdrawnPlanStopsClaims(s, after, r);
    forall rk | rk in Run(s, after).results && rk.task.run == r && rk !in s.results
      ensures var a := Run(s, after).results[rk].attemptId; a in s.attempts && s.attempts[a].state.Active?
    {
      C.WithdrawnPlanOnlyFinishesLiveWork(s, after, r, rk);
    }
  }

  /** After a command succeeded, any history may follow: issuing its key again with the same intent
      returns the current record of the same run and changes nothing; issuing it with a different
      intent is refused and changes nothing. */
  lemma CommandsAreIdempotent(hash: Content -> Sha256, before: seq<Event>, e: Event, between: seq<Event>, again: Event)
    requires C.Answerable(Reached(hash, before), e) && e.key !in Reached(hash, before).commands
    requires C.Respond(Reached(hash, before), e).Ok?
    requires C.Answerable(Run(Next(Reached(hash, before), e), between), again) && again.key == e.key
    requires Injective(hash)
    ensures C.AnsweredAs(Reached(hash, before), e, Run(Next(Reached(hash, before), e), between), again)
  {
    hide *;
    ReachedInv(hash, before);
    C.CommandsAreIdempotent(Reached(hash, before), e, between, again);
  }

  /** The command itself, replay included, is such a repetition at any later time. */
  lemma RepeatedCommandReturnsItsRun(hash: Content -> Sha256, before: seq<Event>, e: Event, between: seq<Event>)
    requires C.Answerable(Reached(hash, before), e) && e.key !in Reached(hash, before).commands
    requires C.Respond(Reached(hash, before), e).Ok?
    requires Injective(hash)
    ensures var t := Run(Next(Reached(hash, before), e), between); Next(t, e) == t && C.ReturnsCurrent(t, e)
  {
    hide *;
    ReachedInv(hash, before);
    C.RepeatedCommandReturnsItsRun(Reached(hash, before), e, between);
  }

  /** A replay repeats its source task for task and can be aggregated with it then and ever after. */
  lemma ReplayRepeatsItsSource(hash: Content -> Sha256, before: seq<Event>, e: Event, after: seq<Event>)
    requires e.Replay? && C.Respond(Reached(hash, before), e).Ok? && e.key !in Reached(hash, before).commands
    requires Injective(hash)
    ensures var s := Reached(hash, before); var t := Next(s, e);
            && e.source in s.runs && e.replayId in t.runs && t.runs[e.replayId].sourceRun == Some(e.source)
            && C.CopiesTasks(s, e.source, t, e.replayId)
            && Aggregate(Run(t, after), [e.source, e.replayId]) == Ok(s.runs[e.source].planDigest)
  {
    hide Inv, Run, Reached, ReplayRun, C.CopiesTasks, Aggregate;
    ReachedInv(hash, before);
    C.ReplayCopiesTasks(Reached(hash, before), e.key, e.source, e.replayId, e.now);
    C.ReplayAggregatesWithSource(Reached(hash, before), e.key, e.source, e.replayId, e.now, after);
  }

  /** The ids of two runs, whatever cohorts they asked for, coincide exactly when their plans do or
      their names meet; within one requested cohort that is a collision of twelve characters. */
  lemma CohortIdsSeparatePlans(hash: Content -> Sha256, before: seq<Event>, r: string, q: string)
    requires r in Reached(hash, before).runs && q in Reached(hash, before).runs
    requires Injective(hash)
    ensures var a := Reached(hash, before).runs[r]; var b := Reached(hash, before).runs[q];
            && (a.cohortId == b.cohortId <==> a.planDigest == b.planDigest || C.NamesMeet(a, b))
            && (a.requestedCohort == b.requestedCohort && a.planDigest != b.planDigest ==>
                  (C.NamesMeet(a, b) <==>
                     && !C.OwnsBareName(a) && !C.OwnsBareName(b)
                     && Prefix12(a.planDigest) == Prefix12(b.planDigest)))
  {
    hide *;
    ReachedInv(hash, before);
    C.CohortIdsSeparatePlans(Reached(hash, before), r, q);
  }

  /** Exactly one plan of every requested cohort that has runs owns the bare name. */
  lemma OneOwnerPerCohort(hash: Content -> Sha256, before: seq<Event>, r: string)
    requires r in Reached(hash, before).runs
    requires Injective(hash)
    ensures var runs := Reached(hash, before).runs;
            exists q :: q in runs && runs[q].requestedCohort == runs[r].requestedCohort && C.OwnsBareName(runs[q])
    ensures var runs := Reached(hash, before).runs;
            forall p, q :: p in runs && q in runs && runs[p].requestedCohort == runs[q].requestedCohort
                           && C.OwnsBareName(runs[p]) && C.OwnsBareName(runs[q]) ==>
                             runs[p].planDigest == runs[q].planDigest
  {
    hide *;
    ReachedInv(hash, before);
    C.OneOwnerPerCohort(Reached(hash, before), r);
  }

  /** Equal digests mean equal cohorts, so aggregation is accepted exactly for known runs, at least one, whose
      plan digests are all equal. */
  lemma AggregatesExactlyOnePlan(hash: Content -> Sha256, before: seq<Event>, runIds: seq<string>)
    requires Injective(hash)
    ensures var s := Reached(hash, before);
            Aggregate(s, runIds) ==
              if runIds == [] then Err(MixedCohort)
              else if exists r :: r in runIds && r !in s.runs then Err(Unknown)
              else if forall r :: r in runIds ==> s.runs[r].planDigest == s.runs[runIds[0]].planDigest
              then Ok(s.runs[runIds[0]].planDigest) else Err(MixedCohort)
    ensures var s := Reached(hash, before);
            forall r, q :: r in s.runs && q in s.runs && s.runs[r].planDigest == s.runs[q].planDigest ==>
              s.runs[r].cohortId == s.runs[q].cohortId
  {
    hide *;
    ReachedInv(hash, before);
    var s := Reached(hash, before);
    C.AggregatesExactlyOnePlan(s, runIds);
    forall r, q | r in s.runs && q in s.runs && s.runs[r].planDigest == s.runs[q].planDigest
      ensures s.runs[r].cohortId == s.runs[q].cohortId
    {
      C.EqualDigestsShareCohort(s, r, q);
    }
  }

  // ----- when an operation is accepted and what it changes -----

  /** Under a new key a known run is cancelled exactly when it is not completed, that is, when some task of
      it has no result; its unfinished tasks and active attempts go with it and nothing else does. */
  lemma CancelIsExact(hash: Content -> Sha256, before: seq<Event>, key: string, r: string, now: Time)
    requires key !in Reached(hash, before).commands
    requires Injective(hash)
    ensures var s := Reached(hash, before); var e := Cancel(key, r, now);
            if r !in s.runs then O.RefusedWith(s, e, Unknown)
            else if s.runs[r].state.Completed? then O.RefusedWith(s, e, InvalidTransition)
            else O.Accepted(s, e) && O.Cancelled(s, Next(s, e), r, now)
    ensures var s := Reached(hash, before);
            r in s.runs ==> (!s.runs[r].state.Completed? <==> exists k :: O.Unfinished(s, k) && k.run == r)
  {
    hide *;
    ReachedInv(hash, before);
    O.CancelIsExact(Reached(hash, before), key, r, now);
  }

  /** Under a new key a known run is resumed exactly when it is cancelled; its queue is then exactly its
      unfinished tasks, held by nobody. */
  lemma ResumeIsExact(hash: Content -> Sha256, before: seq<Event>, key: string, r: string, now: Time)
    requires key !in Reached(hash, before).commands
    requires Injective(hash)
    ensures var s := Reached(hash, before); var e := Resume(key, r, now);
            if r !in s.runs then O.RefusedWith(s, e, Unknown)
            else if !s.runs[r].state.Cancelled? then O.RefusedWith(s, e, InvalidTransition)
            else O.Accepted(s, e) && O.Resumed(s, Next(s, e), r, now)
  {
    hide *;
    ReachedInv(hash, before);
    O.ResumeIsExact(Reached(hash, before), key, r, now);
  }

  /** No attempt that a run had when it was cancelled stores a result later, resumed or not. */
  lemma CancelFences(hash: Content -> Sha256, before: seq<Event>, key: string, r: string, now: Time,
                     after: seq<Event>, c: Event)
    requires key !in Reached(hash, before).commands && r in Reached(hash, before).runs
    requires !Reached(hash, before).runs[r].state.Completed?
    requires c.Commit? && c.attempt in Reached(hash, before).attempts
    requires Reached(hash, before).attempts[c.attempt].task.run == r
    requires Injective(hash)
    ensures !Inserts(Run(Next(Reached(hash, before), Cancel(key, r, now)), after), c)
  {
    hide *;
    ReachedInv(hash, before);
    O.CancelFences(Reached(hash, before), key, r, now, after, c);
  }

  /** A heartbeat with a positive lease is accepted exactly when a commit by the same owner would store a
      result at that instant; it moves only the expiry of that lease. */
  lemma HeartbeatIsExact(hash: Content -> Sha256, before: seq<Event>, e: Event, c: Event)
    requires e.Beat? && c.Commit?
    requires c.attempt == e.attempt && c.worker == e.worker && c.token == e.token && c.now == e.now
    requires Injective(hash)
    ensures var s := Reached(hash, before); var step := O.BeatOf(s, e);
            && Next(s, e) == step.state
            && (if e.lease > 0 && Inserts(s, c) then O.Renewed(s, step, e.attempt, e.lease, e.now)
                else step.outcome.Err? && step.state == s)
    ensures var s := Reached(hash, before); var outcome := O.BeatOf(s, e).outcome;
            && (outcome == Err(InvalidArgument) <==> e.lease <= 0)
            && (outcome == Err(LeaseConflict) <==> e.lease > 0 && !O.Owns(s, e.attempt, e.worker, e.token))
            && (outcome == Err(LateAttempt) <==>
                  e.lease > 0 && O.Owns(s, e.attempt, e.worker, e.token) && O.Overran(s, e.attempt, e.now))
  {
    hide *;
    ReachedInv(hash, before);
    O.HeartbeatIsExact(Reached(hash, before), e, c);
  }

  /** A commit answers by its attempt's own record: it stores exactly for the owner of an active attempt
      before expiry, and a stored result completes the run exactly when it was the last one missing. */
  lemma CommitIsExact(hash: Content -> Sha256, before: seq<Event>, c: Event)
    requires c.Commit?
    requires Injective(hash)
    ensures var s := Reached(hash, before);
            && CommitOf(s, c).outcome == O.CommitAnswer(s, c)
            && if Inserts(s, c) then O.Stored(s, Next(s, c), c) else Next(s, c) == s
  {
    hide *;
    ReachedInv(hash, before);
    O.CommitIsExact(Reached(hash, before), c);
  }

  /** A claim grants the first queued task exactly for an open run with a frozen plan and an unused attempt
      ID, under the run's own plan. */
  lemma ClaimIsExact(hash: Content -> Sha256, before: seq<Event>, e: Event)
    requires e.Claim?
    requires Injective(hash)
    ensures var s := Reached(hash, before);
            Next(s, e) == O.ClaimOf(s, e).state && O.ClaimDecided(s, e, O.ClaimOf(s, e))
  {
    hide *;
    ReachedInv(hash, before);
    O.ClaimIsExact(Reached(hash, before), e);
  }

  /** A reclaim ends exactly the active attempts whose lease has run out and queues exactly their tasks. */
  lemma ReclaimEffect(hash: Content -> Sha256, before: seq<Event>, now: Time)
    requires Injective(hash)
    ensures O.Reclaimed(Reached(hash, before), Next(Reached(hash, before), Reclaim(now)), now)
  {
    hide *;
    ReachedInv(hash, before);
    O.ReclaimEffect(Reached(hash, before), now);
  }

  /** Under a new key a create is accepted exactly when its run ID is new, its task list is a non-empty list
      of distinct candidates, and its plan is frozen with that digest and cohort. */
  lemma CreateIsExact(hash: Content -> Sha256, before: seq<Event>, key: string, c: CreateIntent, now: Time)
    requires key !in Reached(hash, before).commands
    requires Injective(hash)
    ensures var s := Reached(hash, before); var e := Create(key, c, now);
            if c.runId in s.runs then O.RefusedWith(s, e, IdempotencyConflict)
            else if c.tasks == [] || !DistinctIdentities(c.tasks) || c.plan !in s.plans then O.RefusedWith(s, e, Unknown)
            else if !O.Schedules(s, c) then O.RefusedWith(s, e, PlanNotSchedulable)
            else O.Accepted(s, e) && O.Created(s, Next(s, e), c, now)
  {
    hide *;
    ReachedInv(hash, before);
    O.CreateIsExact(Reached(hash, before), key, c, now);
  }

  /** Under a new key and run ID a replay is accepted exactly when its source is known and the source's plan
      is still frozen. */
  lemma ReplayIsExact(hash: Content -> Sha256, before: seq<Event>, key: string, source: string, id: string, now: Time)
    requires key !in Reached(hash, before).commands
    requires Injective(hash)
    ensures var s := Reached(hash, before); var e := Replay(key, source, id, now);
            if source !in s.runs then O.RefusedWith(s, e, Unknown)
            else if id in s.runs then O.RefusedWith(s, e, IdempotencyConflict)
            else if C.Withdrawn(s, source) then O.RefusedWith(s, e, PlanNotSchedulable)
            else O.Accepted(s, e) && O.Created(s, Next(s, e), ReplayIntent(s, source, id), now)
  {
    hide *;
    ReachedInv(hash, before);
    O.ReplayIsExact(Reached(hash, before), key, source, id, now);
  }
}
