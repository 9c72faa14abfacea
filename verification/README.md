# VeriRun in Dafny

VeriRun evaluates model-written code at scale. This project models its hardest parts and proves what
they promise, for all inputs, all schedules and all histories.

**The durable control plane.** Plans, runs, tasks, attempt leases, results and command receipts form one
state machine. `ControlState` gives each public operation as a function on whole maps; `InMemory` is the
class with six dictionaries and the source's loops, `Postgres` the class with tables, a cohort index and
bulk updates, and both are proved against those functions. `ControlInvariant` writes down the joint
invariant that the operations silently rely on and proves that every operation keeps it.
`ControlHistory`, `ControlTheorems`, `ControlCommands` and `Operations` prove what follows, and `Reachable`
states it for every history of every interleaving of clients: exactly when each operation is accepted and
what it does to every record, what never changes, effectively-once commit, exact lease windows, idempotent
commands, frozen-plan lineage and comparison cohorts. Timestamps are supplied by
callers and need not be monotone, and a heartbeat may shorten a lease; nothing assumes otherwise.

**The plan compiler.** `PlanCompiler` is the pure function from a request to a content-addressed plan,
with the proof that only what is asked matters, not how it is presented.

**The bounded driver.** `Distributed` is the claim, submit, wait and commit loop over the in-memory
plane. Replies, clocks, attempt IDs and outages are arbitrary, so it may stop anywhere; the last theorem
composes a stopped drive with reclaim and a second drive.

**The model gateway.** `RateLimiting`, `RetryLoop`, `Admission` and `Batch` cover slot reservation, the
retry loop over any script of replies, admission of any number of concurrent callers, and the batch
protocol with a bounded queue. A step is the code one coroutine runs between two suspension points. No
coroutine keeps the token condition's lock across a suspension, so giving tokens back is one step.

**Paired statistics.** `Combinatorics`, `Statistics`, `Wilson` and `PairedComparison` cover pass@k, the
Wilson interval, paired deltas, the bootstrap and the report, over exact reals.

`Ordering` and `Records` are shared. `content_hash` is any injective function on what it is applied to;
`Encoding` writes every hashed content down so that it can be read back, so such functions exist.

## What the proofs found

- `docs/CONTROL_PLANE.md:52` promises runs against a changed digest a distinct cohort. Two plans share a
  cohort ID all the same when neither owns the bare name and their digests share their first twelve
  characters (`src/verirun/control_plane.py:514`), or when one plan's requested cohort is the suffixed name
  another plan was given. `Cohorts.NewRunSharesExactly` gives the exact condition before the call, and
  `Cohorts.PrefixCollides` and `Cohorts.OtherCohortCollides` are histories in which each happens, the second
  under every hash. Aggregation still never mixes digests.
- PostgreSQL refuses such a run instead, because `cohort_id` is UNIQUE (`src/verirun/postgres.py:65`), and
  also refuses a `source_run_id` that names no run (`src/verirun/postgres.py:78`). The in-memory plane
  accepts both. `Postgres.PostgresControlPlane.CreateRun` states exactly when the two differ.
- PostgreSQL refuses a used attempt ID even when nothing is queued; the in-memory plane answers that
  nothing is queued (`src/verirun/postgres.py:678`, `src/verirun/control_plane.py:698`).
- Once a plan is withdrawn no attempt is ever added to its runs, but live attempts still commit.
- A request above the token budget raises out of `generate_many` even without `fail_fast`, and the results of
  the other requests are lost (`src/verirun/gateway.py:131`, `src/verirun/gateway.py:228`).
  `Batch.OversizeRaises` is such a batch, and `Batch.ReturnsExactlyWhenWithinBudget` says that without
  `fail_fast` a batch returns all results exactly when no request is above the budget.
- Slots of the rate limiter are spaced, request starts need not be: a caller that goes on late can start
  closer to the next one (`RateLimiting.StartsCanBunch`). Starts are spaced for every history exactly when
  nobody is late at all (`RateLimiting.StartsSpacedExactlyWhenPunctual`).
- The mean of per-task pass@1 can differ from the pooled pass@1 (`Statistics.UnequalCountsDiffer`). For given
  sample counts the two agree whatever the outcomes exactly when all counts are equal
  (`Statistics.AgreeExactlyWhenCountsEqual`).

## Model

| member | source | states |
|---|---|---|
| ControlInvariant.NextKeeps | src/verirun/control_plane.py:422-850 | the joint invariant of plans, runs, tasks, attempts, results, receipts and cohorts survives every operation of every client with any arguments |
| Encoding.InjectiveHashExists | src/verirun/canonical.py:45-58 | what is hashed can be written down so that it can be read back, so the injective hashes assumed below exist |
| ControlInvariant.RunKeeps | src/verirun/control_plane.py:402-850 | and therefore every history, in any interleaving |
| ControlInvariant.RegisterKeeps | src/verirun/control_plane.py:422-429 | registering a plan cannot break a run that uses it |
| ControlInvariant.TransitionPlanKeeps | src/verirun/control_plane.py:437-458 | nor can moving a plan, because no transition leads back to before frozen |
| ControlInvariant.CreateKeeps | src/verirun/control_plane.py:484-547 | a new run, its tasks, its cohort and its receipt fit what is already there |
| ControlInvariant.TransitionRunKeeps | src/verirun/control_plane.py:563-614 | cancelling never leaves a live lease, resuming never leaves a task with a holder |
| ControlInvariant.ClaimKeeps | src/verirun/control_plane.py:678-726 | a granted lease is the only active one of its task and its run is running |
| ControlInvariant.HeartbeatKeeps | src/verirun/control_plane.py:728-760 | renewing touches nothing the other records depend on, even when it shortens the lease |
| ControlInvariant.ReclaimKeeps | src/verirun/control_plane.py:762-784 | expired attempts and requeued tasks stay consistent in one sweep |
| ControlInvariant.CommitKeeps | src/verirun/control_plane.py:786-850 | a commit completes attempt, task and, exactly when it is the last, the run |
| ControlHistory.NextEvolves | src/verirun/control_plane.py:422-850 | no operation undoes anything that must last |
| ControlHistory.RunEvolves | src/verirun/control_plane.py:405-850 | over any history plan states only move forward, identities and lineage are fixed, runs gain no task, completed tasks, ended attempts, results and receipts never change, nothing disappears |
| ControlTheorems.ReachableStatesAgree | src/verirun/control_plane.py:460-850 | in every reachable state: active attempts and leased tasks name each other one to one in running runs; queued tasks have no holder and no result; cancelled tasks only in cancelled runs; a task is completed exactly when its result is stored by its completed attempt; a run is completed exactly when all its (non-empty) tasks are |
| ControlTheorems.OnlyInsertionsStore | src/verirun/control_plane.py:820-850 | only a commit that answers inserted adds a result, under a key that had none |
| ControlTheorems.InsertionsAreResults | src/verirun/control_plane.py:786-850 | over a history the inserted outcomes number exactly the results added |
| ControlTheorems.InsertedOncePerKey | src/verirun/control_plane.py:786-850 | each run, task, candidate and plan digest sees an inserted outcome at most once, and exactly once if it ends with a result |
| Reachable.InsertedOncePerTask | src/verirun/control_plane.py:786-850 | whatever the digest, a run, task and candidate sees an inserted outcome at most once, and exactly once if it ends with a result it did not have |
| Reachable.EndedAttemptNeverStores | src/verirun/control_plane.py:819-826 | an expired, cancelled or completed attempt never changes and never stores a result, whatever happens later |
| Reachable.LiveAttemptNeverConflicts | src/verirun/control_plane.py:799-828 | a live attempt never meets a stored result, and no internal lookup of a commit is missing |
| Reachable.CommitIsIdempotent | src/verirun/control_plane.py:809-818 | after an insertion and any history, committing the same content for that attempt, by any worker, returns the stored result, any other content is refused, and nothing is written |
| Reachable.LeaseWindow | src/verirun/control_plane.py:753-784 | after a claim or heartbeat the owner can commit exactly before now + lease_seconds, and a reclaim ends the attempt exactly from then on |
| Reachable.HeartbeatIsExact | src/verirun/control_plane.py:728-760 | in every reachable state a heartbeat with a positive lease is accepted exactly when a commit by the same worker and token would store a result at that instant; then only that lease moves, to now and now + lease_seconds, else nothing; each refusal with its exact condition |
| Reachable.CommitIsExact | src/verirun/control_plane.py:799-850 | a commit answers by its attempt's own record alone: refused for an unknown, ended, foreign or expired attempt, replayed for a completed one, and otherwise stored with the caller's content; it completes attempt and task, and the run exactly when no other task lacks a result; nothing else changes |
| Reachable.CancelIsExact | src/verirun/control_plane.py:563-614 | under a new key a known run is cancelled exactly when some task of it has no result; the run, exactly its unfinished tasks and exactly its active attempts are cancelled, plans, results, finished tasks and other runs are as before, and the answer is the run with a receipt; else refused without a change |
| Reachable.ResumeIsExact | src/verirun/control_plane.py:595-614 | under a new key a known run is resumed exactly when it is cancelled; then it is pending and its queue is exactly its unfinished tasks, without holders, and nothing else changed |
| Reachable.CancelFences | src/verirun/control_plane.py:582-594 | no attempt a run had when it was cancelled ever stores a result afterwards, resumed or not |
| Reachable.ClaimIsExact | src/verirun/control_plane.py:688-726 | a claim reaches the queue exactly with a positive lease, an open run and a frozen plan; it then leases the least queued task under the run's own plan to the caller until now + lease_seconds, refuses a used attempt ID only when there is a task to give, and otherwise changes nothing |
| Operations.ClaimRefusals | src/verirun/control_plane.py:688-697 | each refusal before that, with its exact condition |
| Reachable.CreateIsExact | src/verirun/control_plane.py:484-547 | under a new key a create is accepted exactly for a new run ID, a non-empty list of distinct candidates and a frozen plan with that digest and cohort; then one pending run with the intent's fields and exactly its tasks, queued under that plan, with a receipt; each refusal with its exact condition and no change |
| Reachable.ReplayIsExact | src/verirun/control_plane.py:638-676 | under a new key and run ID a replay is accepted exactly when its source is known and the source's plan is still frozen: neither the copied task list nor the plan lookup ever refuses it |
| ControlTheorems.ClaimTakesFirstQueued | src/verirun/control_plane.py:698-726 | a claim removes exactly the first queued task in (task_id, candidate_id) order, and grants nothing exactly when none is queued |
| Reachable.ReclaimIsExact | src/verirun/control_plane.py:762-784 | reclaim returns the number of overdue active attempts and requeues exactly their tasks |
| Reachable.ReclaimEffect | src/verirun/control_plane.py:762-784 | exactly the active attempts whose lease has run out expire, exactly their tasks are queued, runs, plans, results and receipts stay |
| ControlCommands.ReachableLineage | src/verirun/control_plane.py:498-547 | in every reachable state every run, task, attempt and result carries the ID and digest of one registry entry that names its own content and is frozen or has left that state |
| ControlCommands.AttemptsComeFromFrozenPlans | src/verirun/control_plane.py:690-726 | only a claim under a frozen plan adds an attempt |
| Operations.TransitionIsExact | src/verirun/control_plane.py:405-458 | a plan moves exactly along the six edges draft-validated, draft-invalid, validated-frozen, validated-invalid, frozen-superseded, frozen-invalid, and only its state, reason and time change |
| Operations.RegisterIsExact | src/verirun/control_plane.py:422-429 | a plan is registered exactly when its digest is its content's and its key is free or holds that very record; no other entry ever changes |
| Reachable.WithdrawnPlanOnlyFinishesLiveWork | src/verirun/control_plane.py:695-697 | once a run's plan has left frozen, no history adds an attempt to the run, and every later result of the run comes from an attempt that was active at that moment |
| ControlCommands.ReceiptAnswers | src/verirun/control_plane.py:485-491 | a key with a receipt returns the current record of its run for the same command and intent, is refused for any other, and changes nothing |
| Reachable.CommandsAreIdempotent | src/verirun/control_plane.py:563-578 | after a command succeeded, any history may follow: its key with the same intent returns the current record of the same run, with another intent is refused, and nothing changes |
| Reachable.RepeatedCommandReturnsItsRun | src/verirun/control_plane.py:638-676 | the command itself, replay included, is such a repetition at any later time |
| ControlCommands.ReplayIntentStable | src/verirun/control_plane.py:652-676 | a replay asks for the same thing however much later, because task identities and their order never change |
| ControlCommands.CreateMakesItsTasks | src/verirun/control_plane.py:516-547 | a new run has exactly the tasks of its intent, queued, with their candidate hashes, and every other task is as before |
| Reachable.ReplayRepeatsItsSource | src/verirun/control_plane.py:638-676 | a replay has exactly its source's task and candidate pairs and hashes, all queued, names its source, and can be aggregated with it then and ever after |
| Reachable.CohortIdsSeparatePlans | src/verirun/control_plane.py:506-514 | two runs, whatever cohorts they asked for, share a cohort ID exactly when their plans are equal or their names meet: one's bare name is the other's suffixed name, or the suffixed names are equal; within one requested cohort that is a collision of 12 characters between two plans without the bare name |
| Cohorts.NewRunSharesExactly | src/verirun/control_plane.py:506-514 | a run about to be created and a stored run of another plan get one cohort ID exactly when a condition on the stored runs, the requested cohort and the digest holds before the call |
| Cohorts.NewRunCohort | src/verirun/control_plane.py:506-514 | the cohort ID of a new run, from the stored runs: the requested name for the first plan that asks for it, otherwise that name, a tilde and twelve characters of the digest |
| Cohorts.PrefixCollides | src/verirun/control_plane.py:514-514 | under some injective hash three runs of one requested cohort lead to two plans with one ID |
| Cohorts.OtherCohortCollides | src/verirun/control_plane.py:506-514 | under every injective hash a plan whose cohort is another plan's suffixed name gets that plan's ID |
| Cohorts.UniqueColumnRefusesSharing | src/verirun/postgres.py:62-67 | the UNIQUE column refuses exactly the creates after which two plans would share an ID |
| Reachable.OneOwnerPerCohort | src/verirun/control_plane.py:506-514 | exactly one plan of a requested cohort owns the bare name |
| ControlCommands.EqualDigestsShareCohort | src/verirun/control_plane.py:498-514 | equal plan digests mean equal requested and effective cohorts across all runs |
| Reachable.AggregatesExactlyOnePlan | src/verirun/control_plane.py:866-875 | for any list of run IDs: refused when empty, unknown when a run is, and otherwise accepted exactly when all plan digests are equal; equal digests always have equal cohorts |
| InMemory.InMemoryControlPlane.constructor | src/verirun/control_plane.py:413-420 | starts empty, in the invariant |
| InMemory.InMemoryControlPlane.RegisterPlan | src/verirun/control_plane.py:422-429 | same digest check, same conflict rule and same result as the reference step |
| InMemory.InMemoryControlPlane.TransitionPlan | src/verirun/control_plane.py:437-458 | exactly the six allowed moves, refused otherwise with no change |
| InMemory.InMemoryControlPlane.InspectRun | src/verirun/control_plane.py:549-561 | the run and its tasks in (task_id, candidate_id) order |
| InMemory.InMemoryControlPlane.FindCohort | src/verirun/control_plane.py:506-514 | a scan of the runs in any order gives one answer, the cohort of the reference step |
| InMemory.InMemoryControlPlane.CreateRun | src/verirun/control_plane.py:460-547 | the whole new state and answer of the reference step, all refusals included |
| InMemory.InMemoryControlPlane.TransitionRun | src/verirun/control_plane.py:563-636 | cancel and resume, receipts and refusals included, are the step that `Reachable.CancelIsExact` and `Reachable.ResumeIsExact` describe |
| InMemory.InMemoryControlPlane.CancelAll | src/verirun/control_plane.py:584-594 | the loop over the listed tasks cancels exactly the open tasks and the attempts they name |
| InMemory.InMemoryControlPlane.RequeueAll | src/verirun/control_plane.py:599-604 | the loop requeues exactly the open tasks and clears their holders |
| InMemory.InMemoryControlPlane.ReplayRun | src/verirun/control_plane.py:638-676 | the reference step, plan lookup included |
| InMemory.InMemoryControlPlane.ClaimTask | src/verirun/control_plane.py:678-726 | the reference step, refusals in the same order |
| InMemory.InMemoryControlPlane.Heartbeat | src/verirun/control_plane.py:728-760 | the step that `Reachable.HeartbeatIsExact` describes |
| InMemory.InMemoryControlPlane.ReclaimExpired | src/verirun/control_plane.py:762-784 | one sweep over the attempts in any order is the reference step, count included |
| InMemory.InMemoryControlPlane.CommitResult | src/verirun/control_plane.py:786-850 | the reference step, replay and refusals included |
| InMemory.InMemoryControlPlane.AssertAggregateable | src/verirun/control_plane.py:866-875 | answers as the reference does |
| Postgres.PostgresControlPlane.CreateRun | src/verirun/postgres.py:376-514 | agrees with the reference whenever it accepts, keeps the cohort table an index of the runs, and accepts what the reference accepts exactly when the source run is known and no cohort name clashes |
| Postgres.PostgresControlPlane.CohortRow | src/verirun/postgres.py:441-468 | the table gives the cohort a scan of the runs gives, and its UNIQUE column refuses exactly the clashes |
| Postgres.PostgresControlPlane.TransitionRun | src/verirun/postgres.py:530-599 | bulk updates give exactly the step that `Reachable.CancelIsExact` and `Reachable.ResumeIsExact` describe |
| Postgres.PostgresControlPlane.CancelRows | src/verirun/postgres.py:562-584 | cancelling every active lease of the run equals cancelling the attempt each open task names |
| Postgres.PostgresControlPlane.ClaimTask | src/verirun/postgres.py:649-731 | agrees with the reference except that a used attempt ID is refused before looking for work |
| Postgres.PostgresControlPlane.ReclaimExpired | src/verirun/postgres.py:769-806 | selecting only leases of runs in progress and counting updated rows is the reference step |
| Postgres.PostgresControlPlane.CommitResult | src/verirun/postgres.py:808-909 | the reference step; neither key of final_results can reject its insert |
| PlanCompiler.PresentationDoesNotMatter | src/verirun/control_plane.py:335-399 | requests that ask the same thing get the same plan and digest, or the same rejection |
| PlanCompiler.ReorderedCatalog | src/verirun/control_plane.py:335-345 | a permuted catalog asks the same thing |
| PlanCompiler.UnrelatedEntry | src/verirun/control_plane.py:335-344 | so does one with an entry, anywhere, that does not match |
| PlanCompiler.RepeatedEvidence | src/verirun/control_plane.py:352-366 | so does permuted or repeated evidence, of an entry or of the request |
| PlanCompiler.AcceptsExactlyUnambiguous | src/verirun/control_plane.py:345-350 | accepted exactly when some entry matches and no two matching entries share an ID |
| PlanCompiler.AcceptsExactly | src/verirun/control_plane.py:335-350 | accepted exactly when some catalog entry serves the family and the intent and carries both tag sets, and no two positions hold such entries with one ID |
| PlanCompiler.PlanListsMatchingVerifiers | src/verirun/control_plane.py:352-399 | an accepted plan lists every matching verifier once in strict (priority, verifier_id) order, requires exactly the union of their evidence, and carries the hash of its own content |
| PlanCompiler.PlanIsOfItsRequest | src/verirun/control_plane.py:352-399 | the graph is the serving catalog entries, field by field, each once, in strict (priority, ID) order; every other part of the plan is the request's, evidence as a sorted set, costs times candidates, concurrency the smaller of the two limits |
| PlanCompiler.CostsAdd | src/verirun/control_plane.py:371-377 | token and CPU costs of a graph are the sums over its nodes |
| PlanCompiler.DigestFixesQuestion | src/verirun/control_plane.py:376-399 | equal digests mean the same verifiers, evidence, policy, cohort and candidate count |
| Ordering.ArrangementUnique | src/verirun/control_plane.py:345-345 | a strict order has one sorted arrangement |
| Distributed.ExecuteClaims | src/verirun/distributed.py:259-368 | ends; wherever it stops, earlier results are intact, each task queued at the start is queued, leased (at most max_in_flight) or completed with its result, nothing else moved; a return means one inserted outcome per task queued at the start, and a completed run with one result per task if none of its tasks was leased then; on a workable run only a reused attempt ID or a late commit is refused; with fresh IDs, commits in time, matching replies and no outage it returns; the new results are exactly the replies of a log of rounds, at most one a round: payload, failure domain, hash of that payload, attempt, plan and commit time are those of the reply to an item for that task and candidate hash, and the outcomes returned are those records in order; a failure names a crash, a stray reply or an outage only if there was one |
| Distributed.SmoothExists | src/verirun/distributed.py:279-285 | every run that can be worked on has an environment with fresh IDs, commits in time, matching replies and no outage |
| Distributed.FillWindow | src/verirun/distributed.py:278-309 | claims until the window is full or nothing is queued, never beyond the window |
| Distributed.CommitReply | src/verirun/distributed.py:317-368 | commits only a reply with the item's lineage, stores that reply's payload, its hash and its failure domain under the item's attempt and plan, moves exactly that task from in flight to committed, and lowers 2 * queued + in flight |
| Distributed.CandidateHash | src/verirun/distributed.py:384-389 | finds the claimed task in its run's listing; the error after the loop is unreachable |
| Distributed.CrashRecoveryConverges | src/verirun/distributed.py:259-368 | a drive that failed anywhere, a reclaim past all expiries and a second drive that returns: reclaim counts exactly the outstanding leases, the second drive commits exactly what was left open, committed results are intact, the run is completed with one result per task |
| RateLimiting.RateLimiter.constructor | src/verirun/gateway.py:108-111 | the interval is 1/rps and the first slot is free |
| RateLimiting.RateLimiter.Acquire | src/verirun/gateway.py:113-121 | grants the next slot of the schedule; the caller goes on at or after its slot and not before it asked |
| RateLimiting.SlotsSpaced | src/verirun/gateway.py:116-118 | consecutive slots are at least 1/rps apart and none precedes its request, for any clock readings |
| RateLimiting.WindowBound | src/verirun/gateway.py:116-118 | any closed window of length W holds at most W * rps + 1 slots |
| RateLimiting.SlotsEarliest | src/verirun/gateway.py:116-118 | no schedule with that spacing serves any request earlier |
| RateLimiting.StartsSpaced | src/verirun/gateway.py:119-121 | starts at most `late` after their slots are at least n/rps - late apart |
| RateLimiting.StartsCanBunch | src/verirun/gateway.py:119-121 | two requests at once, the first `late`: the bound is attained and the starts are not spaced |
| RateLimiting.StartsSpacedExactlyWhenPunctual | src/verirun/gateway.py:113-121 | starts are 1/rps apart in every history with lateness up to `late` exactly when `late` is zero |
| RetryLoop.Parse | src/verirun/gateway.py:377-394 | completions exactly when there are choices and every choice has non-empty text, and then those texts in order |
| RetryLoop.ParseReads | src/verirun/gateway.py:377-394 | a body gives these texts exactly when it lists that many choices, each a message with its text, none empty |
| RetryLoop.ParseBack | src/verirun/gateway.py:377-394 | a body made of given texts parses back to them, and to nothing if there is none or one is empty |
| RetryLoop.JudgeMeans | src/verirun/gateway.py:282-345 | a reply is retried exactly for a timeout, a transport failure, status 429 or at least 500; accepted exactly below 400 with a body that parses; every recorded class exactly for its kind of reply |
| RetryLoop.VerdictsReadOff | src/verirun/gateway.py:281-354 | on the replies themselves: posting stops at the first reply that is none of those or at max_attempts; success exactly when that reply is a usable one, and then its texts; each recorded class is that of its own reply |
| RetryLoop.CeilingDoubles | src/verirun/gateway.py:356-361 | the longest pause starts at the base, doubles with each attempt and is cut off at the maximum |
| RetryLoop.RequestWithRetries | src/verirun/gateway.py:273-361 | for any script of replies, exceptions of the client included, and any jitter: the posts and the answer read off the replies as above, under the request's own IDs, one post per attempt, each pause under its ceiling, total back-off at most (max_attempts - 1) * max_delay and base * (2^(max_attempts - 1) - 1), end of loop unreachable |
| RetryLoop.StopIsUnique | src/verirun/gateway.py:281-354 | the loop stops at the first reply that is not retried or at max_attempts, and nowhere else |
| RetryLoop.HistoryExplains | src/verirun/gateway.py:281-354 | one error per failed attempt; all but the last retryable; attempts - 1 of them on success; the last is the error class on failure; a retryable final error used every attempt; the record is one its validator accepts |
| RetryLoop.EndsExactly | src/verirun/gateway.py:281-345 | success exactly when some allowed attempt is accepted after only retryable failures; an exception escapes exactly when the client raises one on such an attempt |
| RetryLoop.LaterRepliesIgnored | src/verirun/gateway.py:281-354 | replies after the stopping attempt cannot matter |
| Admission.StepKeeps | src/verirun/gateway.py:124-191 | after every step of every caller, cancellation included, tokens in use and permits equal what callers hold, and no waiter sleeps through a release that would admit it |
| Admission.GatewayIsSafeAndLive | src/verirun/gateway.py:124-191 | under every schedule of any callers: tokens in [0, capacity], at most max_concurrency in HTTP, posts at most max_attempts * grants, and some caller can advance or all are done and everything taken is back |
| Admission.NoDeadlock | src/verirun/gateway.py:130-140 | while a caller is unfinished some caller can take a step that is no cancellation |
| Admission.DrainIsBounded | src/verirun/gateway.py:179-191 | once arrivals stop, every schedule ends within a bound known beforehand |
| Admission.OversizeChangesNothing | src/verirun/gateway.py:130-132 | exactly the requests above capacity leave everything else as it was |
| Admission.AdmitsExactlyWhatFits | src/verirun/gateway.py:130-135 | a request is refused exactly above capacity, admitted at once exactly when it fits beside what is held, and waits otherwise; a notified waiter is admitted exactly when it fits |
| Admission.StepsAreCounted | src/verirun/gateway.py:186-188 | over any schedule grants and posts number exactly the passes through the rate limiter and the posts made |
| Admission.Serve | src/verirun/gateway.py:179-191 | any callers at once, in any order and with any cancellations: exactly those above capacity are refused and in the end every token and permit is back |
| Admission.AsyncModelGateway.AcquireTokens | src/verirun/gateway.py:130-135 | the first pass through the token budget |
| Admission.AsyncModelGateway.RecheckTokens | src/verirun/gateway.py:133-135 | a notified waiter tests again |
| Admission.AsyncModelGateway.EnterSemaphore | src/verirun/gateway.py:186-186 | takes one permit |
| Admission.AsyncModelGateway.PassRateLimiter | src/verirun/gateway.py:187-187 | one grant per request, whatever its number of posts |
| Admission.AsyncModelGateway.PostOnce | src/verirun/gateway.py:281-283 | a post inside the retry loop asks for no new grant |
| Admission.AsyncModelGateway.LeaveSemaphore | src/verirun/gateway.py:186-188 | gives the permit back before the tokens |
| Admission.AsyncModelGateway.ReleaseTokens | src/verirun/gateway.py:137-140 | gives back exactly what was taken and notifies every waiter |
| Admission.AsyncModelGateway.CancelCaller | src/verirun/gateway.py:184-191 | cancellation at any suspension point gives a held permit back and leaves held tokens to be released |
| Batch.StepKeeps | src/verirun/gateway.py:207-234 | the queue is exactly the stream between taken and produced; each taken request is in exactly one place: in one worker, finished with a result, or ended by an exception |
| Batch.BatchIsSafeAndLive | src/verirun/gateway.py:207-248 | under every schedule: queue within capacity, each request in exactly one place, a worker stops only after all requests are taken, at most three steps per item, and some step is enabled until completion or an exception |
| Batch.ReturnsExactlyWhenWithinBudget | src/verirun/gateway.py:193-248 | without fail_fast and with a client that raises nothing unexpected, every schedule that is over returned one result per request exactly when no request is above the token budget |
| Batch.OversizeRaises | src/verirun/gateway.py:130-132 | a batch of two, one too large, raises without fail_fast and returns no result |
| Batch.FrontItem | src/verirun/gateway.py:214-218 | a sentinel reaches the front only after every request was taken |
| Batch.NeverStuck | src/verirun/gateway.py:214-234 | some step, needing no exception of the client, is enabled until the batch is complete or an exception has left a worker |
| Batch.FinishIsFirst | src/verirun/gateway.py:228-230 | a result never overwrites another |
| Batch.ResultsAreAnswers | src/verirun/gateway.py:223-224 | under every schedule the results present are exactly the answers requests have ended with: stored unchanged, kept ever after, and nothing else is stored |
| Batch.FailureCarriesEverything | src/verirun/gateway.py:220-232 | a fail-fast failure carries every result there is at that moment and nothing else |
| Batch.CompleteMeansAll | src/verirun/gateway.py:236-248 | at completion every request has its own result, none was above the budget, and nothing is queued |
| Batch.GenerateMany | src/verirun/gateway.py:193-248 | for any event loop: exactly duplicate IDs are refused; otherwise one result per request in request order, or with fail_fast an ordered sub-sequence that contains the failure, or an escaping exception, which names the budget only if some request is above it; with an orderly client and without fail_fast all results are returned exactly when no request is above the budget; the call follows a trace of the event loop's steps: the results and the partial results are exactly the answers of its steps, the failure or exception is that of the last step, and no earlier step raised |
| Combinatorics.SubsetsCount | src/verirun/statistics.py:99-99 | comb(n, k) is the number of k-element index subsets |
| Combinatorics.PassingCount | src/verirun/statistics.py:96-99 | comb(n, k) - comb(n - c, k) of them contain a success |
| Statistics.PassAtKIsExact | src/verirun/statistics.py:91-99 | pass@k is exactly the fraction of k-element index subsets with a success, the early 1.0 included |
| Statistics.PassAtKBounds | src/verirun/statistics.py:91-99 | it lies in [0, 1] and is 0 exactly without successes |
| Statistics.PassAtKGrowsWithSuccesses | src/verirun/statistics.py:91-99 | it does not fall with more successes |
| Statistics.PassAtKGrowsWithK | src/verirun/statistics.py:91-99 | nor with larger k |
| Statistics.MeanIsAverage | src/verirun/statistics.py:105-112 | the mean over one task is its pass@k and totals add up over concatenation, so every task weighs the same; it is refused exactly when some task has fewer than k samples |
| Statistics.MeanIsPooled | src/verirun/statistics.py:105-114 | with equal sample counts mean pass@1 is pooled pass@1 |
| Statistics.AgreeExactlyWhenCountsEqual | src/verirun/statistics.py:105-114 | for given positive counts, mean and pooled pass@1 agree for every outcome of the samples exactly when all counts are equal |
| Statistics.UnequalCountsDiffer | src/verirun/statistics.py:105-114 | a concrete pair of tasks with unequal counts where they differ |
| Statistics.ScoreIsOk | src/verirun/statistics.py:102-114 | a score exists exactly when every task has enough samples for every k; its interval is the Wilson interval of the pooled samples, its rate lies in it, each distinct k is listed once in order with its mean, all numbers in [0, 1] |
| Wilson.WilsonIsScoreTest | src/verirun/statistics.py:77-88 | the clamps never act, 0 <= lower <= p <= upper <= 1, and the interval is exactly the set of proportions with total * (p - x)^2 <= z^2 * x * (1 - x) |
| Wilson.EndsSolveScore | src/verirun/statistics.py:77-88 | both ends satisfy that with equality |
| PairedComparison.DeltaIsWeightedMean | src/verirun/statistics.py:39-45 | with equal counts per pair the delta is the sample-weighted mean of per-task differences |
| PairedComparison.DeltaBounds | src/verirun/statistics.py:157-158 | it lies in [-1, 1] and is not negative when the candidate dominates |
| PairedComparison.DeltaOfRound | src/verirun/statistics.py:117-129 | delta i of the bootstrap is that of the resample of round i, for any number of rounds |
| PairedComparison.IncludedExactly | src/verirun/statistics.py:144-150 | each pair is kept as often as it occurs if neither side is excluded, and left out otherwise |
| PairedComparison.IndicesInRange | src/verirun/statistics.py:130-131 | both indices are in range and ordered |
| PairedComparison.BootstrapDeltaCi | src/verirun/statistics.py:117-132 | for any draws: the ends are the stated order statistics of the resampled deltas, ordered, in [-1, 1], and not negative when the candidate dominates |
| PairedComparison.Conclude | src/verirun/statistics.py:159-176 | sufficient exactly with at least the required pairs and at most the allowed share excluded, compared without division; each reason exactly when its threshold is missed |
| PairedComparison.BuildReport | src/verirun/statistics.py:135-176 | a report exists exactly when task IDs are unique, some pair is included and every k fits; included + excluded = total; scores and delta of the included pairs, interval between the order statistics 49 and 1949 of the deltas of 2000 resamples, verdict as above |

## Left out

- Ray, asyncio, httpx, locks and threads: replaced by arbitrary replies, arbitrary interleavings and arbitrary failures.
- Row locks inside PostgreSQL transactions: each method is one atomic step. `commit_result` does not lock the run row, so "run completed exactly when all tasks are" is claimed for atomic steps only.
- PostgreSQL register, transition, heartbeat and replay: single-row copies of the in-memory operations.
- Which error is raised when several apply differs between the back ends; only successful steps and the conditions above are compared.
- SHA-256 and canonical JSON: an injective function; `Encoding` is not the source's JSON. Field formats, empty strings and time zones are taken as validated.
- Times and CPU estimates are whole microseconds, so a positive lease length that rounds to nothing and finer estimates are not modelled.
- Floating point: statistics and delays are exact reals, square root is any exact root; `int(0.025 * (n - 1))` is taken without rounding error.
- Error messages, latencies, telemetry and the prompt payload.
- Reading operations without branching (`get_plan`, `get_attempt`, `list_results`) and artifact metadata.
- Starvation: a large request may wait as long as smaller ones keep arriving; only progress of some caller and bounded draining are claimed.
- Waiting order in the semaphore and the queue of waiters: any order.
- Cancelling a whole batch from outside: the invariants hold at every point where that can happen, the clean-up is asyncio's.
- Distributed.ExecuteClaims: runs on the in-memory plane without interference by other clients; resource pools and actors are not modelled.
- Admission.DrainIsBounded: the HTTP phase of each caller is assumed to end; its retry loop is bounded by `RetryLoop.RequestWithRetries`.
- `executor.py`, artifact stores, adapters, `reliability.py`, reports, CLI and smoke programs: process plumbing and simple sums.
