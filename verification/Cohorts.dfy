/** When a new run shares a cohort ID with a run of another plan: the exact condition before the call,
    and histories in which it happens. */
module Cohorts {
  import opened Records
  import opened ControlState
  import opened ControlInvariant
  import opened ControlHistory
  import opened ControlTheorems
  import opened ControlCommands
  import opened Encoding
  import Postgres

  /** No run asked for this cohort yet. */
  ghost predicate Unused(s: State, requested: string) {
    forall r :: r in s.runs ==> s.runs[r].requestedCohort != requested
  }

  /** A run of this very plan already has the bare name. */
  ghost predicate PlanOwns(s: State, requested: string, digest: Sha256) {
    exists r :: SamePlan(s, r, requested, digest) && s.runs[r].cohortId == requested
  }

  /** What a caller can test before `create_run`: the stored run `q`, of another plan, will share the ID. */
  ghost predicate WillShare(s: State, requested: string, digest: Sha256, q: string)
    requires q in s.runs
  {
    var other := s.runs[q];
    if other.requestedCohort == requested then
      // neither plan has the bare name and the twelve characters agree
      && other.cohortId != requested && !PlanOwns(s, requested, digest)
      && Prefix12(other.planDigest) == Prefix12(digest)
    else if Unused(s, requested) || PlanOwns(s, requested, digest) then
      // the bare name is the suffixed name that a plan of another cohort was given
      requested == Suffixed(other.requestedCohort, other.planDigest) && other.cohortId != other.requestedCohort
    else
      // the suffixed name is in use for another cohort
      other.cohortId == requested + "~" + Prefix12(digest)
  }

  lemma CohortForIs(s: State, requested: string, digest: Sha256)
    requires CohortsOk(s.runs)
    ensures CohortFor(s, requested, digest) ==
              if Unused(s, requested) || PlanOwns(s, requested, digest) then requested else Suffixed(requested, digest)
  {
    SuffixInjective(requested, digest, digest);
    if exists r :: SamePlan(s, r, requested, digest) {
      var r :| SamePlan(s, r, requested, digest) && CohortFor(s, requested, digest) == s.runs[r].cohortId;
      CohortPair(s, r, r);
      if q :| SamePlan(s, q, requested, digest) && s.runs[q].cohortId == requested { CohortPair(s, q, r); }
    } else {
      UnusedMeansNone(s, requested);
    }
  }

  lemma UnusedMeansNone(s: State, requested: string)
    ensures Unused(s, requested) <==> !exists r :: Related(s, r, requested)
  {
    if !Unused(s, requested) {
      var r :| r in s.runs && s.runs[r].requestedCohort == requested;
      assert Related(s, r, requested);
    }
  }

  lemma SharesExactly(s: State, requested: string, digest: Sha256, q: string)
    requires q in s.runs && s.runs[q].planDigest != digest
    requires CohortsOk(s.runs)
    ensures CohortFor(s, requested, digest) == s.runs[q].cohortId <==> WillShare(s, requested, digest, q)
  {
    hide CohortsOk, CohortFor, Suffixed;
    CohortForIs(s, requested, digest);
    CohortPair(s, q, q);
    var other := s.runs[q];
    SuffixInjective(requested, digest, other.planDigest);
    SuffixInjective(other.requestedCohort, other.planDigest, other.planDigest);
    if r :| SamePlan(s, r, requested, digest) && s.runs[r].cohortId == requested { CohortPair(s, q, r); }
    assert Suffixed(requested, digest) == requested + "~" + Prefix12(digest) by { SuffixIs(requested, digest); }
  }

  lemma SuffixIs(requested: string, digest: Sha256)
    ensures Suffixed(requested, digest) == requested + "~" + Prefix12(digest)
  {}

  /** A new run and a stored run of a different plan get the same cohort ID exactly when `WillShare` holds
      before the call, whatever cohorts the two asked for. */
  lemma NewRunSharesExactly(hash: Content -> Sha256, before: seq<Event>, key: string, c: CreateIntent, now: Time, q: string)
    requires key !in Reached(hash, before).commands
    requires CreateRun(Reached(hash, before), key, c, now).outcome.Ok?
    requires q in Reached(hash, before).runs && Reached(hash, before).runs[q].planDigest != c.planDigest
    requires Injective(hash)
    ensures var s := Reached(hash, before); var t := CreateRun(s, key, c, now).state;
            && c.runId in t.runs
            && (t.runs[c.runId].cohortId == s.runs[q].cohortId <==> WillShare(s, c.requestedCohort, c.planDigest, q))
  {
    hide RunsOk, TasksOk, AttemptsOk, ResultsOk, CohortsOk, ReceiptsOk, PlansOk, Run, Reached, CreateRun, CohortFor, WillShare;
    ReachedInv(hash, before);
    var s := Reached(hash, before);
    CreateAddsRun(s, key, c, now);
    SharesExactly(s, c.requestedCohort, c.planDigest, q);
  }

  /** The cohort of a new run: the requested name for the first plan that asks for it, and otherwise that
      name, a tilde and the first twelve characters of the plan digest. */
  lemma NewRunCohort(hash: Content -> Sha256, before: seq<Event>, key: string, c: CreateIntent, now: Time)
    requires key !in Reached(hash, before).commands
    requires CreateRun(Reached(hash, before), key, c, now).outcome.Ok?
    requires Injective(hash)
    ensures var s := Reached(hash, before); var t := CreateRun(s, key, c, now).state; var n := c.requestedCohort;
            && c.runId in t.runs
            && t.runs[c.runId].cohortId ==
                 if (forall r :: r in s.runs ==> s.runs[r].requestedCohort != n)
                    || (exists r :: r in s.runs && s.runs[r].planDigest == c.planDigest && s.runs[r].cohortId == n)
                 then n
                 else n + "~" + if |c.planDigest| < 12 then c.planDigest else c.planDigest[..12]
  {
    hide RunsOk, TasksOk, AttemptsOk, ResultsOk, CohortsOk, ReceiptsOk, PlansOk, Run, Reached, CreateRun, CohortFor;
    ReachedInv(hash, before);
    var s := Reached(hash, before);
    CreateAddsRun(s, key, c, now);
    CreateNamesItsCohort(s, key, c, now);
    CohortForIs(s, c.requestedCohort, c.planDigest);
    if r :| r in s.runs && s.runs[r].planDigest == c.planDigest && s.runs[r].cohortId == c.requestedCohort {
      NamedPlanOwns(s, key, c, now, r);
    }
  }

  lemma CreateNamesItsCohort(s: State, key: string, c: CreateIntent, now: Time)
    requires key !in s.commands && CreateRun(s, key, c, now).outcome.Ok?
    ensures c.plan in s.plans && s.plans[c.plan].digest == c.planDigest
    ensures s.plans[c.plan].spec.comparisonCohort == c.requestedCohort
  {
    hide CohortFor, NewTasks, DistinctIdentities;
  }

  /** A stored run of the same plan asked for the same cohort. */
  lemma NamedPlanOwns(s: State, key: string, c: CreateIntent, now: Time, r: string)
    requires key !in s.commands && CreateRun(s, key, c, now).outcome.Ok?
    requires r in s.runs && s.runs[r].planDigest == c.planDigest && s.runs[r].cohortId == c.requestedCohort
    requires Inv(s)
    ensures PlanOwns(s, c.requestedCohort, c.planDigest)
  {
    hide RunsOk, TasksOk, AttemptsOk, ResultsOk, CohortsOk, ReceiptsOk, CreateRun;
    RunIsOk(s, r);
    CreateNamesItsCohort(s, key, c, now);
    assert s.hash(PlanContent(s.plans[s.runs[r].plan].spec)) == s.hash(PlanContent(s.plans[c.plan].spec));
    assert SamePlan(s, r, c.requestedCohort, c.planDigest);
  }

  /** The UNIQUE column of the PostgreSQL cohort table refuses exactly the creates after which the new run
      would share its ID with a run of another plan. */
  lemma UniqueColumnRefusesSharing(s: State, key: string, c: CreateIntent, now: Time)
    requires key !in s.commands && CreateRun(s, key, c, now).outcome.Ok?
    requires Inv(s)
    ensures Postgres.CohortClash(s, c) <==>
              exists q :: q in s.runs && s.runs[q].planDigest != c.planDigest
                          && WillShare(s, c.requestedCohort, c.planDigest, q)
  {
    hide Inv, CohortFor, WillShare, CreateRun;
    var t := CreateRun(s, key, c, now).state;
    CreateKeeps(s, key, c, now);
    CreateAddsRun(s, key, c, now);
    forall q | q in s.runs
      ensures s.runs[q].planDigest == c.planDigest ==> Postgres.IndexKey(s.runs[q]) == Postgres.CohortKey(c.requestedCohort, c.planDigest)
      ensures s.runs[q].planDigest != c.planDigest ==>
        (CohortFor(s, c.requestedCohort, c.planDigest) == s.runs[q].cohortId <==> WillShare(s, c.requestedCohort, c.planDigest, q))
    {
      assert t.runs[q] == s.runs[q];
      if s.runs[q].planDigest == c.planDigest {
        EqualDigestsShareCohort(t, q, c.runId);
      } else {
        SharesIn(s, c.requestedCohort, c.planDigest, q);
      }
    }
  }

  lemma SharesIn(s: State, requested: string, digest: Sha256, q: string)
    requires q in s.runs && s.runs[q].planDigest != digest
    requires Inv(s)
    ensures CohortFor(s, requested, digest) == s.runs[q].cohortId <==> WillShare(s, requested, digest, q)
  {
    hide RunsOk, TasksOk, AttemptsOk, ResultsOk, CohortsOk, ReceiptsOk, PlansOk, CohortFor, WillShare;
    SharesExactly(s, requested, digest, q);
  }

  // ----- histories in which it happens -----

  /** Two runs of different plans with one cohort ID. */
  ghost predicate Shared(s: State, r: string, q: string) {
    r in s.runs && q in s.runs && s.runs[r].planDigest != s.runs[q].planDigest && s.runs[r].cohortId == s.runs[q].cohortId
  }

  function SpecNamed(revision: string, cohort: string): PlanSpec {
    PlanSpec(TaskSpec("task", "family", []), EvaluationIntent("intent", []),
             [VerifierNode("verifier", "adapter", "1", "", "", [], 0, 0)], [],
             AggregationPolicy("policy", "1", "mean", ""), revision, [], cohort, BudgetEstimate(1, 0, 0, 1))
  }

  function PlanNamed(hash: Content -> Sha256, id: string, cohort: string): VerificationPlan {
    var spec := SpecNamed(id, cohort);
    VerificationPlan(PlanKey(id, 1), hash(PlanContent(spec)), spec, PlanState.Frozen, 0, 0, None)
  }

  /** Registers a frozen plan and creates one run of it, all under the name `id`. */
  function Launch(hash: Content -> Sha256, id: string, cohort: string): seq<Event> {
    var plan := PlanNamed(hash, id, cohort);
    [Register(plan), Create(id, CreateIntent(id, cohort, plan.key, plan.digest, [RunTaskInput("task", "candidate", "")], None), 0)]
  }

  ghost predicate Fresh(s: State, id: string) {
    PlanKey(id, 1) !in s.plans && id !in s.runs && id !in s.commands
  }

  /** `t` is `s` with the run `id` added. */
  ghost predicate Launched(s: State, t: State, id: string, cohort: string) {
    var digest := s.hash(PlanContent(SpecNamed(id, cohort)));
    && t.hash == s.hash
    && id in t.runs && t.runs.Keys == s.runs.Keys + {id}
    && (forall r :: r in s.runs ==> t.runs[r] == s.runs[r])
    && t.runs[id].requestedCohort == cohort && t.runs[id].planDigest == digest
    && t.runs[id].cohortId == CohortFor(s, cohort, digest)
    && (forall other :: other != id && Fresh(s, other) ==> Fresh(t, other))
  }

  lemma RunTwo(s: State, e: Event, f: Event)
    ensures Run(s, [e, f]) == Next(Next(s, e), f)
  {
    hide Next;
    assert [e, f][1..] == [f] && [f][1..] == [];
    assert Run(s, [e, f]) == Run(Next(s, e), [f]);
    assert Run(Next(s, e), [f]) == Run(Next(Next(s, e), f), []);
  }

  /** A create that meets every condition succeeds. */
  lemma CreateAccepted(s: State, key: string, c: CreateIntent, now: Time)
    requires key !in s.commands && c.runId !in s.runs && c.tasks != [] && DistinctIdentities(c.tasks) && c.plan in s.plans
    requires s.plans[c.plan].state.Frozen? && s.plans[c.plan].digest == c.planDigest
    requires s.plans[c.plan].spec.comparisonCohort == c.requestedCohort
    ensures var t := CreateRun(s, key, c, now).state;
            && CreateRun(s, key, c, now).outcome.Ok?
            && t.hash == s.hash && t.plans == s.plans && t.commands.Keys == s.commands.Keys + {key}
  {
    hide CohortFor, NewTasks, DistinctIdentities;
  }

  lemma LaunchWorks(s: State, id: string, cohort: string)
    requires Fresh(s, id)
    requires Inv(s)
    ensures Inv(Run(s, Launch(s.hash, id, cohort))) && Launched(s, Run(s, Launch(s.hash, id, cohort)), id, cohort)
  {
    hide Inv, CohortFor, NewTasks, SpecNamed, CreateRun, Run;
    SpecCohort(id, cohort);
    var plan := PlanNamed(s.hash, id, cohort);
    var es := Launch(s.hash, id, cohort);
    var c := es[1].intent;
    var s1 := Next(s, es[0]);
    assert s1 == s.(plans := s.plans[plan.key := plan]);
    var t := Next(s1, es[1]);
    RunTwo(s, es[0], es[1]);
    NextKeeps(s, es[0]);
    NextKeeps(s1, es[1]);
    CreateAccepted(s1, id, c, 0);
    CreateAddsRun(s1, id, c, 0);
    SameRunsSameCohort(s, s1, cohort, plan.digest);
  }

  lemma SpecCohort(id: string, cohort: string)
    ensures SpecNamed(id, cohort).comparisonCohort == cohort && SpecNamed(id, cohort).policyRevision == id
  {}

  lemma SameRunsSameCohort(s: State, t: State, cohort: string, digest: Sha256)
    requires s.runs == t.runs
    requires Inv(s)
    ensures CohortFor(t, cohort, digest) == CohortFor(s, cohort, digest)
  {
    hide CohortFor, RunsOk, TasksOk, AttemptsOk, ResultsOk, CohortsOk, ReceiptsOk, PlansOk;
    CohortForIs(s, cohort, digest);
    CohortForIs(t, cohort, digest);
    assert Unused(s, cohort) <==> Unused(t, cohort);
    assert PlanOwns(s, cohort, digest) <==> PlanOwns(t, cohort, digest) by {
      forall r ensures SamePlan(s, r, cohort, digest) <==> SamePlan(t, r, cohort, digest) {}
    }
  }

  lemma DigestsDiffer(hash: Content -> Sha256, a: string, x: string, b: string, y: string)
    requires Injective(hash) && a != b
    ensures hash(PlanContent(SpecNamed(a, x))) != hash(PlanContent(SpecNamed(b, y)))
  {
    SpecCohort(a, x);
    SpecCohort(b, y);
    hide SpecNamed;
    assert PlanContent(SpecNamed(a, x)) != PlanContent(SpecNamed(b, y));
  }

  lemma {:induction false} RunConcat(s: State, xs: seq<Event>, ys: seq<Event>)
    ensures Run(s, xs + ys) == Run(Run(s, xs), ys)
    decreases |xs|
  {
    hide Next;
    if xs == [] {
      assert xs + ys == ys;
    } else {
      assert (xs + ys)[1..] == xs[1..] + ys;
      RunConcat(Next(s, xs[0]), xs[1..], ys);
    }
  }

  /** Plans "a" and "b" in cohort "c", then plan "d" in a cohort of the caller's choice. */
  function ThreeRuns(hash: Content -> Sha256, last: string): seq<Event> {
    Launch(hash, "a", "c") + Launch(hash, "b", "c") + Launch(hash, "d", last)
  }

  lemma ThreeRunsReach(hash: Content -> Sha256, last: string)
    requires Injective(hash)
    ensures var s := Reached(hash, ThreeRuns(hash, last));
            && "a" in s.runs && "b" in s.runs && "d" in s.runs && s.runs["b"].planDigest != s.runs["d"].planDigest
            && s.runs["b"].planDigest == hash(PlanContent(SpecNamed("b", "c")))
            && s.runs["d"].planDigest == hash(PlanContent(SpecNamed("d", last)))
            && s.runs["b"].requestedCohort == "c" && s.runs["d"].requestedCohort == last
            && s.runs["b"].cohortId == Suffixed("c", s.runs["b"].planDigest)
            && s.runs["d"].cohortId == if last == "c" then Suffixed("c", s.runs["d"].planDigest) else last
  {
    hide Inv, Run, Launch, SpecNamed, Suffixed, CohortFor;
    var s0 := Empty(hash);
    EmptyInv(hash);
    LaunchWorks(s0, "a", "c");
    var s1 := Run(s0, Launch(hash, "a", "c"));
    LaunchWorks(s1, "b", "c");
    var s2 := Run(s1, Launch(hash, "b", "c"));
    LaunchWorks(s2, "d", last);
    RunConcat(s0, Launch(hash, "a", "c"), Launch(hash, "b", "c"));
    RunConcat(s0, Launch(hash, "a", "c") + Launch(hash, "b", "c"), Launch(hash, "d", last));
    DigestsDiffer(hash, "a", "c", "b", "c");
    DigestsDiffer(hash, "a", "c", "d", last);
    DigestsDiffer(hash, "b", "c", "d", last);
    NamesAre(s0, s1, s2, last);
  }

  lemma NamesAre(s0: State, s1: State, s2: State, last: string)
    requires s0 == Empty(s0.hash) && Launched(s0, s1, "a", "c") && Launched(s1, s2, "b", "c")
    requires var hash := s0.hash; var a := hash(PlanContent(SpecNamed("a", "c"))); var b := hash(PlanContent(SpecNamed("b", "c")));
             var d := hash(PlanContent(SpecNamed("d", last))); a != b && a != d && b != d
    requires Inv(s0) && Inv(s1) && Inv(s2)
    ensures s2.runs["b"].cohortId == Suffixed("c", s2.runs["b"].planDigest)
    ensures var d := s0.hash(PlanContent(SpecNamed("d", last)));
            CohortFor(s2, last, d) == if last == "c" then Suffixed("c", d) else last
  {
    hide RunsOk, TasksOk, AttemptsOk, ResultsOk, CohortsOk, ReceiptsOk, PlansOk, CohortFor, Suffixed, SpecNamed;
    var d := s0.hash(PlanContent(SpecNamed("d", last)));
    CohortForIs(s0, "c", s1.runs["a"].planDigest);
    CohortForIs(s1, "c", s2.runs["b"].planDigest);
    CohortForIs(s2, last, d);
    assert s1.runs["a"].requestedCohort == "c" && s2.runs["a"] == s1.runs["a"];
    assert !Unused(s1, "c") && !Unused(s2, "c");
  }

  /** For every injective hash: a plan whose requested cohort is another plan's suffixed name shares its ID,
      without any collision of digest prefixes. */
  lemma OtherCohortCollides(hash: Content -> Sha256)
    requires Injective(hash)
    ensures var last := Suffixed("c", hash(PlanContent(SpecNamed("b", "c"))));
            var s := Reached(hash, ThreeRuns(hash, last));
            Shared(s, "b", "d") && s.runs["b"].requestedCohort != s.runs["d"].requestedCohort
  {
    hide Run, ThreeRuns, Reached, SpecNamed;
    var digest := hash(PlanContent(SpecNamed("b", "c")));
    SuffixInjective("c", digest, digest);
    ThreeRunsReach(hash, Suffixed("c", digest));
  }

  /** There are injective hashes under which two plans of one cohort share an ID because the first twelve
      characters of their digests agree. */
  lemma PrefixCollides()
    ensures exists hash: Content -> Sha256 :: Injective(hash) && PrefixShared(hash)
  {
    var hash := Prefixed("000000000000");
    PrefixedInjective("000000000000");
    ThreeRunsReach(hash, "c");
    var s := Reached(hash, ThreeRuns(hash, "c"));
    hide Run, ThreeRuns, Reached, SpecNamed, Encode;
    assert Prefix12(s.runs["b"].planDigest) == "000000000000" == Prefix12(s.runs["d"].planDigest);
    SuffixInjective("c", s.runs["b"].planDigest, s.runs["d"].planDigest);
    assert PrefixShared(hash);
  }

  ghost predicate PrefixShared(hash: Content -> Sha256) {
    var s := Reached(hash, ThreeRuns(hash, "c"));
    Shared(s, "b", "d") && s.runs["b"].requestedCohort == s.runs["d"].requestedCohort
  }
}
