/** Admission of any number of concurrent callers to one gateway: token budget, then semaphore, then
    rate limiter, then HTTP. One step is the code a caller runs between two suspension points. */
module Admission {

  datatype Limits = Limits(capacity: nat, maxConcurrency: nat, maxAttempts: nat)

  ghost predicate LimitsOk(l: Limits) { l.capacity > 0 && l.maxConcurrency > 0 && l.maxAttempts > 0 }

  datatype Phase =
    | Waiting(notified: bool)  // for tokens, in the condition's queue
    | Admitted                 // has tokens, waits for the semaphore
    | Permitted                // has tokens and a permit, waits for its slot
    | Calling(posts: nat)      // in the HTTP phase
    | Releasing                // has tokens, gave its permit back
    | Done                     // returned, failed, rejected or cancelled

  datatype Caller = Caller(tokens: nat, phase: Phase)

  datatype State = State(inUse: int, permits: int, grants: nat, posts: nat, callers: seq<Caller>)

  function Fresh(l: Limits): State { State(0, l.maxConcurrency, 0, 0, []) }

  datatype Step =
    | Arrive(tokens: nat)
    | Recheck(c: nat)
    | TakePermit(c: nat)
    | TakeSlot(c: nat)
    | Post(c: nat)
    | Return(c: nat)   // the retry loop ends, with a result or an exception
    | Release(c: nat)
    | Cancel(c: nat)

  predicate HasTokens(p: Phase) { p.Admitted? || p.Permitted? || p.Calling? || p.Releasing? }

  predicate HasPermit(p: Phase) { p.Permitted? || p.Calling? }

  predicate Enabled(l: Limits, s: State, step: Step) {
    if step.Arrive? then true
    else
      && step.c < |s.callers|
      && var p := s.callers[step.c].phase;
         match step
         case Recheck(_) => p.Waiting? && p.notified
         case TakePermit(_) => p.Admitted? && s.permits > 0
         case TakeSlot(_) => p.Permitted?
         case Post(_) => p.Calling? && p.posts < l.maxAttempts
         case Return(_) => p.Calling?
         case Release(_) => p.Releasing?
         case Cancel(_) => p.Waiting? || p.Admitted? || p.Permitted? || p.Calling?
  }

  function Move(s: State, c: nat, p: Phase): seq<Caller>
    requires c < |s.callers|
  {
    s.callers[c := s.callers[c].(phase := p)]
  }

  /** `notify_all`. */
  function Notify(c: Caller): Caller {
    if c.phase.Waiting? then c.(phase := Waiting(true)) else c
  }

  function NotifyAll(callers: seq<Caller>): (r: seq<Caller>)
    ensures |r| == |callers| && forall i :: 0 <= i < |r| ==> r[i] == Notify(callers[i])
  {
    seq(|callers|, i requires 0 <= i < |callers| => Notify(callers[i]))
  }

  function Next(l: Limits, s: State, step: Step): State
    requires Enabled(l, s, step)
  {
    match step
    case Arrive(tokens) =>
      if tokens > l.capacity then s.(callers := s.callers + [Caller(tokens, Done)])
      else if s.inUse + tokens <= l.capacity then
        s.(inUse := s.inUse + tokens, callers := s.callers + [Caller(tokens, Admitted)])
      else s.(callers := s.callers + [Caller(tokens, Waiting(false))])
    case Recheck(c) =>
      if s.inUse + s.callers[c].tokens <= l.capacity then
        s.(inUse := s.inUse + s.callers[c].tokens, callers := Move(s, c, Admitted))
      else s.(callers := Move(s, c, Waiting(false)))
    case TakePermit(c) => s.(permits := s.permits - 1, callers := Move(s, c, Permitted))
    case TakeSlot(c) => s.(grants := s.grants + 1, callers := Move(s, c, Calling(0)))
    case Post(c) => s.(posts := s.posts + 1, callers := Move(s, c, Calling(s.callers[c].phase.posts + 1)))
    case Return(c) => s.(permits := s.permits + 1, callers := Move(s, c, Releasing))
    case Release(c) => s.(inUse := s.inUse - s.callers[c].tokens, callers := NotifyAll(Move(s, c, Done)))
    case Cancel(c) =>
      match s.callers[c].phase
      case Waiting(_) => s.(callers := Move(s, c, Done))
      case Admitted => s.(callers := Move(s, c, Releasing))
      case _ => s.(permits := s.permits + 1, callers := Move(s, c, Releasing))
  }

  // ----- what is held -----

  function Tokens(callers: seq<Caller>): nat {
    if callers == [] then 0
    else Tokens(callers[..|callers| - 1])
         + if HasTokens(callers[|callers| - 1].phase) then callers[|callers| - 1].tokens else 0
  }

  function Permits(callers: seq<Caller>): nat {
    if callers == [] then 0
    else Permits(callers[..|callers| - 1]) + if HasPermit(callers[|callers| - 1].phase) then 1 else 0
  }

  function InHttp(callers: seq<Caller>): nat {
    if callers == [] then 0
    else InHttp(callers[..|callers| - 1]) + if callers[|callers| - 1].phase.Calling? then 1 else 0
  }

  /** Posts still allowed to the callers in the HTTP phase. */
  function PostsLeft(l: Limits, callers: seq<Caller>): int {
    if callers == [] then 0
    else
      var last := callers[|callers| - 1].phase;
      PostsLeft(l, callers[..|callers| - 1]) + if last.Calling? then l.maxAttempts - last.posts else 0
  }

  /** Posts allowed in all after so many grants. */
  function Allowance(l: Limits, grants: nat): nat {
    if grants == 0 then 0 else Allowance(l, grants - 1) + l.maxAttempts
  }

  lemma {:induction false} AllowanceIs(l: Limits, grants: nat)
    ensures Allowance(l, grants) == l.maxAttempts * grants
  {
    if grants > 0 {
      AllowanceIs(l, grants - 1);
      assert l.maxAttempts * grants == l.maxAttempts * (grants - 1) + l.maxAttempts;
    }
  }

  /** Every counter equals what the callers hold; nobody sleeps through a release that would admit it. */
  ghost predicate Inv(l: Limits, s: State) {
    && LimitsOk(l)
    && s.inUse == Tokens(s.callers) <= l.capacity
    && s.permits == l.maxConcurrency - Permits(s.callers) && s.permits >= 0
    && s.posts + PostsLeft(l, s.callers) <= Allowance(l, s.grants)
    && forall c :: 0 <= c < |s.callers| ==> CallerOk(l, s.inUse, s.callers[c])
  }

  ghost predicate CallerOk(l: Limits, inUse: int, c: Caller) {
    && (!c.phase.Done? ==> c.tokens <= l.capacity)
    && (c.phase.Waiting? && !c.phase.notified ==> inUse + c.tokens > l.capacity)
    && (c.phase.Calling? ==> c.phase.posts <= l.maxAttempts)
  }

  lemma {:induction false} MoveCounts(l: Limits, callers: seq<Caller>, i: nat, p: Phase)
    requires i < |callers|
    ensures var was := callers[i].phase; var after := callers[i := callers[i].(phase := p)];
            && Tokens(after) == Tokens(callers)
                 + (if HasTokens(p) then callers[i].tokens else 0) - (if HasTokens(was) then callers[i].tokens else 0)
            && Permits(after) == Permits(callers) + (if HasPermit(p) then 1 else 0) - (if HasPermit(was) then 1 else 0)
            && PostsLeft(l, after) == PostsLeft(l, callers)
                 + (if p.Calling? then l.maxAttempts - p.posts else 0)
                 - (if was.Calling? then l.maxAttempts - was.posts else 0)
  {
    var n := |callers| - 1;
    var after := callers[i := callers[i].(phase := p)];
    if i < n {
      MoveCounts(l, callers[..n], i, p);
      assert after[..n] == callers[..n][i := callers[i].(phase := p)];
    } else {
      assert after[..n] == callers[..n];
    }
  }

  lemma {:induction false} NotifyCounts(l: Limits, callers: seq<Caller>)
    ensures Tokens(NotifyAll(callers)) == Tokens(callers)
    ensures Permits(NotifyAll(callers)) == Permits(callers)
    ensures PostsLeft(l, NotifyAll(callers)) == PostsLeft(l, callers)
  {
    if callers != [] {
      var n := |callers| - 1;
      NotifyCounts(l, callers[..n]);
      assert NotifyAll(callers)[..n] == NotifyAll(callers[..n]);
    }
  }

  lemma AppendCounts(l: Limits, callers: seq<Caller>, c: Caller)
    ensures Tokens(callers + [c]) == Tokens(callers) + if HasTokens(c.phase) then c.tokens else 0
    ensures Permits(callers + [c]) == Permits(callers) + if HasPermit(c.phase) then 1 else 0
    ensures PostsLeft(l, callers + [c]) ==
            PostsLeft(l, callers) + if c.phase.Calling? then l.maxAttempts - c.phase.posts else 0
  {
    assert (callers + [c])[..|callers|] == callers;
  }

  lemma ReleaseKeeps(l: Limits, s: State, c: nat)
    requires Inv(l, s) && Enabled(l, s, Release(c))
    ensures Inv(l, Next(l, s, Release(c)))
  {
    hide Tokens, Permits, PostsLeft;
    MoveCounts(l, s.callers, c, Done);
    NotifyCounts(l, Move(s, c, Done));
  }

  lemma ArriveKeeps(l: Limits, s: State, tokens: nat)
    requires Inv(l, s)
    ensures Inv(l, Next(l, s, Arrive(tokens)))
  {
    hide Tokens, Permits, PostsLeft;
    AppendCounts(l, s.callers, Next(l, s, Arrive(tokens)).callers[|s.callers|]);
  }

  lemma MoveKeeps(l: Limits, s: State, step: Step)
    requires Inv(l, s) && Enabled(l, s, step) && !step.Arrive? && !step.Release?
    ensures Inv(l, Next(l, s, step))
  {
    hide Tokens, Permits, PostsLeft;
    MoveCounts(l, s.callers, step.c, Next(l, s, step).callers[step.c].phase);
  }

  /** Every step of every caller, cancellation included, keeps the invariant. */
  lemma StepKeeps(l: Limits, s: State, step: Step)
    requires Enabled(l, s, step)
    requires Inv(l, s)
    ensures Inv(l, Next(l, s, step))
  {
    hide Inv, Next;
    match step
    case Arrive(tokens) => ArriveKeeps(l, s, tokens);
    case Release(c) => ReleaseKeeps(l, s, c);
    case _ => MoveKeeps(l, s, step);
  }

  // ----- safety -----

  lemma {:induction false} HttpHoldsPermits(callers: seq<Caller>)
    ensures InHttp(callers) <= Permits(callers)
  {
    if callers != [] { HttpHoldsPermits(callers[..|callers| - 1]); }
  }

  lemma {:induction false} PostsLeftIsNat(l: Limits, callers: seq<Caller>)
    requires forall c :: 0 <= c < |callers| && callers[c].phase.Calling? ==> callers[c].phase.posts <= l.maxAttempts
    ensures PostsLeft(l, callers) >= 0
  {
    if callers != [] { PostsLeftIsNat(l, callers[..|callers| - 1]); }
  }

  /** Tokens and HTTP requests in flight stay within their limits, and posts within the attempts
      allowed per grant of the rate limiter. */
  lemma LimitsHold(l: Limits, s: State)
    requires Inv(l, s)
    ensures 0 <= Tokens(s.callers) <= l.capacity && InHttp(s.callers) <= l.maxConcurrency
    ensures s.posts <= l.maxAttempts * s.grants
  {
    HttpHoldsPermits(s.callers);
    PostsLeftIsNat(l, s.callers);
    AllowanceIs(l, s.grants);
  }

  /** A request larger than the budget is refused at once and nothing else changes. */
  lemma OversizeChangesNothing(l: Limits, s: State, tokens: nat)
    ensures Next(l, s, Arrive(tokens)) == s.(callers := s.callers + [Caller(tokens, Done)]) <==> tokens > l.capacity
  {
    assert forall p: Phase :: (s.callers + [Caller(tokens, p)])[|s.callers|].phase == p;
  }

  /** An arriving request is refused when it is above the capacity, admitted at once when it fits beside what
      is held, and otherwise waits; a notified waiter is admitted exactly when it fits. */
  lemma AdmitsExactlyWhatFits(l: Limits, s: State, tokens: nat, c: nat)
    requires Inv(l, s)
    ensures var held := Tokens(s.callers); var phase := Next(l, s, Arrive(tokens)).callers[|s.callers|].phase;
            && (phase.Done? <==> tokens > l.capacity)
            && (phase.Admitted? <==> held + tokens <= l.capacity)
            && (phase == Waiting(false) <==> tokens <= l.capacity < held + tokens)
    ensures Enabled(l, s, Recheck(c)) ==>
              var phase := Next(l, s, Recheck(c)).callers[c].phase;
              && (phase.Admitted? <==> Tokens(s.callers) + s.callers[c].tokens <= l.capacity)
              && (phase == Waiting(false) <==> Tokens(s.callers) + s.callers[c].tokens > l.capacity)
  {
    hide Tokens, Permits, PostsLeft;
  }

  // ----- liveness: no deadlock, and draining takes a bounded number of steps -----

  predicate Progress(step: Step) { !step.Arrive? && !step.Cancel? }

  ghost predicate CanAdvance(l: Limits, s: State) {
    exists step :: Progress(step) && Enabled(l, s, step)
  }

  lemma {:induction false} SomeHolder(callers: seq<Caller>) returns (i: nat)
    requires Tokens(callers) > 0
    ensures i < |callers| && HasTokens(callers[i].phase)
  {
    i := |callers| - 1;
    if !HasTokens(callers[i].phase) { i := SomeHolder(callers[..i]); }
  }

  lemma {:induction false} SomePermit(callers: seq<Caller>) returns (i: nat)
    requires Permits(callers) > 0
    ensures i < |callers| && HasPermit(callers[i].phase)
  {
    i := |callers| - 1;
    if !HasPermit(callers[i].phase) { i := SomePermit(callers[..i]); }
  }

  lemma PermitAdvances(l: Limits, s: State, c: nat)
    requires c < |s.callers| && HasPermit(s.callers[c].phase)
    ensures CanAdvance(l, s)
  {
    assert Enabled(l, s, if s.callers[c].phase.Permitted? then TakeSlot(c) else Return(c));
  }

  lemma HolderAdvances(l: Limits, s: State, c: nat)
    requires Inv(l, s) && c < |s.callers| && HasTokens(s.callers[c].phase)
    ensures CanAdvance(l, s)
  {
    if HasPermit(s.callers[c].phase) {
      PermitAdvances(l, s, c);
    } else if s.callers[c].phase.Releasing? {
      assert Enabled(l, s, Release(c));
    } else if s.permits > 0 {
      assert Enabled(l, s, TakePermit(c));
    } else {
      var d := SomePermit(s.callers);
      PermitAdvances(l, s, d);
    }
  }

  /** While some caller is unfinished, some caller can take a step that is not a cancellation. */
  lemma NoDeadlock(l: Limits, s: State, c: nat)
    requires Inv(l, s) && c < |s.callers| && !s.callers[c].phase.Done?
    ensures CanAdvance(l, s)
  {
    if HasTokens(s.callers[c].phase) {
      HolderAdvances(l, s, c);
    } else if s.callers[c].phase.notified {
      assert Enabled(l, s, Recheck(c));
    } else {
      var d := SomeHolder(s.callers);
      HolderAdvances(l, s, d);
    }
  }

  lemma {:induction false} NobodyHolds(callers: seq<Caller>)
    requires forall c :: 0 <= c < |callers| ==> callers[c].phase.Done?
    ensures Tokens(callers) == 0 && Permits(callers) == 0
  {
    if callers != [] { NobodyHolds(callers[..|callers| - 1]); }
  }

  /** When nobody can advance, everybody is done and every token and permit is back. */
  lemma QuietMeansReturned(l: Limits, s: State)
    requires Inv(l, s) && !CanAdvance(l, s)
    ensures s.inUse == 0 && s.permits == l.maxConcurrency
    ensures forall c :: 0 <= c < |s.callers| ==> s.callers[c].phase.Done?
  {
    forall c | 0 <= c < |s.callers| ensures s.callers[c].phase.Done? {
      if !s.callers[c].phase.Done? { NoDeadlock(l, s, c); }
    }
    NobodyHolds(s.callers);
  }

  /** Steps a caller still has ahead of it, apart from failed rechecks. */
  function Rank(l: Limits, p: Phase): nat {
    match p
    case Waiting(_) => l.maxAttempts + 5
    case Admitted => l.maxAttempts + 4
    case Permitted => l.maxAttempts + 3
    case Calling(n) => if n <= l.maxAttempts then l.maxAttempts - n + 2 else 2
    case Releasing => 1
    case Done => 0
  }

  function Ranks(l: Limits, callers: seq<Caller>): nat {
    if callers == [] then 0
    else Ranks(l, callers[..|callers| - 1]) + Rank(l, callers[|callers| - 1].phase)
  }

  predicate Notified(p: Phase) { p.Waiting? && p.notified }

  function Notifieds(callers: seq<Caller>): nat {
    if callers == [] then 0
    else Notifieds(callers[..|callers| - 1]) + if Notified(callers[|callers| - 1].phase) then 1 else 0
  }

  /** One release wakes at most everybody, so it is worth one more than the number of callers. */
  function Remaining(l: Limits, s: State): nat {
    (|s.callers| + 1) * Ranks(l, s.callers) + Notifieds(s.callers)
  }

  lemma {:induction false} MoveRanks(l: Limits, callers: seq<Caller>, i: nat, p: Phase)
    requires i < |callers|
    ensures var was := callers[i].phase; var after := callers[i := callers[i].(phase := p)];
            && Ranks(l, after) == Ranks(l, callers) + Rank(l, p) - Rank(l, was)
            && Notifieds(after) == Notifieds(callers) + (if Notified(p) then 1 else 0) - (if Notified(was) then 1 else 0)
  {
    var n := |callers| - 1;
    var after := callers[i := callers[i].(phase := p)];
    if i < n {
      MoveRanks(l, callers[..n], i, p);
      assert after[..n] == callers[..n][i := callers[i].(phase := p)];
    } else {
      assert after[..n] == callers[..n];
    }
  }

  lemma {:induction false} NotifyRanks(l: Limits, callers: seq<Caller>)
    ensures Ranks(l, NotifyAll(callers)) == Ranks(l, callers)
    ensures Notifieds(NotifyAll(callers)) <= |callers|
  {
    if callers != [] {
      var n := |callers| - 1;
      NotifyRanks(l, callers[..n]);
      assert NotifyAll(callers)[..n] == NotifyAll(callers[..n]);
    }
  }

  lemma Lower(n: nat, high: nat, low: nat, a: nat, b: nat)
    requires (low < high && b <= n) || (low == high && b < a)
    ensures (n + 1) * low + b < (n + 1) * high + a
  {
    if low < high {
      ScaleStep(n + 1, low, high - low);
    }
  }

  lemma ScaleStep(n: nat, low: nat, gap: nat)
    requires gap >= 1
    ensures n * low + n <= n * (low + gap)
  {
    assert n * (low + gap) == n * low + n * gap;
    assert n * gap >= n;
  }

  /** Every step but an arrival lowers the measure. */
  lemma StepLowers(l: Limits, s: State, step: Step)
    requires Inv(l, s) && Enabled(l, s, step) && !step.Arrive?
    ensures Remaining(l, Next(l, s, step)) < Remaining(l, s)
  {
    hide Ranks, Notifieds, Tokens, Permits, PostsLeft;
    var after := Next(l, s, step);
    if step.Release? {
      MoveRanks(l, s.callers, step.c, Done);
      NotifyRanks(l, Move(s, step.c, Done));
    } else {
      MoveRanks(l, s.callers, step.c, after.callers[step.c].phase);
      NotifiedsBound(s.callers);
    }
    Lower(|s.callers|, Ranks(l, s.callers), Ranks(l, after.callers), Notifieds(s.callers), Notifieds(after.callers));
  }

  lemma {:induction false} NotifiedsBound(callers: seq<Caller>)
    ensures Notifieds(callers) <= |callers|
  {
    if callers != [] { NotifiedsBound(callers[..|callers| - 1]); }
  }

  // ----- whole schedules -----

  ghost predicate Schedule(l: Limits, s: State, steps: seq<Step>)
    decreases |steps|
  {
    steps != [] ==> Enabled(l, s, steps[0]) && Schedule(l, Next(l, s, steps[0]), steps[1..])
  }

  ghost function After(l: Limits, s: State, steps: seq<Step>): State
    requires Schedule(l, s, steps)
    decreases |steps|
  {
    if steps == [] then s else After(l, Next(l, s, steps[0]), steps[1..])
  }

  lemma {:induction false} ScheduleKeeps(l: Limits, s: State, steps: seq<Step>)
    requires Schedule(l, s, steps)
    requires Inv(l, s)
    ensures Inv(l, After(l, s, steps))
    decreases |steps|
  {
    hide Inv, Next, Enabled;
    if steps != [] {
      StepKeeps(l, s, steps[0]);
      ScheduleKeeps(l, Next(l, s, steps[0]), steps[1..]);
    }
  }

  function CountOf(steps: seq<Step>, slots: bool): nat {
    if steps == [] then 0
    else (if (if slots then steps[0].TakeSlot? else steps[0].Post?) then 1 else 0) + CountOf(steps[1..], slots)
  }

  /** Grants and posts are exactly the passes through the rate limiter and the posts made. */
  lemma {:induction false} StepsAreCounted(l: Limits, s: State, steps: seq<Step>)
    requires Schedule(l, s, steps)
    ensures After(l, s, steps).grants == s.grants + CountOf(steps, true)
    ensures After(l, s, steps).posts == s.posts + CountOf(steps, false)
    decreases |steps|
  {
    hide Enabled;
    if steps != [] {
      StepIsCounted(l, s, steps[0]);
      hide Next;
      StepsAreCounted(l, Next(l, s, steps[0]), steps[1..]);
    }
  }

  lemma StepIsCounted(l: Limits, s: State, step: Step)
    requires Enabled(l, s, step)
    ensures Next(l, s, step).grants == s.grants + (if step.TakeSlot? then 1 else 0)
    ensures Next(l, s, step).posts == s.posts + (if step.Post? then 1 else 0)
  {}

  /** Under every schedule of every caller of a fresh gateway: limits hold, and either some caller can
      advance or all are done and everything taken is back. */
  lemma GatewayIsSafeAndLive(l: Limits, steps: seq<Step>)
    requires LimitsOk(l) && Schedule(l, Fresh(l), steps)
    ensures var s := After(l, Fresh(l), steps);
            && 0 <= s.inUse == Tokens(s.callers) <= l.capacity && InHttp(s.callers) <= l.maxConcurrency
            && s.posts <= l.maxAttempts * s.grants
            && (CanAdvance(l, s) || (s.inUse == 0 && s.permits == l.maxConcurrency
                                     && forall c :: 0 <= c < |s.callers| ==> s.callers[c].phase.Done?))
  {
    hide CanAdvance, After;
    assert Inv(l, Fresh(l));
    ScheduleKeeps(l, Fresh(l), steps);
    var s := After(l, Fresh(l), steps);
    LimitsHold(l, s);
    if !CanAdvance(l, s) { QuietMeansReturned(l, s); }
  }

  /** Once arrivals stop, any schedule ends after a bounded number of steps. */
  lemma {:induction false} DrainIsBounded(l: Limits, s: State, steps: seq<Step>)
    requires Schedule(l, s, steps) && forall i :: 0 <= i < |steps| ==> !steps[i].Arrive?
    requires Inv(l, s)
    ensures |steps| + Remaining(l, After(l, s, steps)) <= Remaining(l, s)
    decreases |steps|
  {
    hide Inv, Next, Enabled, Remaining;
    if steps != [] {
      StepKeeps(l, s, steps[0]);
      StepLowers(l, s, steps[0]);
      DrainIsBounded(l, Next(l, s, steps[0]), steps[1..]);
    }
  }

  // ----- the gateway object -----

  class AsyncModelGateway {
    const limits: Limits
    var inUse: int
    var permits: int
    var grants: nat
    var posts: nat
    var callers: seq<Caller>

    ghost function Abs(): State
      reads this
    {
      State(inUse, permits, grants, posts, callers)
    }

    ghost predicate Valid()
      reads this
    {
      Inv(limits, Abs())
    }

    constructor (l: Limits)
      requires LimitsOk(l)
      ensures Valid() && limits == l && Abs() == Fresh(l)
    {
      limits := l;
      inUse, permits, grants, posts, callers := 0, l.maxConcurrency, 0, 0, [];
    }

    /** Asks for tokens: refused, admitted, or left waiting. */
    method AcquireTokens(tokens: nat) returns (refused: bool)
      requires Valid()
      modifies this
      ensures Valid() && Abs() == Next(limits, old(Abs()), Arrive(tokens))
      ensures refused <==> tokens > limits.capacity
    {
      ArriveKeeps(limits, Abs(), tokens);
      refused := tokens > limits.capacity;
      if refused {
        callers := callers + [Caller(tokens, Done)];
      } else if inUse + tokens <= limits.capacity {
        inUse := inUse + tokens;
        callers := callers + [Caller(tokens, Admitted)];
      } else {
        callers := callers + [Caller(tokens, Waiting(false))];
      }
    }

    /** A notified waiter evaluates its predicate again. */
    method RecheckTokens(c: nat)
      requires Enabled(limits, Abs(), Recheck(c))
      requires Valid()
      modifies this
      ensures Valid() && Abs() == Next(limits, old(Abs()), Recheck(c))
    {
      StepKeeps(limits, Abs(), Recheck(c));
      var tokens := callers[c].tokens;
      if inUse + tokens <= limits.capacity {
        inUse := inUse + tokens;
        callers := callers[c := Caller(tokens, Admitted)];
      } else {
        callers := callers[c := Caller(tokens, Waiting(false))];
      }
    }

    method EnterSemaphore(c: nat)
      requires Enabled(limits, Abs(), TakePermit(c))
      requires Valid()
      modifies this
      ensures Valid() && Abs() == Next(limits, old(Abs()), TakePermit(c))
    {
      StepKeeps(limits, Abs(), TakePermit(c));
      permits := permits - 1;
      callers := callers[c := callers[c].(phase := Permitted)];
    }

    method PassRateLimiter(c: nat)
      requires Enabled(limits, Abs(), TakeSlot(c))
      requires Valid()
      modifies this
      ensures Valid() && Abs() == Next(limits, old(Abs()), TakeSlot(c))
    {
      StepKeeps(limits, Abs(), TakeSlot(c));
      grants := grants + 1;
      callers := callers[c := callers[c].(phase := Calling(0))];
    }

    method PostOnce(c: nat)
      requires Enabled(limits, Abs(), Post(c))
      requires Valid()
      modifies this
      ensures Valid() && Abs() == Next(limits, old(Abs()), Post(c))
    {
      StepKeeps(limits, Abs(), Post(c));
      posts := posts + 1;
      callers := callers[c := callers[c].(phase := Calling(callers[c].phase.posts + 1))];
    }

    method LeaveSemaphore(c: nat)
      requires Enabled(limits, Abs(), Return(c))
      requires Valid()
      modifies this
      ensures Valid() && Abs() == Next(limits, old(Abs()), Return(c))
    {
      StepKeeps(limits, Abs(), Return(c));
      permits := permits + 1;
      callers := callers[c := callers[c].(phase := Releasing)];
    }

    /** Gives the tokens back and notifies every waiter. */
    method ReleaseTokens(c: nat)
      requires Enabled(limits, Abs(), Release(c))
      requires Valid()
      modifies this
      ensures Valid() && Abs() == Next(limits, old(Abs()), Release(c))
    {
      ReleaseKeeps(limits, Abs(), c);
      ghost var moved := Move(Abs(), c, Done);
      inUse := inUse - callers[c].tokens;
      callers := callers[c := callers[c].(phase := Done)];
      for i := 0 to |callers|
        invariant inUse == old(inUse) - old(callers)[c].tokens
        invariant permits == old(permits) && grants == old(grants) && posts == old(posts)
        invariant |callers| == |moved|
        invariant forall j :: 0 <= j < i ==> callers[j] == Notify(moved[j])
        invariant forall j :: i <= j < |callers| ==> callers[j] == moved[j]
      {
        if callers[i].phase.Waiting? { callers := callers[i := callers[i].(phase := Waiting(true))]; }
      }
      assert callers == NotifyAll(moved);
    }

    /** Cancellation wherever the caller is suspended; what it still holds goes back on its way out. */
    method CancelCaller(c: nat)
      requires Enabled(limits, Abs(), Cancel(c))
      requires Valid()
      modifies this
      ensures Valid() && Abs() == Next(limits, old(Abs()), Cancel(c))
    {
      StepKeeps(limits, Abs(), Cancel(c));
      if callers[c].phase.Waiting? {
        callers := callers[c := callers[c].(phase := Done)];
      } else {
        if !callers[c].phase.Admitted? { permits := permits + 1; }
        callers := callers[c := callers[c].(phase := Releasing)];
      }
    }
  }

  // ----- a gateway at work -----

  /** An event loop that, while some caller can advance, lets a caller advance or cancels one. */
  ghost predicate Runs(l: Limits, schedule: State -> Step) {
    forall s :: CanAdvance(l, s) ==> !schedule(s).Arrive? && Enabled(l, s, schedule(s))
  }

  ghost function AnyAdvance(l: Limits, s: State): Step {
    if CanAdvance(l, s) then var step :| Progress(step) && Enabled(l, s, step); step else Arrive(0)
  }

  lemma RunsExists(l: Limits)
    ensures exists schedule :: Runs(l, schedule)
  {
    assert Runs(l, s => AnyAdvance(l, s));
  }

  predicate AllDone(callers: seq<Caller>) {
    forall c :: 0 <= c < |callers| ==> callers[c].phase.Done?
  }

  /** Any callers at once, in any order the event loop chooses, cancellations included: exactly those above
      the capacity are refused, and in the end every token and permit is back. */
  method Serve(l: Limits, demands: seq<nat>, schedule: State -> Step) returns (refused: seq<bool>, gateway: AsyncModelGateway)
    requires LimitsOk(l) && Runs(l, schedule)
    ensures |refused| == |demands| && forall i :: 0 <= i < |demands| ==> (refused[i] <==> demands[i] > l.capacity)
    ensures fresh(gateway) && gateway.Valid() && gateway.limits == l && AllDone(gateway.callers)
    ensures gateway.inUse == 0 && gateway.permits == l.maxConcurrency
    ensures gateway.posts <= l.maxAttempts * gateway.grants
  {
    hide Inv, CanAdvance, Remaining, Enabled, Runs;
    gateway := new AsyncModelGateway(l);
    refused := [];
    for i := 0 to |demands|
      invariant fresh(gateway) && gateway.Valid() && gateway.limits == l
      invariant |refused| == i && forall j :: 0 <= j < i ==> (refused[j] <==> demands[j] > l.capacity)
    {
      var no := gateway.AcquireTokens(demands[i]);
      refused := refused + [no];
    }
    while !AllDone(gateway.callers)
      invariant fresh(gateway) && gateway.Valid() && gateway.limits == l
      decreases Remaining(l, gateway.Abs())
    {
      ghost var s := gateway.Abs();
      var c: nat :| c < |gateway.callers| && !gateway.callers[c].phase.Done?;
      NoDeadlock(l, s, c);
      var step := schedule(State(gateway.inUse, gateway.permits, gateway.grants, gateway.posts, gateway.callers));
      ScheduledStep(l, schedule, s);
      StepLowers(l, s, step);
      match step {
        case Recheck(c) => gateway.RecheckTokens(c);
        case TakePermit(c) => gateway.EnterSemaphore(c);
        case TakeSlot(c) => gateway.PassRateLimiter(c);
        case Post(c) => gateway.PostOnce(c);
        case Return(c) => gateway.LeaveSemaphore(c);
        case Release(c) => gateway.ReleaseTokens(c);
        case Cancel(c) => gateway.CancelCaller(c);
      }
    }
    LimitsHold(l, gateway.Abs());
    AllReturned(l, gateway.Abs());
  }

  lemma ScheduledStep(l: Limits, schedule: State -> Step, s: State)
    requires Runs(l, schedule) && CanAdvance(l, s)
    ensures !schedule(s).Arrive? && Enabled(l, s, schedule(s))
  {}

  lemma AllReturned(l: Limits, s: State)
    requires AllDone(s.callers)
    requires Inv(l, s)
    ensures s.inUse == 0 && s.permits == l.maxConcurrency
  {
    NobodyHolds(s.callers);
  }
}
