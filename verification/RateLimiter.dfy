/** The reservation rate limiter: each request reserves the next slot and sleeps until it. */
module RateLimiting {

  function Max(a: real, b: real): real { if a < b then b else a }

  /** The slots given to requests that read the clock at `arrivals`, when `next` is the first free slot. */
  function Slots(next: real, interval: real, arrivals: seq<real>): (r: seq<real>)
    ensures |r| == |arrivals|
    decreases |arrivals|
  {
    if arrivals == [] then []
    else var slot := Max(arrivals[0], next); [slot] + Slots(slot + interval, interval, arrivals[1..])
  }

  class RateLimiter {
    const interval: real
    var nextAllowedAt: real
    ghost var first: real          // the first free slot when the history started
    ghost var arrivals: seq<real>  // every clock reading so far
    ghost var granted: seq<real>   // and the slot each was given

    ghost predicate Valid()
      reads this
    {
      && interval > 0.0
      && granted == Slots(first, interval, arrivals)
      && nextAllowedAt == NextFree(first, interval, arrivals)
    }

    constructor (requestsPerSecond: real)
      requires requestsPerSecond > 0.0
      ensures Valid() && interval == 1.0 / requestsPerSecond && nextAllowedAt == 0.0 && arrivals == []
    {
      interval := 1.0 / requestsPerSecond;
      nextAllowedAt := 0.0;
      first, arrivals, granted := 0.0, [], [];
      new;
      assert 1.0 / requestsPerSecond > 0.0 by { ReciprocalPositive(requestsPerSecond); }
    }

    /** Reserves a slot at clock reading `now`; the clock is read again at `again`, and the sleep, if
        any, ends `overshoot` late. Returns the slot and the time the caller goes on. */
    method Acquire(now: real, again: real, overshoot: real) returns (slot: real, start: real)
      requires Valid() && now <= again && overshoot >= 0.0
      modifies this
      ensures Valid() && first == old(first) && arrivals == old(arrivals) + [now] && granted == old(granted) + [slot]
      ensures now <= slot <= start <= Max(slot, again) + overshoot
    {
      slot := if now < nextAllowedAt then nextAllowedAt else now;
      nextAllowedAt := slot + interval;
      SlotsAppend(first, interval, arrivals, now);
      arrivals := arrivals + [now];
      granted := granted + [slot];
      var delay := slot - again;
      start := if delay > 0.0 then again + delay + overshoot else again;
    }
  }

  lemma ReciprocalPositive(x: real)
    requires x > 0.0
    ensures 1.0 / x > 0.0
  {}

  /** The first slot still free after all reservations. */
  function NextFree(next: real, interval: real, arrivals: seq<real>): real
    decreases |arrivals|
  {
    if arrivals == [] then next
    else NextFree(Max(arrivals[0], next) + interval, interval, arrivals[1..])
  }

  lemma {:induction false} SlotsAppend(next: real, interval: real, arrivals: seq<real>, now: real)
    ensures Slots(next, interval, arrivals + [now]) ==
            Slots(next, interval, arrivals) + [Max(now, NextFree(next, interval, arrivals))]
    ensures NextFree(next, interval, arrivals + [now]) == Max(now, NextFree(next, interval, arrivals)) + interval
    decreases |arrivals|
  {
    if arrivals == [] {
      assert [now][1..] == [];
    } else {
      var slot := Max(arrivals[0], next);
      hide Max;
      assert (arrivals + [now])[1..] == arrivals[1..] + [now];
      SlotsAppend(slot + interval, interval, arrivals[1..], now);
    }
  }

  /** No request is given a slot before it asked or before the first free slot, and consecutive slots
      are at least the interval apart. */
  lemma {:induction false} SlotsSpaced(next: real, interval: real, arrivals: seq<real>)
    requires interval > 0.0
    ensures var r := Slots(next, interval, arrivals);
            && (forall i :: 0 <= i < |r| ==> arrivals[i] <= r[i] && next <= r[i])
            && (forall i :: 0 < i < |r| ==> r[i - 1] + interval <= r[i])
    decreases |arrivals|
  {
    if arrivals != [] {
      SlotsSpaced(Max(arrivals[0], next) + interval, interval, arrivals[1..]);
    }
  }

  /** The time `n` intervals take. */
  function Span(n: nat, interval: real): real { n as real * interval }

  lemma OneMore(n: nat, x: real)
    ensures Span(0, x) == 0.0 && Span(n + 1, x) == Span(n, x) + x
  {}

  /** Slots `i` and `j` are at least `j - i` intervals apart. */
  lemma {:induction false} SlotsApart(next: real, interval: real, arrivals: seq<real>, i: nat, j: nat)
    requires interval > 0.0 && i <= j < |arrivals|
    ensures Slots(next, interval, arrivals)[j] - Slots(next, interval, arrivals)[i] >= Span(j - i, interval)
    decreases j - i
  {
    hide Slots, Span;
    if i < j {
      SlotsApart(next, interval, arrivals, i, j - 1);
      SlotsSpaced(next, interval, arrivals);
      OneMore(j - 1 - i, interval);
    } else {
      OneMore(0, interval);
    }
  }

  /** Any closed window of length `w` holds at most `w * rps + 1` slots. */
  lemma WindowBound(next: real, rps: real, arrivals: seq<real>, i: nat, j: nat, w: real)
    requires rps > 0.0 && i <= j < |arrivals|
    requires Slots(next, 1.0 / rps, arrivals)[j] - Slots(next, 1.0 / rps, arrivals)[i] <= w
    ensures (j - i + 1) as real <= w * rps + 1.0
  {
    hide Slots;
    ReciprocalPositive(rps);
    SlotsApart(next, 1.0 / rps, arrivals, i, j);
    var n := (j - i) as real;
    assert n * (1.0 / rps) <= w;
    calc {
      n;
      (n * (1.0 / rps)) * rps;
    <= { ScaleLeq(n * (1.0 / rps), w, rps); }
      w * rps;
    }
  }

  lemma ScaleLeq(a: real, b: real, c: real)
    requires a <= b && c >= 0.0
    ensures a * c <= b * c
  {}

  /** The limiter never delays more than it must: any schedule that starts nobody before it asked, nor
      before the first free slot, and keeps the spacing, gives every request the same slot or a later one. */
  lemma {:induction false} SlotsEarliest(next: real, interval: real, arrivals: seq<real>, other: seq<real>)
    requires interval > 0.0 && |other| == |arrivals|
    requires forall i :: 0 <= i < |other| ==> arrivals[i] <= other[i]
    requires forall i :: 0 < i < |other| ==> other[i - 1] + interval <= other[i]
    requires other != [] ==> next <= other[0]
    ensures forall i :: 0 <= i < |other| ==> Slots(next, interval, arrivals)[i] <= other[i]
    decreases |arrivals|
  {
    if arrivals != [] {
      var slot := Max(arrivals[0], next);
      forall i | 0 < i < |other[1..]| ensures other[1..][i - 1] + interval <= other[1..][i] {
        assert other[i] + interval <= other[i + 1];
      }
      if |other| > 1 { assert other[0] + interval <= other[1]; }
      SlotsEarliest(slot + interval, interval, arrivals[1..], other[1..]);
    }
  }

  /** Every caller goes on at its slot or at most `late` after it. */
  ghost predicate Within(next: real, interval: real, arrivals: seq<real>, starts: seq<real>, late: real) {
    && |starts| == |arrivals|
    && forall k :: 0 <= k < |starts| ==>
         Slots(next, interval, arrivals)[k] <= starts[k] <= Slots(next, interval, arrivals)[k] + late
  }

  ghost predicate Spaced(starts: seq<real>, interval: real) {
    forall i :: 0 < i < |starts| ==> starts[i - 1] + interval <= starts[i]
  }

  /** Callers go on at or after their slots. Two of them can be closer than their slots, but only by
      as much as the earlier one overslept or found its slot already past. */
  lemma StartsSpaced(next: real, interval: real, arrivals: seq<real>, starts: seq<real>, late: real, i: nat, j: nat)
    requires interval > 0.0 && Within(next, interval, arrivals, starts, late) && i < j < |arrivals|
    ensures starts[j] - starts[i] >= Span(j - i, interval) - late
  {
    SlotsApart(next, interval, arrivals, i, j);
  }

  /** Two requests at once, the first of which wakes `late`: the bound is attained, and for any positive
      `late` the starts are not spaced. */
  lemma StartsCanBunch(interval: real, late: real)
    requires interval > 0.0 && late >= 0.0
    ensures Within(0.0, interval, [0.0, 0.0], [late, interval], late)
    ensures interval - late == Span(1, interval) - late
    ensures late > 0.0 ==> !Spaced([late, interval], interval)
  {
    assert [0.0, 0.0][1..] == [0.0] && [0.0][1..] == [];
    assert Slots(0.0, interval, [0.0, 0.0]) == [0.0] + Slots(interval, interval, [0.0]);
    assert Slots(interval, interval, [0.0]) == [interval];
    var starts := [late, interval];
    if late > 0.0 { assert !(starts[0] + interval <= starts[1]); }
  }

  ghost predicate AlwaysSpaced(interval: real, late: real) {
    forall next, arrivals, starts :: Within(next, interval, arrivals, starts, late) ==> Spaced(starts, interval)
  }

  /** Request starts are spaced for every history of callers up to `late` late exactly when nobody is late. */
  lemma StartsSpacedExactlyWhenPunctual(interval: real, late: real)
    requires interval > 0.0 && late >= 0.0
    ensures AlwaysSpaced(interval, late) <==> late == 0.0
  {
    StartsCanBunch(interval, late);
    if late == 0.0 {
      forall next, arrivals, starts | Within(next, interval, arrivals, starts, late) ensures Spaced(starts, interval) {
        SlotsSpaced(next, interval, arrivals);
      }
    }
  }
}
