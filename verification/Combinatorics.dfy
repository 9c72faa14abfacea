/** Counting k-element index subsets: the meaning of `math.comb`. */
module Combinatorics {

  /** `comb(n, k)`, by Pascal's rule. */
  function Comb(n: nat, k: nat): nat {
    if k == 0 then 1 else if n == 0 then 0 else Comb(n - 1, k - 1) + Comb(n - 1, k)
  }

  /** The subsets of {0, ..., n - 1} with k elements. */
  function Subsets(n: nat, k: nat): set<set<nat>> {
    if k == 0 then {{}}
    else if n == 0 then {}
    else Subsets(n - 1, k) + Extend(Subsets(n - 1, k - 1), n - 1)
  }

  function Extend(family: set<set<nat>>, x: nat): set<set<nat>> {
    set s | s in family :: s + {x}
  }

  ghost predicate Below(s: set<nat>, n: nat) {
    forall i :: i in s ==> i < n
  }

  ghost predicate AllBelow(family: set<set<nat>>, n: nat) {
    forall s :: s in family ==> Below(s, n)
  }

  lemma ExtendMember(family: set<set<nat>>, x: nat, s: set<nat>)
    requires AllBelow(family, x)
    ensures s in Extend(family, x) <==> x in s && s - {x} in family
  {
    if x in s {
      assert s == (s - {x}) + {x};
      if s in Extend(family, x) {
        var r :| r in family && r + {x} == s;
        assert Below(r, x);
        assert s - {x} == r;
      }
    }
  }

  lemma {:induction false} ExtendCount(family: set<set<nat>>, x: nat)
    requires AllBelow(family, x)
    ensures |Extend(family, x)| == |family|
  {
    if family != {} {
      var s :| s in family;
      var rest := family - {s};
      ExtendCount(rest, x);
      assert Below(s, x);
      assert (s + {x}) - {x} == s;
      ExtendMember(rest, x, s + {x});
      assert Extend(family, x) == Extend(rest, x) + {s + {x}};
    }
  }

  /** Adding `x` to the sets of one family and leaving another alone makes as many sets as both had. */
  lemma ExtendSplit(low: set<set<nat>>, family: set<set<nat>>, x: nat)
    requires AllBelow(low, x) && AllBelow(family, x)
    ensures |low + Extend(family, x)| == |low| + |family|
  {
    ExtendCount(family, x);
    forall s | s in low ensures s !in Extend(family, x) {
      assert Below(s, x);
      ExtendMember(family, x, s);
    }
    assert low !! Extend(family, x);
  }

  /** A set of k positions below n. */
  ghost predicate KSet(s: set<nat>, n: nat, k: nat) {
    |s| == k && Below(s, n)
  }

  /** By whether it holds the last position. */
  lemma PeelLast(s: set<nat>, n: nat, k: nat)
    requires n > 0 && k > 0
    ensures KSet(s, n, k) <==> if n - 1 in s then KSet(s - {n - 1}, n - 1, k - 1) else KSet(s, n - 1, k)
    ensures n - 1 in s ==> !KSet(s, n - 1, k)
  {
    var rest := s - {n - 1};
    if n - 1 in s {
      assert s == rest + {n - 1};
      if Below(s, n) { assert Below(rest, n - 1); }
    } else {
      assert s == rest;
      if Below(s, n) { assert Below(s, n - 1); }
    }
  }

  lemma Unfold(n: nat, k: nat)
    requires n > 0 && k > 0
    ensures Subsets(n, k) == Subsets(n - 1, k) + Extend(Subsets(n - 1, k - 1), n - 1)
    ensures Comb(n, k) == Comb(n - 1, k - 1) + Comb(n - 1, k)
  {}

  lemma Base(n: nat, k: nat)
    requires n == 0 || k == 0
    ensures Subsets(n, k) == if k == 0 then {{}} else {}
    ensures Comb(n, k) == if k == 0 then 1 else 0
  {}

  lemma BaseMember(n: nat, k: nat, s: set<nat>)
    requires n == 0 || k == 0
    ensures s in Subsets(n, k) <==> KSet(s, n, k)
  {
    Base(n, k);
    if k == 0 {
      if |s| == 0 { assert s == {}; }
    } else if s != {} {
      var i :| i in s;
    }
  }

  lemma {:induction false} SubsetsMember(n: nat, k: nat, s: set<nat>)
    ensures s in Subsets(n, k) <==> KSet(s, n, k)
    decreases n, k, 0
  {
    hide Extend, AllBelow, KSet, Subsets, Comb;
    if k == 0 || n == 0 {
      BaseMember(n, k, s);
    } else {
      Unfold(n, k);
      SubsetsMember(n - 1, k, s);
      SubsetsMember(n - 1, k - 1, s - {n - 1});
      SubsetsBelow(n - 1, k - 1);
      ExtendMember(Subsets(n - 1, k - 1), n - 1, s);
      PeelLast(s, n, k);
    }
  }

  lemma {:induction false} SubsetsBelow(n: nat, k: nat)
    ensures AllBelow(Subsets(n, k), n)
    decreases n, k, 1
  {
    hide Subsets, Comb;
    forall r | r in Subsets(n, k) ensures Below(r, n) { SubsetsMember(n, k, r); }
  }

  /** `comb(n, k)` is the number of k-element subsets of n positions. */
  lemma {:induction false} SubsetsCount(n: nat, k: nat)
    ensures |Subsets(n, k)| == Comb(n, k)
  {
    hide Extend, Below, AllBelow, Subsets, Comb;
    if k == 0 || n == 0 {
      Base(n, k);
    } else {
      Unfold(n, k);
      SubsetsCount(n - 1, k);
      SubsetsCount(n - 1, k - 1);
      SubsetsBelow(n - 1, k);
      SubsetsBelow(n - 1, k - 1);
      ExtendSplit(Subsets(n - 1, k), Subsets(n - 1, k - 1), n - 1);
    }
  }

  // ----- subsets that avoid every success -----

  /** `sum(samples)`. */
  function Successes(samples: seq<bool>): (c: nat)
    ensures c <= |samples|
  {
    if samples == [] then 0
    else Successes(samples[..|samples| - 1]) + if samples[|samples| - 1] then 1 else 0
  }

  ghost predicate Fails(samples: seq<bool>, s: set<nat>) {
    forall i :: i in s && i < |samples| ==> !samples[i]
  }

  /** The k-subsets of positions all of whose samples failed. */
  ghost function FailingSubsets(samples: seq<bool>, k: nat): set<set<nat>> {
    set s | s in Subsets(|samples|, k) && Fails(samples, s)
  }

  /** The k-subsets with at least one success: those for which a selection of k samples passes. */
  ghost function PassingSubsets(samples: seq<bool>, k: nat): set<set<nat>> {
    set s | s in Subsets(|samples|, k) && exists i :: i in s && i < |samples| && samples[i]
  }

  lemma FailsPeeled(samples: seq<bool>, s: set<nat>)
    requires samples != []
    ensures var n := |samples| - 1;
            Fails(samples, s) <==> Fails(samples[..n], s - {n}) && (n in s ==> !samples[n])
  {
    var n := |samples| - 1;
    if Fails(samples[..n], s - {n}) && (n in s ==> !samples[n]) {
      forall i | i in s && i < |samples| ensures !samples[i] {
        if i < n { assert i in s - {n} && samples[i] == samples[..n][i]; }
      }
    }
  }

  lemma FailingPeeled(samples: seq<bool>, k: nat)
    requires samples != [] && k > 0
    ensures var n := |samples| - 1;
            FailingSubsets(samples, k) ==
              FailingSubsets(samples[..n], k)
              + if samples[n] then {} else Extend(FailingSubsets(samples[..n], k - 1), n)
  {
    hide Extend, AllBelow, Fails, KSet, Subsets;
    var n := |samples| - 1;
    var init := samples[..n];
    var was := FailingSubsets(init, k) + if samples[n] then {} else Extend(FailingSubsets(init, k - 1), n);
    FailingBelow(init, k - 1);
    forall s ensures s in FailingSubsets(samples, k) <==> s in was {
      FailsPeeled(samples, s);
      ExtendMember(FailingSubsets(init, k - 1), n, s);
      SubsetsMember(n + 1, k, s);
      SubsetsMember(n, k, s);
      SubsetsMember(n, k - 1, s - {n});
      PeelLast(s, n + 1, k);
      if n !in s { assert s - {n} == s; }
    }
  }

  lemma FailingBelow(samples: seq<bool>, k: nat)
    ensures AllBelow(FailingSubsets(samples, k), |samples|)
  {
    hide Fails, Subsets;
    SubsetsBelow(|samples|, k);
  }

  lemma FailingBase(samples: seq<bool>, k: nat)
    requires k == 0 || samples == []
    ensures |FailingSubsets(samples, k)| == Comb(|samples| - Successes(samples), k)
  {
    Base(|samples|, k);
    Base(|samples| - Successes(samples), k);
    if k == 0 {
      assert FailingSubsets(samples, k) == {{}};
    } else {
      assert FailingSubsets(samples, k) == {};
    }
  }

  lemma FailingStep(samples: seq<bool>, k: nat)
    requires samples != [] && k > 0
    ensures var n := |samples| - 1;
            |FailingSubsets(samples, k)| ==
              |FailingSubsets(samples[..n], k)| + if samples[n] then 0 else |FailingSubsets(samples[..n], k - 1)|
  {
    hide Extend, Below, AllBelow, FailingSubsets;
    var n := |samples| - 1;
    FailingPeeled(samples, k);
    var low, family := FailingSubsets(samples[..n], k), FailingSubsets(samples[..n], k - 1);
    if samples[n] {
      assert low + {} == low;
    } else {
      FailingBelow(samples[..n], k);
      FailingBelow(samples[..n], k - 1);
      ExtendSplit(low, family, n);
    }
  }

  /** There are as many of them as k-subsets of the failures. */
  lemma {:induction false} FailingCount(samples: seq<bool>, k: nat)
    ensures |FailingSubsets(samples, k)| == Comb(|samples| - Successes(samples), k)
  {
    if k == 0 || samples == [] {
      FailingBase(samples, k);
    } else {
      hide FailingSubsets, Comb;
      var n := |samples| - 1;
      FailingCount(samples[..n], k);
      FailingCount(samples[..n], k - 1);
      FailingStep(samples, k);
      if !samples[n] { Unfold(|samples| - Successes(samples), k); }
    }
  }

  /** Every k-subset either passes or fails. */
  lemma PassingCount(samples: seq<bool>, k: nat)
    ensures |PassingSubsets(samples, k)| == Comb(|samples|, k) - Comb(|samples| - Successes(samples), k)
  {
    var all := Subsets(|samples|, k);
    SubsetsCount(|samples|, k);
    FailingCount(samples, k);
    assert PassingSubsets(samples, k) == all - FailingSubsets(samples, k);
    assert FailingSubsets(samples, k) <= all;
  }

  // ----- how comb grows -----

  lemma {:induction false} CombZero(n: nat, k: nat)
    ensures Comb(n, k) == 0 <==> n < k
  {
    if k > 0 && n > 0 {
      CombZero(n - 1, k - 1);
      CombZero(n - 1, k);
    }
  }

  lemma {:induction false} CombGrows(m: nat, n: nat, k: nat)
    requires m <= n
    ensures Comb(m, k) <= Comb(n, k)
    decreases n
  {
    if m < n { CombGrows(m, n - 1, k); }
  }

  /** (k + 1) comb(n, k + 1) == (n - k) comb(n, k). */
  lemma {:induction false} Absorb(n: nat, k: nat)
    ensures (k + 1) * Comb(n, k + 1) == (n - k) * Comb(n, k)
  {
    if n > 0 {
      Absorb(n - 1, k);
      if k == 0 {
        assert Comb(n, 1) == 1 + Comb(n - 1, 1);
      } else {
        Absorb(n - 1, k - 1);
        AbsorbStep(n, k, Comb(n - 1, k - 1), Comb(n - 1, k), Comb(n - 1, k + 1));
      }
    }
  }

  lemma AbsorbStep(n: int, k: int, a: int, b: int, c: int)
    requires (k + 1) * c == (n - 1 - k) * b && k * b == (n - k) * a
    ensures (k + 1) * (b + c) == (n - k) * (a + b)
  {
    calc {
      (k + 1) * (b + c);
      k * b + b + (k + 1) * c;
      k * b + b + (n - 1 - k) * b;
      k * b + (n - k) * b;
      (n - k) * a + (n - k) * b;
      (n - k) * (a + b);
    }
  }

  /** The share of k-subsets that avoid n - m given elements falls as k grows. */
  lemma ShareFalls(m: nat, n: nat, k: nat)
    requires m <= n
    ensures Comb(m, k + 1) * Comb(n, k) <= Comb(m, k) * Comb(n, k + 1)
  {
    hide Comb;
    Absorb(m, k);
    Absorb(n, k);
    CrossMultiply(m - k, n - k, k + 1, Comb(m, k + 1), Comb(n, k), Comb(m, k), Comb(n, k + 1));
  }

  lemma CrossMultiply(x: int, y: int, z: nat, a: nat, b: nat, c: nat, d: nat)
    requires x <= y && z > 0 && z * a == x * c && z * d == y * b
    ensures a * b <= c * d
  {
    calc {
      z * (a * b);
      (z * a) * b;
      (x * c) * b;
      x * (c * b);
    }
    calc {
      z * (c * d);
      c * (z * d);
      c * (y * b);
      y * (c * b);
    }
    Scale(x, y, c * b);
    Cancel(z, a * b, c * d);
  }

  lemma Scale(x: int, y: int, z: nat)
    requires x <= y
    ensures x * z <= y * z
  {}

  lemma Cancel(z: nat, x: int, y: int)
    requires z > 0 && z * x <= z * y
    ensures x <= y
  {
    if x > y { Scale(1, x - y, z); }
  }
}
