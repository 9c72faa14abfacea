/** Total orders and the unique ascending arrangement of a finite set: what the
    source obtains from `sorted(...)`. */
module Ordering {

  ghost predicate TotalOrder<T(!new)>(leq: (T, T) -> bool) {
    && (forall x, y :: leq(x, y) || leq(y, x))
    && (forall x, y :: leq(x, y) && leq(y, x) ==> x == y)
    && (forall x, y, z :: leq(x, y) && leq(y, z) ==> leq(x, z))
  }

  ghost predicate Ascending<T>(xs: seq<T>, leq: (T, T) -> bool) {
    forall i, j :: 0 <= i < j < |xs| ==> leq(xs[i], xs[j])
  }

  ghost predicate Distinct<T>(xs: seq<T>) {
    forall i, j :: 0 <= i < j < |xs| ==> xs[i] != xs[j]
  }

  lemma {:induction false} FindLeast<T(!new)>(s: set<T>, leq: (T, T) -> bool) returns (m: T)
    requires TotalOrder(leq) && s != {}
    ensures m in s && forall x :: x in s ==> leq(m, x)
  {
    var a :| a in s;
    var rest := s - {a};
    m := a;
    if rest == {} {
      assert s == {a};
    } else {
      var b := FindLeast(rest, leq);
      m := if leq(a, b) then a else b;
      forall x | x in s ensures leq(m, x) {
        if x in rest { assert leq(b, x); }
      }
    }
  }

  function Least<T(!new)>(s: set<T>, leq: (T, T) -> bool): (m: T)
    requires TotalOrder(leq) && s != {}
    ensures m in s && forall x :: x in s ==> leq(m, x)
  {
    assert exists m :: m in s && forall x :: x in s ==> leq(m, x) by { var _ := FindLeast(s, leq); }
    var m :| m in s && forall x :: x in s ==> leq(m, x);
    m
  }

  /** The elements of `s`, each once, in ascending order. */
  function SortSet<T(!new)>(s: set<T>, leq: (T, T) -> bool): (r: seq<T>)
    requires TotalOrder(leq)
    ensures Ascending(r, leq)
    ensures Distinct(r)
    ensures forall x :: x in r <==> x in s
    ensures |r| == |s|
  {
    if s == {} then [] else
      var m := Least(s, leq);
      var rest := SortSet(s - {m}, leq);
      [m] + rest
  }

  lemma HeadIsLeast<T(!new)>(xs: seq<T>, ys: seq<T>, leq: (T, T) -> bool)
    requires Ascending(xs, leq) && xs != [] && ys != [] && multiset(xs) == multiset(ys)
    requires forall x :: leq(x, x)
    ensures leq(xs[0], ys[0])
  {
    assert ys[0] in multiset(xs);
    var i :| 0 <= i < |xs| && xs[i] == ys[0];
    assert leq(xs[0], xs[0]);
  }

  lemma TailMultiset<T>(xs: seq<T>)
    requires xs != []
    ensures multiset(xs[1..]) == multiset(xs) - multiset{xs[0]}
  {
    assert xs == [xs[0]] + xs[1..];
  }

  /** Two ascending arrangements of the same elements are the same sequence when the order tells
      those elements apart. */
  lemma {:induction false} ArrangementUnique<T(!new)>(xs: seq<T>, ys: seq<T>, leq: (T, T) -> bool)
    requires forall x :: leq(x, x)
    requires forall x, y :: x in xs && y in xs && leq(x, y) && leq(y, x) ==> x == y
    requires Ascending(xs, leq) && Ascending(ys, leq)
    requires multiset(xs) == multiset(ys)
    ensures xs == ys
  {
    assert |xs| == |multiset(xs)| == |multiset(ys)| == |ys|;
    if xs != [] {
      HeadIsLeast(xs, ys, leq);
      HeadIsLeast(ys, xs, leq);
      assert ys[0] in multiset(xs);
      TailMultiset(xs);
      TailMultiset(ys);
      ArrangementUnique(xs[1..], ys[1..], leq);
      assert xs == [xs[0]] + xs[1..] && ys == [ys[0]] + ys[1..];
    }
  }

  /** The first element of one arrangement, found and removed in the other. */
  lemma RemoveHead<T>(xs: seq<T>, ys: seq<T>) returns (i: nat)
    requires xs != [] && multiset(xs) == multiset(ys)
    ensures i < |ys| && ys[i] == xs[0]
    ensures multiset(xs[1..]) == multiset(ys[..i] + ys[i + 1..])
  {
    assert xs[0] in multiset(ys);
    i :| 0 <= i < |ys| && ys[i] == xs[0];
    assert ys == ys[..i] + [ys[i]] + ys[i + 1..];
    assert xs == [xs[0]] + xs[1..];
    calc {
      multiset(xs[1..]);
      multiset(xs) - multiset{xs[0]};
      multiset(ys) - multiset{xs[0]};
      multiset(ys[..i] + ys[i + 1..]);
    }
  }

  /** An element that a sequence's multiset holds twice stands at two positions. */
  lemma {:induction false} RepeatedElement<T>(xs: seq<T>, x: T) returns (i: nat, j: nat)
    requires multiset(xs)[x] >= 2
    ensures i < j < |xs| && xs[i] == xs[j] == x
  {
    assert xs == [xs[0]] + xs[1..];
    if xs[0] == x {
      assert multiset(xs[1..])[x] >= 1;
      assert x in multiset(xs[1..]);
      var k :| 0 <= k < |xs[1..]| && xs[1..][k] == x;
      i, j := 0, k + 1;
    } else {
      i, j := RepeatedElement(xs[1..], x);
      i, j := i + 1, j + 1;
    }
  }

  // ----- the stable sort of a sequence -----

  /** Total and transitive, but possibly with ties between different elements. */
  ghost predicate Preorder<T(!new)>(leq: (T, T) -> bool) {
    && (forall x, y :: leq(x, y) || leq(y, x))
    && (forall x, y, z :: leq(x, y) && leq(y, z) ==> leq(x, z))
  }

  function Insert<T>(x: T, xs: seq<T>, leq: (T, T) -> bool): seq<T> {
    if xs == [] || leq(x, xs[0]) then [x] + xs else [xs[0]] + Insert(x, xs[1..], leq)
  }

  /** `sorted(xs, key=...)`: later elements go in first, each new one before its ties. */
  function Sorted<T>(xs: seq<T>, leq: (T, T) -> bool): seq<T> {
    if xs == [] then [] else Insert(xs[0], Sorted(xs[1..], leq), leq)
  }

  lemma {:induction false} InsertPermutes<T(!new)>(x: T, xs: seq<T>, leq: (T, T) -> bool)
    ensures multiset(Insert(x, xs, leq)) == multiset{x} + multiset(xs)
  {
    if xs != [] && !leq(x, xs[0]) {
      InsertPermutes(x, xs[1..], leq);
      TailMultiset(xs);
    }
  }

  lemma {:induction false} InsertAscends<T(!new)>(x: T, xs: seq<T>, leq: (T, T) -> bool)
    requires Preorder(leq) && Ascending(xs, leq)
    ensures Ascending(Insert(x, xs, leq), leq)
  {
    if xs != [] && !leq(x, xs[0]) {
      InsertAscends(x, xs[1..], leq);
      InsertPermutes(x, xs[1..], leq);
      var rest := Insert(x, xs[1..], leq);
      forall i | 0 <= i < |rest| ensures leq(xs[0], rest[i]) {
        assert rest[i] in multiset(rest);
        if rest[i] != x {
          assert rest[i] in multiset(xs[1..]);
          var j :| 0 <= j < |xs[1..]| && xs[1..][j] == rest[i];
          assert leq(xs[0], xs[j + 1]);
        }
      }
    }
  }

  lemma {:induction false} SortedArranges<T(!new)>(xs: seq<T>, leq: (T, T) -> bool)
    ensures multiset(Sorted(xs, leq)) == multiset(xs)
    ensures Preorder(leq) ==> Ascending(Sorted(xs, leq), leq)
  {
    if xs != [] {
      SortedArranges(xs[1..], leq);
      InsertPermutes(xs[0], Sorted(xs[1..], leq), leq);
      if Preorder(leq) { InsertAscends(xs[0], Sorted(xs[1..], leq), leq); }
      TailMultiset(xs);
    }
  }

  // ----- strings in code-point order -----

  predicate StringLeq(a: string, b: string) {
    a == [] || (b != [] && (a[0] < b[0] || (a[0] == b[0] && StringLeq(a[1..], b[1..]))))
  }

  lemma {:induction false} StringLeqTotal(a: string, b: string)
    ensures StringLeq(a, b) || StringLeq(b, a)
    ensures StringLeq(a, b) && StringLeq(b, a) ==> a == b
  {
    if a != [] && b != [] {
      StringLeqTotal(a[1..], b[1..]);
      assert a == [a[0]] + a[1..] && b == [b[0]] + b[1..];
    }
  }

  lemma {:induction false} StringLeqTransitive(a: string, b: string, c: string)
    requires StringLeq(a, b) && StringLeq(b, c)
    ensures StringLeq(a, c)
  {
    if a != [] && a[0] == b[0] == c[0] {
      StringLeqTransitive(a[1..], b[1..], c[1..]);
    }
  }

  lemma StringOrder()
    ensures TotalOrder(StringLeq)
  {
    forall a: string, b: string
      ensures (StringLeq(a, b) || StringLeq(b, a)) && (StringLeq(a, b) && StringLeq(b, a) ==> a == b)
    {
      StringLeqTotal(a, b);
    }
    forall a: string, b: string, c: string | StringLeq(a, b) && StringLeq(b, c) ensures StringLeq(a, c) {
      StringLeqTransitive(a, b, c);
    }
  }
}
