/** `sorted` on places in a list: stable, because a tie is broken by the place itself. */
module Sorting {
  type Order = (nat, nat) -> bool

  ghost predicate Distinct(xs: seq<nat>) {
    forall i, j :: 0 <= i < j < |xs| ==> xs[i] != xs[j]
  }

  /** `before` orders the elements of `xs` strictly and totally. */
  ghost predicate Orders(xs: seq<nat>, before: Order) {
    && (forall a, b :: a in xs && b in xs && a != b ==> (before(a, b) <==> !before(b, a)))
    && (forall a, b, c :: a in xs && b in xs && c in xs && before(a, b) && before(b, c) ==> before(a, c))
  }

  ghost predicate SortedBy(xs: seq<nat>, before: Order) {
    forall i, j :: 0 <= i < j < |xs| ==> before(xs[i], xs[j])
  }

  function Insert(x: nat, ys: seq<nat>, before: Order): (r: seq<nat>)
    ensures |r| == |ys| + 1
    ensures forall y :: y in r <==> y == x || y in ys
  {
    if ys == [] || before(x, ys[0]) then [x] + ys else [ys[0]] + Insert(x, ys[1..], before)
  }

  function Sort(xs: seq<nat>, before: Order): (r: seq<nat>)
    ensures |r| == |xs|
    ensures forall x :: x in r <==> x in xs
  {
    if xs == [] then [] else Insert(xs[0], Sort(xs[1..], before), before)
  }

  lemma {:induction false} InsertSorted(x: nat, ys: seq<nat>, before: Order)
    requires SortedBy(ys, before) && Distinct(ys) && x !in ys && Orders([x] + ys, before)
    ensures SortedBy(Insert(x, ys, before), before) && Distinct(Insert(x, ys, before))
  {
    if ys != [] {
      assert x in [x] + ys && ys[0] in [x] + ys;
      if before(x, ys[0]) {
        forall j | 0 <= j < |ys| ensures before(x, ys[j]) {
          assert ys[j] in [x] + ys;
        }
      } else {
        var t := ys[1..];
        assert forall y :: y in [x] + t ==> y in [x] + ys;
        InsertSorted(x, t, before);
        var r := Insert(x, t, before);
        forall j | 0 <= j < |r| ensures before(ys[0], r[j]) && ys[0] != r[j] {
          assert r[j] in r;
          if r[j] != x {
            var k :| 0 <= k < |t| && t[k] == r[j];
            assert ys[k + 1] == r[j];
          }
        }
      }
    }
  }

  /** The result is sorted; its elements are those of the list, each once. */
  lemma {:induction false} SortSorts(xs: seq<nat>, before: Order)
    requires Distinct(xs) && Orders(xs, before)
    ensures SortedBy(Sort(xs, before), before) && Distinct(Sort(xs, before))
  {
    if xs != [] {
      var t := xs[1..];
      assert forall i, j :: 0 <= i < j < |t| ==> t[i] == xs[i + 1] && t[j] == xs[j + 1];
      assert xs[0] !in t;
      assert forall y :: y in t ==> y in xs;
      SortSorts(t, before);
      assert forall y :: y in [xs[0]] + Sort(t, before) ==> y in xs;
      InsertSorted(xs[0], Sort(t, before), before);
    }
  }

  /** Where an element stands. */
  function PlaceIn(xs: seq<nat>, x: nat): (k: nat)
    requires x in xs
    ensures k < |xs| && xs[k] == x
  {
    if xs[0] == x then 0 else 1 + PlaceIn(xs[1..], x)
  }

  lemma PlaceOf(xs: seq<nat>, i: nat)
    requires Distinct(xs) && i < |xs|
    ensures PlaceIn(xs, xs[i]) == i
  {
  }

  /** There is only one way to sort: two sorted lists of the same elements are equal. */
  lemma {:induction false} SortedIsUnique(xs: seq<nat>, ys: seq<nat>, before: Order)
    requires Distinct(xs) && Distinct(ys) && forall x :: x in xs <==> x in ys
    requires SortedBy(xs, before) && SortedBy(ys, before)
    requires forall a, b :: a in xs && b in xs && before(a, b) ==> !before(b, a)
    ensures xs == ys
    decreases |xs|
  {
    if ys != [] { assert ys[0] in ys; }
    if xs != [] {
      assert xs[0] in xs && xs[0] in ys;
      FirstIsLeast(xs, before, ys[0]);
      FirstIsLeast(ys, before, xs[0]);
      var s, t := xs[1..], ys[1..];
      forall x ensures x in s <==> x in t {
        assert x in xs <==> x == xs[0] || x in s;
        assert x in ys <==> x == ys[0] || x in t;
        assert xs[0] !in s && ys[0] !in t;
      }
      SortedIsUnique(s, t, before);
    }
  }

  lemma FirstIsLeast(xs: seq<nat>, before: Order, x: nat)
    requires SortedBy(xs, before) && x in xs
    ensures x == xs[0] || before(xs[0], x)
  {
    var k :| 0 <= k < |xs| && xs[k] == x;
    if k > 0 { assert before(xs[0], xs[k]); }
  }
}
