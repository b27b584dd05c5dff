/** The manual order of the rows under one parent (server/app/library/tree.py,
    server/app/library/service.py): siblings, dense positions, and what placing rows
    elsewhere does to both. Ids below `n` are the ones given out so far. */
module SiblingOrder {
  import opened Wrappers
  import opened Sorting
  import opened Forest

  /** The live rows directly under `p`, in the order they were created. */
  function ChildIds(t: Table, p: Option<nat>, n: nat): (r: seq<nat>)
    ensures forall id: nat :: id in r <==> id < n && IsLive(t, id) && t[id].parent == p
    ensures Distinct(r)
  {
    if n == 0 then [] else
      ChildIds(t, p, n - 1) + (if IsLive(t, n - 1) && t[n - 1].parent == p then [n - 1] else [])
  }

  /** The sort key `(position, name or submission time, id)`. */
  predicate ByPosition(t: Table, a: nat, b: nat) {
    && a in t && b in t
    && (|| t[a].position < t[b].position
        || (t[a].position == t[b].position && t[a].tie < t[b].tie)
        || (t[a].position == t[b].position && t[a].tie == t[b].tie && a < b))
  }

  function PositionOrder(t: Table): Order { (a: nat, b: nat) => ByPosition(t, a, b) }

  /** `folder_children` and `job_children`: the live rows under `p` in manual order. */
  function Siblings(t: Table, p: Option<nat>, n: nat): (r: seq<nat>)
    ensures forall id: nat :: id in r <==> id < n && IsLive(t, id) && t[id].parent == p
  {
    Sort(ChildIds(t, p, n), PositionOrder(t))
  }

  lemma SiblingsSorted(t: Table, p: Option<nat>, n: nat)
    ensures Distinct(Siblings(t, p, n)) && SortedBy(Siblings(t, p, n), PositionOrder(t))
  {
    hide ChildIds;
    SortSorts(ChildIds(t, p, n), PositionOrder(t));
  }

  /** Any sorted list of exactly the live rows under `p` is the manual order. */
  lemma SiblingsAre(t: Table, p: Option<nat>, n: nat, ys: seq<nat>)
    requires Distinct(ys) && SortedBy(ys, PositionOrder(t))
    requires forall id: nat :: id in ys <==> id < n && IsLive(t, id) && t[id].parent == p
    ensures Siblings(t, p, n) == ys
  {
    SiblingsSorted(t, p, n);
    hide Siblings;
    SortedIsUnique(Siblings(t, p, n), ys, PositionOrder(t));
  }

  ghost predicate Dense(t: Table, p: Option<nat>, n: nat) {
    var xs := Siblings(t, p, n);
    forall k :: 0 <= k < |xs| ==> xs[k] in t && t[xs[k]].position == k
  }

  /** `next_position`: behind every live row under `p`. */
  function NextPosition(t: Table, p: Option<nat>, n: nat): (r: nat)
    ensures forall id: nat :: id < n && IsLive(t, id) && t[id].parent == p ==> t[id].position < r
  {
    if n == 0 then 0 else
      var r := NextPosition(t, p, n - 1);
      if IsLive(t, n - 1) && t[n - 1].parent == p && t[n - 1].position >= r then t[n - 1].position + 1 else r
  }

  lemma {:induction false} NothingBefore(t: Table, p: Option<nat>, n: nat)
    requires forall x :: IsLive(t, x) ==> t[x].parent != p
    ensures NextPosition(t, p, n) == 0
  {
    if n > 0 { NothingBefore(t, p, n - 1); }
  }

  // ---- leaving rows out ----

  function Without(xs: seq<nat>, gone: set<nat>): (r: seq<nat>)
    ensures forall x :: x in r <==> x in xs && x !in gone
  {
    if xs == [] then [] else (if xs[0] in gone then [] else [xs[0]]) + Without(xs[1..], gone)
  }

  lemma {:induction false} WithoutStaysSorted(xs: seq<nat>, gone: set<nat>, before: Order)
    requires Distinct(xs) && SortedBy(xs, before)
    ensures Distinct(Without(xs, gone)) && SortedBy(Without(xs, gone), before)
  {
    if xs != [] {
      var t := xs[1..];
      WithoutStaysSorted(t, gone, before);
      var r := Without(t, gone);
      forall k | 0 <= k < |r| ensures before(xs[0], r[k]) && xs[0] != r[k] {
        assert r[k] in r && r[k] in t;
        var i :| 0 <= i < |t| && t[i] == r[k];
        assert xs[i + 1] == r[k];
      }
    }
  }

  lemma {:induction false} WithoutNothing(xs: seq<nat>, gone: set<nat>)
    requires forall x :: x in xs ==> x !in gone
    ensures Without(xs, gone) == xs
  {
    if xs != [] {
      assert xs[0] in xs;
      WithoutNothing(xs[1..], gone);
    }
  }

  lemma SortedElsewhere(xs: seq<nat>, f: Order, g: Order)
    requires SortedBy(xs, f) && forall x, y :: x in xs && y in xs && f(x, y) ==> g(x, y)
    ensures SortedBy(xs, g)
  {
    forall i, j | 0 <= i < j < |xs| ensures g(xs[i], xs[j]) {
      assert xs[i] in xs && xs[j] in xs && f(xs[i], xs[j]);
    }
  }

  /** `u` is `t` except that the rows `gone` are no longer live under `p`. */
  ghost predicate LosesRows(t: Table, u: Table, p: Option<nat>, n: nat, gone: set<nat>) {
    && (forall id: nat :: id < n && IsLive(t, id) && t[id].parent == p && id !in gone ==>
         IsLive(u, id) && u[id].parent == p && u[id].position == t[id].position && u[id].tie == t[id].tie)
    && (forall id: nat :: id < n && IsLive(u, id) && u[id].parent == p ==>
         IsLive(t, id) && t[id].parent == p && id !in gone)
  }

  lemma OrderAfterLoss(t: Table, u: Table, p: Option<nat>, n: nat, gone: set<nat>)
    requires LosesRows(t, u, p, n, gone)
    ensures Siblings(u, p, n) == Without(Siblings(t, p, n), gone)
  {
    SiblingsSorted(t, p, n);
    hide Siblings, Without;
    var xs := Siblings(t, p, n);
    var ys := Without(xs, gone);
    WithoutStaysSorted(xs, gone, PositionOrder(t));
    SortedElsewhere(ys, PositionOrder(t), PositionOrder(u));
    SiblingsAre(u, p, n, ys);
  }

  // ---- re-indexing ----

  /** `_reindex_folders` and `_reindex_jobs` for each of the parents `ps`. */
  function Reindex(t: Table, ps: set<Option<nat>>, n: nat): (u: Table)
    ensures u.Keys == t.Keys
  {
    map id | id in t ::
      if id < n && IsLive(t, id) && t[id].parent in ps then
        t[id].(position := PlaceIn(Siblings(t, t[id].parent, n), id))
      else t[id]
  }

  /** Re-indexing leaves every order as it was and makes the positions dense. */
  lemma ReindexKeepsOrder(t: Table, ps: set<Option<nat>>, n: nat, p: Option<nat>)
    ensures Siblings(Reindex(t, ps, n), p, n) == Siblings(t, p, n)
    ensures p in ps ==> Dense(Reindex(t, ps, n), p, n)
  {
    var u := Reindex(t, ps, n);
    var xs := Siblings(t, p, n);
    SiblingsSorted(t, p, n);
    hide Siblings;
    forall i, j | 0 <= i < j < |xs| ensures PositionOrder(u)(xs[i], xs[j]) {
      assert xs[i] in xs && xs[j] in xs && PositionOrder(t)(xs[i], xs[j]);
      PlaceOf(xs, i);
      PlaceOf(xs, j);
    }
    SiblingsAre(u, p, n, xs);
    if p in ps {
      forall k | 0 <= k < |xs| ensures xs[k] in u && u[xs[k]].position == k {
        assert xs[k] in xs;
        PlaceOf(xs, k);
      }
    }
  }

  // ---- placing rows ----

  ghost predicate AllIn(t: Table, ids: seq<nat>) { forall k :: 0 <= k < |ids| ==> ids[k] in t }

  /** The first `k` of `ids` are put under `dest`, at `start`, `start + 1`, and so on. */
  function PlaceRows(t: Table, ids: seq<nat>, dest: Option<nat>, start: nat, k: nat): (u: Table)
    requires AllIn(t, ids) && k <= |ids|
    ensures u.Keys == t.Keys
  {
    if k == 0 then t else
      var u := PlaceRows(t, ids, dest, start, k - 1);
      u[ids[k - 1] := u[ids[k - 1]].(parent := dest, position := start + k - 1)]
  }

  /** Where a list mentions `x` last. */
  function LastAt(ids: seq<nat>, x: nat): (k: nat)
    requires x in ids
    ensures k < |ids| && ids[k] == x
    ensures forall l :: k < l < |ids| ==> ids[l] != x
  {
    if ids[|ids| - 1] == x then |ids| - 1 else LastAt(ids[..|ids| - 1], x)
  }

  /** What placing comes to, row by row: the last mention counts. */
  ghost predicate ArePlaced(t: Table, u: Table, ids: seq<nat>, dest: Option<nat>, start: nat) {
    && u.Keys == t.Keys
    && (forall id :: id in ids ==>
         id in t && u[id] == t[id].(parent := dest, position := start + LastAt(ids, id)))
    && (forall id :: id in t && id !in ids ==> u[id] == t[id])
  }

  lemma {:induction false} PlacedRows(t: Table, ids: seq<nat>, dest: Option<nat>, start: nat, k: nat)
    requires AllIn(t, ids) && k <= |ids|
    ensures ArePlaced(t, PlaceRows(t, ids, dest, start, k), ids[..k], dest, start)
  {
    hide ArePlaced;
    if k == 0 {
      NothingPlaced(t, dest, start);
    } else {
      PlacedRows(t, ids, dest, start, k - 1);
      assert ids[..k] == ids[..k - 1] + [ids[k - 1]];
      PlaceOneMore(t, PlaceRows(t, ids, dest, start, k - 1), ids[..k - 1], ids[k - 1], dest, start);
    }
  }

  lemma NothingPlaced(t: Table, dest: Option<nat>, start: nat)
    ensures ArePlaced(t, t, [], dest, start)
  {
  }

  lemma LastAtOneMore(ids: seq<nat>, id: nat, x: nat)
    requires x in ids + [id]
    ensures x == id ==> LastAt(ids + [id], x) == |ids|
    ensures x != id ==> x in ids && LastAt(ids + [id], x) == LastAt(ids, x)
  {
    assert (ids + [id])[..|ids|] == ids;
  }

  lemma PlaceOneMore(t: Table, u: Table, ids: seq<nat>, id: nat, dest: Option<nat>, start: nat)
    requires ArePlaced(t, u, ids, dest, start) && id in t
    ensures ArePlaced(t, u[id := u[id].(parent := dest, position := start + |ids|)], ids + [id], dest, start)
  {
    hide LastAt;
    forall x | x in ids + [id] { LastAtOneMore(ids, id, x); }
  }

  lemma PlacedRow(t: Table, u: Table, ids: seq<nat>, dest: Option<nat>, start: nat, id: nat)
    requires ArePlaced(t, u, ids, dest, start)
    ensures IsLive(u, id) == IsLive(t, id)
    ensures id in t && id in ids ==> u[id].parent == dest && u[id].position >= start
    ensures id in t && id !in ids ==> u[id] == t[id]
  {
  }

  /** Each element once, where the list mentions it last. */
  function LastOnes(ids: seq<nat>): (r: seq<nat>)
    ensures forall x :: x in r <==> x in ids
  {
    if ids == [] then [] else
      var front, last := ids[..|ids| - 1], ids[|ids| - 1];
      assert ids == front + [last];
      Without(LastOnes(front), {last}) + [last]
  }

  function ByMention(ids: seq<nat>): Order {
    (a: nat, b: nat) => a in ids && b in ids && LastAt(ids, a) < LastAt(ids, b)
  }

  lemma {:induction false} LastOnesByMention(ids: seq<nat>)
    ensures Distinct(LastOnes(ids)) && SortedBy(LastOnes(ids), ByMention(ids))
  {
    if ids != [] {
      var front, last := ids[..|ids| - 1], ids[|ids| - 1];
      LastOnesByMention(front);
      var stay := Without(LastOnes(front), {last});
      WithoutStaysSorted(LastOnes(front), {last}, ByMention(front));
      assert ids == front + [last];
      hide LastAt, Without, LastOnes;
      forall x | x in ids { LastAtOneMore(front, last, x); }
      SortedElsewhere(stay, ByMention(front), ByMention(ids));
      LastOneBehind(stay, last, ByMention(ids));
      assert LastOnes(ids) == stay + [last] by { LastOnesStep(ids); }
    }
  }

  lemma LastOnesStep(ids: seq<nat>)
    requires ids != []
    ensures LastOnes(ids) == Without(LastOnes(ids[..|ids| - 1]), {ids[|ids| - 1]}) + [ids[|ids| - 1]]
  {
    hide Without;
  }

  lemma LastOneBehind(stay: seq<nat>, last: nat, before: Order)
    requires Distinct(stay) && SortedBy(stay, before) && forall x :: x in stay ==> x != last && before(x, last)
    ensures Distinct(stay + [last]) && SortedBy(stay + [last], before)
  {
    var ys := stay + [last];
    forall i, j | 0 <= i < j < |ys| ensures ys[i] != ys[j] && before(ys[i], ys[j]) {
      assert stay[i] in stay;
    }
  }

  lemma {:induction false} LastOnesOfDistinct(ids: seq<nat>)
    requires Distinct(ids)
    ensures LastOnes(ids) == ids
  {
    if ids != [] {
      var front, last := ids[..|ids| - 1], ids[|ids| - 1];
      LastOnesOfDistinct(front);
      assert forall i :: 0 <= i < |front| ==> front[i] == ids[i];
      WithoutNothing(front, {last});
      LastOnesStep(ids);
    }
  }

  ghost function Members(ids: seq<nat>): (r: set<nat>)
    ensures forall x :: x in r <==> x in ids
  {
    set x | x in ids
  }

  lemma PlacedInOrder(t: Table, ids: seq<nat>, dest: Option<nat>, n: nat)
    requires AllIn(t, ids) && forall k :: 0 <= k < |ids| ==> ids[k] < n && IsLive(t, ids[k])
    ensures
      var u := PlaceRows(t, ids, dest, NextPosition(t, dest, n), |ids|);
      Siblings(u, dest, n) == Without(Siblings(t, dest, n), Members(ids)) + LastOnes(ids)
  {
    var start := NextPosition(t, dest, n);
    var u := PlaceRows(t, ids, dest, start, |ids|);
    PlacedRows(t, ids, dest, start, |ids|);
    assert ids[..|ids|] == ids;
    SiblingsSorted(t, dest, n);
    hide PlaceRows, Siblings, NextPosition, Without, LastOnes, LastAt;
    var xs := Siblings(t, dest, n);
    var stay := Without(xs, Members(ids));
    forall id: nat ensures id in stay + LastOnes(ids) <==> id < n && IsLive(u, id) && u[id].parent == dest {
      PlacedRow(t, u, ids, dest, start, id);
      if id in ids { var k :| 0 <= k < |ids| && ids[k] == id; }
    }
    PlacedIsSorted(t, u, xs, ids, dest, start);
    SiblingsAre(u, dest, n, stay + LastOnes(ids));
  }

  lemma PlacedIsSorted(t: Table, u: Table, xs: seq<nat>, ids: seq<nat>, dest: Option<nat>, start: nat)
    requires ArePlaced(t, u, ids, dest, start)
    requires Distinct(xs) && SortedBy(xs, PositionOrder(t))
    requires forall x :: x in xs ==> x in t && t[x].position < start
    ensures
      var ys := Without(xs, Members(ids)) + LastOnes(ids);
      Distinct(ys) && SortedBy(ys, PositionOrder(u))
  {
    hide Without, LastOnes, LastAt;
    var stay, placed := Without(xs, Members(ids)), LastOnes(ids);
    WithoutStaysSorted(xs, Members(ids), PositionOrder(t));
    forall x, y | x in stay && y in stay && PositionOrder(t)(x, y) ensures PositionOrder(u)(x, y) {
    }
    SortedElsewhere(stay, PositionOrder(t), PositionOrder(u));
    LastOnesByMention(ids);
    SortedElsewhere(placed, ByMention(ids), PositionOrder(u));
    var ys := stay + placed;
    forall i, j | 0 <= i < j < |ys| ensures ys[i] != ys[j] && PositionOrder(u)(ys[i], ys[j]) {
      if j < |stay| {
        assert PositionOrder(u)(stay[i], stay[j]);
      } else if i < |stay| {
        assert stay[i] in stay && placed[j - |stay|] in placed;
      } else {
        assert PositionOrder(u)(placed[i - |stay|], placed[j - |stay|]);
      }
    }
  }

  lemma LeftInOrder(t: Table, ids: seq<nat>, dest: Option<nat>, start: nat, n: nat, p: Option<nat>)
    requires AllIn(t, ids) && p != dest
    ensures
      var u := PlaceRows(t, ids, dest, start, |ids|);
      Siblings(u, p, n) == Without(Siblings(t, p, n), Members(ids))
  {
    var u := PlaceRows(t, ids, dest, start, |ids|);
    PlacedRows(t, ids, dest, start, |ids|);
    assert ids[..|ids|] == ids;
    hide PlaceRows, Siblings, ArePlaced;
    forall id: nat
      ensures IsLive(u, id) == IsLive(t, id)
      ensures id in t && id in ids ==> u[id].parent == dest
      ensures id in t && id !in ids ==> u[id] == t[id]
    {
      PlacedRow(t, u, ids, dest, start, id);
    }
    OrderAfterLoss(t, u, p, n, Members(ids));
  }
}
