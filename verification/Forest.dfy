/** Rows with parent pointers (server/app/library/models.py): what it means for one row to
    lie under another, and why pointers that only go up in rank never form a cycle. */
module Forest {
  import opened Wrappers

  /** A folder or a job of the library. `tie` stands for what breaks a tie between equal
      positions: the name of a folder, the submission time of a job. */
  datatype Row = Row(parent: Option<nat>, position: nat, tie: int, deleted: bool, tag: Option<nat>)

  type Table = map<nat, Row>

  predicate IsLive(t: Table, id: nat) { id in t && !t[id].deleted }

  function LiveRows(t: Table): (r: Table)
    ensures forall id :: id in r <==> IsLive(t, id)
  {
    map id | id in t && !t[id].deleted :: t[id]
  }

  /** `a` is `n` parent pointers above `x`. */
  ghost predicate Reaches(t: Table, x: nat, a: nat, n: nat)
    decreases n
  {
    if n == 0 then x == a
    else x in t && t[x].parent.Some? && Reaches(t, t[x].parent.value, a, n - 1)
  }

  /** `x` is `a` or lies below it. */
  ghost predicate IsUnder(t: Table, x: nat, a: nat) { exists n: nat :: Reaches(t, x, a, n) }

  lemma UnderSelf(t: Table, x: nat)
    ensures IsUnder(t, x, x)
  {
    assert Reaches(t, x, x, 0);
  }

  /** One step: below `a` means being `a` or having a parent below `a`. */
  lemma UnderByParent(t: Table, x: nat, a: nat)
    ensures IsUnder(t, x, a) <==> x == a || (x in t && t[x].parent.Some? && IsUnder(t, t[x].parent.value, a))
  {
    if IsUnder(t, x, a) {
      var n: nat :| Reaches(t, x, a, n);
      if n > 0 { assert Reaches(t, t[x].parent.value, a, n - 1); }
    }
    if x == a { UnderSelf(t, x); }
    if x in t && t[x].parent.Some? && IsUnder(t, t[x].parent.value, a) {
      var n: nat :| Reaches(t, t[x].parent.value, a, n);
      assert Reaches(t, x, a, n + 1);
    }
  }

  lemma {:induction false} ReachesOnward(t: Table, x: nat, a: nat, b: nat, n: nat, m: nat)
    requires Reaches(t, x, a, n) && Reaches(t, a, b, m)
    ensures Reaches(t, x, b, n + m)
    decreases n
  {
    if n > 0 { ReachesOnward(t, t[x].parent.value, a, b, n - 1, m); }
  }

  lemma UnderIsTransitive(t: Table, x: nat, a: nat, b: nat)
    requires IsUnder(t, x, a) && IsUnder(t, a, b)
    ensures IsUnder(t, x, b)
  {
    var n: nat :| Reaches(t, x, a, n);
    var m: nat :| Reaches(t, a, b, m);
    ReachesOnward(t, x, a, b, n, m);
  }

  lemma {:induction false} ReachesBoth(t: Table, x: nat, a: nat, b: nat, n: nat, m: nat)
    requires Reaches(t, x, a, n) && Reaches(t, x, b, m) && n <= m
    ensures Reaches(t, a, b, m - n)
    decreases n
  {
    if n > 0 { ReachesBoth(t, t[x].parent.value, a, b, n - 1, m - 1); }
  }

  /** What lies above one row forms a line. */
  lemma AboveIsALine(t: Table, x: nat, a: nat, b: nat)
    requires IsUnder(t, x, a) && IsUnder(t, x, b)
    ensures IsUnder(t, a, b) || IsUnder(t, b, a)
  {
    var n: nat :| Reaches(t, x, a, n);
    var m: nat :| Reaches(t, x, b, m);
    if n <= m { ReachesBoth(t, x, a, b, n, m); } else { ReachesBoth(t, x, b, a, m, n); }
  }

  // ---- no cycles ----

  /** Every row ranks above its parent. */
  ghost predicate Ranks(t: Table, rank: map<nat, nat>) {
    forall x :: x in t ==> (
      && x in rank
      && (t[x].parent.Some? && t[x].parent.value in t ==>
           t[x].parent.value in rank && rank[t[x].parent.value] < rank[x]))
  }

  ghost predicate Acyclic(t: Table) { exists rank :: Ranks(t, rank) }

  lemma {:induction false} ReachesClimbs(t: Table, rank: map<nat, nat>, x: nat, a: nat, n: nat)
    requires Ranks(t, rank) && Reaches(t, x, a, n) && x in t && a in t
    ensures x in rank && a in rank && rank[a] + n <= rank[x]
    decreases n
  {
    if n > 0 {
      var p := t[x].parent.value;
      if n > 1 { assert p in t; }
      ReachesClimbs(t, rank, p, a, n - 1);
    }
  }

  /** No row is its own ancestor, and no two are each other's. */
  lemma AcyclicMeansNoCycle(t: Table, x: nat, a: nat)
    requires Acyclic(t)
    ensures x in t && t[x].parent.Some? ==> !IsUnder(t, t[x].parent.value, x)
    ensures x in t && a in t && IsUnder(t, x, a) && IsUnder(t, a, x) ==> x == a
  {
    var rank :| Ranks(t, rank);
    if x in t && t[x].parent.Some? && IsUnder(t, t[x].parent.value, x) {
      var n: nat :| Reaches(t, t[x].parent.value, x, n);
      assert Reaches(t, x, x, n + 1);
      ReachesClimbs(t, rank, x, x, n + 1);
    }
    if x in t && a in t && IsUnder(t, x, a) && IsUnder(t, a, x) {
      var n: nat :| Reaches(t, x, a, n);
      var m: nat :| Reaches(t, a, x, m);
      ReachesClimbs(t, rank, x, a, n);
      ReachesClimbs(t, rank, a, x, m);
    }
  }

  /** Dropping rows or parent pointers creates no cycle. */
  lemma FewerPointersStayAcyclic(t: Table, u: Table)
    requires Acyclic(t)
    requires forall x :: x in u ==> x in t && (u[x].parent == t[x].parent || u[x].parent.None?)
    ensures Acyclic(u)
  {
    var rank :| Ranks(t, rank);
    assert Ranks(u, rank);
  }

  /** Hanging rows under `dest` creates no cycle when `dest` lies below none of them. */
  lemma HangingStaysAcyclic(t: Table, u: Table, moved: set<nat>, dest: Option<nat>)
    requires Acyclic(t) && u.Keys == t.Keys
    requires forall x :: x in t ==> u[x].parent == if x in moved then dest else t[x].parent
    requires dest.Some? ==> forall f :: f in moved ==> !IsUnder(t, dest.value, f)
    ensures Acyclic(u)
  {
    var rank :| Ranks(t, rank);
    var base := if dest.Some? && dest.value in t then rank[dest.value] + 1 else 0;
    var below := set x | x in t && exists f :: f in moved && IsUnder(t, x, f);
    var raised := map x | x in t :: if x in below then rank[x] + base else rank[x];
    forall x | x in u && u[x].parent.Some? && u[x].parent.value in u
      ensures raised[u[x].parent.value] < raised[x]
    {
      var p := u[x].parent.value;
      if x in moved {
        UnderSelf(t, x);
        assert x in below && p !in below;
      } else {
        StaysOnItsSide(t, x, moved);
      }
    }
    assert Ranks(u, raised);
  }

  /** A row that is not itself moved lies below a moved one exactly when its parent does. */
  lemma StaysOnItsSide(t: Table, x: nat, moved: set<nat>)
    requires x in t && t[x].parent.Some? && x !in moved
    ensures (exists f :: f in moved && IsUnder(t, x, f)) <==>
      (exists f :: f in moved && IsUnder(t, t[x].parent.value, f))
  {
    forall f | f in moved ensures IsUnder(t, x, f) <==> IsUnder(t, t[x].parent.value, f) {
      UnderByParent(t, x, f);
    }
  }

  /** A new row under an existing one creates no cycle. */
  lemma NewRowStaysAcyclic(t: Table, id: nat, row: Row)
    requires Acyclic(t) && id !in t && row.parent != Some(id)
    requires forall x :: x in t ==> t[x].parent != Some(id)
    ensures Acyclic(t[id := row])
  {
    var rank :| Ranks(t, rank);
    var top := if row.parent.Some? && row.parent.value in t then rank[row.parent.value] + 1 else 0;
    assert Ranks(t[id := row], rank[id := top]);
  }

  // ---- live rows ----

  ghost predicate LiveParents(t: Table) {
    forall x :: IsLive(t, x) && t[x].parent.Some? ==> IsLive(t, t[x].parent.value)
  }

  lemma {:induction false} LiveReaches(t: Table, x: nat, a: nat, n: nat)
    requires LiveParents(t) && IsLive(t, x)
    ensures Reaches(LiveRows(t), x, a, n) <==> Reaches(t, x, a, n)
    ensures Reaches(t, x, a, n) ==> IsLive(t, a)
    decreases n
  {
    if n > 0 && t[x].parent.Some? { LiveReaches(t, t[x].parent.value, a, n - 1); }
  }

  /** Whether a live row lies below another does not depend on what is in the trash. */
  lemma LiveUnder(t: Table, x: nat, a: nat)
    requires LiveParents(t) && IsLive(t, x)
    ensures IsUnder(LiveRows(t), x, a) <==> IsUnder(t, x, a)
    ensures IsUnder(t, x, a) ==> IsLive(t, a)
  {
    forall n: nat { LiveReaches(t, x, a, n); }
    if IsUnder(t, x, a) {
      var n: nat :| Reaches(t, x, a, n);
      assert Reaches(LiveRows(t), x, a, n);
    }
    if IsUnder(LiveRows(t), x, a) {
      var n: nat :| Reaches(LiveRows(t), x, a, n);
      assert Reaches(t, x, a, n);
    }
  }
}
