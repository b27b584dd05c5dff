/** The tree helpers of the library (server/app/library/tree.py), as they run. */
module LibraryTree {
  import opened Wrappers
  import opened Sorting
  import opened Forest
  import opened SiblingOrder
  import opened LibraryModel

  // ---- descendant_folder_ids ----

  method GroupByParent(t: Table, n: nat) returns (children: map<nat, seq<nat>>)
    requires IdsBelow(t, n)
    ensures forall p: nat :: Children(children, p) == ChildrenOf(t, p, n)
  {
    children := map[];
    for id := 0 to n
      invariant forall p: nat :: Children(children, p) == ChildrenOf(t, p, id)
    {
      if id in t && t[id].parent.Some? {
        var p := t[id].parent.value;
        children := children[p := Children(children, p) + [id]];
      }
    }
  }

  function Children(children: map<nat, seq<nat>>, p: nat): seq<nat> { if p in children then children[p] else [] }

  function ChildrenOf(t: Table, p: nat, n: nat): (r: seq<nat>)
    ensures forall id: nat :: id in r <==> id < n && id in t && t[id].parent == Some(p)
  {
    if n == 0 then [] else
      ChildrenOf(t, p, n - 1) + (if n - 1 in t && t[n - 1].parent == Some(p) then [n - 1] else [])
  }

  ghost predicate AllUnder(t: Table, ids: seq<nat>, root: nat) {
    forall k :: 0 <= k < |ids| ==> IsUnder(t, ids[k], root)
  }

  /** The worklist finds exactly what reaches `root` by parent pointers, on any table. */
  method DescendantFolderIds(t: Table, n: nat, root: nat) returns (found: set<nat>)
    requires IdsBelow(t, n)
    ensures forall x :: x in found <==> IsUnder(t, x, root)
  {
    var children := GroupByParent(t, n);
    found := {};
    var stack := [root];
    UnderSelf(t, root);
    hide IsUnder, ChildrenOf;
    while stack != []
      invariant AllUnder(t, stack, root) && forall x :: x in found ==> IsUnder(t, x, root) && (x in t || x == root)
      invariant root in found || root in stack
      invariant forall x :: x in t && t[x].parent.Some? && t[x].parent.value in found ==> x in found || x in stack
      decreases (t.Keys + {root}) - found, |stack|
    {
      var current := stack[|stack| - 1];
      var rest := stack[..|stack| - 1];
      assert forall x :: x in stack <==> x == current || x in rest;
      stack := rest;
      if current !in found {
        InTableOrRoot(t, current, root);
        found := found + {current};
        ChildrenAreUnder(t, current, root, n);
        stack := stack + Children(children, current);
      }
    }
    forall x | IsUnder(t, x, root) ensures x in found { ClosedHoldsAll(t, found, x, root); }
  }

  lemma InTableOrRoot(t: Table, x: nat, root: nat)
    requires IsUnder(t, x, root)
    ensures x in t || x == root
  {
    UnderByParent(t, x, root);
  }

  lemma ChildrenAreUnder(t: Table, p: nat, root: nat, n: nat)
    requires IsUnder(t, p, root)
    ensures AllUnder(t, ChildrenOf(t, p, n), root)
  {
    var ids := ChildrenOf(t, p, n);
    hide ChildrenOf, IsUnder;
    forall k | 0 <= k < |ids| ensures IsUnder(t, ids[k], root) {
      assert ids[k] in ids;
      UnderByParent(t, ids[k], root);
    }
  }

  lemma ClosedHoldsAll(t: Table, found: set<nat>, x: nat, root: nat)
    requires root in found && IsUnder(t, x, root)
    requires forall y :: y in t && t[y].parent.Some? && t[y].parent.value in found ==> y in found
    ensures x in found
  {
    var n: nat :| Reaches(t, x, root, n);
    ClosedHoldsReaching(t, found, x, root, n);
  }

  lemma {:induction false} ClosedHoldsReaching(t: Table, found: set<nat>, x: nat, root: nat, n: nat)
    requires root in found && Reaches(t, x, root, n)
    requires forall y :: y in t && t[y].parent.Some? && t[y].parent.value in found ==> y in found
    ensures x in found
    decreases n
  {
    if n > 0 { ClosedHoldsReaching(t, found, t[x].parent.value, root, n - 1); }
  }

  // ---- assert_move_is_acyclic ----

  /** A move is refused exactly when its destination lies below something it moves. */
  method MoveIsAcyclic(t: Table, n: nat, folderIds: seq<nat>, dest: Option<nat>) returns (ok: bool)
    requires IdsBelow(t, n)
    ensures ok <==> (dest.Some? ==> forall f :: f in folderIds ==> !IsUnder(t, dest.value, f))
  {
    if dest.None? { return true; }
    hide IsUnder;
    for k := 0 to |folderIds|
      invariant forall i :: 0 <= i < k ==> !IsUnder(t, dest.value, folderIds[i])
    {
      var below := DescendantFolderIds(t, n, folderIds[k]);
      if dest.value == folderIds[k] || dest.value in below {
        UnderSelf(t, folderIds[k]);
        assert folderIds[k] in folderIds;
        return false;
      }
    }
    return true;
  }

  // ---- _has_selected_ancestor ----

  ghost predicate HasSelectedAbove(t: Table, id: nat, selected: set<nat>) {
    id in t && t[id].parent.Some? && exists a :: a in selected && IsUnder(t, t[id].parent.value, a)
  }

  method HasSelectedAncestor(t: Table, id: nat, selected: set<nat>) returns (found: bool)
    requires id in t && Acyclic(t)
    ensures found <==> HasSelectedAbove(t, id, selected)
  {
    ghost var rank :| Ranks(t, rank);
    var current := t[id].parent;
    hide IsUnder, Acyclic;
    while current.Some?
      invariant HasSelectedAbove(t, id, selected) <==>
        (current.Some? && exists a :: a in selected && IsUnder(t, current.value, a))
      decreases current.Some?, if current.Some? && current.value in t then rank[current.value] + 1 else 0
    {
      forall a | a in selected
        ensures IsUnder(t, current.value, a) <==>
          (|| current.value == a
           || (current.value in t && t[current.value].parent.Some? && IsUnder(t, t[current.value].parent.value, a)))
      {
        UnderByParent(t, current.value, a);
      }
      if current.value in selected { return true; }
      if current.value !in t { return false; }
      current := t[current.value].parent;
    }
    return false;
  }

  // ---- folder_path ----

  ghost predicate IsChain(t: Table, up: seq<nat>) {
    && Distinct(up) && AllIn(t, up)
    && forall k :: 0 <= k < |up| - 1 ==> t[up[k]].parent == Some(up[k + 1])
  }

  /** From the folder up, as far as the pointers go; `up` is the path in reverse. */
  method FolderPathUp(t: Table, folder: Option<nat>) returns (up: seq<nat>)
    ensures IsChain(t, up)
    ensures up == [] <==> folder.None? || folder.value !in t
    ensures up != [] ==> folder == Some(up[0])
    ensures Acyclic(t) && up != [] ==>
      t[up[|up| - 1]].parent.None? || t[up[|up| - 1]].parent.value !in t
  {
    up := [];
    var seen: set<nat> := {};
    var current := folder;
    while current.Some?
      invariant IsChain(t, up) && forall x :: x in seen <==> x in up
      invariant up == [] ==> current == folder
      invariant up != [] ==> folder == Some(up[0]) && t[up[|up| - 1]].parent == current
      decreases t.Keys - seen, current.Some?
    {
      var id := current.value;
      if id !in t || id in seen {
        if id in seen { ChainIsUnder(t, up, id); }
        return;
      }
      seen := seen + {id};
      up := up + [id];
      current := t[id].parent;
    }
  }

  /** A chain that comes back on itself is a cycle. */
  lemma ChainIsUnder(t: Table, up: seq<nat>, id: nat)
    requires IsChain(t, up) && id in up && t[up[|up| - 1]].parent == Some(id)
    ensures !Acyclic(t)
  {
    var k :| 0 <= k < |up| && up[k] == id;
    var last := up[|up| - 1];
    ChainReaches(t, up, k, |up| - 1);
    if Acyclic(t) {
      AcyclicMeansNoCycle(t, last, id);
      UnderByParent(t, last, id);
      UnderSelf(t, id);
    }
  }

  lemma {:induction false} ChainReaches(t: Table, up: seq<nat>, k: nat, l: nat)
    requires IsChain(t, up) && k <= l < |up|
    ensures IsUnder(t, up[k], up[l])
    decreases l - k
  {
    if k == l {
      UnderSelf(t, up[k]);
    } else {
      ChainReaches(t, up, k + 1, l);
      UnderByParent(t, up[k], up[l]);
    }
  }

  // ---- normalize_order ----

  lemma {:induction false} SetOfSize(ids: seq<nat>)
    ensures |Elements(ids)| <= |ids|
    ensures |Elements(ids)| == |ids| <==> Distinct(ids)
  {
    if ids != [] {
      var n := |ids| - 1;
      var front, last := ids[..n], ids[n];
      SetOfSize(front);
      assert ids == front + [last];
      assert Elements(ids) == Elements(front) + {last};
      if last in front {
        var k :| 0 <= k < n && front[k] == last;
        assert Elements(ids) == Elements(front);
      }
      hide Elements;
    }
  }

  function Elements(ids: seq<nat>): set<nat> { set x | x in ids }

  /** A requested order is taken as it is exactly when it names each child once. */
  method NormalizeOrder(current: seq<nat>, requested: seq<nat>) returns (r: Option<seq<nat>>)
    ensures r.Some? <==> Distinct(requested) && forall x :: x in requested <==> x in current
    ensures r.Some? ==> r.value == requested
  {
    SetOfSize(requested);
    if |requested| != |Elements(requested)| { return None; }
    if Elements(requested) != Elements(current) {
      assert exists x :: (x in Elements(requested)) != (x in Elements(current));
      return None;
    }
    forall x ensures x in requested <==> x in current {
      assert x in Elements(requested) <==> x in Elements(current);
    }
    return Some(requested);
  }

  // ---- subtree_counts ----

  /** The live jobs in `f` or in a live folder below it. */
  ghost function JobsUnder(folders: Table, jobs: Table, f: nat): set<nat> {
    set j | j in jobs && IsLive(jobs, j) && jobs[j].parent.Some? && IsUnder(LiveRows(folders), jobs[j].parent.value, f)
  }

  /** Those directly in `f`, and those under the first `k` of its children. */
  ghost function JobsUnderFirst(folders: Table, jobs: Table, f: nat, cs: seq<nat>, k: nat): set<nat>
    requires k <= |cs|
  {
    set j | j in jobs && IsLive(jobs, j) && jobs[j].parent.Some? &&
      (jobs[j].parent.value == f || exists i :: 0 <= i < k && IsUnder(LiveRows(folders), jobs[j].parent.value, cs[i]))
  }

  function JobsDirectlyIn(jobs: Table, f: nat): set<nat> {
    set j | j in jobs && IsLive(jobs, j) && jobs[j].parent == Some(f)
  }

  ghost predicate AreCounts(folders: Table, jobs: Table, counts: map<nat, nat>) {
    forall g :: g in counts ==> counts[g] == |JobsUnder(folders, jobs, g)|
  }

  lemma ChildrenOnly(folders: Table, f: nat, n: nat, x: nat, cs: seq<nat>)
    requires IdsBelow(folders, n) && IsLive(folders, f) && cs == ChildIds(folders, Some(f), n)
    ensures IsUnder(LiveRows(folders), x, f) <==>
      x == f || exists i :: 0 <= i < |cs| && IsUnder(LiveRows(folders), x, cs[i])
  {
    hide ChildIds, IsUnder;
    var t := LiveRows(folders);
    if IsUnder(t, x, f) && x != f {
      StepDown(t, x, f);
      var c :| c in t && t[c].parent == Some(f) && IsUnder(t, x, c);
      assert c in cs;
      var i :| 0 <= i < |cs| && cs[i] == c;
    }
    if i :| 0 <= i < |cs| && IsUnder(t, x, cs[i]) {
      assert cs[i] in cs;
      UnderSelf(t, f);
      UnderByParent(t, cs[i], f);
      UnderIsTransitive(t, x, cs[i], f);
    }
    if x == f { UnderSelf(t, f); }
  }

  /** Whatever lies strictly below `f` lies below one of its children. */
  lemma StepDown(t: Table, x: nat, f: nat)
    requires IsUnder(t, x, f) && x != f
    ensures exists c :: c in t && t[c].parent == Some(f) && IsUnder(t, x, c)
  {
    var m: nat :| Reaches(t, x, f, m);
    LastStepDown(t, x, f, m);
  }

  lemma {:induction false} LastStepDown(t: Table, x: nat, f: nat, m: nat)
    requires Reaches(t, x, f, m) && m > 0
    ensures exists c :: c in t && t[c].parent == Some(f) && IsUnder(t, x, c)
    decreases m
  {
    if m == 1 {
      UnderSelf(t, x);
    } else {
      LastStepDown(t, t[x].parent.value, f, m - 1);
      var c :| c in t && t[c].parent == Some(f) && IsUnder(t, t[x].parent.value, c);
      UnderByParent(t, x, c);
    }
  }

  /** Below one child is not below its parent's other children, nor directly in the parent. */
  lemma ChildrenApart(t: Table, f: nat, c: nat, d: nat, x: nat)
    requires Acyclic(t) && c in t && t[c].parent == Some(f) && IsUnder(t, x, c)
    ensures x != f
    ensures d in t && t[d].parent == Some(f) && IsUnder(t, x, d) ==> c == d
  {
    AcyclicMeansNoCycle(t, c, c);
    if d in t && t[d].parent == Some(f) && IsUnder(t, x, d) {
      AboveIsALine(t, x, c, d);
      AcyclicMeansNoCycle(t, d, d);
      UnderByParent(t, c, d);
      UnderByParent(t, d, c);
    }
  }

  lemma NextChildAdds(folders: Table, jobs: Table, f: nat, n: nat, k: nat)
    requires IdsBelow(folders, n) && Acyclic(LiveRows(folders)) && k < |ChildIds(folders, Some(f), n)|
    ensures
      var cs := ChildIds(folders, Some(f), n);
      |JobsUnderFirst(folders, jobs, f, cs, k + 1)| ==
        |JobsUnderFirst(folders, jobs, f, cs, k)| + |JobsUnder(folders, jobs, cs[k])|
  {
    var t := LiveRows(folders);
    var cs := ChildIds(folders, Some(f), n);
    hide ChildIds, IsUnder, Acyclic;
    assert forall i :: 0 <= i < |cs| ==> cs[i] in cs;
    var a, b := JobsUnderFirst(folders, jobs, f, cs, k), JobsUnder(folders, jobs, cs[k]);
    forall j | j in b ensures j !in a {
      var x := jobs[j].parent.value;
      ChildrenApart(t, f, cs[k], cs[k], x);
      forall i | 0 <= i < k ensures !IsUnder(t, x, cs[i]) { ChildrenApart(t, f, cs[k], cs[i], x); }
    }
    assert JobsUnderFirst(folders, jobs, f, cs, k + 1) == a + b;
  }

  /** Every folder in `seen` is counted already, or still open above `f`. */
  ghost predicate OpenAbove(folders: Table, counts: map<nat, nat>, seen: set<nat>, f: nat) {
    forall s :: s in seen ==> s in counts || (s != f && IsUnder(LiveRows(folders), f, s))
  }

  /** The recursive `count` of `subtree_counts`. It ends on any table; on a forest it counts. */
  method CountUnder(folders: Table, jobs: Table, n: nat, f: nat, seen: set<nat>, counts: map<nat, nat>)
    returns (total: nat, seen': set<nat>, counts': map<nat, nat>)
    requires IdsBelow(folders, n) && IsLive(folders, f)
    requires Acyclic(LiveRows(folders)) ==> AreCounts(folders, jobs, counts) && OpenAbove(folders, counts, seen, f)
    ensures Acyclic(LiveRows(folders)) ==> total == |JobsUnder(folders, jobs, f)| && AreCounts(folders, jobs, counts')
    ensures (f in counts' || f in seen) && counts.Keys <= counts'.Keys
    ensures seen <= seen' && forall s :: s in seen' ==> s in seen || s in counts'
    decreases LiveRows(folders).Keys - seen
  {
    hide IsUnder, Acyclic, JobsUnder, IdsBelow;
    if f in counts { return counts[f], seen, counts; }
    if f in seen { return 0, seen, counts; }
    seen', counts' := seen + {f}, counts;
    var cs := ChildIds(folders, Some(f), n);
    total := |JobsDirectlyIn(jobs, f)|;
    NoChildYet(folders, jobs, f, cs);
    for k := 0 to |cs|
      invariant Acyclic(LiveRows(folders)) ==>
        total == |JobsUnderFirst(folders, jobs, f, cs, k)| && AreCounts(folders, jobs, counts')
      invariant counts.Keys <= counts'.Keys && seen + {f} <= seen'
      invariant forall s :: s in seen' ==> s in seen || s == f || s in counts'
    {
      assert cs[k] in cs;
      if Acyclic(LiveRows(folders)) {
        OpenAboveChild(folders, counts, counts', seen, seen', f, cs[k]);
        NextChildAdds(folders, jobs, f, n, k);
      }
      var below: nat;
      below, seen', counts' := CountUnder(folders, jobs, n, cs[k], seen', counts');
      total := total + below;
    }
    if Acyclic(LiveRows(folders)) { AllChildrenAreAll(folders, jobs, f, n); }
    counts' := counts'[f := total];
  }

  lemma NoChildYet(folders: Table, jobs: Table, f: nat, cs: seq<nat>)
    ensures JobsUnderFirst(folders, jobs, f, cs, 0) == JobsDirectlyIn(jobs, f)
  {
  }

  lemma AllChildrenAreAll(folders: Table, jobs: Table, f: nat, n: nat)
    requires IdsBelow(folders, n) && IsLive(folders, f)
    ensures
      var cs := ChildIds(folders, Some(f), n);
      JobsUnderFirst(folders, jobs, f, cs, |cs|) == JobsUnder(folders, jobs, f)
  {
    var cs := ChildIds(folders, Some(f), n);
    hide ChildIds, IsUnder;
    forall j | j in jobs && jobs[j].parent.Some?
      ensures IsUnder(LiveRows(folders), jobs[j].parent.value, f) <==>
        (|| jobs[j].parent.value == f
         || exists i :: 0 <= i < |cs| && IsUnder(LiveRows(folders), jobs[j].parent.value, cs[i]))
    {
      ChildrenOnly(folders, f, n, jobs[j].parent.value, cs);
    }
  }

  lemma OpenAboveChild(folders: Table, counts: map<nat, nat>, counts': map<nat, nat>,
                       seen: set<nat>, seen': set<nat>, f: nat, c: nat)
    requires Acyclic(LiveRows(folders)) && IsLive(folders, f) && IsLive(folders, c) && folders[c].parent == Some(f)
    requires OpenAbove(folders, counts, seen, f) && counts.Keys <= counts'.Keys
    requires forall s :: s in seen' ==> s in seen || s == f || s in counts'
    ensures OpenAbove(folders, counts', seen', c)
  {
    var t := LiveRows(folders);
    hide IsUnder, Acyclic;
    forall s | s in seen' && s !in counts' ensures s != c && IsUnder(t, c, s) {
      UnderSelf(t, f);
      assert IsUnder(t, f, s);
      UnderByParent(t, c, s);
      AcyclicMeansNoCycle(t, c, c);
    }
  }

  method SubtreeCounts(folders: Table, jobs: Table, n: nat) returns (counts: map<nat, nat>)
    requires IdsBelow(folders, n)
    ensures forall f :: IsLive(folders, f) ==> f in counts
    ensures Acyclic(LiveRows(folders)) ==> forall f :: f in counts ==> counts[f] == |JobsUnder(folders, jobs, f)|
  {
    counts := map[];
    hide Acyclic, JobsUnder;
    for f := 0 to n
      invariant Acyclic(LiveRows(folders)) ==> AreCounts(folders, jobs, counts)
      invariant forall g: nat :: g < f && IsLive(folders, g) ==> g in counts
    {
      if IsLive(folders, f) {
        var total, seen;
        total, seen, counts := CountUnder(folders, jobs, n, f, {}, counts);
      }
    }
  }

  /** The two ways to add up a folder agree: the recursive count is the number of live jobs
      whose folder the worklist finds. */
  lemma CountsAgreeWithWorklist(folders: Table, jobs: Table, f: nat, found: set<nat>)
    requires forall x :: x in found <==> IsUnder(LiveRows(folders), x, f)
    ensures JobsUnder(folders, jobs, f) ==
      set j | j in jobs && IsLive(jobs, j) && jobs[j].parent.Some? && jobs[j].parent.value in found
  {
    hide IsUnder;
  }
}
