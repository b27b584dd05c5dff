/** Restoring: what comes back where, and that it undoes a delete. */
module TrashRoundTrip {
  import opened Wrappers
  import opened Sorting
  import opened Forest
  import opened SiblingOrder
  import opened LibraryModel
  import opened TrashInvariants

  function RowsOf(lib: Library, kind: Kind): Table { if kind.FolderEntry? then lib.folders else lib.jobs }

  // ---- row by row ----

  ghost predicate IsRootOf(lib: Library, e: nat, kind: Kind, x: nat) {
    e in lib.trash && lib.trash[e].kind == kind && lib.trash[e].root == x
  }

  /** What becomes of row `x`, tagged with entry `es[i]`. */
  ghost function RestoredRow(lib: Library, es: seq<nat>, live: set<nat>, kind: Kind, i: nat, x: nat): Row
    requires AreEntries(lib, es) && i < |es| && x in RowsOf(lib, kind)
  {
    var row := Untagged(RowsOf(lib, kind)[x]);
    if IsRootOf(lib, es[i], kind, x) then
      row.(parent := TargetOf(lib.trash[es[i]], live), position := PositionFor(lib, es, live, i))
    else row
  }

  ghost predicate AreRestored(lib: Library, es: seq<nat>, live: set<nat>, kind: Kind, k: nat, u: Table)
    requires AreEntries(lib, es) && k <= |es|
  {
    var t := RowsOf(lib, kind);
    && u.Keys == t.Keys
    && (forall x, i: nat :: i < k && x in t && t[x].tag == Some(es[i]) ==>
         u[x] == RestoredRow(lib, es, live, kind, i, x))
    && (forall x :: x in t && (forall i :: 0 <= i < k ==> t[x].tag != Some(es[i])) ==> u[x] == t[x])
  }

  lemma {:induction false} RestoredRows(lib: Library, es: seq<nat>, live: set<nat>, kind: Kind, k: nat)
    requires AreEntries(lib, es) && k <= |es|
    ensures AreRestored(lib, es, live, kind, k, RowsOf(RestoreAll(lib, es, live, k), kind))
  {
    if k > 0 {
      RestoredRows(lib, es, live, kind, k - 1);
      EntryLeaves(es, k);
      var b := RestoreAll(lib, es, live, k - 1);
      var entry := lib.trash[es[k - 1]];
      var target, position := TargetOf(entry, live), PositionFor(lib, es, live, k - 1);
      hide TargetOf, PositionFor, UntagRows;
      assert RowsOf(RestoreAll(lib, es, live, k), kind) ==
        UntagRows(RowsOf(b, kind), es[k - 1], if entry.kind == kind then Some(entry.root) else None, target, position);
      hide RestoreAll, RestoreOne;
      OneMoreRestored(lib, es, live, kind, k, RowsOf(b, kind));
    }
  }

  lemma OneMoreRestored(lib: Library, es: seq<nat>, live: set<nat>, kind: Kind, k: nat, u: Table)
    requires AreEntries(lib, es) && 0 < k <= |es| && AreRestored(lib, es, live, kind, k - 1, u)
    ensures
      var entry := lib.trash[es[k - 1]];
      AreRestored(lib, es, live, kind, k,
        UntagRows(u, es[k - 1], if entry.kind == kind then Some(entry.root) else None,
                  TargetOf(entry, live), PositionFor(lib, es, live, k - 1)))
  {
    hide TargetOf, PositionFor;
    var t, e, entry := RowsOf(lib, kind), es[k - 1], lib.trash[es[k - 1]];
    var v := UntagRows(u, e, if entry.kind == kind then Some(entry.root) else None,
                       TargetOf(entry, live), PositionFor(lib, es, live, k - 1));
    forall x, i: nat | i < k && x in t && t[x].tag == Some(es[i])
      ensures v[x] == RestoredRow(lib, es, live, kind, i, x)
    {
      if i == k - 1 {
        assert forall l :: 0 <= l < k - 1 ==> t[x].tag != Some(es[l]);
      } else {
        assert u[x] == RestoredRow(lib, es, live, kind, i, x) && u[x].tag.None?;
      }
    }
    forall x | x in t && (forall i :: 0 <= i < k ==> t[x].tag != Some(es[i])) ensures v[x] == t[x] {
      assert t[x].tag != Some(es[k - 1]);
      assert forall i :: 0 <= i < k - 1 ==> t[x].tag != Some(es[i]);
    }
  }

  // ---- roots, in the order they come back ----

  predicate GoesUnder(lib: Library, es: seq<nat>, live: set<nat>, kind: Kind, p: Option<nat>, i: nat)
    requires i < |es|
  {
    es[i] in lib.trash && lib.trash[es[i]].kind == kind && TargetOf(lib.trash[es[i]], live) == p
  }

  function RootsUnder(lib: Library, es: seq<nat>, live: set<nat>, kind: Kind, p: Option<nat>, k: nat): seq<nat>
    requires k <= |es|
  {
    if k == 0 then [] else
      RootsUnder(lib, es, live, kind, p, k - 1) +
      (if GoesUnder(lib, es, live, kind, p, k - 1) then [lib.trash[es[k - 1]].root] else [])
  }

  /** The `m`-th root under `p` is that of some entry, `m` others having gone there before. */
  lemma {:induction false} RootAt(
    lib: Library, es: seq<nat>, live: set<nat>, kind: Kind, p: Option<nat>, k: nat, m: nat)
    returns (i: nat)
    requires AreEntries(lib, es) && k <= |es| && m < |RootsUnder(lib, es, live, kind, p, k)|
    ensures i < k && GoesUnder(lib, es, live, kind, p, i)
    ensures lib.trash[es[i]].root == RootsUnder(lib, es, live, kind, p, k)[m]
    ensures PutUnder(lib, es, live, kind, p, i) == m
  {
    RootsCount(lib, es, live, kind, p, k - 1);
    if m < |RootsUnder(lib, es, live, kind, p, k - 1)| {
      i := RootAt(lib, es, live, kind, p, k - 1, m);
    } else {
      i := k - 1;
    }
  }

  lemma {:induction false} RootsCount(lib: Library, es: seq<nat>, live: set<nat>, kind: Kind, p: Option<nat>, k: nat)
    requires AreEntries(lib, es) && k <= |es|
    ensures |RootsUnder(lib, es, live, kind, p, k)| == PutUnder(lib, es, live, kind, p, k)
  {
    if k > 0 { RootsCount(lib, es, live, kind, p, k - 1); }
  }

  lemma {:induction false} RootIsListed(
    lib: Library, es: seq<nat>, live: set<nat>, kind: Kind, p: Option<nat>, k: nat, i: nat)
    requires AreEntries(lib, es) && i < k <= |es| && GoesUnder(lib, es, live, kind, p, i)
    ensures lib.trash[es[i]].root in RootsUnder(lib, es, live, kind, p, k)
    decreases k
  {
    if i < k - 1 { RootIsListed(lib, es, live, kind, p, k - 1, i); }
  }

  /** A root that went under `p` as the `m`-th stands `m` places behind what was there. */
  lemma RootRow(lib: Library, es: seq<nat>, live: set<nat>, kind: Kind, p: Option<nat>, m: nat, u: Table)
    requires Inv(lib) && AreEntries(lib, es) && AreRestored(lib, es, live, kind, |es|, u)
    requires m < |RootsUnder(lib, es, live, kind, p, |es|)|
    ensures
      var x, t := RootsUnder(lib, es, live, kind, p, |es|)[m], RowsOf(lib, kind);
      && x in t && t[x].deleted && x in u && IsLive(u, x) && u[x].parent == p
      && u[x].position == NextPosition(t, p, lib.next) + m && x < lib.next
  {
    var i := RootAt(lib, es, live, kind, p, |es|, m);
    hide Inv, NextPosition, RootsUnder, PutUnder;
    RootInTrash(lib, es[i]);
    var x := lib.trash[es[i]].root;
    assert RowsOf(lib, kind)[x].tag == Some(es[i]);
    assert u[x] == RestoredRow(lib, es, live, kind, i, x);
    hide AreRestored;
  }

  lemma RootInTrash(lib: Library, e: nat)
    requires Inv(lib) && e in lib.trash
    ensures
      var x, t := lib.trash[e].root, RowsOf(lib, lib.trash[e].kind);
      x in t && t[x].tag == Some(e) && t[x].deleted && x < lib.next
  {
    hide Acyclic, HangTogether, HaveParents;
    assert OwnsItsRoot(lib, e);
  }

  // ---- appended to what is live ----

  /** Whoever was live stays as it was; what comes back under a live parent is a root. */
  lemma RowsUnderLiveParent(lib: Library, es: seq<nat>, kind: Kind, p: Option<nat>, u: Table, x: nat)
    requires Inv(lib) && AreEntries(lib, es) && CanHold(lib, p)
    requires AreRestored(lib, es, LiveAfter(lib, es), kind, |es|, u)
    ensures IsLive(RowsOf(lib, kind), x) ==> x in u && u[x] == RowsOf(lib, kind)[x]
    ensures IsLive(u, x) && u[x].parent == p && !IsLive(RowsOf(lib, kind), x) ==>
      x in RootsUnder(lib, es, LiveAfter(lib, es), kind, p, |es|)
  {
    var t, live := RowsOf(lib, kind), LiveAfter(lib, es);
    hide Acyclic, OwnsItsRoot, HaveParents, PositionFor, RootsUnder;
    if IsLive(u, x) && u[x].parent == p && !IsLive(t, x) {
      var i: nat :| i < |es| && t[x].tag == Some(es[i]);
      assert u[x] == RestoredRow(lib, es, live, kind, i, x);
      if IsRootOf(lib, es[i], kind, x) {
        RootIsListed(lib, es, live, kind, p, |es|, i);
      } else {
        MemberParentIsTrashed(lib, kind, x);
      }
    }
  }

  lemma MemberParentIsTrashed(lib: Library, kind: Kind, x: nat)
    requires Inv(lib) && x in RowsOf(lib, kind) && RowsOf(lib, kind)[x].tag.Some?
    requires !IsRootOf(lib, RowsOf(lib, kind)[x].tag.value, kind, x)
    ensures HasTag(lib.folders, RowsOf(lib, kind)[x].parent, RowsOf(lib, kind)[x].tag.value)
    ensures !CanHold(lib, RowsOf(lib, kind)[x].parent)
  {
    hide Acyclic, OwnsItsRoot, HaveParents;
  }

  lemma RootsDiffer(lib: Library, es: seq<nat>, live: set<nat>, kind: Kind, p: Option<nat>)
    requires Inv(lib) && AreEntries(lib, es)
    ensures Distinct(RootsUnder(lib, es, live, kind, p, |es|))
  {
    var roots := RootsUnder(lib, es, live, kind, p, |es|);
    RestoredRows(lib, es, live, kind, |es|);
    var u := RowsOf(RestoreAll(lib, es, live, |es|), kind);
    hide Inv, RootsUnder, AreRestored, RestoreAll;
    forall m, l | 0 <= m < l < |roots| ensures roots[m] != roots[l] {
      RootRow(lib, es, live, kind, p, m, u);
      RootRow(lib, es, live, kind, p, l, u);
    }
  }

  /** Re-indexing at the end changes no order. */
  lemma RestoredBeforeReindexing(lib: Library, es: seq<nat>, kind: Kind, p: Option<nat>)
    requires AreEntries(lib, es)
    ensures
      var u := RowsOf(RestoreAll(lib, es, LiveAfter(lib, es), |es|), kind);
      && AreRestored(lib, es, LiveAfter(lib, es), kind, |es|, u)
      && Siblings(RowsOf(Restore(lib, es), kind), p, lib.next) == Siblings(u, p, lib.next)
  {
    var live := LiveAfter(lib, es);
    var u := RowsOf(RestoreAll(lib, es, live, |es|), kind);
    RestoredRows(lib, es, live, kind, |es|);
    ReindexKeepsOrder(u, TargetsOf(lib, es, live, kind), lib.next, p);
    hide AreRestored, Siblings, Reindex, RestoreAll, TargetsOf, LiveAfter;
    assert RowsOf(Restore(lib, es), kind) == Reindex(u, TargetsOf(lib, es, live, kind), lib.next);
  }

  /** Restored rows are appended, in the order of the request, to the rows that are live
      under their parent when the request comes in. */
  lemma RestoreAppends(lib: Library, es: seq<nat>, kind: Kind, p: Option<nat>)
    requires Inv(lib) && AreEntries(lib, es) && CanHold(lib, p)
    ensures Siblings(RowsOf(Restore(lib, es), kind), p, lib.next) ==
      Siblings(RowsOf(lib, kind), p, lib.next) + RootsUnder(lib, es, LiveAfter(lib, es), kind, p, |es|)
  {
    hide Inv, RestoreAll, Restore, AreRestored, Siblings, RootsUnder, LiveAfter, AreEntries;
    RestoredBeforeReindexing(lib, es, kind, p);
    AppendedInOrder(lib, es, kind, p, RowsOf(RestoreAll(lib, es, LiveAfter(lib, es), |es|), kind));
  }

  lemma AppendedInOrder(lib: Library, es: seq<nat>, kind: Kind, p: Option<nat>, u: Table)
    requires Inv(lib) && AreEntries(lib, es) && CanHold(lib, p)
    requires AreRestored(lib, es, LiveAfter(lib, es), kind, |es|, u)
    ensures Siblings(u, p, lib.next) ==
      Siblings(RowsOf(lib, kind), p, lib.next) + RootsUnder(lib, es, LiveAfter(lib, es), kind, p, |es|)
  {
    var t, n, live := RowsOf(lib, kind), lib.next, LiveAfter(lib, es);
    var xs, roots := Siblings(t, p, n), RootsUnder(lib, es, live, kind, p, |es|);
    SiblingsSorted(t, p, n);
    RootsDiffer(lib, es, live, kind, p);
    hide Inv, Siblings, RootsUnder, AreRestored;
    forall x: nat
      ensures IsLive(t, x) ==> x in u && u[x] == t[x]
      ensures IsLive(u, x) && u[x].parent == p && !IsLive(t, x) ==> x in roots
    {
      RowsUnderLiveParent(lib, es, kind, p, u, x);
    }
    forall m: nat | m < |roots|
      ensures roots[m] in t && t[roots[m]].deleted && IsLive(u, roots[m]) && u[roots[m]].parent == p && roots[m] < n
      ensures u[roots[m]].position == NextPosition(t, p, n) + m
    {
      RootRow(lib, es, live, kind, p, m, u);
    }
    BehindTheRest(t, u, p, n, xs, roots);
  }

  /** Live rows in order, followed by rows numbered from the next free position on. */
  lemma BehindTheRest(t: Table, u: Table, p: Option<nat>, n: nat, xs: seq<nat>, roots: seq<nat>)
    requires xs == Siblings(t, p, n) && Distinct(roots)
    requires forall x: nat :: IsLive(t, x) ==> x in u && u[x] == t[x]
    requires forall x: nat :: IsLive(u, x) && u[x].parent == p && x < n && !IsLive(t, x) ==> x in roots
    requires forall m: nat :: m < |roots| ==> (
      && roots[m] in t && t[roots[m]].deleted && IsLive(u, roots[m]) && u[roots[m]].parent == p && roots[m] < n
      && u[roots[m]].position == NextPosition(t, p, n) + m)
    ensures Siblings(u, p, n) == xs + roots
  {
    SiblingsSorted(t, p, n);
    hide Siblings, NextPosition;
    var ys := xs + roots;
    forall i, j | 0 <= i < j < |ys| ensures ys[i] != ys[j] && PositionOrder(u)(ys[i], ys[j]) {
      if j < |xs| {
        assert xs[i] in xs && xs[j] in xs && PositionOrder(t)(xs[i], xs[j]);
      } else if i < |xs| {
        assert xs[i] in xs;
      }
    }
    forall id: nat ensures id in ys <==> id < n && IsLive(u, id) && u[id].parent == p {
      if id in roots { var m: nat :| m < |roots| && roots[m] == id; }
    }
    SiblingsAre(u, p, n, ys);
  }

  // ---- under a parent that comes back in the same request ----

  /** The entry that `p` is in, restored alone: what it brings back under `p` is `p`'s own. */
  function OwnRows(lib: Library, kind: Kind, p: nat): Table
    requires p in lib.folders && lib.folders[p].tag.Some? && lib.folders[p].tag.value in lib.trash
  {
    RowsOf(RestoreOne(lib, lib.folders[p].tag.value, None, 0), kind)
  }

  function OwnChildren(lib: Library, kind: Kind, p: nat): seq<nat>
    requires p in lib.folders && lib.folders[p].tag.Some? && lib.folders[p].tag.value in lib.trash
  {
    Siblings(OwnRows(lib, kind, p), Some(p), lib.next)
  }

  /** `p` is in the trash and comes back with the entries `es`. */
  predicate ComesBack(lib: Library, es: seq<nat>, p: nat) {
    p in lib.folders && lib.folders[p].tag.Some? &&
    lib.folders[p].tag.value in es && lib.folders[p].tag.value in lib.trash
  }

  /** A row of `t` in front of the row `root` at position `k`. */
  predicate StandsBefore(t: Table, c: nat, k: nat, root: nat) {
    && c in t && root in t
    && (|| t[c].position < k
        || (t[c].position == k && t[c].tie < t[root].tie)
        || (t[c].position == k && t[c].tie == t[root].tie && c < root))
  }

  lemma NobodyLiveUnder(lib: Library, kind: Kind, p: nat)
    requires Inv(lib) && !IsLive(lib.folders, p)
    ensures forall x :: IsLive(RowsOf(lib, kind), x) ==> RowsOf(lib, kind)[x].parent != Some(p)
    ensures NextPosition(RowsOf(lib, kind), Some(p), lib.next) == 0
  {
    hide Acyclic, HangTogether, OwnsItsRoot, AreTagged, IdsBelow;
    NothingBefore(RowsOf(lib, kind), Some(p), lib.next);
  }

  /** One of `p`'s own: in the same entry, not its root, and put back as it was. */
  lemma OwnChild(lib: Library, es: seq<nat>, kind: Kind, p: nat, u: Table, x: nat)
    requires Inv(lib) && AreEntries(lib, es) && ComesBack(lib, es, p) && !IsLive(lib.folders, p)
    requires AreRestored(lib, es, LiveAfter(lib, es), kind, |es|, u)
    requires IsLive(OwnRows(lib, kind, p), x) && OwnRows(lib, kind, p)[x].parent == Some(p)
    ensures
      var t := RowsOf(lib, kind);
      && x in t && x in u && IsLive(u, x) && u[x] == OwnRows(lib, kind, p)[x] == Untagged(t[x])
      && !IsRootOf(lib, lib.folders[p].tag.value, kind, x) && t[x].tag == lib.folders[p].tag
  {
    NobodyLiveUnder(lib, kind, p);
    hide Inv, PositionFor, TargetOf, LiveAfter;
    var i :| 0 <= i < |es| && es[i] == lib.folders[p].tag.value;
    var t := RowsOf(lib, kind);
    assert x in t && t[x].tag == Some(es[i]) && !IsRootOf(lib, es[i], kind, x);
    assert u[x] == RestoredRow(lib, es, LiveAfter(lib, es), kind, i, x);
  }

  /** Under `p` there are `p`'s own and the roots that go there. */
  lemma OwnOrRoot(lib: Library, es: seq<nat>, kind: Kind, p: nat, u: Table, x: nat)
    requires Inv(lib) && AreEntries(lib, es) && ComesBack(lib, es, p) && !IsLive(lib.folders, p)
    requires AreRestored(lib, es, LiveAfter(lib, es), kind, |es|, u)
    requires IsLive(u, x) && u[x].parent == Some(p)
    ensures x in RootsUnder(lib, es, LiveAfter(lib, es), kind, Some(p), |es|) ||
      (IsLive(OwnRows(lib, kind, p), x) && OwnRows(lib, kind, p)[x].parent == Some(p))
  {
    var t, live := RowsOf(lib, kind), LiveAfter(lib, es);
    NobodyLiveUnder(lib, kind, p);
    hide Acyclic, OwnsItsRoot, HaveParents, PositionFor, RootsUnder, LiveAfter, NextPosition, HangTogether;
    var i: nat :| i < |es| && t[x].tag == Some(es[i]);
    assert u[x] == RestoredRow(lib, es, live, kind, i, x);
    if IsRootOf(lib, es[i], kind, x) {
      RootIsListed(lib, es, live, kind, Some(p), |es|, i);
    } else {
      MemberParentIsTrashed(lib, kind, x);
    }
  }

  /** Two sorted lists make one, exactly when the first stands before the second. */
  lemma JoinedExactlyWhen(u: Table, p: Option<nat>, n: nat, own: seq<nat>, roots: seq<nat>)
    requires Distinct(own + roots) && SortedBy(own, PositionOrder(u)) && SortedBy(roots, PositionOrder(u))
    requires forall x: nat :: x in own + roots <==> x < n && IsLive(u, x) && u[x].parent == p
    ensures Siblings(u, p, n) == own + roots <==>
      forall i: nat, k: nat :: i < |own| && k < |roots| ==> ByPosition(u, own[i], roots[k])
  {
    var ys := own + roots;
    SiblingsSorted(u, p, n);
    hide Siblings, ByPosition;
    if Siblings(u, p, n) == ys {
      forall i: nat, k: nat | i < |own| && k < |roots| ensures ByPosition(u, own[i], roots[k]) {
        assert PositionOrder(u)(ys[i], ys[|own| + k]);
      }
    } else if forall i: nat, k: nat :: i < |own| && k < |roots| ==> ByPosition(u, own[i], roots[k]) {
      forall i, j | 0 <= i < j < |ys| ensures PositionOrder(u)(ys[i], ys[j]) {
        if j < |own| {
          assert PositionOrder(u)(own[i], own[j]);
        } else if i >= |own| {
          assert PositionOrder(u)(roots[i - |own|], roots[j - |own|]);
        }
      }
      SiblingsAre(u, p, n, ys);
    }
  }

  /** Under a parent that comes back in the same request, restored rows are appended to its
      own children exactly when each of those, by its old position, stands before each of
      the roots, numbered from 0 in the order of the request. */
  lemma RestoreAppendsExactlyWhen(lib: Library, es: seq<nat>, kind: Kind, p: nat)
    requires Inv(lib) && AreEntries(lib, es) && ComesBack(lib, es, p) && !IsLive(lib.folders, p)
    ensures
      var t, own := RowsOf(lib, kind), OwnChildren(lib, kind, p);
      var roots := RootsUnder(lib, es, LiveAfter(lib, es), kind, Some(p), |es|);
      Siblings(RowsOf(Restore(lib, es), kind), Some(p), lib.next) == own + roots <==>
        forall i: nat, k: nat :: i < |own| && k < |roots| ==> StandsBefore(t, own[i], k, roots[k])
  {
    hide Inv, RestoreAll, Restore, AreRestored, Siblings, RootsUnder, OwnChildren, LiveAfter, AreEntries, StandsBefore;
    RestoredBeforeReindexing(lib, es, kind, Some(p));
    AppendedExactlyWhen(lib, es, kind, p, RowsOf(RestoreAll(lib, es, LiveAfter(lib, es), |es|), kind));
  }

  lemma AppendedExactlyWhen(lib: Library, es: seq<nat>, kind: Kind, p: nat, u: Table)
    requires Inv(lib) && AreEntries(lib, es) && ComesBack(lib, es, p) && !IsLive(lib.folders, p)
    requires AreRestored(lib, es, LiveAfter(lib, es), kind, |es|, u)
    ensures
      var own, roots := OwnChildren(lib, kind, p), RootsUnder(lib, es, LiveAfter(lib, es), kind, Some(p), |es|);
      Siblings(u, Some(p), lib.next) == own + roots <==>
        forall i: nat, k: nat :: i < |own| && k < |roots| ==> StandsBefore(RowsOf(lib, kind), own[i], k, roots[k])
  {
    hide Inv, AreRestored, Siblings, RootsUnder, OwnChildren, LiveAfter, StandsBefore, ByPosition, PositionOrder;
    var own, roots := OwnChildren(lib, kind, p), RootsUnder(lib, es, LiveAfter(lib, es), kind, Some(p), |es|);
    OwnThenRoots(lib, es, kind, p, u);
    JoinedExactlyWhen(u, Some(p), lib.next, own, roots);
    forall i: nat, k: nat | i < |own| && k < |roots|
      ensures ByPosition(u, own[i], roots[k]) == StandsBefore(RowsOf(lib, kind), own[i], k, roots[k])
    {
      SameKeysAsBefore(lib, es, kind, p, u, i, k);
    }
  }

  ghost predicate StandUnder(u: Table, p: Option<nat>, n: nat, xs: seq<nat>) {
    && Distinct(xs) && SortedBy(xs, PositionOrder(u))
    && forall i: nat :: i < |xs| ==> xs[i] < n && IsLive(u, xs[i]) && u[xs[i]].parent == p
  }

  lemma OwnStandUnder(lib: Library, es: seq<nat>, kind: Kind, p: nat, u: Table)
    requires Inv(lib) && AreEntries(lib, es) && ComesBack(lib, es, p) && !IsLive(lib.folders, p)
    requires AreRestored(lib, es, LiveAfter(lib, es), kind, |es|, u)
    ensures StandUnder(u, Some(p), lib.next, OwnChildren(lib, kind, p))
    ensures forall i: nat :: i < |OwnChildren(lib, kind, p)| ==>
      OwnChildren(lib, kind, p)[i] !in RootsUnder(lib, es, LiveAfter(lib, es), kind, Some(p), |es|)
  {
    var w: Table, own: seq<nat> := OwnRows(lib, kind, p), OwnChildren(lib, kind, p);
    SiblingsSorted(w, Some(p), lib.next);
    hide Inv, AreRestored, Siblings, RootsUnder, OwnRows, LiveAfter, AreEntries;
    forall i: nat | i < |own|
      ensures own[i] < lib.next && own[i] in w && own[i] in u && u[own[i]] == w[own[i]] && IsLive(u, own[i])
      ensures u[own[i]].parent == Some(p)
      ensures own[i] !in RootsUnder(lib, es, LiveAfter(lib, es), kind, Some(p), |es|)
    {
      assert own[i] in own;
      OwnChild(lib, es, kind, p, u, own[i]);
      OwnIsNoRoot(lib, es, kind, p, own[i]);
    }
    SortedInBoth(w, u, own);
  }

  lemma SortedInBoth(w: Table, u: Table, xs: seq<nat>)
    requires SortedBy(xs, PositionOrder(w))
    requires forall i: nat :: i < |xs| ==> xs[i] in w && xs[i] in u && u[xs[i]] == w[xs[i]]
    ensures SortedBy(xs, PositionOrder(u))
  {
    forall i, j | 0 <= i < j < |xs| ensures PositionOrder(u)(xs[i], xs[j]) {
      assert PositionOrder(w)(xs[i], xs[j]);
    }
  }

  lemma RootsStandUnder(lib: Library, es: seq<nat>, kind: Kind, p: nat, u: Table)
    requires Inv(lib) && AreEntries(lib, es) && !IsLive(lib.folders, p)
    requires AreRestored(lib, es, LiveAfter(lib, es), kind, |es|, u)
    ensures StandUnder(u, Some(p), lib.next, RootsUnder(lib, es, LiveAfter(lib, es), kind, Some(p), |es|))
  {
    var live := LiveAfter(lib, es);
    var roots := RootsUnder(lib, es, live, kind, Some(p), |es|);
    RootsDiffer(lib, es, live, kind, Some(p));
    NobodyLiveUnder(lib, kind, p);
    hide Inv, AreRestored, RootsUnder, LiveAfter, NextPosition;
    forall k: nat | k < |roots|
      ensures roots[k] in u && u[roots[k]].position == k && IsLive(u, roots[k]) && u[roots[k]].parent == Some(p)
      ensures roots[k] < lib.next
    {
      RootRow(lib, es, live, kind, Some(p), k, u);
    }
  }

  lemma OwnThenRoots(lib: Library, es: seq<nat>, kind: Kind, p: nat, u: Table)
    requires Inv(lib) && AreEntries(lib, es) && ComesBack(lib, es, p) && !IsLive(lib.folders, p)
    requires AreRestored(lib, es, LiveAfter(lib, es), kind, |es|, u)
    ensures
      var own, roots := OwnChildren(lib, kind, p), RootsUnder(lib, es, LiveAfter(lib, es), kind, Some(p), |es|);
      && Distinct(own + roots) && SortedBy(own, PositionOrder(u)) && SortedBy(roots, PositionOrder(u))
      && forall x: nat :: x in own + roots <==> x < lib.next && IsLive(u, x) && u[x].parent == Some(p)
  {
    var own, roots := OwnChildren(lib, kind, p), RootsUnder(lib, es, LiveAfter(lib, es), kind, Some(p), |es|);
    OwnStandUnder(lib, es, kind, p, u);
    RootsStandUnder(lib, es, kind, p, u);
    forall x: nat | x < lib.next && IsLive(u, x) && u[x].parent == Some(p) ensures x in own + roots {
      OwnOrRoot(lib, es, kind, p, u, x);
    }
    hide Inv, AreRestored, OwnChildren, RootsUnder, OwnRows, LiveAfter, PositionOrder;
    assert forall k :: 0 <= k < |roots| ==> roots[k] in roots;
  }

  /** What goes under `p` as a root is the root of its entry. */
  lemma RootIsRoot(lib: Library, es: seq<nat>, kind: Kind, p: Option<nat>, m: nat)
    requires Inv(lib) && AreEntries(lib, es) && m < |RootsUnder(lib, es, LiveAfter(lib, es), kind, p, |es|)|
    ensures
      var x := RootsUnder(lib, es, LiveAfter(lib, es), kind, p, |es|)[m];
      && x in RowsOf(lib, kind) && RowsOf(lib, kind)[x].tag.Some?
      && IsRootOf(lib, RowsOf(lib, kind)[x].tag.value, kind, x)
  {
    var live := LiveAfter(lib, es);
    var i := RootAt(lib, es, live, kind, p, |es|, m);
    hide Inv, RootsUnder, LiveAfter;
    RootInTrash(lib, es[i]);
  }

  lemma OwnIsNoRoot(lib: Library, es: seq<nat>, kind: Kind, p: nat, x: nat)
    requires Inv(lib) && AreEntries(lib, es) && ComesBack(lib, es, p)
    requires x in RowsOf(lib, kind) && RowsOf(lib, kind)[x].tag == lib.folders[p].tag
    requires !IsRootOf(lib, lib.folders[p].tag.value, kind, x)
    ensures x !in RootsUnder(lib, es, LiveAfter(lib, es), kind, Some(p), |es|)
  {
    var roots := RootsUnder(lib, es, LiveAfter(lib, es), kind, Some(p), |es|);
    hide Inv, RootsUnder, LiveAfter;
    forall m | 0 <= m < |roots| ensures roots[m] != x { RootIsRoot(lib, es, kind, Some(p), m); }
  }

  lemma SameKeysAsBefore(lib: Library, es: seq<nat>, kind: Kind, p: nat, u: Table, i: nat, k: nat)
    requires Inv(lib) && AreEntries(lib, es) && ComesBack(lib, es, p) && !IsLive(lib.folders, p)
    requires AreRestored(lib, es, LiveAfter(lib, es), kind, |es|, u)
    requires i < |OwnChildren(lib, kind, p)|
    requires k < |RootsUnder(lib, es, LiveAfter(lib, es), kind, Some(p), |es|)|
    ensures
      var own, roots := OwnChildren(lib, kind, p), RootsUnder(lib, es, LiveAfter(lib, es), kind, Some(p), |es|);
      ByPosition(u, own[i], roots[k]) == StandsBefore(RowsOf(lib, kind), own[i], k, roots[k])
  {
    var live := LiveAfter(lib, es);
    var own, roots := OwnChildren(lib, kind, p), RootsUnder(lib, es, live, kind, Some(p), |es|);
    assert own[i] in own;
    hide Inv, Siblings, RootsUnder, OwnRows, LiveAfter;
    OwnChild(lib, es, kind, p, u, own[i]);
    RootRow(lib, es, live, kind, Some(p), k, u);
    NobodyLiveUnder(lib, kind, p);
    RootKeepsTie(lib, es, kind, p, u, k);
    hide AreRestored;
  }

  lemma RootKeepsTie(lib: Library, es: seq<nat>, kind: Kind, p: nat, u: Table, k: nat)
    requires Inv(lib) && AreEntries(lib, es) && AreRestored(lib, es, LiveAfter(lib, es), kind, |es|, u)
    requires k < |RootsUnder(lib, es, LiveAfter(lib, es), kind, Some(p), |es|)|
    ensures
      var x := RootsUnder(lib, es, LiveAfter(lib, es), kind, Some(p), |es|)[k];
      x in u && x in RowsOf(lib, kind) && u[x].tie == RowsOf(lib, kind)[x].tie
  {
    var live := LiveAfter(lib, es);
    var i := RootAt(lib, es, live, kind, Some(p), |es|, k);
    hide Inv, RootsUnder, LiveAfter, PositionFor, TargetOf;
    RootInTrash(lib, es[i]);
    var x := lib.trash[es[i]].root;
    assert u[x] == RestoredRow(lib, es, live, kind, i, x);
  }
}
