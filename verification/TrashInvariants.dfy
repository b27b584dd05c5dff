/** Trashing, restoring and purging keep the library in order. */
module TrashInvariants {
  import opened Wrappers
  import opened Sorting
  import opened Forest
  import opened SiblingOrder
  import opened LibraryModel

  // ---- trashing ----

  /** The live folders below `f`, `f` included. */
  ghost function Subtree(t: Table, f: nat): (r: set<nat>)
    ensures forall x :: x in r <==> IsLive(t, x) && IsUnder(t, x, f)
  {
    set x | x in t && IsLive(t, x) && IsUnder(t, x, f)
  }

  /** `ids` is `f` and everything live below it. */
  ghost predicate IsWhole(t: Table, f: nat, ids: set<nat>) {
    && f in ids && (forall x :: x in ids ==> IsLive(t, x))
    && (forall x :: x in ids && x != f ==> t[x].parent.Some? && t[x].parent.value in ids)
    && (forall x :: IsLive(t, x) && t[x].parent.Some? && t[x].parent.value in ids ==> x in ids)
  }

  lemma SubtreeIsWhole(t: Table, f: nat)
    requires LiveParents(t) && IsLive(t, f)
    ensures IsWhole(t, f, Subtree(t, f))
  {
    UnderSelf(t, f);
    forall x { UnderByParent(t, x, f); }
    hide IsUnder;
  }

  lemma NoTagIsNew(lib: Library)
    requires Inv(lib)
    ensures lib.next !in lib.trash
    ensures forall f :: f in lib.folders ==> lib.folders[f].tag != Some(lib.next)
    ensures forall j :: j in lib.jobs ==> lib.jobs[j].tag != Some(lib.next)
  {
    hide Acyclic, HangTogether;
    assert forall e :: e in lib.trash ==> OwnsItsRoot(lib, e);
  }

  lemma InvIds(lib: Library)
    requires Inv(lib)
    ensures IdsBelow(lib.folders, lib.next) && IdsBelow(lib.jobs, lib.next)
  {
  }

  // Ids, tags and parents, table by table.

  lemma TaggedRow(t: Table, n: nat, trash: map<nat, Entry>, id: nat, entry: Entry)
    requires IdsBelow(t, n) && AreTagged(t, trash) && id in t
    ensures IdsBelow(t[id := TagRow(t[id], n)], n + 1)
    ensures AreTagged(t[id := TagRow(t[id], n)], trash[n := entry]) && AreTagged(t, trash[n := entry])
  {
  }

  lemma TaggedRows(t: Table, ids: set<nat>, n: nat, trash: map<nat, Entry>, entry: Entry)
    requires IdsBelow(t, n) && AreTagged(t, trash)
    ensures IdsBelow(TagRows(t, ids, n), n + 1) && AreTagged(TagRows(t, ids, n), trash[n := entry])
    ensures IdsBelow(TagJobsInside(t, ids, n), n + 1) && AreTagged(TagJobsInside(t, ids, n), trash[n := entry])
  {
  }

  lemma UntaggedRows(
    t: Table, e: nat, n: nat, trash: map<nat, Entry>, root: Option<nat>, target: Option<nat>, position: nat)
    requires IdsBelow(t, n) && AreTagged(t, trash) && (target.Some? ==> target.value < n)
    ensures IdsBelow(UntagRows(t, e, root, target, position), n)
    ensures AreTagged(UntagRows(t, e, root, target, position), trash - {e})
  {
  }

  lemma DroppedRows(t: Table, e: nat, n: nat, trash: map<nat, Entry>)
    requires IdsBelow(t, n) && AreTagged(t, trash)
    ensures IdsBelow(DropTagged(t, e), n) && AreTagged(DropTagged(t, e), trash - {e})
  {
  }

  lemma TrashFolderKeepsParents(folders: Table, rows: Table, f: nat, ids: set<nat>, e: nat)
    requires IsWhole(folders, f, ids)
    ensures HaveParents(folders, folders, {}) ==> HaveParents(TagRows(folders, ids, e), TagRows(folders, ids, e), {})
    ensures HaveParents(folders, rows, {}) ==> HaveParents(TagRows(folders, ids, e), TagJobsInside(rows, ids, e), {})
  {
  }

  lemma TrashJobKeepsInv(lib: Library, j: nat)
    requires Inv(lib) && IsLive(lib.jobs, j)
    ensures Inv(TrashJob(lib, j))
  {
    NoTagIsNew(lib);
    hide Acyclic;
    TrashJobKeepsEntries(lib, j);
    hide OwnsItsRoot, HangTogether;
    var entry := Entry(JobEntry, j, lib.jobs[j].parent);
    TaggedRow(lib.jobs, lib.next, lib.trash, j, entry);
    TaggedRows(lib.folders, {}, lib.next, lib.trash, entry);
    assert TagRows(lib.folders, {}, lib.next) == lib.folders;
    hide IdsBelow, AreTagged;
  }

  lemma TrashJobKeepsEntries(lib: Library, j: nat)
    requires Inv(lib) && IsLive(lib.jobs, j)
    ensures HangTogether(TrashJob(lib, j))
    ensures forall e :: e in TrashJob(lib, j).trash ==> OwnsItsRoot(TrashJob(lib, j), e)
  {
    NoTagIsNew(lib);
    hide Acyclic, HaveParents, IdsBelow;
    var b := TrashJob(lib, j);
    forall e | e in b.trash ensures OwnsItsRoot(b, e) {
      if e != lib.next { assert OwnsItsRoot(lib, e); }
    }
    hide OwnsItsRoot;
  }

  lemma TrashFolderKeepsInv(lib: Library, f: nat, ids: set<nat>)
    requires Inv(lib) && IsWhole(lib.folders, f, ids)
    ensures Inv(TrashFolder(lib, f, ids))
  {
    NoTagIsNew(lib);
    var b := TrashFolder(lib, f, ids);
    FewerPointersStayAcyclic(lib.folders, b.folders);
    hide Acyclic;
    TrashFolderKeepsRoots(lib, f, ids);
    TrashFolderKeepsTogether(lib, f, ids);
    TrashFolderKeepsParents(lib.folders, lib.jobs, f, ids, lib.next);
    TaggedRows(lib.folders, ids, lib.next, lib.trash, Entry(FolderEntry, f, lib.folders[f].parent));
    TaggedRows(lib.jobs, ids, lib.next, lib.trash, Entry(FolderEntry, f, lib.folders[f].parent));
    hide OwnsItsRoot, HangTogether, HaveParents, AreTagged, IdsBelow, IsWhole;
  }

  lemma TrashFolderKeepsRoots(lib: Library, f: nat, ids: set<nat>)
    requires Inv(lib) && IsWhole(lib.folders, f, ids) && lib.next !in lib.trash
    ensures forall e :: e in TrashFolder(lib, f, ids).trash ==> OwnsItsRoot(TrashFolder(lib, f, ids), e)
  {
    hide Acyclic, HangTogether;
    var b := TrashFolder(lib, f, ids);
    forall e | e in b.trash ensures OwnsItsRoot(b, e) {
      if e != lib.next { assert OwnsItsRoot(lib, e); }
    }
  }

  lemma TrashFolderKeepsTogether(lib: Library, f: nat, ids: set<nat>)
    requires Inv(lib) && IsWhole(lib.folders, f, ids) && lib.next !in lib.trash
    ensures HangTogether(TrashFolder(lib, f, ids))
  {
    hide Acyclic, OwnsItsRoot, HaveParents, IdsBelow;
    var b := TrashFolder(lib, f, ids);
    forall x | x in b.folders && b.folders[x].tag.Some? && b.folders[x].tag.value in b.trash
      ensures
        var e := b.folders[x].tag.value;
        && b.trash[e].kind.FolderEntry?
        && (x != b.trash[e].root ==> HasTag(b.folders, b.folders[x].parent, e))
    {
      assert x in lib.folders && (x in ids || lib.folders[x] == b.folders[x]);
    }
    forall j | j in b.jobs && b.jobs[j].tag.Some? && b.jobs[j].tag.value in b.trash
      ensures
        var e := b.jobs[j].tag.value;
        if b.trash[e].kind.JobEntry? then j == b.trash[e].root else HasTag(b.folders, b.jobs[j].parent, e)
    {
      assert j in lib.jobs && (IsInside(lib.jobs, j, ids) || lib.jobs[j] == b.jobs[j]);
    }
  }

  // ---- several at once ----

  ghost predicate AllLive(t: Table, ids: seq<nat>) { forall k :: 0 <= k < |ids| ==> IsLive(t, ids[k]) }

  function TrashJobs(lib: Library, js: seq<nat>, k: nat): (b: Library)
    requires k <= |js| && AllIn(lib.jobs, js)
    ensures b.folders == lib.folders && b.jobs.Keys == lib.jobs.Keys && b.next == lib.next + k
  {
    if k == 0 then lib else TrashJob(TrashJobs(lib, js, k - 1), js[k - 1])
  }

  /** The subtrees are those of the library as it was when the command came in. */
  ghost function TrashFolders(lib: Library, before: Table, fs: seq<nat>, k: nat): (b: Library)
    requires k <= |fs| && AllIn(lib.folders, fs)
    ensures b.folders.Keys == lib.folders.Keys && b.jobs.Keys == lib.jobs.Keys && b.next == lib.next + k
  {
    if k == 0 then lib
    else TrashFolder(TrashFolders(lib, before, fs, k - 1), fs[k - 1], Subtree(before, fs[k - 1]))
  }

  /** No folder of `fs` lies below another one. */
  ghost predicate Apart(t: Table, fs: seq<nat>) {
    forall k, l :: 0 <= k < |fs| && 0 <= l < |fs| && k != l ==> !IsUnder(t, fs[k], fs[l])
  }

  lemma ApartSubtreesAreDisjoint(t: Table, fs: seq<nat>, k: nat, l: nat, x: nat)
    requires Apart(t, fs) && k < |fs| && l < |fs| && k != l
    ensures !(x in Subtree(t, fs[k]) && x in Subtree(t, fs[l]))
  {
    if x in Subtree(t, fs[k]) && x in Subtree(t, fs[l]) { AboveIsALine(t, x, fs[k], fs[l]); }
  }

  lemma {:induction false} TrashJobsKeepInv(lib: Library, js: seq<nat>, k: nat)
    requires Inv(lib) && k <= |js| && AllIn(lib.jobs, js) && AllLive(lib.jobs, js) && Distinct(js)
    ensures Inv(TrashJobs(lib, js, k))
    ensures forall i :: k <= i < |js| ==> IsLive(TrashJobs(lib, js, k).jobs, js[i])
  {
    hide Inv;
    if k > 0 {
      TrashJobsKeepInv(lib, js, k - 1);
      TrashJobKeepsInv(TrashJobs(lib, js, k - 1), js[k - 1]);
    }
  }

  /** After the first `k` folders: their subtrees are gone, all other rows are as they were. */
  ghost predicate FoldersGone(before: Table, t: Table, fs: seq<nat>, k: nat) {
    && k <= |fs| && t.Keys == before.Keys
    && (forall x :: x in t ==> t[x].parent == before[x].parent)
    && (forall x :: x in t && (forall i :: 0 <= i < k ==> x !in Subtree(before, fs[i])) ==> t[x] == before[x])
    && (forall x, i :: 0 <= i < k && x in Subtree(before, fs[i]) ==> !IsLive(t, x))
  }

  lemma StillWhole(before: Table, t: Table, fs: seq<nat>, k: nat)
    requires LiveParents(before) && AllLive(before, fs) && Apart(before, fs)
    requires FoldersGone(before, t, fs, k) && k < |fs|
    ensures IsWhole(t, fs[k], Subtree(before, fs[k]))
  {
    var ids := Subtree(before, fs[k]);
    SubtreeIsWhole(before, fs[k]);
    hide IsUnder, Apart;
    forall x | x in ids ensures IsLive(t, x) && t[x] == before[x] {
      forall i | 0 <= i < k ensures x !in Subtree(before, fs[i]) {
        ApartSubtreesAreDisjoint(before, fs, i, k, x);
      }
    }
    forall x | IsLive(t, x) && t[x].parent.Some? && t[x].parent.value in ids ensures x in ids {
      assert t[x] == before[x];
    }
  }

  lemma OneMoreGone(before: Table, t: Table, fs: seq<nat>, k: nat, e: nat)
    requires FoldersGone(before, t, fs, k) && k < |fs|
    ensures FoldersGone(before, TagRows(t, Subtree(before, fs[k]), e), fs, k + 1)
  {
    hide IsUnder;
    var u := TagRows(t, Subtree(before, fs[k]), e);
    forall x | x in u && (forall i :: 0 <= i < k + 1 ==> x !in Subtree(before, fs[i])) ensures u[x] == before[x] {
      assert forall i :: 0 <= i < k ==> x !in Subtree(before, fs[i]);
      assert x !in Subtree(before, fs[k]);
    }
    forall x, i | 0 <= i < k + 1 && x in Subtree(before, fs[i]) ensures !IsLive(u, x) {
      if i < k { assert !IsLive(t, x); }
    }
  }

  lemma {:induction false} TrashFoldersKeepInv(lib: Library, fs: seq<nat>, k: nat)
    requires Inv(lib) && k <= |fs| && AllIn(lib.folders, fs) && AllLive(lib.folders, fs) && Apart(lib.folders, fs)
    ensures Inv(TrashFolders(lib, lib.folders, fs, k))
    ensures FoldersGone(lib.folders, TrashFolders(lib, lib.folders, fs, k).folders, fs, k)
  {
    hide Inv, Apart, AllLive, Subtree, FoldersGone, IsWhole, TagRows, TagJobsInside;
    if k == 0 {
      NothingGone(lib.folders, fs);
    } else {
      TrashFoldersKeepInv(lib, fs, k - 1);
      var b := TrashFolders(lib, lib.folders, fs, k - 1);
      InvHasLiveParents(lib);
      StillWhole(lib.folders, b.folders, fs, k - 1);
      TrashFolderKeepsInv(b, fs[k - 1], Subtree(lib.folders, fs[k - 1]));
      OneMoreGone(lib.folders, b.folders, fs, k - 1, b.next);
    }
  }

  lemma NothingGone(t: Table, fs: seq<nat>)
    ensures FoldersGone(t, t, fs, 0)
  {
  }

  lemma InvHasLiveParents(lib: Library)
    requires Inv(lib)
    ensures LiveParents(lib.folders)
  {
    hide Acyclic, HangTogether, OwnsItsRoot, IdsBelow;
  }

  // ---- a folder without its contents ----

  lemma ParentIsNotBelow(t: Table, f: nat, p: nat, c: nat)
    requires Acyclic(t) && f in t && t[f].parent == Some(p) && c in t && t[c].parent == Some(f)
    ensures !IsUnder(t, p, c)
  {
    if IsUnder(t, p, c) {
      UnderSelf(t, f);
      UnderByParent(t, c, f);
      UnderIsTransitive(t, p, c, f);
      AcyclicMeansNoCycle(t, f, f);
    }
  }

  lemma TrashFolderOnlyKeepsInv(lib: Library, f: nat)
    requires Inv(lib) && IsLive(lib.folders, f)
    ensures Inv(TrashFolderOnly(lib, f))
  {
    var n, p := lib.next, lib.folders[f].parent;
    var moved := MovedUp(lib, f);
    MovedUpKeepsInv(lib, f);
    EmptiedIsWhole(lib, f);
    hide Inv, IsWhole, MovedUp;
    TrashFolderKeepsInv(moved, f, {f});
    var gone := TrashFolder(moved, f, {f});
    var b := gone.(folders := Reindex(gone.folders, {p}, n), jobs := Reindex(gone.jobs, {p}, n));
    ReindexIsRehanging(gone.folders, gone.folders, {}, None, {p}, n) by { SameIsRehung(gone.folders); }
    ReindexIsRehanging(gone.jobs, gone.jobs, {}, None, {p}, n) by { SameIsRehung(gone.jobs); }
    hide Rehung, Reindex, TrashFolder, TrashFolderOnly;
    RehangKeepsInv(gone, b, {}, {}, None);
    FolderOnlyInSteps(lib, f);
  }

  lemma SameIsRehung(t: Table)
    ensures Rehung(t, t, {}, None)
  {
  }

  lemma MovedUpRows(t: Table, f: nat, p: Option<nat>, n: nat)
    ensures Rehung(t, EmptyInto(t, f, p, n), Members(Siblings(t, Some(f), n)), p)
  {
    SiblingsAreIn(t, Some(f), n);
    var ids := Siblings(t, Some(f), n);
    hide Siblings;
    forall k | 0 <= k < |ids| ensures !t[ids[k]].deleted { assert ids[k] in ids; }
    PlacingIsRehanging(t, ids, p, NextPosition(t, p, n), |ids|);
    assert ids[..|ids|] == ids;
  }

  lemma MovedUpKeepsInv(lib: Library, f: nat)
    requires Inv(lib) && IsLive(lib.folders, f)
    ensures Inv(MovedUp(lib, f))
  {
    var n, p := lib.next, lib.folders[f].parent;
    MovedUpRows(lib.folders, f, p, n);
    MovedUpRows(lib.jobs, f, p, n);
    var fs, js := Siblings(lib.folders, Some(f), n), Siblings(lib.jobs, Some(f), n);
    hide Siblings, EmptyInto, Rehung, HangTogether, OwnsItsRoot, IdsBelow, Acyclic, IsUnder;
    if p.Some? {
      forall c | c in Members(fs) ensures !IsUnder(lib.folders, p.value, c) {
        ParentIsNotBelow(lib.folders, f, p.value, c);
      }
    }
    assert CanHold(lib, p);
    hide Inv;
    RehangKeepsInv(lib, MovedUp(lib, f), Members(fs), Members(js), p);
  }

  /** What is emptied into its parent has nothing live under it any more. */
  lemma NothingLeftUnder(t: Table, f: nat, p: Option<nat>, n: nat)
    requires IdsBelow(t, n) && p != Some(f)
    ensures
      var u := EmptyInto(t, f, p, n);
      && (forall x :: IsLive(u, x) ==> u[x].parent != Some(f))
      && (f in t && t[f].parent != Some(f) ==> u[f] == t[f])
  {
    MovedUpRows(t, f, p, n);
    var ids := Siblings(t, Some(f), n);
    var u := EmptyInto(t, f, p, n);
    hide Siblings;
    SiblingsAreIn(t, Some(f), n);
    if f in t && t[f].parent != Some(f) { UnplacedRow(t, ids, p, NextPosition(t, p, n), |ids|, f); }
    hide EmptyInto;
    forall x | IsLive(u, x) ensures u[x].parent != Some(f) {
      assert t[x].parent == Some(f) ==> x in ids;
    }
  }

  lemma EmptiedIsWhole(lib: Library, f: nat)
    requires Inv(lib) && IsLive(lib.folders, f)
    ensures IsWhole(MovedUp(lib, f).folders, f, {f})
    ensures forall j :: IsLive(MovedUp(lib, f).jobs, j) ==> !IsInside(MovedUp(lib, f).jobs, j, {f})
    ensures MovedUp(lib, f).folders[f] == lib.folders[f]
  {
    hide Inv, MovedUp, IsWhole, IdsBelow;
    InvIds(lib);
    NotOwnParent(lib, f);
    EmptiedRows(lib, f);
    AloneIsWhole(MovedUp(lib, f).folders, f);
  }

  lemma EmptiedRows(lib: Library, f: nat)
    requires f in lib.folders && lib.folders[f].parent != Some(f)
    requires IdsBelow(lib.folders, lib.next) && IdsBelow(lib.jobs, lib.next)
    ensures
      var m := MovedUp(lib, f);
      && (forall x :: IsLive(m.folders, x) ==> m.folders[x].parent != Some(f))
      && (forall x :: IsLive(m.jobs, x) ==> m.jobs[x].parent != Some(f))
      && m.folders[f] == lib.folders[f]
  {
    hide EmptyInto, IdsBelow;
    NothingLeftUnder(lib.folders, f, lib.folders[f].parent, lib.next);
    NothingLeftUnder(lib.jobs, f, lib.folders[f].parent, lib.next);
  }

  lemma AloneIsWhole(t: Table, f: nat)
    requires IsLive(t, f) && forall x :: IsLive(t, x) ==> t[x].parent != Some(f)
    ensures IsWhole(t, f, {f})
  {
  }

  lemma {:induction false} UnplacedRow(t: Table, ids: seq<nat>, dest: Option<nat>, start: nat, k: nat, id: nat)
    requires AllIn(t, ids) && k <= |ids| && id in t && id !in ids
    ensures PlaceRows(t, ids, dest, start, k)[id] == t[id]
  {
    if k > 0 { UnplacedRow(t, ids, dest, start, k - 1, id); }
  }

  lemma NotOwnParent(lib: Library, f: nat)
    requires Inv(lib) && f in lib.folders
    ensures lib.folders[f].parent != Some(f)
  {
    hide HangTogether, OwnsItsRoot;
    UnderSelf(lib.folders, f);
    AcyclicMeansNoCycle(lib.folders, f, f);
  }

  lemma FolderOnlyInSteps(lib: Library, f: nat)
    requires Inv(lib) && IsLive(lib.folders, f)
    ensures
      var n, p := lib.next, lib.folders[f].parent;
      var gone := TrashFolder(MovedUp(lib, f), f, {f});
      TrashFolderOnly(lib, f) ==
        gone.(folders := Reindex(gone.folders, {p}, n), jobs := Reindex(gone.jobs, {p}, n))
  {
    hide Inv, Siblings, PlaceRows, NextPosition, Reindex, IsWhole;
    EmptiedIsWhole(lib, f);
    var m := MovedUp(lib, f);
    TagAlone(m.folders, f, lib.next);
    TagNothingInside(m.jobs, {f}, lib.next);
    hide TagRows, TagJobsInside, IsInside;
  }

  lemma TagAlone(t: Table, f: nat, e: nat)
    requires IsLive(t, f)
    ensures TagRows(t, {f}, e) == t[f := TagRow(t[f], e)]
  {
  }

  lemma TagNothingInside(jobs: Table, ids: set<nat>, e: nat)
    requires forall j :: IsLive(jobs, j) ==> !IsInside(jobs, j, ids)
    ensures TagJobsInside(jobs, ids, e) == jobs
  {
  }

  // ---- restoring ----

  ghost predicate AllAwaited(lib: Library, pending: set<nat>, live: set<nat>) {
    forall p :: p in live ==> IsAwaited(lib.folders, pending, p)
  }

  /** Bringing back one entry: its rows are live, and whoever waited for them has them. */
  lemma RestoreOneKeepsInv(lib: Library, e: nat, live: set<nat>, pending: set<nat>, position: nat)
    requires InvUpTo(lib, pending) && e in pending && e in lib.trash && AllAwaited(lib, pending, live)
    ensures
      var b := RestoreOne(lib, e, TargetOf(lib.trash[e], live), position);
      InvUpTo(b, pending - {e}) && AllAwaited(b, pending - {e}, live)
  {
    var b := RestoreOne(lib, e, TargetOf(lib.trash[e], live), position);
    RestoreKeepsPointers(lib, e, live, position);
    FewerPointersStayAcyclic(lib.folders, b.folders);
    RestoreKeepsRoots(lib, e, live, pending, position);
    RestoreKeepsTogether(lib, e, live, pending, position);
    RestoreKeepsParents(lib, e, live, pending, position);
    hide Acyclic, HangTogether, HaveParents, AllAwaited;
    var entry, target := lib.trash[e], TargetOf(lib.trash[e], live);
    assert OwnsItsRoot(lib, e);
    RootParentBelow(lib, e, live);
    hide OwnsItsRoot, TargetOf;
    var isFolder := entry.kind.FolderEntry?;
    UntaggedRows(lib.folders, e, lib.next, lib.trash, if isFolder then Some(entry.root) else None, target, position);
    UntaggedRows(lib.jobs, e, lib.next, lib.trash, if isFolder then None else Some(entry.root), target, position);
    hide IdsBelow, AreTagged, UntagRows;
  }

  lemma RootParentBelow(lib: Library, e: nat, live: set<nat>)
    requires e in lib.trash && OwnsItsRoot(lib, e) && IdsBelow(lib.folders, lib.next) && IdsBelow(lib.jobs, lib.next)
    ensures TargetOf(lib.trash[e], live).Some? ==> TargetOf(lib.trash[e], live).value < lib.next
  {
  }

  lemma RestoreKeepsPointers(lib: Library, e: nat, live: set<nat>, position: nat)
    requires e in lib.trash && OwnsItsRoot(lib, e)
    ensures
      var b := RestoreOne(lib, e, TargetOf(lib.trash[e], live), position);
      && (forall x :: x in b.folders ==>
           b.folders[x].parent == lib.folders[x].parent || b.folders[x].parent.None?)
      && (forall x :: x in b.jobs ==> b.jobs[x].parent == lib.jobs[x].parent || b.jobs[x].parent.None?)
  {
  }

  lemma RestoreKeepsRoots(lib: Library, e: nat, live: set<nat>, pending: set<nat>, position: nat)
    requires InvUpTo(lib, pending) && e in lib.trash
    ensures
      var b := RestoreOne(lib, e, TargetOf(lib.trash[e], live), position);
      forall d :: d in b.trash ==> OwnsItsRoot(b, d)
  {
    hide Acyclic, HangTogether, HaveParents;
    var b := RestoreOne(lib, e, TargetOf(lib.trash[e], live), position);
    forall d | d in b.trash ensures OwnsItsRoot(b, d) {
      assert OwnsItsRoot(lib, d);
    }
  }

  lemma RestoreKeepsTogether(lib: Library, e: nat, live: set<nat>, pending: set<nat>, position: nat)
    requires InvUpTo(lib, pending) && e in lib.trash
    ensures HangTogether(RestoreOne(lib, e, TargetOf(lib.trash[e], live), position))
  {
    hide Acyclic, OwnsItsRoot, HaveParents, IdsBelow;
    var b := RestoreOne(lib, e, TargetOf(lib.trash[e], live), position);
    forall x | x in b.folders && b.folders[x].tag.Some? && b.folders[x].tag.value in b.trash
      ensures
        var d := b.folders[x].tag.value;
        && b.trash[d].kind.FolderEntry?
        && (x != b.trash[d].root ==> HasTag(b.folders, b.folders[x].parent, d))
    {
      assert b.folders[x] == lib.folders[x];
    }
    forall j | j in b.jobs && b.jobs[j].tag.Some? && b.jobs[j].tag.value in b.trash
      ensures
        var d := b.jobs[j].tag.value;
        if b.trash[d].kind.JobEntry? then j == b.trash[d].root else HasTag(b.folders, b.jobs[j].parent, d)
    {
      assert b.jobs[j] == lib.jobs[j];
    }
  }

  lemma RestoreKeepsParents(lib: Library, e: nat, live: set<nat>, pending: set<nat>, position: nat)
    requires InvUpTo(lib, pending) && e in pending && e in lib.trash && AllAwaited(lib, pending, live)
    ensures
      var b := RestoreOne(lib, e, TargetOf(lib.trash[e], live), position);
      && HaveParents(b.folders, b.folders, pending - {e}) && HaveParents(b.folders, b.jobs, pending - {e})
      && AllAwaited(b, pending - {e}, live)
  {
    hide Acyclic, IdsBelow;
    var b := RestoreOne(lib, e, TargetOf(lib.trash[e], live), position);
    assert OwnsItsRoot(lib, e);
    hide OwnsItsRoot;
    forall p | IsAwaited(lib.folders, pending, p) ensures IsAwaited(b.folders, pending - {e}, p) {
    }
  }

  // ---- purging ----

  lemma PurgeOneKeepsInv(lib: Library, e: nat)
    requires Inv(lib) && e in lib.trash
    ensures Inv(PurgeOne(lib, e))
  {
    var b := PurgeOne(lib, e);
    FewerPointersStayAcyclic(lib.folders, b.folders);
    PurgeKeepsTogether(lib, e);
    PurgeKeepsRoots(lib, e);
    hide Acyclic, OwnsItsRoot, HangTogether;
    DroppedRows(lib.folders, e, lib.next, lib.trash);
    DroppedRows(lib.jobs, e, lib.next, lib.trash);
    PurgeKeepsParents(lib.folders, lib.folders, lib.trash, e);
    PurgeKeepsParents(lib.folders, lib.jobs, lib.trash, e);
    hide IdsBelow, AreTagged, HaveParents, DropTagged;
  }

  lemma PurgeKeepsRoots(lib: Library, e: nat)
    requires Inv(lib) && e in lib.trash
    ensures forall d :: d in PurgeOne(lib, e).trash ==> OwnsItsRoot(PurgeOne(lib, e), d)
  {
    hide Acyclic, HangTogether, HaveParents, IdsBelow;
    var b := PurgeOne(lib, e);
    forall d | d in b.trash ensures OwnsItsRoot(b, d) {
      assert OwnsItsRoot(lib, d);
    }
  }

  lemma PurgeKeepsParents(folders: Table, rows: Table, trash: map<nat, Entry>, e: nat)
    requires AreTagged(folders, trash) && AreTagged(rows, trash) && HaveParents(folders, rows, {})
    ensures HaveParents(DropTagged(folders, e), DropTagged(rows, e), {})
  {
  }

  lemma PurgeKeepsTogether(lib: Library, e: nat)
    requires Inv(lib) && e in lib.trash
    ensures HangTogether(PurgeOne(lib, e))
  {
    hide Acyclic, OwnsItsRoot, IdsBelow, HaveParents;
    var b := PurgeOne(lib, e);
    assert forall x :: x in b.folders ==> b.folders[x] == lib.folders[x];
    assert forall j :: j in b.jobs ==> b.jobs[j] == lib.jobs[j];
  }

  // ---- restoring several entries ----

  ghost predicate AreEntries(lib: Library, es: seq<nat>) {
    Distinct(es) && forall k :: 0 <= k < |es| ==> es[k] in lib.trash
  }

  /** The folders that will be live once the entries are back. */
  function LiveAfter(lib: Library, es: seq<nat>): (r: set<nat>)
  {
    set f | f in lib.folders &&
            (!lib.folders[f].deleted || (lib.folders[f].tag.Some? && lib.folders[f].tag.value in es))
  }

  /** How many of the first `k` entries of a kind were put under `p`. */
  function PutUnder(lib: Library, es: seq<nat>, live: set<nat>, kind: Kind, p: Option<nat>, k: nat): nat
    requires k <= |es| && forall i :: 0 <= i < |es| ==> es[i] in lib.trash
  {
    if k == 0 then 0 else
      PutUnder(lib, es, live, kind, p, k - 1) +
      (if lib.trash[es[k - 1]].kind == kind && TargetOf(lib.trash[es[k - 1]], live) == p then 1 else 0)
  }

  /** Behind what was live there before, and behind what this call put there already. */
  function PositionFor(lib: Library, es: seq<nat>, live: set<nat>, k: nat): nat
    requires k < |es| && forall i :: 0 <= i < |es| ==> es[i] in lib.trash
  {
    var entry := lib.trash[es[k]];
    var target := TargetOf(entry, live);
    NextPosition(RootRows(lib, entry), target, lib.next) + PutUnder(lib, es, live, entry.kind, target, k)
  }

  ghost function RestoreAll(lib: Library, es: seq<nat>, live: set<nat>, k: nat): (b: Library)
    requires AreEntries(lib, es) && k <= |es|
    ensures b.folders.Keys == lib.folders.Keys && b.jobs.Keys == lib.jobs.Keys && b.next == lib.next
    ensures forall e :: e in b.trash <==> e in lib.trash && e !in es[..k]
    ensures forall e :: e in b.trash ==> b.trash[e] == lib.trash[e]
  {
    if k == 0 then lib else
      assert es[..k] == es[..k - 1] + [es[k - 1]];
      RestoreOne(RestoreAll(lib, es, live, k - 1), es[k - 1], TargetOf(lib.trash[es[k - 1]], live),
                 PositionFor(lib, es, live, k - 1))
  }

  ghost function TargetsOf(lib: Library, es: seq<nat>, live: set<nat>, kind: Kind): set<Option<nat>>
    requires AreEntries(lib, es)
  {
    set k | 0 <= k < |es| && lib.trash[es[k]].kind == kind :: TargetOf(lib.trash[es[k]], live)
  }

  /** `restore`: entry by entry, then the parents that got something are re-indexed. */
  ghost function Restore(lib: Library, es: seq<nat>): Library
    requires AreEntries(lib, es)
  {
    var live := LiveAfter(lib, es);
    var b := RestoreAll(lib, es, live, |es|);
    b.(folders := Reindex(b.folders, TargetsOf(lib, es, live, FolderEntry), lib.next),
       jobs := Reindex(b.jobs, TargetsOf(lib, es, live, JobEntry), lib.next))
  }

  /** The entries from `k` on. */
  ghost function PendingFrom(es: seq<nat>, k: nat): (r: set<nat>)
    requires k <= |es|
    ensures forall e :: e in r <==> e in es[k..]
  {
    set e | e in es[k..]
  }

  lemma MorePending(lib: Library, pending: set<nat>)
    requires Inv(lib)
    ensures InvUpTo(lib, pending)
  {
    hide Acyclic, OwnsItsRoot, HangTogether, IdsBelow, AreTagged;
  }

  lemma AwaitedAtFirst(lib: Library, es: seq<nat>)
    ensures AllAwaited(lib, PendingFrom(es, 0), LiveAfter(lib, es))
  {
    assert es[0..] == es;
  }

  lemma {:induction false} RestoreAllKeepsInv(lib: Library, es: seq<nat>, live: set<nat>, k: nat)
    requires Inv(lib) && AreEntries(lib, es) && k <= |es| && AllAwaited(lib, PendingFrom(es, 0), live)
    ensures InvUpTo(RestoreAll(lib, es, live, k), PendingFrom(es, k))
    ensures AllAwaited(RestoreAll(lib, es, live, k), PendingFrom(es, k), live)
  {
    hide InvUpTo, AllAwaited, RestoreOne, TargetOf, PositionFor;
    if k == 0 {
      hide Inv;
      MorePending(lib, PendingFrom(es, 0));
    } else {
      RestoreAllKeepsInv(lib, es, live, k - 1);
      var b := RestoreAll(lib, es, live, k - 1);
      EntryLeaves(es, k);
      RestoreOneKeepsInv(b, es[k - 1], live, PendingFrom(es, k - 1), PositionFor(lib, es, live, k - 1));
    }
  }

  lemma EntryLeaves(es: seq<nat>, k: nat)
    requires 0 < k <= |es| && Distinct(es)
    ensures es[k - 1] in PendingFrom(es, k - 1) && PendingFrom(es, k) == PendingFrom(es, k - 1) - {es[k - 1]}
    ensures es[k - 1] !in es[..k - 1]
  {
    assert es[k - 1..] == [es[k - 1]] + es[k..];
  }

  lemma RestoreKeepsInv(lib: Library, es: seq<nat>)
    requires Inv(lib) && AreEntries(lib, es)
    ensures Inv(Restore(lib, es))
  {
    var live := LiveAfter(lib, es);
    AwaitedAtFirst(lib, es);
    RestoreAllKeepsInv(lib, es, live, |es|);
    var b := RestoreAll(lib, es, live, |es|);
    assert PendingFrom(es, |es|) == {};
    hide InvUpTo, RestoreAll, Reindex, Rehung;
    ReindexIsRehanging(b.folders, b.folders, {}, None, TargetsOf(lib, es, live, FolderEntry), lib.next)
      by { SameIsRehung(b.folders); }
    ReindexIsRehanging(b.jobs, b.jobs, {}, None, TargetsOf(lib, es, live, JobEntry), lib.next)
      by { SameIsRehung(b.jobs); }
    RehangKeepsInv(b, Restore(lib, es), {}, {}, None);
  }

  // ---- purging several entries ----

  /** The rows of the entries are gone, and nothing else. */
  function Purge(lib: Library, es: set<nat>): Library {
    lib.(folders := map f | f in lib.folders && !TaggedIn(lib.folders[f], es) :: lib.folders[f],
         jobs := map j | j in lib.jobs && !TaggedIn(lib.jobs[j], es) :: lib.jobs[j],
         trash := lib.trash - es)
  }

  predicate TaggedIn(row: Row, es: set<nat>) { row.tag.Some? && row.tag.value in es }

  lemma PurgeStep(lib: Library, es: set<nat>, e: nat)
    ensures PurgeOne(Purge(lib, es), e) == Purge(lib, es + {e})
  {
    var a, b := PurgeOne(Purge(lib, es), e), Purge(lib, es + {e});
    assert a.folders == b.folders;
    assert a.jobs == b.jobs;
    assert a.trash == b.trash;
  }

  lemma {:induction false} PurgeKeepsInv(lib: Library, es: set<nat>)
    requires Inv(lib) && es <= lib.trash.Keys
    ensures Inv(Purge(lib, es))
    decreases es
  {
    hide Inv, PurgeOne;
    if es == {} {
      assert Purge(lib, es) == lib;
    } else {
      var e :| e in es;
      PurgeKeepsInv(lib, es - {e});
      PurgeOneKeepsInv(Purge(lib, es - {e}), e);
      PurgeStep(lib, es - {e}, e);
      assert es - {e} + {e} == es;
    }
  }
}
