/** The library (server/app/library/service.py): folders and jobs with parent pointers,
    manual positions and a trash, and what each command does to them. */
module LibraryModel {
  import opened Wrappers
  import opened Sorting
  import opened Forest
  import opened SiblingOrder

  datatype Kind = FolderEntry | JobEntry

  /** A trash entry: the row it was made for and where that row lived. */
  datatype Entry = Entry(kind: Kind, root: nat, parent: Option<nat>)

  /** `next` is the id the next row or entry gets; ids are never given out twice. */
  datatype Library = Library(folders: Table, jobs: Table, trash: map<nat, Entry>, next: nat)

  const EmptyLibrary := Library(map[], map[], map[], 0)

  // ---- the invariant ----

  ghost predicate IdsBelow(t: Table, n: nat) {
    forall id :: id in t ==> id < n && (t[id].parent.Some? ==> t[id].parent.value < n)
  }

  /** `p` is live, or will be once the entries `pending` are restored. */
  predicate IsAwaited(folders: Table, pending: set<nat>, p: nat) {
    p in folders && (!folders[p].deleted || (folders[p].tag.Some? && folders[p].tag.value in pending))
  }

  ghost predicate HaveParents(folders: Table, rows: Table, pending: set<nat>) {
    forall id :: IsLive(rows, id) && rows[id].parent.Some? ==> IsAwaited(folders, pending, rows[id].parent.value)
  }

  /** A row in the trash carries the tag of exactly one entry, which exists. */
  ghost predicate AreTagged(rows: Table, trash: map<nat, Entry>) {
    forall id :: id in rows ==> (
      && (rows[id].deleted <==> rows[id].tag.Some?)
      && (rows[id].tag.Some? ==> rows[id].tag.value in trash))
  }

  function RootRows(lib: Library, entry: Entry): Table {
    if entry.kind.FolderEntry? then lib.folders else lib.jobs
  }

  /** An entry owns its root, which still points to where it lived. */
  ghost predicate OwnsItsRoot(lib: Library, e: nat)
    requires e in lib.trash
  {
    var entry := lib.trash[e];
    && e < lib.next && entry.root in RootRows(lib, entry)
    && RootRows(lib, entry)[entry.root].tag == Some(e) && RootRows(lib, entry)[entry.root].parent == entry.parent
  }

  ghost predicate HasTag(folders: Table, p: Option<nat>, e: nat) {
    p.Some? && p.value in folders && folders[p.value].tag == Some(e)
  }

  /** What was trashed together hangs together: every member but the root has its parent
      in the same entry. */
  ghost predicate HangTogether(lib: Library) {
    && (forall f :: f in lib.folders && lib.folders[f].tag.Some? && lib.folders[f].tag.value in lib.trash ==>
         var e := lib.folders[f].tag.value;
         && lib.trash[e].kind.FolderEntry?
         && (f != lib.trash[e].root ==> HasTag(lib.folders, lib.folders[f].parent, e)))
    && (forall j :: j in lib.jobs && lib.jobs[j].tag.Some? && lib.jobs[j].tag.value in lib.trash ==>
         var e := lib.jobs[j].tag.value;
         if lib.trash[e].kind.JobEntry? then j == lib.trash[e].root
         else HasTag(lib.folders, lib.jobs[j].parent, e))
  }

  ghost predicate InvUpTo(lib: Library, pending: set<nat>) {
    && Acyclic(lib.folders) && IdsBelow(lib.folders, lib.next) && IdsBelow(lib.jobs, lib.next)
    && HaveParents(lib.folders, lib.folders, pending) && HaveParents(lib.folders, lib.jobs, pending)
    && AreTagged(lib.folders, lib.trash) && AreTagged(lib.jobs, lib.trash)
    && (forall e :: e in lib.trash ==> OwnsItsRoot(lib, e)) && HangTogether(lib)
  }

  /** The library is a forest, live rows have live parents, and the trash is in order. */
  ghost predicate Inv(lib: Library) { InvUpTo(lib, {}) }

  // ---- adding ----

  predicate CanHold(lib: Library, parent: Option<nat>) { parent.Some? ==> IsLive(lib.folders, parent.value) }

  function NewRow(t: Table, parent: Option<nat>, tie: int, n: nat): Row {
    Row(parent, NextPosition(t, parent, n), tie, false, None)
  }

  function AddFolder(lib: Library, parent: Option<nat>, tie: int): Library {
    lib.(folders := lib.folders[lib.next := NewRow(lib.folders, parent, tie, lib.next)], next := lib.next + 1)
  }

  function AddJob(lib: Library, parent: Option<nat>, tie: int): Library {
    lib.(jobs := lib.jobs[lib.next := NewRow(lib.jobs, parent, tie, lib.next)], next := lib.next + 1)
  }

  // ---- moving ----

  function ParentsOf(t: Table, ids: seq<nat>): set<Option<nat>>
    requires AllIn(t, ids)
  {
    set k | 0 <= k < |ids| :: t[ids[k]].parent
  }

  /** `ids` go to the end of `dest`; every parent involved is re-indexed. */
  function MoveRows(t: Table, ids: seq<nat>, dest: Option<nat>, n: nat): (u: Table)
    requires AllIn(t, ids)
    ensures u.Keys == t.Keys
  {
    Reindex(PlaceRows(t, ids, dest, NextPosition(t, dest, n), |ids|), {dest} + ParentsOf(t, ids), n)
  }

  function MoveItems(lib: Library, folderIds: seq<nat>, jobIds: seq<nat>, dest: Option<nat>): Library
    requires AllIn(lib.folders, folderIds) && AllIn(lib.jobs, jobIds)
  {
    lib.(folders := MoveRows(lib.folders, folderIds, dest, lib.next),
         jobs := MoveRows(lib.jobs, jobIds, dest, lib.next))
  }

  /** The new order takes the positions 0, 1, and so on. */
  function NumberRows(t: Table, ids: seq<nat>, k: nat): (u: Table)
    requires AllIn(t, ids) && k <= |ids|
    ensures u.Keys == t.Keys
  {
    if k == 0 then t else
      var u := NumberRows(t, ids, k - 1);
      u[ids[k - 1] := u[ids[k - 1]].(position := k - 1)]
  }

  function Reorder(lib: Library, folderIds: seq<nat>, jobIds: seq<nat>): Library
    requires AllIn(lib.folders, folderIds) && AllIn(lib.jobs, jobIds)
  {
    lib.(folders := NumberRows(lib.folders, folderIds, |folderIds|),
         jobs := NumberRows(lib.jobs, jobIds, |jobIds|))
  }

  // ---- trashing ----

  function TagRow(row: Row, e: nat): Row { row.(deleted := true, tag := Some(e)) }

  /** The live rows among `ids` go into the trash under entry `e`. */
  function TagRows(t: Table, ids: set<nat>, e: nat): (u: Table)
    ensures u.Keys == t.Keys
  {
    map id | id in t :: if id in ids && !t[id].deleted then TagRow(t[id], e) else t[id]
  }

  predicate IsInside(jobs: Table, j: nat, ids: set<nat>) {
    j in jobs && jobs[j].parent.Some? && jobs[j].parent.value in ids
  }

  function TagJobsInside(jobs: Table, ids: set<nat>, e: nat): (u: Table)
    ensures u.Keys == jobs.Keys
  {
    map j | j in jobs :: if IsInside(jobs, j, ids) && !jobs[j].deleted then TagRow(jobs[j], e) else jobs[j]
  }

  function TrashJob(lib: Library, j: nat): Library
    requires j in lib.jobs
  {
    lib.(jobs := lib.jobs[j := TagRow(lib.jobs[j], lib.next)],
         trash := lib.trash[lib.next := Entry(JobEntry, j, lib.jobs[j].parent)], next := lib.next + 1)
  }

  /** `root` with the folders `subtree` and everything in them. */
  function TrashFolder(lib: Library, root: nat, subtree: set<nat>): Library
    requires root in lib.folders
  {
    lib.(folders := TagRows(lib.folders, subtree, lib.next), jobs := TagJobsInside(lib.jobs, subtree, lib.next),
         trash := lib.trash[lib.next := Entry(FolderEntry, root, lib.folders[root].parent)], next := lib.next + 1)
  }

  /** The rows under `f` go, in order, to the end of `p`. */
  function EmptyInto(t: Table, f: nat, p: Option<nat>, n: nat): (u: Table)
    ensures u.Keys == t.Keys
  {
    var ids := Siblings(t, Some(f), n);
    SiblingsAreIn(t, Some(f), n);
    PlaceRows(t, ids, p, NextPosition(t, p, n), |ids|)
  }

  /** The library with the folder emptied into its parent. */
  function MovedUp(lib: Library, f: nat): (b: Library)
    requires f in lib.folders
    ensures b.folders.Keys == lib.folders.Keys
  {
    var p := lib.folders[f].parent;
    lib.(folders := EmptyInto(lib.folders, f, p, lib.next), jobs := EmptyInto(lib.jobs, f, p, lib.next))
  }

  /** `delete_folder_only`: its children move up, then it goes alone. */
  function TrashFolderOnly(lib: Library, f: nat): Library
    requires f in lib.folders
  {
    TrashAlone(MovedUp(lib, f), f, lib.folders[f].parent)
  }

  /** A folder without contents goes into the trash; its former siblings are re-indexed. */
  function TrashAlone(lib: Library, f: nat, parent: Option<nat>): Library
    requires f in lib.folders
  {
    var n := lib.next;
    Library(Reindex(lib.folders[f := TagRow(lib.folders[f], n)], {parent}, n), Reindex(lib.jobs, {parent}, n),
            lib.trash[n := Entry(FolderEntry, f, parent)], n + 1)
  }

  lemma SiblingsAreIn(t: Table, p: Option<nat>, n: nat)
    ensures AllIn(t, Siblings(t, p, n))
  {
    var xs := Siblings(t, p, n);
    hide Siblings;
    assert forall k :: 0 <= k < |xs| ==> xs[k] in xs;
  }

  // ---- restoring ----

  /** Where a restored root goes: back, unless its parent is gone for good. */
  function TargetOf(entry: Entry, live: set<nat>): Option<nat> {
    if entry.parent.Some? && entry.parent.value !in live then None else entry.parent
  }

  function Untagged(row: Row): Row { row.(deleted := false, tag := None) }

  function UntagRows(t: Table, e: nat, root: Option<nat>, target: Option<nat>, position: nat): (u: Table)
    ensures u.Keys == t.Keys
  {
    map id | id in t ::
      if t[id].tag != Some(e) then t[id]
      else if root == Some(id) then Untagged(t[id]).(parent := target, position := position)
      else Untagged(t[id])
  }

  function RestoreOne(lib: Library, e: nat, target: Option<nat>, position: nat): Library
    requires e in lib.trash
  {
    var entry := lib.trash[e];
    var isFolder := entry.kind.FolderEntry?;
    lib.(folders := UntagRows(lib.folders, e, if isFolder then Some(entry.root) else None, target, position),
         jobs := UntagRows(lib.jobs, e, if isFolder then None else Some(entry.root), target, position),
         trash := lib.trash - {e})
  }

  // ---- purging ----

  function DropTagged(t: Table, e: nat): (u: Table)
    ensures forall id :: id in u <==> id in t && t[id].tag != Some(e)
  {
    map id | id in t && t[id].tag != Some(e) :: t[id]
  }

  function PurgeOne(lib: Library, e: nat): Library {
    lib.(folders := DropTagged(lib.folders, e), jobs := DropTagged(lib.jobs, e), trash := lib.trash - {e})
  }

  // ---- every command keeps the invariant ----

  lemma EmptyInv()
    ensures Inv(EmptyLibrary)
  {
    assert Ranks(map[], map[]);
  }

  lemma AddFolderKeepsInv(lib: Library, parent: Option<nat>, tie: int)
    requires Inv(lib) && CanHold(lib, parent)
    ensures Inv(AddFolder(lib, parent, tie))
  {
    hide NextPosition, Acyclic, HangTogether, HaveParents, AreTagged;
    var row := NewRow(lib.folders, parent, tie, lib.next);
    NewRowStaysAcyclic(lib.folders, lib.next, row);
    var b := AddFolder(lib, parent, tie);
    assert forall e :: e in b.trash ==> OwnsItsRoot(lib, e) ==> OwnsItsRoot(b, e);
    hide OwnsItsRoot, IdsBelow;
    NewFolderKeepsParents(lib.folders, lib.jobs, lib.next, row);
    NewFolderKeepsTags(lib, row);
  }

  lemma NewFolderKeepsParents(folders: Table, jobs: Table, id: nat, row: Row)
    requires HaveParents(folders, folders, {}) && HaveParents(folders, jobs, {}) && id !in folders
    requires !row.deleted && (row.parent.Some? ==> IsLive(folders, row.parent.value))
    ensures HaveParents(folders[id := row], folders[id := row], {}) && HaveParents(folders[id := row], jobs, {})
  {
  }

  lemma NewFolderKeepsTags(lib: Library, row: Row)
    requires HangTogether(lib) && AreTagged(lib.folders, lib.trash) && lib.next !in lib.folders
    requires !row.deleted && row.tag.None?
    ensures AreTagged(lib.folders[lib.next := row], lib.trash)
    ensures HangTogether(lib.(folders := lib.folders[lib.next := row], next := lib.next + 1))
  {
  }

  lemma AddJobKeepsInv(lib: Library, parent: Option<nat>, tie: int)
    requires Inv(lib) && CanHold(lib, parent)
    ensures Inv(AddJob(lib, parent, tie))
  {
    hide NextPosition, Acyclic, HangTogether, HaveParents, AreTagged;
    var row := NewRow(lib.jobs, parent, tie, lib.next);
    var b := AddJob(lib, parent, tie);
    assert forall e :: e in b.trash ==> OwnsItsRoot(lib, e) ==> OwnsItsRoot(b, e);
    hide OwnsItsRoot, IdsBelow;
    NewJobKeepsRows(lib, row);
  }

  lemma NewJobKeepsRows(lib: Library, row: Row)
    requires HangTogether(lib) && AreTagged(lib.jobs, lib.trash) && lib.next !in lib.jobs
    requires HaveParents(lib.folders, lib.jobs, {})
    requires !row.deleted && row.tag.None? && (row.parent.Some? ==> IsLive(lib.folders, row.parent.value))
    ensures AreTagged(lib.jobs[lib.next := row], lib.trash)
    ensures HaveParents(lib.folders, lib.jobs[lib.next := row], {})
    ensures HangTogether(lib.(jobs := lib.jobs[lib.next := row], next := lib.next + 1))
  {
  }

  /** `u` is `t` with live rows hung elsewhere and renumbered. */
  ghost predicate Rehung(t: Table, u: Table, moved: set<nat>, dest: Option<nat>) {
    && u.Keys == t.Keys
    && forall id :: id in t ==> (
         && u[id].deleted == t[id].deleted && u[id].tag == t[id].tag
         && u[id].parent == (if id in moved then dest else t[id].parent)
         && (id in moved ==> !t[id].deleted))
  }

  /** Hanging live rows elsewhere, under a live row that lies below none of them. */
  lemma RehangKeepsInv(a: Library, b: Library, folders: set<nat>, jobs: set<nat>, dest: Option<nat>)
    requires Inv(a) && CanHold(a, dest) && b.trash == a.trash && b.next == a.next
    requires Rehung(a.folders, b.folders, folders, dest) && Rehung(a.jobs, b.jobs, jobs, dest)
    requires dest.Some? ==> forall f :: f in folders ==> !IsUnder(a.folders, dest.value, f)
    ensures Inv(b)
  {
    HangingStaysAcyclic(a.folders, b.folders, folders, dest);
    hide Acyclic, IsUnder;
    RehangKeepsRoots(a, b, folders, jobs, dest);
    RehangKeepsTogether(a, b, folders, jobs, dest);
    hide HangTogether, OwnsItsRoot;
    RehangKeepsRows(a.folders, b.folders, a, folders, dest);
    RehangKeepsRows(a.jobs, b.jobs, a, jobs, dest);
    RehangKeepsParents(a, b, b.folders);
    RehangKeepsParents(a, b, b.jobs);
    hide Rehung, IdsBelow, HaveParents, AreTagged;
  }

  lemma RehangKeepsRoots(a: Library, b: Library, folders: set<nat>, jobs: set<nat>, dest: Option<nat>)
    requires (forall e :: e in a.trash ==> OwnsItsRoot(a, e)) && b.trash == a.trash && b.next == a.next
    requires AreTagged(a.folders, a.trash) && AreTagged(a.jobs, a.trash)
    requires Rehung(a.folders, b.folders, folders, dest) && Rehung(a.jobs, b.jobs, jobs, dest)
    ensures forall e :: e in b.trash ==> OwnsItsRoot(b, e)
  {
    forall e | e in b.trash ensures OwnsItsRoot(b, e) {
      assert OwnsItsRoot(a, e);
    }
  }

  lemma RehangKeepsRows(t: Table, u: Table, a: Library, moved: set<nat>, dest: Option<nat>)
    requires Rehung(t, u, moved, dest) && CanHold(a, dest)
    requires IdsBelow(a.folders, a.next) && IdsBelow(t, a.next) && AreTagged(t, a.trash)
    requires HaveParents(a.folders, t, {})
    ensures IdsBelow(u, a.next) && AreTagged(u, a.trash) && HaveParents(a.folders, u, {})
  {
  }

  lemma RehangKeepsParents(a: Library, b: Library, rows: Table)
    requires HaveParents(a.folders, rows, {}) && b.folders.Keys == a.folders.Keys
    requires forall id :: id in a.folders ==> b.folders[id].deleted == a.folders[id].deleted
    ensures HaveParents(b.folders, rows, {})
  {
  }

  lemma RehangKeepsTogether(a: Library, b: Library, folders: set<nat>, jobs: set<nat>, dest: Option<nat>)
    requires HangTogether(a) && b.trash == a.trash
    requires Rehung(a.folders, b.folders, folders, dest) && Rehung(a.jobs, b.jobs, jobs, dest)
    requires AreTagged(a.folders, a.trash) && AreTagged(a.jobs, a.trash)
    ensures HangTogether(b)
  {
    forall f | f in b.folders && b.folders[f].tag.Some? && b.folders[f].tag.value in b.trash
      ensures
        var e := b.folders[f].tag.value;
        && b.trash[e].kind.FolderEntry?
        && (f != b.trash[e].root ==> HasTag(b.folders, b.folders[f].parent, e))
    {
      assert f in a.folders && a.folders[f].tag == b.folders[f].tag;
    }
    forall j | j in b.jobs && b.jobs[j].tag.Some? && b.jobs[j].tag.value in b.trash
      ensures
        var e := b.jobs[j].tag.value;
        if b.trash[e].kind.JobEntry? then j == b.trash[e].root else HasTag(b.folders, b.jobs[j].parent, e)
    {
      assert j in a.jobs && a.jobs[j].tag == b.jobs[j].tag;
    }
  }

  lemma MoveIsRehanging(t: Table, ids: seq<nat>, dest: Option<nat>, n: nat)
    requires AllIn(t, ids) && forall k :: 0 <= k < |ids| ==> !t[ids[k]].deleted
    ensures Rehung(t, MoveRows(t, ids, dest, n), Members(ids), dest)
  {
    PlacingIsRehanging(t, ids, dest, NextPosition(t, dest, n), |ids|);
    assert ids[..|ids|] == ids;
    hide PlaceRows, Rehung, Reindex;
    var u := PlaceRows(t, ids, dest, NextPosition(t, dest, n), |ids|);
    ReindexIsRehanging(t, u, Members(ids), dest, {dest} + ParentsOf(t, ids), n);
  }

  lemma ReindexIsRehanging(t: Table, u: Table, moved: set<nat>, dest: Option<nat>, ps: set<Option<nat>>, n: nat)
    requires Rehung(t, u, moved, dest)
    ensures Rehung(t, Reindex(u, ps, n), moved, dest)
  {
    hide Siblings;
  }

  lemma {:induction false} PlacingIsRehanging(t: Table, ids: seq<nat>, dest: Option<nat>, start: nat, k: nat)
    requires AllIn(t, ids) && k <= |ids| && forall i :: 0 <= i < |ids| ==> !t[ids[i]].deleted
    ensures Rehung(t, PlaceRows(t, ids, dest, start, k), Members(ids[..k]), dest)
  {
    if k > 0 {
      PlacingIsRehanging(t, ids, dest, start, k - 1);
      assert ids[..k] == ids[..k - 1] + [ids[k - 1]];
    }
  }

  lemma MoveKeepsInv(lib: Library, folderIds: seq<nat>, jobIds: seq<nat>, dest: Option<nat>)
    requires Inv(lib) && CanHold(lib, dest) && AllIn(lib.folders, folderIds) && AllIn(lib.jobs, jobIds)
    requires forall k :: 0 <= k < |folderIds| ==> IsLive(lib.folders, folderIds[k])
    requires forall k :: 0 <= k < |jobIds| ==> IsLive(lib.jobs, jobIds[k])
    requires dest.Some? ==> forall k :: 0 <= k < |folderIds| ==> !IsUnder(lib.folders, dest.value, folderIds[k])
    ensures Inv(MoveItems(lib, folderIds, jobIds, dest))
  {
    MoveIsRehanging(lib.folders, folderIds, dest, lib.next);
    MoveIsRehanging(lib.jobs, jobIds, dest, lib.next);
    hide Inv, MoveRows, Rehung, IsUnder;
    RehangKeepsInv(lib, MoveItems(lib, folderIds, jobIds, dest), Members(folderIds), Members(jobIds), dest);
  }

  lemma {:induction false} NumberingIsRehanging(t: Table, ids: seq<nat>, k: nat)
    requires AllIn(t, ids) && k <= |ids|
    ensures Rehung(t, NumberRows(t, ids, k), {}, None)
  {
    if k > 0 { NumberingIsRehanging(t, ids, k - 1); }
  }

  lemma ReorderKeepsInv(lib: Library, folderIds: seq<nat>, jobIds: seq<nat>)
    requires Inv(lib) && AllIn(lib.folders, folderIds) && AllIn(lib.jobs, jobIds)
    ensures Inv(Reorder(lib, folderIds, jobIds))
  {
    NumberingIsRehanging(lib.folders, folderIds, |folderIds|);
    NumberingIsRehanging(lib.jobs, jobIds, |jobIds|);
    hide Inv, NumberRows, Rehung, IsUnder;
    RehangKeepsInv(lib, Reorder(lib, folderIds, jobIds), {}, {}, None);
  }
}
