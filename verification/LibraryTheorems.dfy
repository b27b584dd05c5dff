/** What the library promises over whole runs of commands, and what each command does to
    the manual order. */
module LibraryTheorems {
  import opened Wrappers
  import opened Sorting
  import opened Forest
  import opened SiblingOrder
  import opened LibraryModel
  import opened LibraryTree
  import opened TrashInvariants
  import opened TrashRoundTrip
  import opened UndoDelete
  import opened LibraryCommands

  // ---- runs ----

  datatype Command =
    | NewFolder(parent: Option<nat>, tie: int)
    | NewJob(parent: Option<nat>, tie: int)
    | MoveTo(items: seq<Item>, dest: Option<nat>)
    | OrderAs(parent: Option<nat>, folderIds: seq<nat>, jobIds: seq<nat>)
    | DeleteAll(items: seq<Item>, js: seq<nat>, fs: seq<nat>)
    | DeleteOnly(folder: nat)
    | RestoreFrom(ids: seq<nat>)
    | PurgeFrom(entries: set<nat>)

  /** A command on the library; a rejected one changes nothing. `js` and `fs` are orders in
      which the selection of a delete may be gone through. */
  ghost function Apply(lib: Library, c: Command): Library {
    match c
    case NewFolder(parent, tie) => if CanHold(lib, parent) then AddFolder(lib, parent, tie) else lib
    case NewJob(parent, tie) => if CanHold(lib, parent) then AddJob(lib, parent, tie) else lib
    case MoveTo(items, dest) => MoveSelection(lib, items, dest)
    case OrderAs(parent, folderIds, jobIds) =>
      if ReorderOutcome(lib, parent, folderIds, jobIds).Done? then
        ChildrenAreIn(lib.folders, parent, lib.next, folderIds);
        ChildrenAreIn(lib.jobs, parent, lib.next, jobIds);
        Reorder(lib, folderIds, jobIds)
      else lib
    case DeleteAll(items, js, fs) =>
      if AllKnown(lib, items) && ListsSelection(lib, items, js, fs) then
        ListedAreLive(lib, items, js, fs);
        DeleteItems(lib, js, fs)
      else lib
    case DeleteOnly(f) => if IsLive(lib.folders, f) then TrashFolderOnly(lib, f) else lib
    case RestoreFrom(ids) => if AreEntries(lib, Deduped(ids)) then Restore(lib, Deduped(ids)) else lib
    case PurgeFrom(entries) => if entries <= lib.trash.Keys then Purge(lib, entries) else lib
  }

  ghost function RunCommands(lib: Library, cs: seq<Command>): Library
    decreases |cs|
  {
    if cs == [] then lib else RunCommands(Apply(lib, cs[0]), cs[1..])
  }

  lemma ApplyKeepsInv(lib: Library, c: Command)
    requires Inv(lib)
    ensures Inv(Apply(lib, c))
  {
    hide Inv, AddFolder, AddJob, MoveSelection, DeleteItems, TrashFolderOnly, Restore, Purge, Reorder;
    hide AllKnown, ListsSelection, AreEntries, Deduped, ReorderOutcome;
    match c
    case NewFolder(parent, tie) => if CanHold(lib, parent) { AddFolderKeepsInv(lib, parent, tie); }
    case NewJob(parent, tie) => if CanHold(lib, parent) { AddJobKeepsInv(lib, parent, tie); }
    case MoveTo(items, dest) => MoveSelectionKeepsInv(lib, items, dest);
    case OrderAs(parent, folderIds, jobIds) =>
      if ReorderOutcome(lib, parent, folderIds, jobIds).Done? {
        OrderIsOfChildren(lib, parent, folderIds, jobIds);
        ReorderKeepsInv(lib, folderIds, jobIds);
      }
    case DeleteAll(items, js, fs) =>
      if AllKnown(lib, items) && ListsSelection(lib, items, js, fs) { DeleteSelectionKeepsInv(lib, items, js, fs); }
    case DeleteOnly(f) => if IsLive(lib.folders, f) { TrashFolderOnlyKeepsInv(lib, f); }
    case RestoreFrom(ids) => if AreEntries(lib, Deduped(ids)) { RestoreKeepsInv(lib, Deduped(ids)); }
    case PurgeFrom(entries) => if entries <= lib.trash.Keys { PurgeKeepsInv(lib, entries); }
  }

  lemma OrderIsOfChildren(lib: Library, parent: Option<nat>, folderIds: seq<nat>, jobIds: seq<nat>)
    requires ReorderOutcome(lib, parent, folderIds, jobIds).Done?
    ensures AllIn(lib.folders, folderIds) && AllIn(lib.jobs, jobIds)
  {
    hide ChildIds;
    ChildrenAreIn(lib.folders, parent, lib.next, folderIds);
    ChildrenAreIn(lib.jobs, parent, lib.next, jobIds);
  }

  lemma {:induction false} RunKeepsInv(lib: Library, cs: seq<Command>)
    requires Inv(lib)
    ensures Inv(RunCommands(lib, cs))
    decreases |cs|
  {
    hide Inv, Apply;
    if cs != [] {
      ApplyKeepsInv(lib, cs[0]);
      RunKeepsInv(Apply(lib, cs[0]), cs[1..]);
    }
  }

  /** After any run of commands: no row, live or trashed, lies below itself; live rows have
      live parents; and a row is in the trash exactly when it carries the tag of an entry
      that exists. */
  lemma LibraryStaysAForest(cs: seq<Command>, x: nat)
    ensures
      var lib := RunCommands(EmptyLibrary, cs);
      && (x in lib.folders && lib.folders[x].parent.Some? ==> !IsUnder(lib.folders, lib.folders[x].parent.value, x))
      && (IsLive(lib.folders, x) ==> CanHold(lib, lib.folders[x].parent))
      && (IsLive(lib.jobs, x) ==> CanHold(lib, lib.jobs[x].parent))
      && (x in lib.folders ==>
          (!IsLive(lib.folders, x) <==> exists e :: e in lib.trash && lib.folders[x].tag == Some(e)))
      && (x in lib.jobs ==> (!IsLive(lib.jobs, x) <==> exists e :: e in lib.trash && lib.jobs[x].tag == Some(e)))
  {
    EmptyInv();
    RunKeepsInv(EmptyLibrary, cs);
    var lib := RunCommands(EmptyLibrary, cs);
    hide RunCommands, HangTogether, OwnsItsRoot, IdsBelow, IsUnder;
    AcyclicMeansNoCycle(lib.folders, x, x);
    hide Acyclic;
  }

  /** Jobs come from creating and go by purging; no other command loses or makes one. */
  lemma JobsAreConserved(lib: Library, c: Command)
    ensures
      var b := Apply(lib, c);
      match c
      case NewJob(parent, _) =>
        b.jobs.Keys == if CanHold(lib, parent) then lib.jobs.Keys + {lib.next} else lib.jobs.Keys
      case PurgeFrom(entries) =>
        if entries <= lib.trash.Keys then b.jobs.Keys == lib.jobs.Keys - JobsTaggedIn(lib.jobs, entries) else b == lib
      case _ => b.jobs.Keys == lib.jobs.Keys
  {
    hide AllKnown, ListsSelection, AreEntries, Deduped, ReorderOutcome, MoveOutcome;
  }

  // ---- the manual order ----

  ghost predicate OrdersMoved(t: Table, u: Table, ids: seq<nat>, dest: Option<nat>, n: nat) {
    forall p ::
      Siblings(u, p, n) == Without(Siblings(t, p, n), Members(ids)) + (if p == dest then LastOnes(ids) else [])
  }

  ghost predicate DenseWhereMoved(t: Table, u: Table, ids: seq<nat>, dest: Option<nat>, n: nat) {
    Dense(u, dest, n) && forall x :: x in ids && x in t ==> Dense(u, t[x].parent, n)
  }

  ghost predicate OthersKeepParent(t: Table, u: Table, ids: seq<nat>) {
    forall x :: x in t && x !in ids ==> x in u && u[x].parent == t[x].parent
  }

  /** What a move makes of one table. */
  ghost predicate IsOrderlyMove(t: Table, u: Table, ids: seq<nat>, dest: Option<nat>, n: nat) {
    OrdersMoved(t, u, ids, dest, n) && DenseWhereMoved(t, u, ids, dest, n) && OthersKeepParent(t, u, ids)
  }

  /** What a move does to the order under `p`. */
  lemma MovedUnder(t: Table, ids: seq<nat>, dest: Option<nat>, n: nat, p: Option<nat>)
    requires AllIn(t, ids) && forall k :: 0 <= k < |ids| ==> ids[k] < n && IsLive(t, ids[k])
    ensures
      var u := MoveRows(t, ids, dest, n);
      && Siblings(u, p, n) == Without(Siblings(t, p, n), Members(ids)) + (if p == dest then LastOnes(ids) else [])
      && (p in {dest} + ParentsOf(t, ids) ==> Dense(u, p, n))
  {
    var start := NextPosition(t, dest, n);
    var v := PlaceRows(t, ids, dest, start, |ids|);
    if p == dest { PlacedInOrder(t, ids, dest, n); } else { LeftInOrder(t, ids, dest, start, n, p); }
    hide PlaceRows, NextPosition, Siblings, Dense, Reindex, Without, ParentsOf, AllIn;
    ReindexKeepsOrder(v, {dest} + ParentsOf(t, ids), n, p);
  }

  lemma UnmovedKeepsParent(t: Table, ids: seq<nat>, dest: Option<nat>, n: nat, x: nat)
    requires AllIn(t, ids) && x in t && x !in ids
    ensures MoveRows(t, ids, dest, n)[x].parent == t[x].parent
  {
    var start := NextPosition(t, dest, n);
    PlacedRows(t, ids, dest, start, |ids|);
    assert ids[..|ids|] == ids;
    var v := PlaceRows(t, ids, dest, start, |ids|);
    hide PlaceRows, NextPosition, Reindex, ParentsOf, AllIn, ArePlaced;
    PlacedRow(t, v, ids, dest, start, x);
    ReindexKeepsParent(v, {dest} + ParentsOf(t, ids), n, x);
  }

  lemma MoveRowsInOrder(t: Table, ids: seq<nat>, dest: Option<nat>, n: nat)
    requires AllIn(t, ids) && AllLive(t, ids) && IdsBelow(t, n)
    ensures IsOrderlyMove(t, MoveRows(t, ids, dest, n), ids, dest, n)
  {
    assert forall k :: 0 <= k < |ids| ==> ids[k] < n && IsLive(t, ids[k]);
    hide Siblings, Dense, MoveRows, Without, IdsBelow, AllLive, AllIn, Distinct;
    var u := MoveRows(t, ids, dest, n);
    forall p
      ensures Siblings(u, p, n) == Without(Siblings(t, p, n), Members(ids)) + (if p == dest then LastOnes(ids) else [])
    {
      MovedUnder(t, ids, dest, n, p);
    }
    assert OrdersMoved(t, u, ids, dest, n);
    hide OrdersMoved;
    DenseAfterMove(t, ids, dest, n);
    forall x | x in t && x !in ids ensures x in u && u[x].parent == t[x].parent {
      UnmovedKeepsParent(t, ids, dest, n, x);
    }
  }

  lemma DenseAfterMove(t: Table, ids: seq<nat>, dest: Option<nat>, n: nat)
    requires AllIn(t, ids) && forall k :: 0 <= k < |ids| ==> ids[k] < n && IsLive(t, ids[k])
    ensures DenseWhereMoved(t, MoveRows(t, ids, dest, n), ids, dest, n)
  {
    hide Siblings, Dense, MoveRows, Without, Distinct;
    var u := MoveRows(t, ids, dest, n);
    MovedUnder(t, ids, dest, n, dest);
    forall x | x in ids && x in t ensures Dense(u, t[x].parent, n) {
      var k :| 0 <= k < |ids| && ids[k] == x;
      assert t[x].parent in ParentsOf(t, ids);
      MovedUnder(t, ids, dest, n, t[x].parent);
    }
  }

  lemma ReindexKeepsParent(t: Table, ps: set<Option<nat>>, n: nat, x: nat)
    requires x in t
    ensures Reindex(t, ps, n)[x].parent == t[x].parent
  {
    hide Siblings;
  }

  /** A move: the outermost items of the selection go to the end of the destination in the
      order of the request, each where it was last named; every other order stays as it was,
      without them; each parent involved has positions 0, 1, and so on; nested items keep
      their parent. A rejected move changes nothing. */
  lemma MoveKeepsOrder(lib: Library, items: seq<Item>, dest: Option<nat>)
    requires Inv(lib)
    ensures MoveOutcome(lib, items, dest) != Done ==> MoveSelection(lib, items, dest) == lib
    ensures MoveOutcome(lib, items, dest) == Done && items != [] ==>
      var b := MoveSelection(lib, items, dest);
      && IsOrderlyMove(lib.folders, b.folders, MovedFolders(lib, items), dest, lib.next)
      && IsOrderlyMove(lib.jobs, b.jobs, MovedJobs(lib, items), dest, lib.next)
  {
    hide FolderIds, JobIds, IsOrderlyMove, MoveRows, Distinct, AllLive;
    if MoveOutcome(lib, items, dest) == Done && items != [] {
      MovedAreLive(lib, items);
      InvIds(lib);
      hide Inv, MoveOutcome, Outermost, Uncovered, IdsBelow;
      MoveRowsInOrder(lib.folders, MovedFolders(lib, items), dest, lib.next);
      MoveRowsInOrder(lib.jobs, MovedJobs(lib, items), dest, lib.next);
    }
  }

  lemma NumberedRow(t: Table, u: Table, ids: seq<nat>, id: nat)
    requires Numbered(t, u, ids, |ids|)
    ensures IsLive(u, id) == IsLive(t, id)
    ensures id in t ==> u[id].parent == t[id].parent && (id !in ids ==> u[id] == t[id])
  {
    assert ids[..|ids|] == ids;
    if id in ids { var k :| 0 <= k < |ids| && ids[k] == id; }
  }

  lemma OrderAsNumbered(t: Table, u: Table, parent: Option<nat>, n: nat, ids: seq<nat>)
    requires Numbered(t, u, ids, |ids|) && IsOrderOf(t, parent, n, ids)
    ensures Siblings(u, parent, n) == ids && Dense(u, parent, n)
  {
    hide ChildIds, Siblings;
    forall i: nat, j: nat | i < j < |ids| ensures PositionOrder(u)(ids[i], ids[j]) {
      assert ids[i] in t && ids[j] in t;
    }
    forall k: nat | k < |ids| ensures ids[k] in u && u[ids[k]].position == k {
      assert ids[k] in t;
    }
    forall id: nat ensures id in ids <==> id < n && IsLive(u, id) && u[id].parent == parent {
      NumberedRow(t, u, ids, id);
    }
    hide Numbered;
    SiblingsAre(u, parent, n, ids);
  }

  lemma OthersAsBefore(t: Table, u: Table, parent: Option<nat>, n: nat, ids: seq<nat>, p: Option<nat>)
    requires Numbered(t, u, ids, |ids|) && IsOrderOf(t, parent, n, ids) && p != parent
    ensures Siblings(u, p, n) == Siblings(t, p, n)
  {
    hide ChildIds, Siblings;
    forall id: nat
      ensures IsLive(u, id) == IsLive(t, id)
      ensures id in t ==> u[id].parent == t[id].parent && (t[id].parent == p && IsLive(t, id) ==> u[id] == t[id])
    {
      NumberedRow(t, u, ids, id);
    }
    hide Numbered, Without;
    OrderAfterLoss(t, u, p, n, {});
    WithoutNothing(Siblings(t, p, n), {});
  }

  /** Reordering makes the requested order the manual one, densely numbered, and touches no
      other parent. */
  lemma ReorderTakesEffect(t: Table, parent: Option<nat>, n: nat, ids: seq<nat>)
    requires IsOrderOf(t, parent, n, ids)
    ensures AllIn(t, ids)
    ensures
      var u := NumberRows(t, ids, |ids|);
      Siblings(u, parent, n) == ids && Dense(u, parent, n) &&
      forall p :: p != parent ==> Siblings(u, p, n) == Siblings(t, p, n)
  {
    ChildrenAreIn(t, parent, n, ids);
    NumberedRows(t, ids, |ids|);
    hide ChildIds, NumberRows, Siblings, Numbered, Dense;
    var u := NumberRows(t, ids, |ids|);
    OrderAsNumbered(t, u, parent, n, ids);
    forall p | p != parent ensures Siblings(u, p, n) == Siblings(t, p, n) {
      OthersAsBefore(t, u, parent, n, ids, p);
    }
  }

  lemma {:induction false} NumberedRows(t: Table, ids: seq<nat>, k: nat)
    requires AllIn(t, ids) && Distinct(ids) && k <= |ids|
    ensures Numbered(t, NumberRows(t, ids, k), ids, k)
  {
    hide Numbered;
    if k == 0 {
      NothingNumbered(t, ids);
    } else {
      NumberedRows(t, ids, k - 1);
      NumberOneMore(t, NumberRows(t, ids, k - 1), ids, k - 1);
    }
  }

  // ---- a folder without its contents ----

  lemma EmptiedOrder(t: Table, f: nat, p: Option<nat>, n: nat)
    requires p != Some(f)
    ensures Siblings(EmptyInto(t, f, p, n), p, n) == Siblings(t, p, n) + Siblings(t, Some(f), n)
  {
    var ids := Siblings(t, Some(f), n);
    SiblingsAreIn(t, Some(f), n);
    SiblingsSorted(t, Some(f), n);
    hide Siblings, Without;
    assert forall k :: 0 <= k < |ids| ==> ids[k] in ids;
    PlacedInOrder(t, ids, p, n);
    LastOnesOfDistinct(ids);
    WithoutNothing(Siblings(t, p, n), Members(ids));
  }

  lemma {:induction false} WithoutFromFront(xs: seq<nat>, ys: seq<nat>, gone: set<nat>)
    requires forall y :: y in ys ==> y !in gone
    ensures Without(xs + ys, gone) == Without(xs, gone) + ys
  {
    if xs == [] {
      assert xs + ys == ys;
      WithoutNothing(ys, gone);
    } else {
      assert (xs + ys)[1..] == xs[1..] + ys;
      WithoutFromFront(xs[1..], ys, gone);
    }
  }

  /** What deleting a folder alone makes of the folders. */
  function FoldersWithout(t: Table, f: nat, p: Option<nat>, n: nat): Table
    requires f in t
  {
    var v := EmptyInto(t, f, p, n);
    Reindex(v[f := TagRow(v[f], n)], {p}, n)
  }

  function JobsWithout(t: Table, f: nat, p: Option<nat>, n: nat): Table { Reindex(EmptyInto(t, f, p, n), {p}, n) }

  lemma FoldersWithoutOrder(t: Table, f: nat, p: Option<nat>, n: nat)
    requires f in t && p != Some(f) && t[f].parent != Some(f)
    ensures Siblings(FoldersWithout(t, f, p, n), p, n) == Without(Siblings(t, p, n), {f}) + Siblings(t, Some(f), n)
    ensures Dense(FoldersWithout(t, f, p, n), p, n)
  {
    hide Siblings, Without, Dense, EmptyInto, Reindex;
    EmptiedOrder(t, f, p, n);
    var v := EmptyInto(t, f, p, n);
    var w := v[f := TagRow(v[f], n)];
    OrderAfterLoss(v, w, p, n, {f});
    WithoutFromFront(Siblings(t, p, n), Siblings(t, Some(f), n), {f});
    ReindexKeepsOrder(w, {p}, n, p);
  }

  lemma JobsWithoutOrder(t: Table, f: nat, p: Option<nat>, n: nat)
    requires p != Some(f)
    ensures Siblings(JobsWithout(t, f, p, n), p, n) == Siblings(t, p, n) + Siblings(t, Some(f), n)
    ensures Dense(JobsWithout(t, f, p, n), p, n)
  {
    hide Siblings, Dense, EmptyInto, Reindex;
    EmptiedOrder(t, f, p, n);
    ReindexKeepsOrder(EmptyInto(t, f, p, n), {p}, n, p);
  }

  lemma WithoutKeepsLife(t: Table, f: nat, p: Option<nat>, n: nat, x: nat)
    ensures f in t && x != f ==> IsLive(FoldersWithout(t, f, p, n), x) == IsLive(t, x)
    ensures IsLive(JobsWithout(t, f, p, n), x) == IsLive(t, x)
  {
    hide EmptyInto, Reindex;
    var v := EmptyInto(t, f, p, n);
    EmptyingKeepsLife(t, f, p, n, x);
    ReindexKeepsLife(v, {p}, n, x);
    if f in t { ReindexKeepsLife(v[f := TagRow(v[f], n)], {p}, n, x); }
  }

  lemma FolderOnlyTables(lib: Library, f: nat)
    requires f in lib.folders
    ensures TrashFolderOnly(lib, f).folders == FoldersWithout(lib.folders, f, lib.folders[f].parent, lib.next)
    ensures TrashFolderOnly(lib, f).jobs == JobsWithout(lib.jobs, f, lib.folders[f].parent, lib.next)
  {
    hide EmptyInto, Reindex;
  }

  /** Deleting a folder alone: its folders and its jobs follow, in their order, what was in
      its parent, and nothing but the folder is gone. */
  lemma FolderOnlyKeepsContents(lib: Library, f: nat)
    requires Inv(lib) && IsLive(lib.folders, f)
    ensures
      var b, p, n := TrashFolderOnly(lib, f), lib.folders[f].parent, lib.next;
      && Siblings(b.folders, p, n) == Without(Siblings(lib.folders, p, n), {f}) + Siblings(lib.folders, Some(f), n)
      && Siblings(b.jobs, p, n) == Siblings(lib.jobs, p, n) + Siblings(lib.jobs, Some(f), n)
      && Dense(b.folders, p, n) && Dense(b.jobs, p, n)
      && (forall x :: x != f ==> IsLive(b.folders, x) == IsLive(lib.folders, x))
      && (forall x :: IsLive(b.jobs, x) == IsLive(lib.jobs, x))
  {
    hide Inv, Siblings, Without, Dense, TrashFolderOnly, FoldersWithout, JobsWithout;
    var p, n := lib.folders[f].parent, lib.next;
    NotOwnParent(lib, f);
    FolderOnlyTables(lib, f);
    FoldersWithoutOrder(lib.folders, f, p, n);
    JobsWithoutOrder(lib.jobs, f, p, n);
    forall x
      ensures x != f ==> IsLive(TrashFolderOnly(lib, f).folders, x) == IsLive(lib.folders, x)
      ensures IsLive(TrashFolderOnly(lib, f).jobs, x) == IsLive(lib.jobs, x)
    {
      WithoutKeepsLife(lib.folders, f, p, n, x);
      WithoutKeepsLife(lib.jobs, f, p, n, x);
    }
  }

  lemma EmptyingKeepsLife(t: Table, f: nat, p: Option<nat>, n: nat, x: nat)
    ensures IsLive(EmptyInto(t, f, p, n), x) == IsLive(t, x)
  {
    MovedUpRows(t, f, p, n);
    hide EmptyInto, Siblings;
  }

  lemma ReindexKeepsLife(t: Table, ps: set<Option<nat>>, n: nat, x: nat)
    ensures IsLive(Reindex(t, ps, n), x) == IsLive(t, x)
  {
    hide Siblings;
  }

  // ---- restoring into a folder that comes back itself ----

  /** Under a parent that comes back in the same call, restored roots are numbered from 0,
      whatever positions the parent's own children bring back. */
  lemma RestoredParentCountsFromZero(lib: Library, es: seq<nat>, k: nat)
    requires Inv(lib) && AreEntries(lib, es) && k < |es|
    requires
      var target := TargetOf(lib.trash[es[k]], LiveAfter(lib, es));
      target.Some? && !IsLive(lib.folders, target.value)
    ensures
      var live := LiveAfter(lib, es);
      var entry := lib.trash[es[k]];
      PositionFor(lib, es, live, k) == PutUnder(lib, es, live, entry.kind, TargetOf(entry, live), k)
  {
    var entry := lib.trash[es[k]];
    var target := TargetOf(entry, LiveAfter(lib, es));
    var t := RootRows(lib, entry);
    forall x | IsLive(t, x) ensures t[x].parent != target {
      if t[x].parent == target { LiveRowsParent(lib, entry.kind, x); }
    }
    hide Inv;
    NothingBefore(t, target, lib.next);
  }

  /** Folder 0 holds the folders 1 and then 2. */
  function TwoInOne(): Library {
    Library(map[0 := Row(None, 0, 0, false, None), 1 := Row(Some(0), 0, 9, false, None),
                2 := Row(Some(0), 1, 5, false, None)], map[], map[], 3)
  }

  /** Folder 2 was deleted, then folder 0. */
  function BothGone(): Library {
    Library(map[0 := Row(None, 0, 0, true, Some(4)), 1 := Row(Some(0), 0, 9, true, Some(4)),
                2 := Row(Some(0), 1, 5, true, Some(3))],
            map[], map[3 := Entry(FolderEntry, 2, Some(0)), 4 := Entry(FolderEntry, 0, None)], 5)
  }

  lemma BothDeleted()
    ensures TrashFolder(TrashFolder(TwoInOne(), 2, {2}), 0, {0, 1}) == BothGone()
  {
    var a, b := TwoInOne(), TrashFolder(TwoInOne(), 2, {2});
    assert b.folders == a.folders[2 := Row(Some(0), 1, 5, true, Some(3))];
    var c := TrashFolder(b, 0, {0, 1});
    assert c.folders == BothGone().folders && c.jobs == BothGone().jobs && c.trash == BothGone().trash;
  }

  lemma BackTogether(u: Table)
    requires AreRestored(BothGone(), [4, 3], LiveAfter(BothGone(), [4, 3]), FolderEntry, 2, u)
    ensures u[0].parent.None? && u[1] == Row(Some(0), 0, 9, false, None) && u[2] == Row(Some(0), 0, 5, false, None)
    ensures u.Keys == {0, 1, 2}
  {
    var lib, es := BothGone(), [4, 3];
    var live := LiveAfter(lib, es);
    assert live == {0, 1, 2};
    NothingBefore(lib.folders, Some(0), lib.next);
    assert PutUnder(lib, es, live, FolderEntry, Some(0), 1) == 0;
    hide NextPosition, PutUnder;
    assert u[0] == RestoredRow(lib, es, live, FolderEntry, 0, 0);
    assert u[1] == RestoredRow(lib, es, live, FolderEntry, 0, 1);
    assert u[2] == RestoredRow(lib, es, live, FolderEntry, 1, 2);
  }

  lemma OrderBefore()
    ensures Siblings(TwoInOne().folders, Some(0), 3) == [1, 2]
  {
    hide Siblings;
    SiblingsAre(TwoInOne().folders, Some(0), 3, [1, 2]);
  }

  lemma OrderAfter(u: Table)
    requires u.Keys == {0, 1, 2} && u[0].parent.None?
    requires u[1] == Row(Some(0), 0, 9, false, None) && u[2] == Row(Some(0), 0, 5, false, None)
    ensures Siblings(u, Some(0), 5) == [2, 1]
  {
    hide Siblings;
    SiblingsAre(u, Some(0), 5, [2, 1]);
  }

  lemma BothAreEntries()
    ensures AreEntries(BothGone(), [4, 3])
  {
  }

  /** So restoring a folder together with a child deleted earlier need not append the child:
      2 stood behind 1, and comes back before it. */
  lemma RestoredChildCanComeFirst()
    ensures TrashFolder(TrashFolder(TwoInOne(), 2, {2}), 0, {0, 1}) == BothGone()
    ensures Siblings(TwoInOne().folders, Some(0), 3) == [1, 2]
    ensures AreEntries(BothGone(), [4, 3])
    ensures Siblings(Restore(BothGone(), [4, 3]).folders, Some(0), 5) == [2, 1]
  {
    hide TrashFolder, AreEntries, RestoreAll, Siblings, AreRestored, LiveAfter, Reindex, TargetsOf;
    BothDeleted();
    OrderBefore();
    BothAreEntries();
    var lib, es := BothGone(), [4, 3];
    var live := LiveAfter(lib, es);
    RestoredRows(lib, es, live, FolderEntry, 2);
    var u := RestoreAll(lib, es, live, 2).folders;
    BackTogether(u);
    OrderAfter(u);
    ReindexKeepsOrder(u, TargetsOf(lib, es, live, FolderEntry), 5, Some(0));
  }

  // ---- a selection deleted and restored ----

  /** `ids` names what a delete added to the trash, in any order, perhaps more than once. */
  ghost predicate NamesNewEntries(a: Library, b: Library, ids: seq<nat>) {
    forall e :: e in ids <==> e in b.trash && e !in a.trash
  }

  /** Deleting a selection, nested items included, comes down to its outermost items. */
  lemma DeletedSelection(lib: Library, items: seq<Item>, js: seq<nat>, fs: seq<nat>, ids: seq<nat>)
    requires Inv(lib) && AllKnown(lib, items) && ListsSelection(lib, items, js, fs)
    requires NamesNewEntries(lib, Apply(lib, DeleteAll(items, js, fs)), ids)
    ensures AllIn(lib.jobs, js) && AllIn(lib.folders, fs) && IsOutermost(lib, js, fs)
    ensures
      var b := DeleteItems(lib, js, fs);
      && Apply(lib, DeleteAll(items, js, fs)) == b && AreNewEntries(lib, b, Deduped(ids))
      && AreEntries(b, Deduped(ids)) && Apply(b, RestoreFrom(ids)) == Restore(b, Deduped(ids))
  {
    hide Inv, AllKnown, ListsSelection, IsOutermost, DeleteItems, Restore, Deduped, AllLive;
    ListedAreLive(lib, items, js, fs);
    ListedAreOutermost(lib, items, js, fs);
    assert Apply(lib, DeleteAll(items, js, fs)) == DeleteItems(lib, js, fs);
    DeleteShape(lib, js, fs);
    EntriesAreOld(lib);
    hide Apply, EntriesMatch, OnesTagged, SubtreesTagged, ContentsTagged;
    NamedAreNew(lib, DeleteItems(lib, js, fs), js, fs, ids);
    RestoresNamed(DeleteItems(lib, js, fs), ids);
  }

  lemma NamedAreNew(a: Library, b: Library, js: seq<nat>, fs: seq<nat>, ids: seq<nat>)
    requires EntriesMatch(a, b, js, fs) && NamesNewEntries(a, b, ids) && forall e :: e in a.trash ==> e < a.next
    ensures AreNewEntries(a, b, Deduped(ids))
  {
    hide Deduped;
    var es := Deduped(ids);
    assert forall k :: 0 <= k < |es| ==> es[k] in es;
  }

  lemma RestoresNamed(b: Library, ids: seq<nat>)
    requires AreEntries(b, Deduped(ids))
    ensures Apply(b, RestoreFrom(ids)) == Restore(b, Deduped(ids))
  {
    hide Deduped, AreEntries, Restore;
  }

  /** Whatever was selected: deleting it and restoring the entries that made brings back the
      same live rows under the same parents, and leaves the trash as it was. */
  lemma DeletedSelectionComesBack(lib: Library, items: seq<Item>, js: seq<nat>, fs: seq<nat>, ids: seq<nat>)
    requires Inv(lib) && AllKnown(lib, items) && ListsSelection(lib, items, js, fs)
    requires NamesNewEntries(lib, Apply(lib, DeleteAll(items, js, fs)), ids)
    ensures
      var c := Apply(Apply(lib, DeleteAll(items, js, fs)), RestoreFrom(ids));
      && c.trash == lib.trash && c.folders.Keys == lib.folders.Keys && c.jobs.Keys == lib.jobs.Keys
      && (forall x :: x in lib.folders ==> c.folders[x] == lib.folders[x].(position := c.folders[x].position))
      && (forall x :: x in lib.jobs ==> c.jobs[x] == lib.jobs[x].(position := c.jobs[x].position))
  {
    hide Inv, AllKnown, ListsSelection, IsOutermost, DeleteItems, Restore, Deduped, AllIn, Apply, AreNewEntries;
    DeletedSelection(lib, items, js, fs, ids);
    RestoreUndoesDelete(lib, js, fs, Deduped(ids));
  }

  /** And its order: inside a folder that was deleted it is the old one; elsewhere the
      restored rows follow the rows that stayed, in the order of the request. */
  lemma DeletedSelectionKeepsOrder(lib: Library, items: seq<Item>, js: seq<nat>, fs: seq<nat>, ids: seq<nat>,
                                   kind: Kind, p: Option<nat>)
    requires Inv(lib) && AllKnown(lib, items) && ListsSelection(lib, items, js, fs)
    requires NamesNewEntries(lib, Apply(lib, DeleteAll(items, js, fs)), ids) && CanHold(lib, p)
    ensures
      var b := Apply(lib, DeleteAll(items, js, fs));
      var t, es := RowsOf(lib, kind), Deduped(ids);
      Siblings(RowsOf(Apply(b, RestoreFrom(ids)), kind), p, b.next) ==
        if CanHold(b, p) then
          Without(Siblings(t, p, b.next), Gone(t, RowsOf(b, kind))) + RootsUnder(b, es, LiveAfter(b, es), kind, p, |es|)
        else Siblings(t, p, b.next)
  {
    hide Inv, AllKnown, ListsSelection, IsOutermost, DeleteItems, Restore;
    hide Deduped, AllIn, Apply, AreNewEntries, CanHold;
    hide Siblings, Without, RootsUnder, LiveAfter;
    DeletedSelection(lib, items, js, fs, ids);
    RestoredOrder(lib, js, fs, Deduped(ids), kind, p);
  }
}
