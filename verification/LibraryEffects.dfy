/** What the library commands do to the rows that are named, and to the others
    (server/app/library/service.py). */
module LibraryEffects {
  import opened Wrappers
  import opened Sorting
  import opened Forest
  import opened SiblingOrder
  import opened LibraryModel
  import opened LibraryTree
  import opened TrashInvariants
  import opened TrashRoundTrip
  import opened UndoDelete
  import opened LibraryCommands
  import opened LibraryTheorems

  // ---- creating ----

  lemma RowStandsLast(t: Table, parent: Option<nat>, tie: int, n: nat, p: Option<nat>)
    requires IdsBelow(t, n)
    ensures
      var u := t[n := NewRow(t, parent, tie, n)];
      Siblings(u, p, n + 1) == Siblings(t, p, n) + (if p == parent then [n] else [])
  {
    var u := t[n := NewRow(t, parent, tie, n)];
    var xs := Siblings(t, p, n);
    var ys := xs + (if p == parent then [n] else []);
    SiblingsSorted(t, p, n);
    hide Siblings, NextPosition;
    assert forall x :: x in xs ==> x < n && IsLive(t, x) && t[x].parent == p;
    forall i, j | 0 <= i < j < |ys| ensures PositionOrder(u)(ys[i], ys[j]) {
      assert ys[i] == xs[i] && xs[i] in xs;
      if j < |xs| { assert xs[j] in xs && PositionOrder(t)(xs[i], xs[j]); }
    }
    SiblingsAre(u, p, n + 1, ys);
  }

  /** `n` was put last under `parent`, live; every other order stays. */
  ghost predicate StandsLast(t: Table, u: Table, n: nat, parent: Option<nat>) {
    && IsLive(u, n) && u[n].parent == parent && (forall x :: x in t ==> x in u && u[x] == t[x])
    && forall p :: Siblings(u, p, n + 1) == Siblings(t, p, n) + (if p == parent then [n] else [])
  }

  lemma NewRowStandsLast(t: Table, parent: Option<nat>, tie: int, n: nat)
    requires IdsBelow(t, n)
    ensures StandsLast(t, t[n := NewRow(t, parent, tie, n)], n, parent)
  {
    hide Siblings, NextPosition;
    forall p { RowStandsLast(t, parent, tie, n, p); }
  }

  /** A new folder or job stands last under its parent; nothing else changes. */
  lemma CreatedStandsLast(lib: Library, parent: Option<nat>, tie: int)
    requires Inv(lib) && CanHold(lib, parent)
    ensures
      var a, b := Apply(lib, NewFolder(parent, tie)), Apply(lib, NewJob(parent, tie));
      && StandsLast(lib.folders, a.folders, lib.next, parent) && a.jobs == lib.jobs && a.trash == lib.trash
      && StandsLast(lib.jobs, b.jobs, lib.next, parent) && b.folders == lib.folders && b.trash == lib.trash
      && a.next == b.next == lib.next + 1
  {
    InvIds(lib);
    NewRowStandsLast(lib.folders, parent, tie, lib.next);
    NewRowStandsLast(lib.jobs, parent, tie, lib.next);
    hide Inv, StandsLast, NewRow, IdsBelow;
  }

  // ---- what a selection takes along ----

  lemma {:induction false} FolderIdsAre(items: seq<Item>, id: nat)
    ensures id in FolderIds(items) <==> FolderItem(id) in items
    ensures id in JobIds(items) <==> JobItem(id) in items
  {
    if items != [] {
      FolderIdsAre(items[..|items| - 1], id);
      assert items == items[..|items| - 1] + [items[|items| - 1]];
    }
  }

  /** Folder `x` is selected, or lies below a selected folder. */
  ghost predicate IsTaken(lib: Library, items: seq<Item>, x: nat) {
    exists a :: FolderItem(a) in items && IsUnder(lib.folders, x, a)
  }

  ghost predicate IsTakenFrom(lib: Library, items: seq<Item>, parent: Option<nat>) {
    parent.Some? && IsTaken(lib, items, parent.value)
  }

  /** Above every selected folder there is one that has no selected folder above it. */
  lemma {:induction false} TopAbove(lib: Library, items: seq<Item>, x: nat, rank: map<nat, nat>) returns (top: nat)
    requires Inv(lib) && AllKnown(lib, items) && FolderItem(x) in items && x in rank && Ranks(lib.folders, rank)
    ensures FolderItem(top) in items && IsLive(lib.folders, top) && IsUnder(lib.folders, x, top)
    ensures !IsTakenFrom(lib, items, lib.folders[top].parent)
    decreases rank[x]
  {
    KnownIsLive(lib, items, x);
    var parent := lib.folders[x].parent;
    if IsTakenFrom(lib, items, parent) {
      var a :| FolderItem(a) in items && IsUnder(lib.folders, parent.value, a);
      KnownIsLive(lib, items, a);
      InvHasLiveParents(lib);
      ParentRank(lib.folders, rank, parent.value, a);
      hide Inv, AllKnown, IsUnder, Ranks;
      top := TopAbove(lib, items, a, rank);
      UnderByParent(lib.folders, x, a);
      UnderIsTransitive(lib.folders, x, a, top);
    } else {
      top := x;
      UnderSelf(lib.folders, x);
    }
  }

  lemma KnownIsLive(lib: Library, items: seq<Item>, x: nat)
    requires AllKnown(lib, items)
    ensures FolderItem(x) in items ==> IsLive(lib.folders, x)
    ensures JobItem(x) in items ==> IsLive(lib.jobs, x)
  {
    FolderIdsAre(items, x);
    hide FolderIds, JobIds;
    if FolderItem(x) in items { var k :| 0 <= k < |FolderIds(items)| && FolderIds(items)[k] == x; }
    if JobItem(x) in items { var k :| 0 <= k < |JobIds(items)| && JobIds(items)[k] == x; }
  }

  lemma ParentRank(t: Table, rank: map<nat, nat>, p: nat, a: nat)
    requires Ranks(t, rank) && p in t && a in t && IsUnder(t, p, a)
    ensures p in rank && a in rank && rank[a] <= rank[p]
  {
    var n: nat :| Reaches(t, p, a, n);
    ReachesClimbs(t, rank, p, a, n);
  }

  // ---- deleting ----

  /** `fs` are the selected folders that have no selected folder above them. */
  ghost predicate AreTops(lib: Library, items: seq<Item>, fs: seq<nat>) {
    forall f :: f in fs <==>
      f in FolderIds(items) && !HasSelectedAbove(LiveRows(lib.folders), f, Members(FolderIds(items)))
  }

  /** A selected folder is one of them exactly when nothing takes its parent. */
  lemma TopIsListed(lib: Library, items: seq<Item>, fs: seq<nat>, f: nat)
    requires Inv(lib) && AllKnown(lib, items) && AreTops(lib, items, fs)
    requires f in lib.folders
    ensures f in fs <==> FolderItem(f) in items && !IsTakenFrom(lib, items, lib.folders[f].parent)
  {
    FolderIdsAre(items, f);
    KnownIsLive(lib, items, f);
    if FolderItem(f) in items { AboveMeansTaken(lib, items, f); }
    hide Inv, AllKnown, IsUnder, FolderIds, IsTaken, HasSelectedAbove;
  }

  lemma AboveMeansTaken(lib: Library, items: seq<Item>, f: nat)
    requires Inv(lib) && AllKnown(lib, items) && IsLive(lib.folders, f)
    ensures HasSelectedAbove(LiveRows(lib.folders), f, Members(FolderIds(items))) <==>
      IsTakenFrom(lib, items, lib.folders[f].parent)
  {
    InvHasLiveParents(lib);
    hide Inv, AllKnown, IsUnder, FolderIds;
    if lib.folders[f].parent.Some? {
      var p := lib.folders[f].parent.value;
      forall a
        ensures a in Members(FolderIds(items)) <==> FolderItem(a) in items
        ensures IsUnder(LiveRows(lib.folders), p, a) <==> IsUnder(lib.folders, p, a)
      {
        FolderIdsAre(items, a);
        LiveUnder(lib.folders, p, a);
      }
    }
  }

  /** A folder is taken exactly when it lies in the subtree of one of them. */
  lemma TakenMeansListed(lib: Library, items: seq<Item>, fs: seq<nat>, x: nat)
    requires Inv(lib) && AllKnown(lib, items) && AreTops(lib, items, fs) && IsLive(lib.folders, x)
    ensures IsTaken(lib, items, x) <==> exists i: nat :: i < |fs| && x in Subtree(lib.folders, fs[i])
  {
    if IsTaken(lib, items, x) {
      var a :| FolderItem(a) in items && IsUnder(lib.folders, x, a);
      KnownIsLive(lib, items, a);
      var rank :| Ranks(lib.folders, rank);
      var top := TopAbove(lib, items, a, rank);
      TopIsListed(lib, items, fs, top);
      UnderIsTransitive(lib.folders, x, a, top);
      var i :| 0 <= i < |fs| && fs[i] == top;
      hide Inv;
      assert x in Subtree(lib.folders, fs[i]);
    }
    if i: nat :| i < |fs| && x in Subtree(lib.folders, fs[i]) {
      assert fs[i] in fs;
      FolderIdsAre(items, fs[i]);
      hide Inv, AllKnown, FolderIds, HasSelectedAbove;
    }
  }

  ghost predicate IsInOneOf(lib: Library, x: nat, fs: seq<nat>) {
    exists i: nat :: i < |fs| && IsInside(lib.jobs, x, Subtree(lib.folders, fs[i]))
  }

  /** A job is in one of those subtrees exactly when its parent is taken. */
  lemma InsideMeansTaken(lib: Library, items: seq<Item>, fs: seq<nat>, x: nat)
    requires Inv(lib) && AllKnown(lib, items) && AreTops(lib, items, fs) && IsLive(lib.jobs, x)
    ensures IsInOneOf(lib, x, fs) <==> IsTakenFrom(lib, items, lib.jobs[x].parent)
  {
    var parent := lib.jobs[x].parent;
    LiveJobHasParent(lib, x);
    if parent.Some? { TakenMeansListed(lib, items, fs, parent.value); }
    hide Inv, AllKnown, AreTops, IsTaken, Subtree, IsUnder;
    if IsInOneOf(lib, x, fs) {
      var i: nat :| i < |fs| && IsInside(lib.jobs, x, Subtree(lib.folders, fs[i]));
      assert parent.value in Subtree(lib.folders, fs[i]);
    }
    if IsTakenFrom(lib, items, parent) {
      var i: nat :| i < |fs| && parent.value in Subtree(lib.folders, fs[i]);
      assert IsInside(lib.jobs, x, Subtree(lib.folders, fs[i]));
    }
  }

  lemma CoveredMeansInside(lib: Library, fs: seq<nat>, x: nat)
    requires Inv(lib) && IsLive(lib.jobs, x)
    ensures IsCovered(LiveRows(lib.folders), lib.jobs, x, fs) <==> IsInOneOf(lib, x, fs)
  {
    InvHasLiveParents(lib);
    LiveJobHasParent(lib, x);
    hide Inv, IsUnder;
    if lib.jobs[x].parent.Some? {
      var p := lib.jobs[x].parent.value;
      forall f ensures IsUnder(LiveRows(lib.folders), p, f) <==> p in Subtree(lib.folders, f) {
        LiveUnder(lib.folders, p, f);
      }
      assert forall i: nat :: i < |fs| ==>
        IsInside(lib.jobs, x, Subtree(lib.folders, fs[i])) == (p in Subtree(lib.folders, fs[i]));
    }
  }

  /** A job is taken exactly when it is listed or in the subtree of a listed folder. */
  lemma JobTakenMeansListed(lib: Library, items: seq<Item>, js: seq<nat>, fs: seq<nat>, x: nat)
    requires Inv(lib) && AllKnown(lib, items) && ListsSelection(lib, items, js, fs) && IsLive(lib.jobs, x)
    ensures JobItem(x) in items || IsTakenFrom(lib, items, lib.jobs[x].parent) <==> x in js || IsInOneOf(lib, x, fs)
  {
    FolderIdsAre(items, x);
    assert AreTops(lib, items, fs);
    InsideMeansTaken(lib, items, fs, x);
    CoveredMeansInside(lib, fs, x);
    hide Inv, AllKnown, IsTaken, IsInOneOf, HasSelectedAbove, IsCovered, FolderIds, JobIds;
  }

  lemma LiveJobHasParent(lib: Library, x: nat)
    requires Inv(lib) && IsLive(lib.jobs, x)
    ensures CanHold(lib, lib.jobs[x].parent)
  {
    hide Acyclic, HangTogether, OwnsItsRoot, IdsBelow;
  }

  /** Deleting a selection: a folder goes into the trash exactly when it is selected or below a
      selected folder, a job when it is selected or in such a folder. Nothing else changes. */
  lemma DeleteTakesTheSelection(lib: Library, items: seq<Item>, js: seq<nat>, fs: seq<nat>, x: nat)
    requires Inv(lib) && AllKnown(lib, items) && ListsSelection(lib, items, js, fs)
    ensures
      var b := Apply(lib, DeleteAll(items, js, fs));
      && (IsLive(lib.folders, x) ==>
           if IsTaken(lib, items, x) then x in b.folders && b.folders[x].deleted
           else x in b.folders && b.folders[x] == lib.folders[x])
      && (IsLive(lib.jobs, x) ==>
           if JobItem(x) in items || IsTakenFrom(lib, items, lib.jobs[x].parent) then x in b.jobs && b.jobs[x].deleted
           else x in b.jobs && b.jobs[x] == lib.jobs[x])
  {
    DeletedTables(lib, items, js, fs);
    hide Apply, Inv, AllKnown, ListsSelection, IsTaken, IsTakenFrom, SubtreesTagged, ContentsTagged, OnesTagged;
    var c, b := TrashJobs(lib, js, |js|), Apply(lib, DeleteAll(items, js, fs));
    hide TrashJobs;
    if IsLive(lib.folders, x) {
      assert AreTops(lib, items, fs) by { ListedAreTops(lib, items, js, fs); }
      TakenMeansListed(lib, items, fs, x);
      FolderTagged(lib.folders, b.folders, fs, c.next, x);
    }
    if IsLive(lib.jobs, x) {
      JobTakenMeansListed(lib, items, js, fs, x);
      JobTagged(lib, c.jobs, b.jobs, js, fs, c.next, x);
    }
  }

  lemma ListedAreTops(lib: Library, items: seq<Item>, js: seq<nat>, fs: seq<nat>)
    requires ListsSelection(lib, items, js, fs)
    ensures AreTops(lib, items, fs)
  {
  }

  /** The tables after a delete, row by row. */
  lemma DeletedTables(lib: Library, items: seq<Item>, js: seq<nat>, fs: seq<nat>)
    requires Inv(lib) && AllKnown(lib, items) && ListsSelection(lib, items, js, fs)
    ensures AllIn(lib.jobs, js) && forall x :: x in js ==> !IsInOneOf(lib, x, fs)
    ensures
      var c, b := TrashJobs(lib, js, |js|), Apply(lib, DeleteAll(items, js, fs));
      && OnesTagged(lib.jobs, c.jobs, js, lib.next, |js|)
      && SubtreesTagged(lib.folders, b.folders, fs, c.next, |fs|)
      && ContentsTagged(lib.folders, c.jobs, b.jobs, fs, c.next, |fs|)
  {
    ListedAreLive(lib, items, js, fs);
    ListedAreOutermost(lib, items, js, fs);
    DeleteShape(lib, js, fs);
    hide Inv, DeleteItems, TrashJobs, AllKnown, ListsSelection, EntriesMatch, Subtree, Apart;
    hide SubtreesTagged, ContentsTagged, OnesTagged;
  }

  lemma FolderTagged(t: Table, u: Table, fs: seq<nat>, first: nat, x: nat)
    requires SubtreesTagged(t, u, fs, first, |fs|) && IsLive(t, x)
    ensures x in u
    ensures if exists i: nat :: i < |fs| && x in Subtree(t, fs[i]) then u[x].deleted else u[x] == t[x]
  {
    hide Subtree;
  }

  lemma JobTagged(lib: Library, c: Table, b: Table, js: seq<nat>, fs: seq<nat>, first: nat, x: nat)
    requires OnesTagged(lib.jobs, c, js, lib.next, |js|) && ContentsTagged(lib.folders, c, b, fs, first, |fs|)
    requires IsLive(lib.jobs, x) && (x in js ==> !IsInOneOf(lib, x, fs))
    ensures x in b && if x in js || IsInOneOf(lib, x, fs) then b[x].deleted else b[x] == lib.jobs[x]
  {
    assert js[..|js|] == js;
    hide Subtree;
    if x in js {
      var k :| 0 <= k < |js| && js[k] == x;
      assert c[x] == TagRow(lib.jobs[x], lib.next + k);
    } else {
      assert c[x] == lib.jobs[x];
      assert forall i: nat :: i < |fs| ==>
        IsInside(c, x, Subtree(lib.folders, fs[i])) == IsInside(lib.jobs, x, Subtree(lib.folders, fs[i]));
    }
  }

  // ---- moving ----

  lemma {:induction false} OutermostMembers(t: Table, ids: seq<nat>, selected: set<nat>, k: nat, id: nat)
    requires k <= |ids|
    ensures id in Outermost(t, ids, selected, k) <==> id in ids[..k] && !HasSelectedAbove(t, id, selected)
  {
    if k > 0 {
      OutermostMembers(t, ids, selected, k - 1, id);
      assert ids[..k] == ids[..k - 1] + [ids[k - 1]];
      hide HasSelectedAbove;
    }
  }

  lemma {:induction false} UncoveredMembers(t: Table, jobs: Table, ids: seq<nat>, tops: seq<nat>, k: nat, id: nat)
    requires k <= |ids|
    ensures id in Uncovered(t, jobs, ids, tops, k) <==> id in ids[..k] && !IsCovered(t, jobs, id, tops)
  {
    if k > 0 {
      UncoveredMembers(t, jobs, ids, tops, k - 1, id);
      assert ids[..k] == ids[..k - 1] + [ids[k - 1]];
      hide IsCovered;
    }
  }

  lemma MovedFoldersAreTops(lib: Library, items: seq<Item>)
    ensures AreTops(lib, items, MovedFolders(lib, items))
  {
    var ids := FolderIds(items);
    assert ids[..|ids|] == ids;
    hide HasSelectedAbove, Outermost, FolderIds;
    forall f ensures f in MovedFolders(lib, items) <==>
                     f in ids && !HasSelectedAbove(LiveRows(lib.folders), f, Members(ids)) {
      OutermostMembers(LiveRows(lib.folders), ids, Members(ids), |ids|, f);
    }
  }

  /** Which jobs move: those that are selected and that no selected folder takes along. */
  lemma MovedJobsAre(lib: Library, items: seq<Item>, x: nat)
    requires Inv(lib) && AllKnown(lib, items) && x in lib.jobs
    ensures x in MovedJobs(lib, items) <==> JobItem(x) in items && !IsTakenFrom(lib, items, lib.jobs[x].parent)
  {
    var ids, tops := JobIds(items), MovedFolders(lib, items);
    assert ids[..|ids|] == ids;
    UncoveredMembers(LiveRows(lib.folders), lib.jobs, ids, tops, |ids|, x);
    FolderIdsAre(items, x);
    KnownIsLive(lib, items, x);
    MovedFoldersAreTops(lib, items);
    hide Inv, AllKnown, JobIds, FolderIds, MovedFolders, IsCovered, AreTops, IsInOneOf, IsTaken, Uncovered;
    if JobItem(x) in items {
      InsideMeansTaken(lib, items, tops, x);
      CoveredMeansInside(lib, tops, x);
    }
  }

  /** A move is accepted exactly when it names nothing but live folders and jobs, and its
      destination is the top level or a live folder that the selection does not take along. */
  lemma MoveIsAcceptedExactlyWhen(lib: Library, items: seq<Item>, dest: Option<nat>)
    requires Inv(lib) && items != []
    ensures MoveOutcome(lib, items, dest).Done? <==>
      && (forall i :: 0 <= i < |items| ==>
           match items[i]
           case FolderItem(f) => IsLive(lib.folders, f)
           case JobItem(j) => IsLive(lib.jobs, j)
           case OtherItem => false)
      && (dest.Some? ==> IsLive(lib.folders, dest.value) && !IsTaken(lib, items, dest.value))
  {
    InvHasLiveParents(lib);
    hide Inv, IsUnder, FolderIds, JobIds;
    if dest.Some? && IsLive(lib.folders, dest.value) {
      forall f
        ensures f in FolderIds(items) <==> FolderItem(f) in items
        ensures IsUnder(LiveRows(lib.folders), dest.value, f) <==> IsUnder(lib.folders, dest.value, f)
      {
        FolderIdsAre(items, f);
        LiveUnder(lib.folders, dest.value, f);
      }
    }
    KnownExactlyWhen(lib, items);
    hide AllKnown;
  }

  lemma KnownExactlyWhen(lib: Library, items: seq<Item>)
    ensures AllKnown(lib, items) && OtherItem !in items <==>
      forall i :: 0 <= i < |items| ==>
        match items[i]
        case FolderItem(f) => IsLive(lib.folders, f)
        case JobItem(j) => IsLive(lib.jobs, j)
        case OtherItem => false
  {
    var fs, js := FolderIds(items), JobIds(items);
    hide FolderIds, JobIds;
    forall id ensures (id in fs <==> FolderItem(id) in items) && (id in js <==> JobItem(id) in items) {
      FolderIdsAre(items, id);
    }
    assert forall k :: 0 <= k < |fs| ==> fs[k] in fs;
    assert forall k :: 0 <= k < |js| ==> js[k] in js;
    assert forall i :: 0 <= i < |items| ==> items[i] in items;
    if AllKnown(lib, items) && OtherItem !in items {
      forall i | 0 <= i < |items|
        ensures items[i].FolderItem? ==> IsLive(lib.folders, items[i].id)
        ensures items[i].JobItem? ==> IsLive(lib.jobs, items[i].id)
      {
        KnownIsLive(lib, items, if items[i].OtherItem? then 0 else items[i].id);
      }
    }
  }

  /** `a` was hung under `dest` if `moved`, and stays otherwise; only its position may differ besides. */
  predicate IsRowAfterMove(a: Row, b: Row, moved: bool, dest: Option<nat>) {
    b.deleted == a.deleted && b.tag == a.tag && b.parent == if moved then dest else a.parent
  }

  lemma MovedRow(t: Table, ids: seq<nat>, dest: Option<nat>, n: nat, x: nat)
    requires AllIn(t, ids) && AllLive(t, ids) && x in t
    ensures MoveRows(t, ids, dest, n).Keys == t.Keys
    ensures IsRowAfterMove(t[x], MoveRows(t, ids, dest, n)[x], x in ids, dest)
  {
    MoveIsRehanging(t, ids, dest, n);
    hide MoveRows;
  }

  /** An accepted move: the selected folders and jobs go to the destination, except those that a
      selected folder takes along; those, and everything that is not selected, stay where
      they are. Nothing goes into the trash or out of it. */
  lemma MoveTakesTheSelection(lib: Library, items: seq<Item>, dest: Option<nat>, x: nat)
    requires Inv(lib) && items != [] && MoveOutcome(lib, items, dest).Done?
    ensures
      var b := Apply(lib, MoveTo(items, dest));
      && b.trash == lib.trash && b.folders.Keys == lib.folders.Keys && b.jobs.Keys == lib.jobs.Keys
      && (x in lib.folders ==>
           IsRowAfterMove(lib.folders[x], b.folders[x],
                          FolderItem(x) in items && !IsTakenFrom(lib, items, lib.folders[x].parent), dest))
      && (x in lib.jobs ==>
           IsRowAfterMove(lib.jobs[x], b.jobs[x],
                          JobItem(x) in items && !IsTakenFrom(lib, items, lib.jobs[x].parent), dest))
  {
    assert AllKnown(lib, items);
    MovedAreLive(lib, items);
    var fs, js := MovedFolders(lib, items), MovedJobs(lib, items);
    assert Apply(lib, MoveTo(items, dest)) == MoveItems(lib, fs, js, dest);
    MovedFoldersAreTops(lib, items);
    hide Inv, AllKnown, AreTops, MovedFolders, MovedJobs, IsTaken, MoveRows, MoveOutcome, Apply, IsRowAfterMove;
    if x in lib.folders {
      TopIsListed(lib, items, fs, x);
      MovedRow(lib.folders, fs, dest, lib.next, x);
    }
    if x in lib.jobs {
      MovedJobsAre(lib, items, x);
      MovedRow(lib.jobs, js, dest, lib.next, x);
    }
  }

  // ---- restoring ----

  lemma RestoresThem(lib: Library, ids: seq<nat>)
    requires forall e :: e in ids ==> e in lib.trash
    ensures AreEntries(lib, Deduped(ids)) && Apply(lib, RestoreFrom(ids)) == Restore(lib, Deduped(ids))
    ensures forall e :: e in Deduped(ids) <==> e in ids
  {
    var es := Deduped(ids);
    hide Deduped;
    assert forall k :: 0 <= k < |es| ==> es[k] in es;
  }

  predicate IsTagged(row: Row, ids: seq<nat>) { row.tag.Some? && row.tag.value in ids }

  /** Row by row: what carries a restored tag is live again, under its old parent unless it is the
      root of its entry and that parent is not there; nothing else moves. */
  lemma RestoredRowIs(lib: Library, es: seq<nat>, kind: Kind, x: nat)
    requires Inv(lib) && AreEntries(lib, es) && x in RowsOf(lib, kind)
    ensures x in RowsOf(Restore(lib, es), kind)
    ensures
      var a, b := RowsOf(lib, kind)[x], RowsOf(Restore(lib, es), kind)[x];
      if IsTagged(a, es) then
        && !b.deleted && b.tag.None?
        && b.parent == (if a.parent.Some? && a.parent.value !in LiveAfter(lib, es) then None else a.parent)
      else b.deleted == a.deleted && b.tag == a.tag && b.parent == a.parent
  {
    var live := LiveAfter(lib, es);
    RestoredRows(lib, es, live, kind, |es|);
    var t, u := RowsOf(lib, kind), RowsOf(RestoreAll(lib, es, live, |es|), kind);
    var ps := TargetsOf(lib, es, live, kind);
    assert RowsOf(Restore(lib, es), kind) == Reindex(u, ps, lib.next);
    hide Restore, RestoreAll, TargetsOf, LiveAfter, Inv;
    ReindexKeepsParent(u, ps, lib.next, x);
    ReindexedRow(u, ps, lib.next, x);
    hide Reindex;
    if IsTagged(t[x], es) {
      var i: nat :| i < |es| && es[i] == t[x].tag.value;
      RestoredParent(lib, es, kind, i, x);
    }
  }

  lemma ReindexedRow(t: Table, ps: set<Option<nat>>, n: nat, x: nat)
    requires x in t
    ensures Reindex(t, ps, n)[x].deleted == t[x].deleted && Reindex(t, ps, n)[x].tag == t[x].tag
  {
    hide Siblings;
  }

  lemma RestoredParent(lib: Library, es: seq<nat>, kind: Kind, i: nat, x: nat)
    requires Inv(lib) && AreEntries(lib, es) && i < |es| && x in RowsOf(lib, kind)
    requires RowsOf(lib, kind)[x].tag == Some(es[i])
    ensures
      var a, b := RowsOf(lib, kind)[x], RestoredRow(lib, es, LiveAfter(lib, es), kind, i, x);
      && !b.deleted && b.tag.None?
      && b.parent == (if a.parent.Some? && a.parent.value !in LiveAfter(lib, es) then None else a.parent)
  {
    assert OwnsItsRoot(lib, es[i]);
    hide Acyclic, IdsBelow, PositionFor;
  }

  /** Restoring entries: exactly the rows that carry their tags are live again. Each goes back to
      its parent, or to the top level if that parent is not there. The entries are gone. */
  lemma RestoreBringsBack(lib: Library, ids: seq<nat>, kind: Kind, x: nat)
    requires Inv(lib) && x in RowsOf(lib, kind) && forall e :: e in ids ==> e in lib.trash
    ensures
      var b := Apply(lib, RestoreFrom(ids));
      && (forall e :: e in b.trash <==> e in lib.trash && e !in ids)
      && (forall e :: e in b.trash ==> b.trash[e] == lib.trash[e])
      && x in RowsOf(b, kind)
      && var row, now := RowsOf(lib, kind)[x], RowsOf(b, kind)[x];
         if IsTagged(row, ids) then
           !now.deleted && now.tag.None? && now.parent == if CanHold(b, row.parent) then row.parent else None
         else now.deleted == row.deleted && now.tag == row.tag && now.parent == row.parent
  {
    RestoresThem(lib, ids);
    var es := Deduped(ids);
    assert es[..|es|] == es;
    hide Deduped, Apply, Inv, RestoreAll, Reindex, TargetsOf, LiveAfter;
    RestoredRowIs(lib, es, kind, x);
    var row := RowsOf(lib, kind)[x];
    if row.parent.Some? { LiveAfterRestore(lib, es, row.parent.value); }
    assert Restore(lib, es).trash == RestoreAll(lib, es, LiveAfter(lib, es), |es|).trash;
    hide Restore;
  }

  lemma LiveAfterRestore(lib: Library, es: seq<nat>, p: nat)
    requires Inv(lib) && AreEntries(lib, es)
    ensures p in LiveAfter(lib, es) <==> IsLive(Restore(lib, es).folders, p)
  {
    if p in lib.folders {
      RestoredRowIs(lib, es, FolderEntry, p);
    } else {
      RestoreKeepsKeys(lib, es);
    }
    hide Restore, Inv;
  }

  lemma RestoreKeepsKeys(lib: Library, es: seq<nat>)
    requires AreEntries(lib, es)
    ensures Restore(lib, es).folders.Keys == lib.folders.Keys
  {
  }

  /** Every parent that a restored entry comes back to is numbered without gaps. */
  lemma RestoredParentsAreDense(lib: Library, ids: seq<nat>, e: nat)
    requires Inv(lib) && e in ids && forall d :: d in ids ==> d in lib.trash
    ensures
      var b, kind := Apply(lib, RestoreFrom(ids)), lib.trash[e].kind;
      && lib.trash[e].root in RowsOf(b, kind)
      && Dense(RowsOf(b, kind), RowsOf(b, kind)[lib.trash[e].root].parent, lib.next)
  {
    RestoresThem(lib, ids);
    var es, kind, x := Deduped(ids), lib.trash[e].kind, lib.trash[e].root;
    var live := LiveAfter(lib, es);
    var u, ps := RowsOf(RestoreAll(lib, es, live, |es|), kind), TargetsOf(lib, es, live, kind);
    assert RowsOf(Restore(lib, es), kind) == Reindex(u, ps, lib.next);
    assert OwnsItsRoot(lib, e);
    hide Deduped, Apply, Acyclic, HangTogether, IdsBelow, RestoreAll, Restore, Reindex, Dense;
    RestoredRowIs(lib, es, kind, x);
    var i :| 0 <= i < |es| && es[i] == e;
    ReindexKeepsOrder(u, ps, lib.next, TargetOf(lib.trash[es[i]], live));
  }

  // ---- purging ----

  /** Purging entries: they go, with exactly the rows that carry their tags. */
  lemma PurgeTakesTheEntries(lib: Library, entries: set<nat>)
    requires entries <= lib.trash.Keys
    ensures
      var b := Apply(lib, PurgeFrom(entries));
      && (forall e :: e in b.trash <==> e in lib.trash && e !in entries)
      && (forall e :: e in b.trash ==> b.trash[e] == lib.trash[e])
      && (forall f :: f in b.folders <==>
           f in lib.folders && !(lib.folders[f].tag.Some? && lib.folders[f].tag.value in entries))
      && (forall f :: f in b.folders ==> b.folders[f] == lib.folders[f])
      && (forall j :: j in b.jobs <==>
           j in lib.jobs && !(lib.jobs[j].tag.Some? && lib.jobs[j].tag.value in entries))
      && (forall j :: j in b.jobs ==> b.jobs[j] == lib.jobs[j])
  {
  }
}
