/** The library commands as they run (server/app/library/service.py): one object whose
    tables every command edits in place. */
module LibraryCommands {
  import opened Wrappers
  import opened Sorting
  import opened Forest
  import opened SiblingOrder
  import opened LibraryModel
  import opened LibraryTree
  import opened TrashInvariants
  import opened UndoDelete

  datatype Item = FolderItem(id: nat) | JobItem(id: nat) | OtherItem

  /** `KeyError` is `Unknown`, `LibraryError` is `Refused`. */
  datatype Outcome = Done | Unknown | Refused

  function FolderIds(items: seq<Item>): seq<nat> {
    if items == [] then [] else
      FolderIds(items[..|items| - 1]) + (if items[|items| - 1].FolderItem? then [items[|items| - 1].id] else [])
  }

  function JobIds(items: seq<Item>): seq<nat> {
    if items == [] then [] else
      JobIds(items[..|items| - 1]) + (if items[|items| - 1].JobItem? then [items[|items| - 1].id] else [])
  }

  // ---- what a selection comes down to ----

  /** The folders of the selection that have no selected folder above them. */
  ghost function Outermost(t: Table, ids: seq<nat>, selected: set<nat>, k: nat): (r: seq<nat>)
    requires k <= |ids|
    ensures forall id :: id in r ==> id in ids[..k]
  {
    if k == 0 then [] else
      assert ids[..k] == ids[..k - 1] + [ids[k - 1]];
      Outermost(t, ids, selected, k - 1) + (if HasSelectedAbove(t, ids[k - 1], selected) then [] else [ids[k - 1]])
  }

  ghost predicate IsCovered(t: Table, jobs: Table, j: nat, tops: seq<nat>) {
    j in jobs && jobs[j].parent.Some? && exists f :: f in tops && IsUnder(t, jobs[j].parent.value, f)
  }

  /** The jobs of the selection that no selected folder takes along. */
  ghost function Uncovered(t: Table, jobs: Table, ids: seq<nat>, tops: seq<nat>, k: nat): (r: seq<nat>)
    requires k <= |ids|
    ensures forall id :: id in r ==> id in ids[..k]
  {
    if k == 0 then [] else
      assert ids[..k] == ids[..k - 1] + [ids[k - 1]];
      Uncovered(t, jobs, ids, tops, k - 1) + (if IsCovered(t, jobs, ids[k - 1], tops) then [] else [ids[k - 1]])
  }

  ghost function MovedFolders(lib: Library, items: seq<Item>): seq<nat> {
    var ids := FolderIds(items);
    Outermost(LiveRows(lib.folders), ids, Members(ids), |ids|)
  }

  ghost function MovedJobs(lib: Library, items: seq<Item>): seq<nat> {
    var ids := JobIds(items);
    Uncovered(LiveRows(lib.folders), lib.jobs, ids, MovedFolders(lib, items), |ids|)
  }

  ghost predicate AllKnown(lib: Library, items: seq<Item>) {
    AllLive(lib.folders, FolderIds(items)) && AllLive(lib.jobs, JobIds(items))
  }

  /** The destination lies below no folder of the selection. */
  ghost predicate IsAcyclicMove(lib: Library, items: seq<Item>, dest: Option<nat>) {
    dest.Some? ==> forall f :: f in FolderIds(items) ==> !IsUnder(LiveRows(lib.folders), dest.value, f)
  }

  ghost function MoveOutcome(lib: Library, items: seq<Item>, dest: Option<nat>): Outcome {
    if items == [] then Done
    else if !CanHold(lib, dest) then Unknown
    else if OtherItem in items then Refused
    else if !AllKnown(lib, items) then Unknown
    else if !IsAcyclicMove(lib, items, dest) then Refused
    else Done
  }

  lemma MovedAreLive(lib: Library, items: seq<Item>)
    requires AllKnown(lib, items)
    ensures AllLive(lib.folders, MovedFolders(lib, items)) && AllIn(lib.folders, MovedFolders(lib, items))
    ensures AllLive(lib.jobs, MovedJobs(lib, items)) && AllIn(lib.jobs, MovedJobs(lib, items))
  {
    var fs, js := MovedFolders(lib, items), MovedJobs(lib, items);
    hide Outermost, Uncovered, FolderIds, JobIds;
    forall k | 0 <= k < |fs| ensures IsLive(lib.folders, fs[k]) { assert fs[k] in fs && fs[k] in FolderIds(items); }
    forall k | 0 <= k < |js| ensures IsLive(lib.jobs, js[k]) { assert js[k] in js && js[k] in JobIds(items); }
  }

  ghost function MoveSelection(lib: Library, items: seq<Item>, dest: Option<nat>): Library {
    if MoveOutcome(lib, items, dest) != Done || items == [] then lib else
      MovedAreLive(lib, items);
      MoveItems(lib, MovedFolders(lib, items), MovedJobs(lib, items), dest)
  }

  lemma MoveSelectionKeepsInv(lib: Library, items: seq<Item>, dest: Option<nat>)
    requires Inv(lib)
    ensures Inv(MoveSelection(lib, items, dest))
  {
    hide Inv, AllKnown, FolderIds, JobIds, MovedFolders, MovedJobs, CanHold, MoveItems, IsUnder;
    if MoveOutcome(lib, items, dest) == Done && items != [] {
      MovedAreLive(lib, items);
      var fs := MovedFolders(lib, items);
      if dest.Some? {
        forall k | 0 <= k < |fs| ensures !IsUnder(lib.folders, dest.value, fs[k]) {
          NotUnderSelected(lib, items, dest.value, k);
        }
      }
      MoveKeepsInv(lib, fs, MovedJobs(lib, items), dest);
    }
  }

  lemma NotUnderSelected(lib: Library, items: seq<Item>, dest: nat, k: nat)
    requires Inv(lib) && IsAcyclicMove(lib, items, Some(dest)) && CanHold(lib, Some(dest))
    requires k < |MovedFolders(lib, items)|
    ensures !IsUnder(lib.folders, dest, MovedFolders(lib, items)[k])
  {
    InvHasLiveParents(lib);
    var f := MovedFolders(lib, items)[k];
    assert f in MovedFolders(lib, items);
    hide Inv, Outermost, FolderIds, IsUnder;
    LiveUnder(lib.folders, dest, f);
  }

  // ---- deleting a selection ----

  /** `fs` and `js` list the outermost items of the selection, each once: the sets the
      command works through have no order of their own. */
  ghost predicate ListsSelection(lib: Library, items: seq<Item>, js: seq<nat>, fs: seq<nat>) {
    var t := LiveRows(lib.folders);
    && Distinct(fs) && Distinct(js)
    && (forall f :: f in fs <==> f in FolderIds(items) && !HasSelectedAbove(t, f, Members(FolderIds(items))))
    && (forall j :: j in js <==> j in JobIds(items) && !IsCovered(t, lib.jobs, j, fs))
  }

  lemma ListedAreLive(lib: Library, items: seq<Item>, js: seq<nat>, fs: seq<nat>)
    requires AllKnown(lib, items) && ListsSelection(lib, items, js, fs)
    ensures AllLive(lib.folders, fs) && AllLive(lib.jobs, js) && AllIn(lib.folders, fs) && AllIn(lib.jobs, js)
  {
    hide FolderIds, JobIds, HasSelectedAbove, IsCovered;
    forall k | 0 <= k < |fs| ensures IsLive(lib.folders, fs[k]) { assert fs[k] in fs && fs[k] in FolderIds(items); }
    forall k | 0 <= k < |js| ensures IsLive(lib.jobs, js[k]) { assert js[k] in js && js[k] in JobIds(items); }
  }

  /** Cutting a selection down leaves items that each stand for themselves. */
  lemma ListedAreOutermost(lib: Library, items: seq<Item>, js: seq<nat>, fs: seq<nat>)
    requires Inv(lib) && AllKnown(lib, items) && ListsSelection(lib, items, js, fs)
    ensures IsOutermost(lib, js, fs)
  {
    ListedAreLive(lib, items, js, fs);
    InvHasLiveParents(lib);
    hide Inv, FolderIds, JobIds, AllKnown, IsUnder;
    var t := LiveRows(lib.folders);
    forall k, l | 0 <= k < |fs| && 0 <= l < |fs| && k != l ensures !IsUnder(lib.folders, fs[k], fs[l]) {
      assert fs[k] in fs && fs[l] in fs && fs[k] != fs[l];
      UnderByParent(lib.folders, fs[k], fs[l]);
      if lib.folders[fs[k]].parent.Some? { LiveUnder(lib.folders, lib.folders[fs[k]].parent.value, fs[l]); }
    }
    forall k, i | 0 <= k < |js| && 0 <= i < |fs| ensures !IsInside(lib.jobs, js[k], Subtree(lib.folders, fs[i])) {
      assert js[k] in js && fs[i] in fs;
      if lib.jobs[js[k]].parent.Some? && IsLive(lib.folders, lib.jobs[js[k]].parent.value) {
        LiveUnder(lib.folders, lib.jobs[js[k]].parent.value, fs[i]);
      }
    }
  }

  lemma DeleteSelectionKeepsInv(lib: Library, items: seq<Item>, js: seq<nat>, fs: seq<nat>)
    requires Inv(lib) && AllKnown(lib, items) && ListsSelection(lib, items, js, fs)
    ensures AllIn(lib.jobs, js) && AllIn(lib.folders, fs) && Inv(DeleteItems(lib, js, fs))
  {
    ListedAreLive(lib, items, js, fs);
    ListedAreOutermost(lib, items, js, fs);
    hide Inv, AllKnown, ListsSelection, IsOutermost;
    DeleteKeepsInv(lib, js, fs);
  }

  // ---- loops over rows ----

  /** The rows in `ids`, one after the other, to the end of `dest`. */
  method PlaceAtEnd(t: Table, ids: seq<nat>, dest: Option<nat>, n: nat) returns (u: Table)
    requires AllIn(t, ids)
    ensures u == PlaceRows(t, ids, dest, NextPosition(t, dest, n), |ids|)
  {
    u := t;
    var start := NextPosition(t, dest, n);
    for k := 0 to |ids|
      invariant u == PlaceRows(t, ids, dest, start, k)
    {
      u := u[ids[k] := u[ids[k]].(parent := dest, position := start + k)];
    }
  }

  ghost predicate Numbered(t: Table, u: Table, xs: seq<nat>, k: nat) {
    && u.Keys == t.Keys && k <= |xs| && AllIn(t, xs)
    && (forall i: nat :: i < k ==> u[xs[i]] == t[xs[i]].(position := i))
    && (forall id :: id in t && id !in xs[..k] ==> u[id] == t[id])
  }

  lemma NumberOneMore(t: Table, u: Table, xs: seq<nat>, k: nat)
    requires Numbered(t, u, xs, k) && k < |xs| && Distinct(xs)
    ensures Numbered(t, u[xs[k] := u[xs[k]].(position := k)], xs, k + 1)
    ensures u[xs[k]].position == k ==> u[xs[k] := u[xs[k]].(position := k)] == u
  {
    assert xs[..k + 1] == xs[..k] + [xs[k]];
  }

  lemma NumberedIsReindexed(t: Table, u: Table, p: Option<nat>, n: nat)
    requires Numbered(t, u, Siblings(t, p, n), |Siblings(t, p, n)|)
    ensures u == Reindex(t, {p}, n)
  {
    var xs := Siblings(t, p, n);
    SiblingsSorted(t, p, n);
    hide Siblings;
    assert xs[..|xs|] == xs;
    forall id | id in t ensures u[id] == Reindex(t, {p}, n)[id] {
      if id in xs { PlaceOf(xs, PlaceIn(xs, id)); }
    }
  }

  /** `_reindex_folders` and `_reindex_jobs`. */
  method ReindexOne(t: Table, p: Option<nat>, n: nat) returns (u: Table)
    ensures u == Reindex(t, {p}, n)
  {
    var children := Siblings(t, p, n);
    SiblingsSorted(t, p, n);
    SiblingsAreIn(t, p, n);
    hide Siblings, Reindex, Numbered;
    u := t;
    assert Numbered(t, u, children, 0) by { NothingNumbered(t, children); }
    for k := 0 to |children|
      invariant u.Keys == t.Keys && Numbered(t, u, children, k)
    {
      NumberOneMore(t, u, children, k);
      if u[children[k]].position != k {
        u := u[children[k] := u[children[k]].(position := k)];
      }
    }
    NumberedIsReindexed(t, u, p, n);
  }

  lemma NothingNumbered(t: Table, xs: seq<nat>)
    requires AllIn(t, xs)
    ensures Numbered(t, t, xs, 0)
  {
  }

  lemma ReindexOneMore(t: Table, done: set<Option<nat>>, p: Option<nat>, n: nat)
    ensures Reindex(Reindex(t, done, n), {p}, n) == Reindex(t, done + {p}, n)
  {
    var u := Reindex(t, done, n);
    ReindexKeepsOrder(t, done, n, p);
    hide Siblings;
    var a, b := Reindex(u, {p}, n), Reindex(t, done + {p}, n);
    forall id | id in t ensures a[id] == b[id] {
    }
  }

  method ReindexEach(t: Table, ps: set<Option<nat>>, n: nat) returns (u: Table)
    ensures u == Reindex(t, ps, n)
  {
    u := t;
    var left := ps;
    assert t == Reindex(t, {}, n);
    hide Reindex;
    while left != {}
      invariant left <= ps && u == Reindex(t, ps - left, n)
    {
      var p :| p in left;
      ReindexOneMore(t, ps - left, p, n);
      u := ReindexOne(u, p, n);
      assert ps - left + {p} == ps - (left - {p});
      left := left - {p};
    }
    assert ps - {} == ps;
  }

  method CollectParents(t: Table, ids: seq<nat>) returns (ps: set<Option<nat>>)
    requires AllIn(t, ids)
    ensures ps == ParentsOf(t, ids)
  {
    ps := {};
    for k := 0 to |ids|
      invariant forall p :: p in ps <==> exists i :: 0 <= i < k && t[ids[i]].parent == p
    {
      ps := ps + {t[ids[k]].parent};
    }
  }

  method NumberEach(t: Table, ids: seq<nat>) returns (u: Table)
    requires AllIn(t, ids)
    ensures u == NumberRows(t, ids, |ids|)
  {
    u := t;
    for k := 0 to |ids|
      invariant u == NumberRows(t, ids, k)
    {
      u := u[ids[k] := u[ids[k]].(position := k)];
    }
  }

  // ---- cutting a selection down ----

  method PickOutermost(t: Table, ids: seq<nat>) returns (tops: seq<nat>)
    requires Acyclic(t) && AllIn(t, ids)
    ensures tops == Outermost(t, ids, Members(ids), |ids|)
  {
    hide Acyclic, HasSelectedAbove;
    tops := [];
    var selected := set x | x in ids;
    for k := 0 to |ids|
      invariant tops == Outermost(t, ids, selected, k)
    {
      var nested := HasSelectedAncestor(t, ids[k], selected);
      if !nested { tops := tops + [ids[k]]; }
    }
  }

  method CoveredFolders(t: Table, n: nat, tops: seq<nat>) returns (covered: set<nat>)
    requires IdsBelow(t, n)
    ensures forall x :: x in covered <==> exists f :: f in tops && IsUnder(t, x, f)
  {
    hide IsUnder, IdsBelow;
    covered := {};
    for k := 0 to |tops|
      invariant forall x :: x in covered <==> exists f :: f in tops[..k] && IsUnder(t, x, f)
    {
      var below := DescendantFolderIds(t, n, tops[k]);
      assert tops[..k + 1] == tops[..k] + [tops[k]];
      covered := covered + below;
    }
    assert tops[..|tops|] == tops;
  }

  method PickUncovered(t: Table, jobs: Table, ids: seq<nat>, ghost tops: seq<nat>, covered: set<nat>)
    returns (left: seq<nat>)
    requires AllIn(jobs, ids)
    requires forall x :: x in covered <==> exists f :: f in tops && IsUnder(t, x, f)
    ensures left == Uncovered(t, jobs, ids, tops, |ids|)
  {
    hide IsUnder;
    left := [];
    for k := 0 to |ids|
      invariant left == Uncovered(t, jobs, ids, tops, k)
    {
      var parent := jobs[ids[k]].parent;
      if parent.None? || parent.value !in covered { left := left + [ids[k]]; }
    }
  }

  method AreAllLive(t: Table, ids: seq<nat>) returns (ok: bool)
    ensures ok <==> AllLive(t, ids)
  {
    for k := 0 to |ids|
      invariant forall i :: 0 <= i < k ==> IsLive(t, ids[i])
    {
      if !IsLive(t, ids[k]) { return false; }
    }
    return true;
  }

  lemma LiveTable(lib: Library)
    requires Inv(lib)
    ensures IdsBelow(LiveRows(lib.folders), lib.next) && Acyclic(LiveRows(lib.folders))
  {
    hide HangTogether, OwnsItsRoot, HaveParents, AreTagged;
    FewerPointersStayAcyclic(lib.folders, LiveRows(lib.folders));
  }

  lemma LiveAreIn(t: Table, ids: seq<nat>)
    requires AllLive(t, ids)
    ensures AllIn(LiveRows(t), ids) && AllIn(t, ids)
  {
  }

  // ---- loops of the trash ----

  /** The selected folders without those below another one, as the set hands them out. */
  method ListOutermost(t: Table, selected: set<nat>) returns (fs: seq<nat>)
    requires Acyclic(t) && forall f :: f in selected ==> f in t
    ensures Distinct(fs) && forall f :: f in fs <==> f in selected && !HasSelectedAbove(t, f, selected)
  {
    hide Acyclic, HasSelectedAbove;
    fs := [];
    var left := selected;
    while left != {}
      invariant left <= selected && Distinct(fs)
      invariant forall f :: f in fs <==> f in selected - left && !HasSelectedAbove(t, f, selected)
    {
      var f :| f in left;
      var nested := HasSelectedAncestor(t, f, selected);
      left := left - {f};
      if !nested { fs := fs + [f]; }
    }
  }

  method ListUncovered(t: Table, jobs: Table, selected: set<nat>, ghost fs: seq<nat>, covered: set<nat>)
    returns (js: seq<nat>)
    requires forall j :: j in selected ==> j in jobs
    requires forall x :: x in covered <==> exists f :: f in fs && IsUnder(t, x, f)
    ensures Distinct(js) && forall j :: j in js <==> j in selected && !IsCovered(t, jobs, j, fs)
  {
    hide IsUnder;
    js := [];
    var left := selected;
    while left != {}
      invariant left <= selected && Distinct(js)
      invariant forall j :: j in js <==> j in selected - left && !IsCovered(t, jobs, j, fs)
    {
      var j :| j in left;
      assert j !in js;
      left := left - {j};
      if jobs[j].parent.None? || jobs[j].parent.value !in covered { js := js + [j]; }
    }
  }

  method TagFolders(t: Table, n: nat, subtree: set<nat>, e: nat) returns (u: Table)
    requires IdsBelow(t, n)
    ensures u == TagRows(t, subtree, e)
  {
    u := t;
    for id := 0 to n
      invariant u.Keys == t.Keys
      invariant forall x :: x in t ==>
        u[x] == if x < id && x in subtree && !t[x].deleted then TagRow(t[x], e) else t[x]
    {
      if id in u && id in subtree && !u[id].deleted { u := u[id := TagRow(u[id], e)]; }
    }
  }

  method TagContents(jobs: Table, n: nat, subtree: set<nat>, e: nat) returns (u: Table)
    requires IdsBelow(jobs, n)
    ensures u == TagJobsInside(jobs, subtree, e)
  {
    u := jobs;
    for id := 0 to n
      invariant u.Keys == jobs.Keys
      invariant forall x :: x in jobs ==>
        u[x] == if x < id && IsInside(jobs, x, subtree) && !jobs[x].deleted then TagRow(jobs[x], e) else jobs[x]
    {
      if id in u && u[id].parent.Some? && u[id].parent.value in subtree && !u[id].deleted {
        u := u[id := TagRow(u[id], e)];
      }
    }
  }

  method UntagEach(t: Table, n: nat, e: nat, root: Option<nat>, target: Option<nat>, position: nat) returns (u: Table)
    requires IdsBelow(t, n)
    ensures u == UntagRows(t, e, root, target, position)
  {
    u := t;
    var whole := UntagRows(t, e, root, target, position);
    for id := 0 to n
      invariant u.Keys == t.Keys
      invariant forall x :: x in t ==> u[x] == if x < id then whole[x] else t[x]
    {
      if id in u && u[id].tag == Some(e) {
        if root == Some(id) { u := u[id := u[id].(parent := target, position := position)]; }
        u := u[id := Untagged(u[id])];
      }
    }
  }

  method DropEach(t: Table, n: nat, e: nat) returns (u: Table, dropped: set<nat>)
    requires IdsBelow(t, n)
    ensures u == DropTagged(t, e) && dropped == set id | id in t && t[id].tag == Some(e)
  {
    u, dropped := t, {};
    for id := 0 to n
      invariant forall x :: x in u <==> x in t && (x >= id || t[x].tag != Some(e))
      invariant forall x :: x in u ==> u[x] == t[x]
      invariant forall x :: x in dropped <==> x in t && x < id && t[x].tag == Some(e)
    {
      if id in u && u[id].tag == Some(e) {
        u := map x | x in u && x != id :: u[x];
        dropped := dropped + {id};
      }
    }
  }

  /** The positions a restore counts on from, as a dictionary with default 0. */
  function At(positions: map<Option<nat>, nat>, p: Option<nat>): nat { if p in positions then positions[p] else 0 }

  method FirstFree(t: Table, n: nat) returns (positions: map<Option<nat>, nat>)
    ensures forall p :: At(positions, p) == NextPosition(t, p, n)
  {
    positions := map[];
    for id := 0 to n
      invariant forall p :: At(positions, p) == NextPosition(t, p, id)
    {
      if IsLive(t, id) {
        var p := t[id].parent;
        var free := t[id].position + 1;
        positions := positions[p := if At(positions, p) > free then At(positions, p) else free];
      }
    }
  }

  function Deduped(ids: seq<nat>): (r: seq<nat>)
    ensures Distinct(r) && forall x :: x in r <==> x in ids
  {
    if ids == [] then [] else
      var r := Deduped(ids[..|ids| - 1]);
      if ids[|ids| - 1] in r then r else r + [ids[|ids| - 1]]
  }

  lemma WorklistIsSubtree(lib: Library, f: nat, found: set<nat>)
    requires Inv(lib) && IsLive(lib.folders, f)
    requires forall x :: x in found <==> IsUnder(LiveRows(lib.folders), x, f)
    ensures found == Subtree(lib.folders, f)
  {
    InvHasLiveParents(lib);
    hide Inv, IsUnder;
    forall x ensures x in found <==> x in Subtree(lib.folders, f) {
      if IsLive(lib.folders, x) {
        LiveUnder(lib.folders, x, f);
      } else {
        NotUnderInTrash(lib.folders, x, f);
      }
    }
  }

  lemma NotUnderInTrash(t: Table, x: nat, f: nat)
    requires IsLive(t, f) && !IsLive(t, x)
    ensures !IsUnder(LiveRows(t), x, f)
  {
    UnderByParent(LiveRows(t), x, f);
  }

  // ---- the service ----

  class LibraryService {
    var folders: Table
    var jobs: Table
    var trash: map<nat, Entry>
    var next: nat

    ghost function Lib(): Library
      reads this
    {
      Library(folders, jobs, trash, next)
    }

    ghost predicate Valid()
      reads this
    {
      Inv(Lib())
    }

    constructor ()
      ensures Valid() && Lib() == EmptyLibrary
    {
      folders, jobs, trash, next := map[], map[], map[], 0;
      EmptyInv();
    }

    method CreateFolder(parent: Option<nat>, tie: int) returns (outcome: Outcome)
      requires Valid()
      modifies this
      ensures Valid() && outcome == if CanHold(old(Lib()), parent) then Done else Unknown
      ensures Lib() == if outcome.Done? then AddFolder(old(Lib()), parent, tie) else old(Lib())
    {
      hide Inv, NextPosition;
      if parent.Some? && !IsLive(folders, parent.value) { return Unknown; }
      AddFolderKeepsInv(Lib(), parent, tie);
      folders := folders[next := Row(parent, NextPosition(folders, parent, next), tie, false, None)];
      next := next + 1;
      return Done;
    }

    /** The library's side of creating a job. */
    method CreateJob(parent: Option<nat>, tie: int) returns (outcome: Outcome)
      requires Valid()
      modifies this
      ensures Valid() && outcome == if CanHold(old(Lib()), parent) then Done else Unknown
      ensures Lib() == if outcome.Done? then AddJob(old(Lib()), parent, tie) else old(Lib())
    {
      hide Inv, NextPosition;
      if parent.Some? && !IsLive(folders, parent.value) { return Unknown; }
      AddJobKeepsInv(Lib(), parent, tie);
      jobs := jobs[next := Row(parent, NextPosition(jobs, parent, next), tie, false, None)];
      next := next + 1;
      return Done;
    }

    method Reorder(parent: Option<nat>, folderIds: seq<nat>, jobIds: seq<nat>) returns (outcome: Outcome)
      requires Valid()
      modifies this
      ensures Valid()
      ensures outcome == ReorderOutcome(old(Lib()), parent, folderIds, jobIds)
      ensures outcome != Done ==> Lib() == old(Lib())
      ensures outcome == Done ==> AllIn(old(folders), folderIds) && AllIn(old(jobs), jobIds)
      ensures outcome == Done ==> Lib() == LibraryModel.Reorder(old(Lib()), folderIds, jobIds)
    {
      hide Inv, NumberRows, ChildIds, Distinct, AllIn;
      if parent.Some? && !IsLive(folders, parent.value) { return Unknown; }
      var orderedFolders := NormalizeOrder(ChildIds(folders, parent, next), folderIds);
      if orderedFolders.None? { return Refused; }
      var orderedJobs := NormalizeOrder(ChildIds(jobs, parent, next), jobIds);
      if orderedJobs.None? { return Refused; }
      ChildrenAreIn(folders, parent, next, folderIds);
      ChildrenAreIn(jobs, parent, next, jobIds);
      ReorderKeepsInv(Lib(), folderIds, jobIds);
      folders := NumberEach(folders, folderIds);
      jobs := NumberEach(jobs, jobIds);
      return Done;
    }

    /** `move`: everything is checked before anything is changed. */
    method Move(items: seq<Item>, dest: Option<nat>) returns (outcome: Outcome)
      requires Valid()
      modifies this
      ensures Valid() && outcome == MoveOutcome(old(Lib()), items, dest)
      ensures Lib() == MoveSelection(old(Lib()), items, dest)
    {
      if items == [] { return Done; }
      if dest.Some? && !IsLive(folders, dest.value) { return Unknown; }
      if OtherItem in items { return Refused; }
      var folderIds, jobIds := FolderIds(items), JobIds(items);
      hide Inv, FolderIds, JobIds, AllLive, Acyclic, IdsBelow, IsUnder, MoveItems, Outermost, Uncovered;
      var foldersKnown := AreAllLive(folders, folderIds);
      var jobsKnown := AreAllLive(jobs, jobIds);
      if !foldersKnown || !jobsKnown { return Unknown; }
      LiveTable(Lib());
      LiveAreIn(folders, folderIds);
      LiveAreIn(jobs, jobIds);
      var live := LiveRows(folders);
      var acyclic := MoveIsAcyclic(live, next, folderIds, dest);
      if !acyclic { return Refused; }
      MoveSelectionKeepsInv(Lib(), items, dest);
      MovedAreLive(Lib(), items);
      var tops := PickOutermost(live, folderIds);
      var covered := CoveredFolders(live, next, tops);
      var left := PickUncovered(live, jobs, jobIds, tops, covered);
      ApplyMove(tops, left, dest);
      return Done;
    }

    method ApplyMove(tops: seq<nat>, left: seq<nat>, dest: Option<nat>)
      requires AllIn(folders, tops) && AllIn(jobs, left)
      modifies this
      ensures Lib() == MoveItems(old(Lib()), tops, left, dest)
    {
      hide PlaceRows, Reindex, ParentsOf;
      var affectedFolders := CollectParents(folders, tops);
      var affectedJobs := CollectParents(jobs, left);
      folders := PlaceAtEnd(folders, tops, dest, next);
      jobs := PlaceAtEnd(jobs, left, dest, next);
      folders := ReindexEach(folders, {dest} + affectedFolders, next);
      jobs := ReindexEach(jobs, {dest} + affectedJobs, next);
    }

    method TrashOneJob(j: nat)
      requires j in jobs
      modifies this
      ensures Lib() == TrashJob(old(Lib()), j)
    {
      trash := trash[next := Entry(JobEntry, j, jobs[j].parent)];
      jobs := jobs[j := TagRow(jobs[j], next)];
      next := next + 1;
    }

    method TrashOneFolder(f: nat, subtree: set<nat>)
      requires f in folders && IdsBelow(folders, next) && IdsBelow(jobs, next)
      modifies this
      ensures Lib() == TrashFolder(old(Lib()), f, subtree)
    {
      trash := trash[next := Entry(FolderEntry, f, folders[f].parent)];
      folders := TagFolders(folders, next, subtree, next);
      jobs := TagContents(jobs, next, subtree, next);
      next := next + 1;
    }

    /** `delete`. The orders `js` and `fs` are those in which the sets of the selection are
        gone through. */
    method Delete(items: seq<Item>)
      returns (outcome: Outcome, entries: seq<nat>, ghost js: seq<nat>, ghost fs: seq<nat>)
      requires Valid()
      modifies this
      ensures Valid() && outcome == if items == [] || AllKnown(old(Lib()), items) then Done else Unknown
      ensures outcome != Done || items == [] ==> Lib() == old(Lib()) && entries == []
      ensures outcome == Done && items != [] ==>
        && ListsSelection(old(Lib()), items, js, fs) && AllIn(old(jobs), js) && AllIn(old(folders), fs)
        && Lib() == DeleteItems(old(Lib()), js, fs)
        && |entries| == |js| + |fs| && forall k: nat :: k < |entries| ==> entries[k] == old(next) + k
    {
      js, fs := [], [];
      if items == [] { return Done, [], js, fs; }
      var folderIds, jobIds := FolderIds(items), JobIds(items);
      hide Inv, FolderIds, JobIds, AllLive, Acyclic, IdsBelow, IsUnder, DeleteItems, ListsSelection;
      var foldersKnown := AreAllLive(folders, folderIds);
      var jobsKnown := AreAllLive(jobs, jobIds);
      if !foldersKnown || !jobsKnown { return Unknown, [], js, fs; }
      LiveTable(Lib());
      LiveAreIn(folders, folderIds);
      LiveAreIn(jobs, jobIds);
      var jobOrder, folderOrder := OrderSelection(folderIds, jobIds);
      js, fs := jobOrder, folderOrder;
      assert ListsSelection(Lib(), items, js, fs) by { SelectionIsListed(Lib(), items, js, fs); }
      DeleteSelectionKeepsInv(Lib(), items, js, fs);
      ListedAreLive(Lib(), items, js, fs);
      ListedAreOutermost(Lib(), items, js, fs);
      entries := TrashInOrder(jobOrder, folderOrder);
      outcome := Done;
    }

    /** The outermost items of the selection, in the order the sets hand them out. */
    method OrderSelection(folderIds: seq<nat>, jobIds: seq<nat>) returns (js: seq<nat>, fs: seq<nat>)
      requires Valid() && AllIn(LiveRows(folders), folderIds) && AllIn(jobs, jobIds)
      ensures
        var t := LiveRows(folders);
        && Distinct(fs) && Distinct(js)
        && (forall f :: f in fs <==> f in folderIds && !HasSelectedAbove(t, f, Members(folderIds)))
        && (forall j :: j in js <==> j in jobIds && !IsCovered(t, jobs, j, fs))
    {
      LiveTable(Lib());
      hide Inv, HasSelectedAbove, IsCovered, Acyclic, IdsBelow, IsUnder;
      var live := LiveRows(folders);
      var selectedFolders := set f | f in folderIds;
      var selectedJobs := set j | j in jobIds;
      assert selectedFolders == Members(folderIds);
      fs := ListOutermost(live, selectedFolders);
      var covered := CoveredFolders(live, next, fs);
      js := ListUncovered(live, jobs, selectedJobs, fs, covered);
    }

    method TrashInOrder(js: seq<nat>, fs: seq<nat>) returns (entries: seq<nat>)
      requires Valid() && AllIn(jobs, js) && AllIn(folders, fs) && IsOutermost(Lib(), js, fs)
      modifies this
      ensures Valid() && Lib() == DeleteItems(old(Lib()), js, fs)
      ensures |entries| == |js| + |fs| && forall k: nat :: k < |entries| ==> entries[k] == old(next) + k
    {
      hide Inv, AllIn, AllLive, Distinct, Apart, IsOutermost, IsUnder, Acyclic, IdsBelow, TrashJobs, TrashFolders;
      OutermostParts(Lib(), js, fs);
      DeleteKeepsInv(Lib(), js, fs);
      TrashJobsKeepInv(Lib(), js, |js|);
      LiveTable(Lib());
      var live, n := LiveRows(folders), next;
      var jobEntries := TrashAllJobs(js);
      var folderEntries := TrashAllFolders(fs, live, n);
      entries := jobEntries + folderEntries;
    }

    method TrashAllJobs(js: seq<nat>) returns (entries: seq<nat>)
      requires AllIn(jobs, js)
      modifies this
      ensures Lib() == TrashJobs(old(Lib()), js, |js|)
      ensures |entries| == |js| && forall k: nat :: k < |entries| ==> entries[k] == old(next) + k
    {
      ghost var before := Lib();
      hide AllIn, TrashJob;
      entries := [];
      for k := 0 to |js|
        invariant Lib() == TrashJobs(before, js, k)
        invariant |entries| == k && forall i: nat :: i < k ==> entries[i] == before.next + i
      {
        assert js[k] in jobs by { InTable(before.jobs, js, k); }
        entries := entries + [next];
        TrashOneJob(js[k]);
      }
    }

    /** Subtrees are looked up in the rows that were live when the command came in. */
    method TrashAllFolders(fs: seq<nat>, live: Table, n: nat) returns (entries: seq<nat>)
      requires Valid() && AllIn(folders, fs) && AllLive(folders, fs) && Apart(folders, fs)
      requires live == LiveRows(folders) && IdsBelow(live, n)
      modifies this
      ensures Lib() == TrashFolders(old(Lib()), old(folders), fs, |fs|)
      ensures |entries| == |fs| && forall k: nat :: k < |entries| ==> entries[k] == old(next) + k
    {
      ghost var before := Lib();
      hide Inv, AllIn, AllLive, Apart, IdsBelow, IsUnder, LiveRows, TrashFolder, FoldersGone;
      entries := [];
      for k := 0 to |fs|
        invariant Lib() == TrashFolders(before, before.folders, fs, k)
        invariant |entries| == k && forall i: nat :: i < k ==> entries[i] == before.next + i
      {
        assert fs[k] in folders by { InTable(before.folders, fs, k); }
        TrashFoldersKeepInv(before, fs, k);
        InvIds(Lib());
        var subtree := DescendantFolderIds(live, n, fs[k]);
        LiveAt(before.folders, fs, k);
        WorklistIsSubtree(before, fs[k], subtree);
        entries := entries + [next];
        TrashOneFolder(fs[k], subtree);
      }
    }

    method DeleteFolderOnly(f: nat) returns (outcome: Outcome)
      requires Valid()
      modifies this
      ensures Valid() && outcome == if IsLive(old(folders), f) then Done else Unknown
      ensures Lib() == if outcome.Done? then TrashFolderOnly(old(Lib()), f) else old(Lib())
    {
      hide Inv, MovedUp, TrashAlone;
      if !IsLive(folders, f) { return Unknown; }
      TrashFolderOnlyKeepsInv(Lib(), f);
      var parent := folders[f].parent;
      EmptyFolder(f, parent);
      TrashEmptied(f, parent);
      return Done;
    }

    method TrashEmptied(f: nat, parent: Option<nat>)
      requires f in folders
      modifies this
      ensures Lib() == TrashAlone(old(Lib()), f, parent)
    {
      hide Reindex;
      trash := trash[next := Entry(FolderEntry, f, parent)];
      folders := folders[f := TagRow(folders[f], next)];
      folders := ReindexOne(folders, parent, next);
      jobs := ReindexOne(jobs, parent, next);
      next := next + 1;
    }

    method EmptyFolder(f: nat, parent: Option<nat>)
      requires f in folders && parent == folders[f].parent
      modifies this
      ensures Lib() == MovedUp(old(Lib()), f)
    {
      hide Siblings, PlaceRows, NextPosition, AllIn;
      var childFolders, childJobs := Siblings(folders, Some(f), next), Siblings(jobs, Some(f), next);
      SiblingsAreIn(folders, Some(f), next);
      SiblingsAreIn(jobs, Some(f), next);
      folders := PlaceAtEnd(folders, childFolders, parent, next);
      jobs := PlaceAtEnd(jobs, childJobs, parent, next);
    }

    /** `restore`. That an entry still has its root need not be checked: it is part of the
        invariant. */
    method Restore(ids: seq<nat>) returns (outcome: Outcome)
      requires Valid()
      modifies this
      ensures Valid() && outcome == if forall e :: e in ids ==> e in old(trash) then Done else Unknown
      ensures outcome != Done || ids == [] ==> Lib() == old(Lib())
      ensures outcome == Done && ids != [] ==>
        AreEntries(old(Lib()), Deduped(ids)) && Lib() == TrashInvariants.Restore(old(Lib()), Deduped(ids))
    {
      if ids == [] { return Done; }
      var es := Deduped(ids);
      hide Deduped, Inv, TrashInvariants.Restore;
      for k := 0 to |es|
        invariant forall i :: 0 <= i < k ==> es[i] in trash
      {
        assert es[k] in es;
        if es[k] !in trash { return Unknown; }
      }
      forall e | e in ids ensures e in trash { assert e in es; }
      RestoreKeepsInv(Lib(), es);
      RestoreEntries(es);
      return Done;
    }

    method RestoreEntry(e: nat, target: Option<nat>, position: nat)
      requires e in trash && IdsBelow(folders, next) && IdsBelow(jobs, next)
      modifies this
      ensures Lib() == RestoreOne(old(Lib()), e, target, position)
    {
      hide UntagRows, IdsBelow;
      var entry := trash[e];
      if entry.kind.FolderEntry? {
        folders := UntagEach(folders, next, e, Some(entry.root), target, position);
        jobs := UntagEach(jobs, next, e, None, target, position);
      } else {
        folders := UntagEach(folders, next, e, None, target, position);
        jobs := UntagEach(jobs, next, e, Some(entry.root), target, position);
      }
      trash := trash - {e};
    }

    method RestoreEntries(es: seq<nat>)
      requires Valid() && AreEntries(Lib(), es)
      modifies this
      ensures Lib() == TrashInvariants.Restore(old(Lib()), es)
    {
      hide Inv, AreEntries, RestoreAll, Reindex, TargetsOf;
      var live := LiveAfter(Library(folders, jobs, trash, next), es);
      var affectedFolders, affectedJobs := RestoreEach(es, live);
      folders := ReindexEach(folders, affectedFolders, next);
      jobs := ReindexEach(jobs, affectedJobs, next);
    }

    method RestoreEach(es: seq<nat>, live: set<nat>)
      returns (affectedFolders: set<Option<nat>>, affectedJobs: set<Option<nat>>)
      requires Valid() && AreEntries(Lib(), es) && live == LiveAfter(Lib(), es)
      modifies this
      ensures Lib() == RestoreAll(old(Lib()), es, live, |es|)
      ensures affectedFolders == TargetsOf(old(Lib()), es, live, FolderEntry)
      ensures affectedJobs == TargetsOf(old(Lib()), es, live, JobEntry)
    {
      ghost var before := Lib();
      hide Inv, InvUpTo, NextPosition, RestoreOne, AllAwaited, LiveAfter, IdsBelow, AreEntries, TargetOf;
      hide PositionFor, TargetsOf, CountsOn, RestoreAll;
      AwaitedAtFirst(before, es);
      var folderPositions := FirstFree(folders, next);
      var jobPositions := FirstFree(jobs, next);
      affectedFolders, affectedJobs := {}, {};
      CountsFromZero(before, es, live, FolderEntry, folderPositions);
      CountsFromZero(before, es, live, JobEntry, jobPositions);
      for k := 0 to |es|
        invariant Lib() == RestoreAll(before, es, live, k)
        invariant CountsOn(before, es, live, FolderEntry, k, folderPositions, affectedFolders)
        invariant CountsOn(before, es, live, JobEntry, k, jobPositions, affectedJobs)
      {
        NextEntry(before, es, live, k);
        RestoreAllKeepsInv(before, es, live, k);
        UpToIds(Lib(), PendingFrom(es, k));
        var entry := trash[es[k]];
        var target := TargetOf(entry, live);
        CountOneMore(before, es, live, FolderEntry, k, folderPositions, affectedFolders);
        CountOneMore(before, es, live, JobEntry, k, jobPositions, affectedJobs);
        var position;
        if entry.kind.FolderEntry? {
          position := At(folderPositions, target);
          folderPositions := folderPositions[target := position + 1];
          affectedFolders := affectedFolders + {target};
        } else {
          position := At(jobPositions, target);
          jobPositions := jobPositions[target := position + 1];
          affectedJobs := affectedJobs + {target};
        }
        RestoreEntry(es[k], target, position);
      }
      TargetsCounted(before, es, live, FolderEntry, folderPositions, affectedFolders);
      TargetsCounted(before, es, live, JobEntry, jobPositions, affectedJobs);
    }

    method PurgeEntry(e: nat) returns (dropped: set<nat>)
      requires IdsBelow(folders, next) && IdsBelow(jobs, next)
      modifies this
      ensures Lib() == PurgeOne(old(Lib()), e) && dropped == JobsTaggedIn(old(jobs), {e})
    {
      hide DropTagged, IdsBelow;
      var droppedFolders;
      jobs, dropped := DropEach(jobs, next, e);
      folders, droppedFolders := DropEach(folders, next, e);
      trash := trash - {e};
    }

    /** `purge`, of the named entries or of all of them. */
    method Purge(ids: Option<seq<nat>>) returns (outcome: Outcome, purgedJobs: set<nat>)
      requires Valid()
      modifies this
      ensures Valid()
      ensures
        var es := if ids.Some? then Members(ids.value) else old(trash.Keys);
        && outcome == (if es <= old(trash.Keys) then Done else Unknown)
        && (outcome != Done ==> Lib() == old(Lib()) && purgedJobs == {})
        && (outcome == Done ==> Lib() == TrashInvariants.Purge(old(Lib()), es))
        && (outcome == Done ==> purgedJobs == JobsTaggedIn(old(jobs), es))
    {
      hide Inv, TrashInvariants.Purge, JobsTaggedIn;
      purgedJobs := {};
      var selected := trash.Keys;
      if ids.Some? {
        selected := set e | e in ids.value;
        assert selected == Members(ids.value);
        if !(selected <= trash.Keys) { return Unknown, {}; }
      }
      purgedJobs := PurgeEach(selected);
      outcome := Done;
    }

    method PurgeEach(selected: set<nat>) returns (purgedJobs: set<nat>)
      requires Valid() && selected <= trash.Keys
      modifies this
      ensures Valid() && Lib() == TrashInvariants.Purge(old(Lib()), selected)
      ensures purgedJobs == JobsTaggedIn(old(jobs), selected)
    {
      hide Inv, PurgeOne, IdsBelow, TrashInvariants.Purge, JobsTaggedIn;
      ghost var before := Lib();
      var left := selected;
      purgedJobs := {};
      PurgeNothing(before);
      assert selected - left == {};
      while left != {}
        invariant left <= selected && Lib() == TrashInvariants.Purge(before, selected - left)
        invariant purgedJobs == JobsTaggedIn(before.jobs, selected - left)
      {
        var e :| e in left;
        PurgeKeepsInv(before, selected - left);
        InvIds(Lib());
        PurgeStep(before, selected - left, e);
        PurgedJobsStep(before, selected - left, e);
        assert selected - left + {e} == selected - (left - {e});
        var dropped := PurgeEntry(e);
        purgedJobs := purgedJobs + dropped;
        left := left - {e};
      }
      assert selected - {} == selected;
      PurgeKeepsInv(before, selected);
    }
  }

  ghost function ReorderOutcome(lib: Library, parent: Option<nat>, folderIds: seq<nat>, jobIds: seq<nat>): Outcome {
    if !CanHold(lib, parent) then Unknown
    else if IsOrderOf(lib.folders, parent, lib.next, folderIds) &&
            IsOrderOf(lib.jobs, parent, lib.next, jobIds) then Done
    else Refused
  }

  /** The request names each of the current children exactly once. */
  ghost predicate IsOrderOf(t: Table, parent: Option<nat>, n: nat, ids: seq<nat>) {
    Distinct(ids) && forall id :: id in ids <==> id in ChildIds(t, parent, n)
  }

  lemma ChildrenAreIn(t: Table, parent: Option<nat>, n: nat, ids: seq<nat>)
    requires forall id :: id in ids ==> id in ChildIds(t, parent, n)
    ensures AllIn(t, ids)
  {
    hide ChildIds;
    assert forall k :: 0 <= k < |ids| ==> ids[k] in ids;
  }

  lemma SelectionIsListed(lib: Library, items: seq<Item>, js: seq<nat>, fs: seq<nat>)
    requires Distinct(fs) && Distinct(js)
    requires
      var t := LiveRows(lib.folders);
      && (forall f :: f in fs <==> f in FolderIds(items) && !HasSelectedAbove(t, f, Members(FolderIds(items))))
      && (forall j :: j in js <==> j in JobIds(items) && !IsCovered(t, lib.jobs, j, fs))
    ensures ListsSelection(lib, items, js, fs)
  {
  }

  lemma InTable(t: Table, ids: seq<nat>, k: nat)
    requires AllIn(t, ids) && k < |ids|
    ensures ids[k] in t
  {
  }

  lemma LiveAt(t: Table, ids: seq<nat>, k: nat)
    requires AllLive(t, ids) && k < |ids|
    ensures IsLive(t, ids[k])
  {
  }

  lemma UpToIds(lib: Library, pending: set<nat>)
    requires InvUpTo(lib, pending)
    ensures IdsBelow(lib.folders, lib.next) && IdsBelow(lib.jobs, lib.next)
  {
  }

  /** After `k` entries the dictionary stands where the positions of the next ones start. */
  ghost predicate CountsOn(lib: Library, es: seq<nat>, live: set<nat>, kind: Kind, k: nat,
                           positions: map<Option<nat>, nat>, affected: set<Option<nat>>)
  {
    && AreEntries(lib, es) && k <= |es|
    && (forall p :: At(positions, p) ==
         NextPosition(if kind.FolderEntry? then lib.folders else lib.jobs, p, lib.next) +
         PutUnder(lib, es, live, kind, p, k))
    && (forall p :: p in affected <==>
         exists i :: 0 <= i < k && lib.trash[es[i]].kind == kind && TargetOf(lib.trash[es[i]], live) == p)
  }

  lemma CountOneMore(lib: Library, es: seq<nat>, live: set<nat>, kind: Kind, k: nat,
                     positions: map<Option<nat>, nat>, affected: set<Option<nat>>)
    requires CountsOn(lib, es, live, kind, k, positions, affected) && k < |es|
    ensures
      var entry := lib.trash[es[k]];
      var target := TargetOf(entry, live);
      if entry.kind == kind then
        && At(positions, target) == PositionFor(lib, es, live, k)
        && CountsOn(lib, es, live, kind, k + 1, positions[target := At(positions, target) + 1], affected + {target})
      else CountsOn(lib, es, live, kind, k + 1, positions, affected)
  {
    hide TargetOf;
    var entry := lib.trash[es[k]];
    var target := TargetOf(entry, live);
    var after := if entry.kind == kind then affected + {target} else affected;
    forall p
      ensures p in after <==>
        exists i :: 0 <= i < k + 1 && lib.trash[es[i]].kind == kind && TargetOf(lib.trash[es[i]], live) == p
    {
      if p in affected {
        var i :| 0 <= i < k && lib.trash[es[i]].kind == kind && TargetOf(lib.trash[es[i]], live) == p;
      }
      if i :| 0 <= i < k + 1 && lib.trash[es[i]].kind == kind && TargetOf(lib.trash[es[i]], live) == p {
        assert p in affected || i == k;
      }
    }
    var next := if entry.kind == kind then positions[target := At(positions, target) + 1] else positions;
    assert AreEntries(lib, es);
    forall p
      ensures At(next, p) ==
        NextPosition(if kind.FolderEntry? then lib.folders else lib.jobs, p, lib.next) +
        PutUnder(lib, es, live, kind, p, k + 1)
    {
      assert PutUnder(lib, es, live, kind, p, k + 1) == PutUnder(lib, es, live, kind, p, k) +
        (if entry.kind == kind && target == p then 1 else 0);
    }
    assert entry.kind == kind ==> At(positions, target) == PositionFor(lib, es, live, k);
  }

  lemma CountsFromZero(lib: Library, es: seq<nat>, live: set<nat>, kind: Kind, positions: map<Option<nat>, nat>)
    requires AreEntries(lib, es)
    requires forall p :: (
      At(positions, p) == NextPosition(if kind.FolderEntry? then lib.folders else lib.jobs, p, lib.next))
    ensures CountsOn(lib, es, live, kind, 0, positions, {}) && RestoreAll(lib, es, live, 0) == lib
  {
  }

  lemma TargetsCounted(lib: Library, es: seq<nat>, live: set<nat>, kind: Kind,
                       positions: map<Option<nat>, nat>, affected: set<Option<nat>>)
    requires AreEntries(lib, es) && CountsOn(lib, es, live, kind, |es|, positions, affected)
    ensures affected == TargetsOf(lib, es, live, kind)
  {
  }

  lemma NextEntry(lib: Library, es: seq<nat>, live: set<nat>, k: nat)
    requires AreEntries(lib, es) && k < |es|
    ensures es[k] in lib.trash && es[k] in RestoreAll(lib, es, live, k).trash
    ensures RestoreAll(lib, es, live, k).trash[es[k]] == lib.trash[es[k]]
    ensures RestoreAll(lib, es, live, k + 1) ==
      RestoreOne(RestoreAll(lib, es, live, k), es[k], TargetOf(lib.trash[es[k]], live), PositionFor(lib, es, live, k))
    ensures RestoreAll(lib, es, live, 0) == lib
  {
    EntryLeaves(es, k + 1);
    hide RestoreOne, TargetOf, PositionFor;
  }

  ghost function JobsTaggedIn(jobs: Table, es: set<nat>): set<nat> {
    set j | j in jobs && TaggedIn(jobs[j], es)
  }

  lemma PurgeNothing(lib: Library)
    ensures TrashInvariants.Purge(lib, {}) == lib && JobsTaggedIn(lib.jobs, {}) == {}
  {
  }

  lemma PurgedJobsStep(lib: Library, es: set<nat>, e: nat)
    ensures JobsTaggedIn(lib.jobs, es + {e}) ==
      JobsTaggedIn(lib.jobs, es) + JobsTaggedIn(TrashInvariants.Purge(lib, es).jobs, {e})
  {
    var now := TrashInvariants.Purge(lib, es).jobs;
    forall j
      ensures j in JobsTaggedIn(lib.jobs, es + {e}) <==>
        j in JobsTaggedIn(lib.jobs, es) + JobsTaggedIn(now, {e})
    {
    }
  }
}
