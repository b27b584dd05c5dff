/** Deleting any selection and restoring what it made brings the library back. */
module UndoDelete {
  import opened Wrappers
  import opened Sorting
  import opened Forest
  import opened SiblingOrder
  import opened LibraryModel
  import opened TrashInvariants
  import opened TrashRoundTrip

  // ---- what a delete does, row by row ----

  /** `delete` with its selection cut down to the outermost items: the jobs in some order,
      then the folders in some order. */
  ghost function DeleteItems(lib: Library, js: seq<nat>, fs: seq<nat>): (b: Library)
    requires AllIn(lib.jobs, js) && AllIn(lib.folders, fs)
    ensures b.folders.Keys == lib.folders.Keys && b.jobs.Keys == lib.jobs.Keys
    ensures b.next == lib.next + |js| + |fs|
  {
    TrashFolders(TrashJobs(lib, js, |js|), lib.folders, fs, |fs|)
  }

  /** The items are live and each stands for itself: no folder lies below another, no job
      in one of the folders. */
  ghost predicate IsOutermost(lib: Library, js: seq<nat>, fs: seq<nat>) {
    && AllLive(lib.jobs, js) && Distinct(js) && AllLive(lib.folders, fs) && Apart(lib.folders, fs)
    && forall k, i :: 0 <= k < |js| && 0 <= i < |fs| ==> !IsInside(lib.jobs, js[k], Subtree(lib.folders, fs[i]))
  }

  ghost predicate EntriesAdded(before: map<nat, Entry>, after: map<nat, Entry>, first: nat, t: Table,
                               kind: Kind, ids: seq<nat>, k: nat) {
    && k <= |ids| && AllIn(t, ids)
    && (forall e :: e in after <==> e in before || first <= e < first + k)
    && (forall e :: e in before && e < first ==> after[e] == before[e])
    && (forall i: nat :: i < k && first + i in after ==> after[first + i] == Entry(kind, ids[i], t[ids[i]].parent))
  }

  /** The first `k` of `ids` are tagged, one entry each. */
  ghost predicate OnesTagged(t: Table, u: Table, ids: seq<nat>, first: nat, k: nat) {
    && u.Keys == t.Keys && k <= |ids|
    && (forall i: nat :: i < k && ids[i] in t ==> u[ids[i]] == TagRow(t[ids[i]], first + i))
    && (forall j :: j in t && j !in ids[..k] ==> u[j] == t[j])
  }

  lemma OneMoreEntry(before: map<nat, Entry>, after: map<nat, Entry>, first: nat, t: Table, kind: Kind,
                     ids: seq<nat>, k: nat)
    requires EntriesAdded(before, after, first, t, kind, ids, k) && k < |ids|
    requires forall e :: e in before ==> e < first
    ensures EntriesAdded(before, after[first + k := Entry(kind, ids[k], t[ids[k]].parent)], first, t, kind, ids, k + 1)
  {
  }

  lemma OneMoreTagged(t: Table, u: Table, ids: seq<nat>, first: nat, k: nat)
    requires OnesTagged(t, u, ids, first, k) && k < |ids| && ids[k] in t && Distinct(ids)
    ensures OnesTagged(t, u[ids[k] := TagRow(u[ids[k]], first + k)], ids, first, k + 1)
    ensures u[ids[k]] == t[ids[k]]
  {
    assert ids[..k + 1] == ids[..k] + [ids[k]];
  }

  lemma NoneTagged(lib: Library, js: seq<nat>)
    requires AllIn(lib.jobs, js)
    ensures OnesTagged(lib.jobs, lib.jobs, js, lib.next, 0)
    ensures EntriesAdded(lib.trash, lib.trash, lib.next, lib.jobs, JobEntry, js, 0)
  {
  }

  lemma {:induction false} JobsOneByOne(lib: Library, js: seq<nat>, k: nat)
    requires AllIn(lib.jobs, js) && Distinct(js) && k <= |js|
    requires forall e :: e in lib.trash ==> e < lib.next
    ensures OnesTagged(lib.jobs, TrashJobs(lib, js, k).jobs, js, lib.next, k)
    ensures EntriesAdded(lib.trash, TrashJobs(lib, js, k).trash, lib.next, lib.jobs, JobEntry, js, k)
  {
    hide OnesTagged, EntriesAdded, Distinct;
    if k == 0 {
      NoneTagged(lib, js);
    } else {
      JobsOneByOne(lib, js, k - 1);
      var b := TrashJobs(lib, js, k - 1);
      OneMoreTagged(lib.jobs, b.jobs, js, lib.next, k - 1);
      OneMoreEntry(lib.trash, b.trash, lib.next, lib.jobs, JobEntry, js, k - 1);
    }
  }

  /** Each of the first `k` subtrees is tagged under its own entry. */
  ghost predicate SubtreesTagged(t: Table, u: Table, fs: seq<nat>, first: nat, k: nat) {
    && u.Keys == t.Keys && k <= |fs|
    && (forall x, i: nat :: i < k && x in Subtree(t, fs[i]) ==> u[x] == TagRow(t[x], first + i))
    && (forall x :: x in t && (forall i: nat :: i < k ==> x !in Subtree(t, fs[i])) ==> u[x] == t[x])
  }

  ghost predicate ContentsTagged(t: Table, jobs: Table, u: Table, fs: seq<nat>, first: nat, k: nat) {
    && u.Keys == jobs.Keys && k <= |fs|
    && (forall j, i: nat :: i < k && IsLive(jobs, j) && IsInside(jobs, j, Subtree(t, fs[i])) ==>
         u[j] == TagRow(jobs[j], first + i))
    && (forall j :: j in jobs && jobs[j].deleted ==> u[j] == jobs[j])
    && (forall j :: j in jobs && (forall i: nat :: i < k ==> !IsInside(jobs, j, Subtree(t, fs[i]))) ==>
         u[j] == jobs[j])
  }

  lemma OneMoreSubtree(t: Table, u: Table, fs: seq<nat>, first: nat, k: nat)
    requires SubtreesTagged(t, u, fs, first, k) && k < |fs| && Apart(t, fs)
    ensures SubtreesTagged(t, TagRows(u, Subtree(t, fs[k]), first + k), fs, first, k + 1)
  {
    hide IsUnder, Apart;
    var v := TagRows(u, Subtree(t, fs[k]), first + k);
    forall x, i: nat | i < k + 1 && x in Subtree(t, fs[i]) ensures v[x] == TagRow(t[x], first + i) {
      if i < k {
        ApartSubtreesAreDisjoint(t, fs, i, k, x);
      } else {
        forall l: nat | l < k ensures x !in Subtree(t, fs[l]) { ApartSubtreesAreDisjoint(t, fs, l, k, x); }
        assert u[x] == t[x];
      }
    }
    forall x | x in t && (forall i: nat :: i < k + 1 ==> x !in Subtree(t, fs[i])) ensures v[x] == t[x] {
      assert x !in Subtree(t, fs[k]);
      assert forall i: nat :: i < k ==> x !in Subtree(t, fs[i]);
    }
  }

  lemma OneMoreContents(t: Table, jobs: Table, u: Table, fs: seq<nat>, first: nat, k: nat)
    requires ContentsTagged(t, jobs, u, fs, first, k) && k < |fs| && Apart(t, fs)
    ensures ContentsTagged(t, jobs, TagJobsInside(u, Subtree(t, fs[k]), first + k), fs, first, k + 1)
  {
    hide IsUnder, Apart, Subtree;
    var v := TagJobsInside(u, Subtree(t, fs[k]), first + k);
    forall j | j in jobs ensures u[j].parent == jobs[j].parent {
      if !jobs[j].deleted && exists i: nat :: i < k && IsInside(jobs, j, Subtree(t, fs[i])) {
        var i: nat :| i < k && IsInside(jobs, j, Subtree(t, fs[i]));
      }
    }
    forall j, i: nat | i < k + 1 && IsLive(jobs, j) && IsInside(jobs, j, Subtree(t, fs[i]))
      ensures v[j] == TagRow(jobs[j], first + i)
    {
      if i < k {
        ApartSubtreesAreDisjoint(t, fs, i, k, jobs[j].parent.value);
      } else {
        forall l: nat | l < k ensures !IsInside(jobs, j, Subtree(t, fs[l])) {
          ApartSubtreesAreDisjoint(t, fs, l, k, jobs[j].parent.value);
        }
        assert u[j] == jobs[j];
      }
    }
    forall j | j in jobs && (jobs[j].deleted || forall i: nat :: i < k + 1 ==> !IsInside(jobs, j, Subtree(t, fs[i])))
      ensures v[j] == jobs[j]
    {
      assert jobs[j].deleted || !IsInside(jobs, j, Subtree(t, fs[k]));
      assert jobs[j].deleted || forall i: nat :: i < k ==> !IsInside(jobs, j, Subtree(t, fs[i]));
    }
  }

  lemma {:induction false} FoldersOneByOne(lib: Library, before: Table, fs: seq<nat>, k: nat)
    requires lib.folders == before && AllIn(before, fs) && k <= |fs| && Apart(before, fs)
    requires forall e :: e in lib.trash ==> e < lib.next
    ensures
      var b := TrashFolders(lib, before, fs, k);
      && SubtreesTagged(before, b.folders, fs, lib.next, k)
      && ContentsTagged(before, lib.jobs, b.jobs, fs, lib.next, k)
      && EntriesAdded(lib.trash, b.trash, lib.next, before, FolderEntry, fs, k)
  {
    hide Apart, Subtree, SubtreesTagged, ContentsTagged, EntriesAdded, TagRows, TagJobsInside;
    if k == 0 {
      NothingTagged(lib, before, fs);
    } else {
      FoldersOneByOne(lib, before, fs, k - 1);
      var b := TrashFolders(lib, before, fs, k - 1);
      OneMoreSubtree(before, b.folders, fs, lib.next, k - 1);
      OneMoreContents(before, lib.jobs, b.jobs, fs, lib.next, k - 1);
      TaggedKeepsParent(before, b.folders, fs, lib.next, k - 1, fs[k - 1]);
      OneMoreEntry(lib.trash, b.trash, lib.next, before, FolderEntry, fs, k - 1);
    }
  }

  lemma NothingTagged(lib: Library, before: Table, fs: seq<nat>)
    requires lib.folders == before && AllIn(before, fs)
    ensures EntriesAdded(lib.trash, lib.trash, lib.next, before, FolderEntry, fs, 0)
    ensures SubtreesTagged(before, lib.folders, fs, lib.next, 0)
    ensures ContentsTagged(before, lib.jobs, lib.jobs, fs, lib.next, 0)
  {
  }

  lemma TaggedKeepsParent(t: Table, u: Table, fs: seq<nat>, first: nat, k: nat, x: nat)
    requires SubtreesTagged(t, u, fs, first, k) && x in t
    ensures u[x].parent == t[x].parent
  {
    if i: nat :| i < k && x in Subtree(t, fs[i]) {
      assert u[x] == TagRow(t[x], first + i);
    }
  }

  // ---- a delete in one picture ----

  /** Each live row of `t` is as it was, or tagged with one of the new entries. */
  ghost predicate OnlyTagged(t: Table, u: Table, first: nat, end: nat) {
    && u.Keys == t.Keys
    && forall x :: x in t ==> IsNewlyTagged(t[x], u[x], first, end)
  }

  predicate IsNewlyTagged(a: Row, b: Row, first: nat, end: nat) {
    || b == a
    || (!a.deleted && b.tag.Some? && first <= b.tag.value < end && b == TagRow(a, b.tag.value))
  }

  ghost predicate EntriesMatch(a: Library, b: Library, js: seq<nat>, fs: seq<nat>) {
    var n := a.next;
    && (forall e :: e in b.trash <==> e in a.trash || n <= e < b.next)
    && (forall e :: e in a.trash ==> e in b.trash && b.trash[e] == a.trash[e])
    && (forall k: nat :: k < |js| && js[k] in a.jobs && n + k in b.trash ==>
         b.trash[n + k] == Entry(JobEntry, js[k], a.jobs[js[k]].parent))
    && (forall k: nat :: k < |fs| && fs[k] in a.folders && n + |js| + k in b.trash ==>
         b.trash[n + |js| + k] == Entry(FolderEntry, fs[k], a.folders[fs[k]].parent))
  }

  lemma EntriesAreOld(lib: Library)
    requires Inv(lib)
    ensures forall e :: e in lib.trash ==> e < lib.next
  {
    hide Acyclic, HangTogether;
    assert forall e :: e in lib.trash ==> OwnsItsRoot(lib, e);
  }

  lemma EntriesCombine(a: Library, c: map<nat, Entry>, b: Library, js: seq<nat>, fs: seq<nat>)
    requires forall e :: e in a.trash ==> e < a.next
    requires EntriesAdded(a.trash, c, a.next, a.jobs, JobEntry, js, |js|)
    requires EntriesAdded(c, b.trash, a.next + |js|, a.folders, FolderEntry, fs, |fs|)
    requires b.next == a.next + |js| + |fs|
    ensures EntriesMatch(a, b, js, fs)
  {
  }

  lemma DeleteShape(a: Library, js: seq<nat>, fs: seq<nat>)
    requires Inv(a) && AllIn(a.jobs, js) && AllIn(a.folders, fs) && IsOutermost(a, js, fs)
    ensures
      var c, b := TrashJobs(a, js, |js|), DeleteItems(a, js, fs);
      && OnesTagged(a.jobs, c.jobs, js, a.next, |js|)
      && SubtreesTagged(a.folders, b.folders, fs, c.next, |fs|)
      && ContentsTagged(a.folders, c.jobs, b.jobs, fs, c.next, |fs|)
      && EntriesMatch(a, b, js, fs)
  {
    hide Inv, IsOutermost, Apart, Distinct, AllIn, EntriesAdded;
    hide OnesTagged, SubtreesTagged, ContentsTagged, EntriesMatch, AllLive, Subtree;
    EntriesAreOld(a);
    OutermostParts(a, js, fs);
    JobsOneByOne(a, js, |js|);
    var c := TrashJobs(a, js, |js|);
    hide TrashJobs;
    assert forall e :: e in c.trash ==> e < c.next by { AddedAreBelow(a, c, js); }
    FoldersOneByOne(c, a.folders, fs, |fs|);
    EntriesCombine(a, c.trash, DeleteItems(a, js, fs), js, fs);
  }

  lemma OutermostParts(a: Library, js: seq<nat>, fs: seq<nat>)
    requires IsOutermost(a, js, fs)
    ensures Distinct(js) && AllLive(a.jobs, js) && AllLive(a.folders, fs) && Apart(a.folders, fs)
  {
  }

  lemma AddedAreBelow(a: Library, c: Library, js: seq<nat>)
    requires (forall e :: e in a.trash ==> e < a.next) && c.next == a.next + |js|
    requires EntriesAdded(a.trash, c.trash, a.next, a.jobs, JobEntry, js, |js|)
    ensures forall e :: e in c.trash ==> e < c.next
  {
  }

  lemma FoldersOnlyTagged(t: Table, u: Table, fs: seq<nat>, first: nat, lo: nat, hi: nat)
    requires SubtreesTagged(t, u, fs, first, |fs|) && lo <= first && first + |fs| <= hi
    ensures OnlyTagged(t, u, lo, hi)
  {
    hide IsUnder;
    forall x | x in t ensures IsNewlyTagged(t[x], u[x], lo, hi) {
      if i: nat :| i < |fs| && x in Subtree(t, fs[i]) {
        assert u[x] == TagRow(t[x], first + i);
      }
    }
  }

  lemma JobsOnlyTagged(t: Table, j0: Table, j1: Table, j2: Table, js: seq<nat>, fs: seq<nat>, first: nat)
    requires OnesTagged(j0, j1, js, first, |js|) && AllLive(j0, js)
    requires ContentsTagged(t, j1, j2, fs, first + |js|, |fs|)
    ensures OnlyTagged(j0, j2, first, first + |js| + |fs|)
  {
    hide Subtree;
    assert js[..|js|] == js;
    forall j | j in j0 ensures IsNewlyTagged(j0[j], j2[j], first, first + |js| + |fs|) {
      if j in js {
        var k: nat :| k < |js| && js[k] == j;
        assert j1[j] == TagRow(j0[j], first + k) && j2[j] == j1[j];
      } else if i: nat :| i < |fs| && !j1[j].deleted && IsInside(j1, j, Subtree(t, fs[i])) {
        assert j2[j] == TagRow(j1[j], first + |js| + i);
      } else {
        assert j1[j].deleted || forall i: nat :: i < |fs| ==> !IsInside(j1, j, Subtree(t, fs[i]));
      }
    }
  }

  lemma DeleteOnlyTags(a: Library, js: seq<nat>, fs: seq<nat>)
    requires Inv(a) && AllIn(a.jobs, js) && AllIn(a.folders, fs) && IsOutermost(a, js, fs)
    ensures
      var b := DeleteItems(a, js, fs);
      OnlyTagged(a.folders, b.folders, a.next, b.next) && OnlyTagged(a.jobs, b.jobs, a.next, b.next)
  {
    hide Inv, Apart, Subtree, IsInside, AllLive, AllIn, TrashJobs, TrashFolders;
    hide OnesTagged, SubtreesTagged, ContentsTagged, EntriesMatch, OnlyTagged, DeleteItems;
    DeleteShape(a, js, fs);
    var c, b := TrashJobs(a, js, |js|), DeleteItems(a, js, fs);
    FoldersOnlyTagged(a.folders, b.folders, fs, c.next, a.next, b.next);
    JobsOnlyTagged(a.folders, a.jobs, c.jobs, b.jobs, js, fs, a.next);
  }

  lemma DeleteKeepsInv(a: Library, js: seq<nat>, fs: seq<nat>)
    requires Inv(a) && AllIn(a.jobs, js) && AllIn(a.folders, fs) && IsOutermost(a, js, fs)
    ensures Inv(DeleteItems(a, js, fs))
  {
    hide Inv, IsOutermost, Apart, Distinct, AllIn, AllLive;
    OutermostParts(a, js, fs);
    TrashJobsKeepInv(a, js, |js|);
    TrashFoldersKeepInv(TrashJobs(a, js, |js|), fs, |fs|);
  }

  // ---- and back ----

  /** `es` are the entries a delete made, in any order. */
  ghost predicate AreNewEntries(a: Library, b: Library, es: seq<nat>) {
    AreEntries(b, es) && forall e :: e in es <==> a.next <= e < b.next
  }

  lemma NewEntriesExist(a: Library, b: Library, js: seq<nat>, fs: seq<nat>)
    requires EntriesMatch(a, b, js, fs)
    ensures forall e :: a.next <= e < b.next ==> e in b.trash
  {
  }

  /** A parent that was live is live again, or still. */
  lemma TargetIsOldParent(a: Library, b: Library, es: seq<nat>, p: nat)
    requires OnlyTagged(a.folders, b.folders, a.next, b.next) && AreNewEntries(a, b, es) && IsLive(a.folders, p)
    ensures p in LiveAfter(b, es)
  {
    assert IsNewlyTagged(a.folders[p], b.folders[p], a.next, b.next);
  }

  lemma OldTagsAreNotNew(a: Library, kind: Kind, x: nat)
    requires Inv(a) && x in RowsOf(a, kind)
    ensures RowsOf(a, kind)[x].tag.Some? ==> RowsOf(a, kind)[x].tag.value < a.next
    ensures !RowsOf(a, kind)[x].deleted ==> RowsOf(a, kind)[x].tag.None?
  {
    EntriesAreOld(a);
    hide Acyclic, HangTogether, OwnsItsRoot, HaveParents;
  }

  lemma LiveRowsParent(a: Library, kind: Kind, x: nat)
    requires Inv(a) && IsLive(RowsOf(a, kind), x) && RowsOf(a, kind)[x].parent.Some?
    ensures IsLive(a.folders, RowsOf(a, kind)[x].parent.value)
  {
    hide Acyclic, HangTogether, OwnsItsRoot, AreTagged, IdsBelow;
  }

  /** Every row is what it was, but for the position of a root. */
  lemma UndoneRow(a: Library, b: Library, es: seq<nat>, kind: Kind, u: Table, x: nat)
    requires Inv(a) && Inv(b) && AreNewEntries(a, b, es) && x in RowsOf(a, kind)
    requires OnlyTagged(a.folders, b.folders, a.next, b.next)
    requires OnlyTagged(RowsOf(a, kind), RowsOf(b, kind), a.next, b.next)
    requires AreRestored(b, es, LiveAfter(b, es), kind, |es|, u)
    ensures
      var row := RowsOf(a, kind)[x];
      && x in u && u[x] == row.(position := u[x].position)
      && ((forall i :: 0 <= i < |es| ==> !IsRootOf(b, es[i], kind, x)) ==> u[x] == row)
  {
    var t, v, live := RowsOf(a, kind), RowsOf(b, kind), LiveAfter(b, es);
    OldTagsAreNotNew(a, kind, x);
    assert IsNewlyTagged(t[x], v[x], a.next, b.next);
    hide Inv, PositionFor, OnlyTagged;
    if v[x] == t[x] {
      assert forall i :: 0 <= i < |es| ==> es[i] in es;
      assert forall i :: 0 <= i < |es| ==> v[x].tag != Some(es[i]);
    } else {
      assert v[x].tag.value in es;
      var i: nat :| i < |es| && es[i] == v[x].tag.value;
      assert u[x] == RestoredRow(b, es, live, kind, i, x);
      hide AreRestored;
      if IsRootOf(b, es[i], kind, x) { RootGoesBack(a, b, es, kind, i, x); }
    }
  }

  lemma RootGoesBack(a: Library, b: Library, es: seq<nat>, kind: Kind, i: nat, x: nat)
    requires Inv(a) && Inv(b) && AreNewEntries(a, b, es) && i < |es| && IsRootOf(b, es[i], kind, x)
    requires OnlyTagged(a.folders, b.folders, a.next, b.next) && IsLive(RowsOf(a, kind), x)
    requires x in RowsOf(b, kind) && RowsOf(b, kind)[x].parent == RowsOf(a, kind)[x].parent
    ensures TargetOf(b.trash[es[i]], LiveAfter(b, es)) == RowsOf(a, kind)[x].parent
  {
    RootParent(b, es[i]);
    var p := RowsOf(a, kind)[x].parent;
    if p.Some? {
      LiveRowsParent(a, kind, x);
      TargetIsOldParent(a, b, es, p.value);
    }
    hide Inv, OnlyTagged, LiveAfter;
  }

  lemma RootParent(b: Library, e: nat)
    requires Inv(b) && e in b.trash
    ensures b.trash[e].root in RowsOf(b, b.trash[e].kind)
    ensures RowsOf(b, b.trash[e].kind)[b.trash[e].root].parent == b.trash[e].parent
  {
    hide Acyclic, HangTogether, HaveParents, AreTagged, IdsBelow;
    assert OwnsItsRoot(b, e);
  }

  /** What the delete took out of a table. */
  ghost function Gone(a: Table, b: Table): (r: set<nat>)
    ensures forall x :: x in r <==> IsLive(a, x) && !IsLive(b, x)
  {
    set x | x in a && IsLive(a, x) && !IsLive(b, x)
  }

  /** Deleting leaves the order of what stays. */
  lemma OrderAfterDelete(t: Table, v: Table, p: Option<nat>, n: nat, first: nat, end: nat)
    requires OnlyTagged(t, v, first, end)
    ensures Siblings(v, p, n) == Without(Siblings(t, p, n), Gone(t, v))
  {
    forall x | x in t ensures IsNewlyTagged(t[x], v[x], first, end) {
    }
    hide Siblings, Without, OnlyTagged;
    OrderAfterLoss(t, v, p, n, Gone(t, v));
  }

  /** No item of the selection sits in a folder the selection takes along. */
  lemma RootsAreNotInside(a: Library, js: seq<nat>, fs: seq<nat>, es: seq<nat>, kind: Kind, x: nat, i: nat, p: nat)
    requires Inv(a) && AllIn(a.jobs, js) && AllIn(a.folders, fs) && IsOutermost(a, js, fs)
    requires AreNewEntries(a, DeleteItems(a, js, fs), es) && i < |es|
    requires IsLive(a.folders, p) && !IsLive(DeleteItems(a, js, fs).folders, p)
    requires x in RowsOf(a, kind) && RowsOf(a, kind)[x].parent == Some(p)
    ensures !IsRootOf(DeleteItems(a, js, fs), es[i], kind, x)
  {
    hide Inv, IsOutermost, AreEntries, DeleteItems, OnesTagged, SubtreesTagged, ContentsTagged, AllIn, EntriesMatch;
    var b := DeleteItems(a, js, fs);
    DeleteShape(a, js, fs);
    TrashedIsInside(a.folders, b.folders, fs, a.next + |js|, p);
    var l: nat :| l < |fs| && p in Subtree(a.folders, fs[l]);
    InsideIsNotSelected(a, js, fs, kind, x, p, l);
    assert es[i] in es;
    NewEntriesExist(a, b, js, fs);
    NewRootIsSelected(a, b, js, fs, es[i]);
  }

  lemma InsideIsNotSelected(a: Library, js: seq<nat>, fs: seq<nat>, kind: Kind, x: nat, p: nat, l: nat)
    requires Inv(a) && IsOutermost(a, js, fs) && l < |fs| && p in Subtree(a.folders, fs[l])
    requires x in RowsOf(a, kind) && RowsOf(a, kind)[x].parent == Some(p)
    ensures if kind.JobEntry? then x !in js else x !in fs
  {
    if kind.JobEntry? {
      hide Inv, Subtree, Apart;
      assert IsInside(a.jobs, x, Subtree(a.folders, fs[l]));
    } else {
      UnderByParent(a.folders, x, fs[l]);
      AcyclicParent(a, x, p);
      hide Inv, IsUnder;
      forall k: nat | k < |fs| ensures fs[k] != x {
        if k != l { ApartFrom(a, js, fs, k, l); }
      }
    }
  }

  lemma ApartFrom(a: Library, js: seq<nat>, fs: seq<nat>, k: nat, l: nat)
    requires IsOutermost(a, js, fs) && k < |fs| && l < |fs| && k != l
    ensures !IsUnder(a.folders, fs[k], fs[l])
  {
  }

  lemma AcyclicParent(a: Library, x: nat, p: nat)
    requires Inv(a) && x in a.folders && a.folders[x].parent == Some(p)
    ensures !IsUnder(a.folders, p, x)
  {
    hide HangTogether, OwnsItsRoot, HaveParents, IdsBelow, AreTagged;
    AcyclicMeansNoCycle(a.folders, x, x);
  }

  lemma TrashedIsInside(t: Table, u: Table, fs: seq<nat>, first: nat, p: nat)
    requires SubtreesTagged(t, u, fs, first, |fs|) && IsLive(t, p) && !IsLive(u, p)
    ensures exists i: nat :: i < |fs| && p in Subtree(t, fs[i])
  {
    hide Subtree;
  }

  lemma NewRootIsSelected(a: Library, b: Library, js: seq<nat>, fs: seq<nat>, e: nat)
    requires EntriesMatch(a, b, js, fs) && a.next <= e < b.next == a.next + |js| + |fs|
    requires AllIn(a.jobs, js) && AllIn(a.folders, fs) && e in b.trash
    ensures b.trash[e].kind.JobEntry? ==> b.trash[e].root in js
    ensures b.trash[e].kind.FolderEntry? ==> b.trash[e].root in fs
  {
    var k := e - a.next;
    if k < |js| {
      assert js[k] in a.jobs && a.next + k in b.trash;
    } else {
      assert fs[k - |js|] in a.folders && a.next + |js| + (k - |js|) in b.trash;
    }
  }

  /** Restoring what a delete made, in any order, undoes it: the same rows are live, under
      the same parents, and the trash is what it was. */
  lemma RestoreUndoesDelete(a: Library, js: seq<nat>, fs: seq<nat>, es: seq<nat>)
    requires Inv(a) && AllIn(a.jobs, js) && AllIn(a.folders, fs) && IsOutermost(a, js, fs)
    requires AreNewEntries(a, DeleteItems(a, js, fs), es)
    ensures
      var c := Restore(DeleteItems(a, js, fs), es);
      && c.trash == a.trash && c.folders.Keys == a.folders.Keys && c.jobs.Keys == a.jobs.Keys
      && (forall x :: x in a.folders ==> c.folders[x] == a.folders[x].(position := c.folders[x].position))
      && (forall x :: x in a.jobs ==> c.jobs[x] == a.jobs[x].(position := c.jobs[x].position))
  {
    hide Inv, IsOutermost, AllIn, DeleteItems, OnlyTagged, OnesTagged, SubtreesTagged, ContentsTagged;
    hide AreNewEntries, EntriesMatch, Reindex, RestoreAll, TargetsOf, LiveAfter;
    var b := DeleteItems(a, js, fs);
    DeleteKeepsInv(a, js, fs);
    DeleteOnlyTags(a, js, fs);
    UndoneTable(a, b, es, FolderEntry);
    UndoneTable(a, b, es, JobEntry);
    DeleteShape(a, js, fs);
    TrashIsBack(a, b, js, fs, es);
  }

  lemma TrashIsBack(a: Library, b: Library, js: seq<nat>, fs: seq<nat>, es: seq<nat>)
    requires Inv(a) && EntriesMatch(a, b, js, fs) && AreNewEntries(a, b, es)
    ensures Restore(b, es).trash == a.trash
  {
    EntriesAreOld(a);
    hide Inv, Reindex, RestoreAll, TargetsOf, LiveAfter;
    assert es[..|es|] == es;
    var r := RestoreAll(b, es, LiveAfter(b, es), |es|);
    assert forall e :: e in r.trash <==> e in a.trash;
    assert r.trash == a.trash;
  }

  lemma UndoneTable(a: Library, b: Library, es: seq<nat>, kind: Kind)
    requires Inv(a) && Inv(b) && AreNewEntries(a, b, es)
    requires OnlyTagged(a.folders, b.folders, a.next, b.next) && OnlyTagged(a.jobs, b.jobs, a.next, b.next)
    ensures
      var t, c := RowsOf(a, kind), RowsOf(Restore(b, es), kind);
      c.Keys == t.Keys && forall x :: x in t ==> c[x] == t[x].(position := c[x].position)
  {
    var live := LiveAfter(b, es);
    RestoredRows(b, es, live, kind, |es|);
    var t, u := RowsOf(a, kind), RowsOf(RestoreAll(b, es, live, |es|), kind);
    var c := RowsOf(Restore(b, es), kind);
    assert c == Reindex(u, TargetsOf(b, es, live, kind), b.next);
    hide Inv, RestoreAll, Restore, AreRestored, OnlyTagged, AreNewEntries, TargetsOf, LiveAfter;
    forall x | x in t ensures c[x] == t[x].(position := c[x].position) {
      UndoneRow(a, b, es, kind, u, x);
    }
    assert u.Keys == t.Keys by { SameKeys(a, b, es, kind, u); }
  }

  lemma SameKeys(a: Library, b: Library, es: seq<nat>, kind: Kind, u: Table)
    requires OnlyTagged(a.folders, b.folders, a.next, b.next) && OnlyTagged(a.jobs, b.jobs, a.next, b.next)
    requires AreEntries(b, es) && AreRestored(b, es, LiveAfter(b, es), kind, |es|, u)
    ensures u.Keys == RowsOf(a, kind).Keys
  {
  }

  /** And the manual order: inside what was deleted it is the old one; under any other
      parent the restored rows follow the rows that stayed, in the order of the request. */
  lemma RestoredOrder(a: Library, js: seq<nat>, fs: seq<nat>, es: seq<nat>, kind: Kind, p: Option<nat>)
    requires Inv(a) && AllIn(a.jobs, js) && AllIn(a.folders, fs) && IsOutermost(a, js, fs)
    requires AreNewEntries(a, DeleteItems(a, js, fs), es) && CanHold(a, p)
    ensures
      var b := DeleteItems(a, js, fs);
      var t, v := RowsOf(a, kind), RowsOf(b, kind);
      Siblings(RowsOf(Restore(b, es), kind), p, b.next) ==
        if CanHold(b, p) then
          Without(Siblings(t, p, b.next), Gone(t, v)) + RootsUnder(b, es, LiveAfter(b, es), kind, p, |es|)
        else Siblings(t, p, b.next)
  {
    var b := DeleteItems(a, js, fs);
    DeleteKeepsInv(a, js, fs);
    DeleteOnlyTags(a, js, fs);
    hide Inv, IsOutermost, DeleteItems, Siblings, Without, RootsUnder, Restore, OnlyTagged;
    if CanHold(b, p) {
      RestoreAppends(b, es, kind, p);
      OrderAfterDelete(RowsOf(a, kind), RowsOf(b, kind), p, b.next, a.next, b.next);
    } else {
      OrderInsideRestored(a, js, fs, es, kind, p.value);
    }
  }

  lemma OrderInsideRestored(a: Library, js: seq<nat>, fs: seq<nat>, es: seq<nat>, kind: Kind, p: nat)
    requires Inv(a) && AllIn(a.jobs, js) && AllIn(a.folders, fs) && IsOutermost(a, js, fs)
    requires AreNewEntries(a, DeleteItems(a, js, fs), es)
    requires IsLive(a.folders, p) && !IsLive(DeleteItems(a, js, fs).folders, p)
    ensures
      var b := DeleteItems(a, js, fs);
      Siblings(RowsOf(Restore(b, es), kind), Some(p), b.next) == Siblings(RowsOf(a, kind), Some(p), b.next)
  {
    hide Inv, IsOutermost, AllIn, AreNewEntries, DeleteItems, OnlyTagged, AreRestored, RestoreAll, Reindex, IsRootOf;
    var b := DeleteItems(a, js, fs);
    DeleteKeepsInv(a, js, fs);
    DeleteOnlyTags(a, js, fs);
    assert AreEntries(b, es) by { NewAreEntries(a, b, es); }
    var live := LiveAfter(b, es);
    var t, u := RowsOf(a, kind), RowsOf(RestoreAll(b, es, live, |es|), kind);
    RestoredRows(b, es, live, kind, |es|);
    SameKeys(a, b, es, kind, u);
    ReindexKeepsOrder(u, TargetsOf(b, es, live, kind), b.next, Some(p));
    assert RowsOf(Restore(b, es), kind) == Reindex(u, TargetsOf(b, es, live, kind), b.next);
    hide Restore, Siblings, LiveAfter, TargetsOf;
    forall x | x in t ensures u[x] == t[x].(position := u[x].position) && (t[x].parent == Some(p) ==> u[x] == t[x]) {
      UndoneRow(a, b, es, kind, u, x);
      if t[x].parent == Some(p) {
        forall i: nat | i < |es| ensures !IsRootOf(b, es[i], kind, x) {
          RootsAreNotInside(a, js, fs, es, kind, x, i, p);
        }
      }
    }
    SameUnderParent(t, u, Some(p), b.next);
  }

  lemma NewAreEntries(a: Library, b: Library, es: seq<nat>)
    requires AreNewEntries(a, b, es)
    ensures AreEntries(b, es)
  {
  }

  lemma SameUnderParent(t: Table, u: Table, p: Option<nat>, n: nat)
    requires u.Keys == t.Keys && forall x :: x in t ==> u[x] == t[x].(position := u[x].position)
    requires forall x :: x in t && t[x].parent == p ==> u[x] == t[x]
    ensures Siblings(u, p, n) == Siblings(t, p, n)
  {
    hide Siblings, Without;
    OrderAfterLoss(t, u, p, n, {});
    WithoutNothing(Siblings(t, p, n), {});
  }
}
