/** The next batch: the ranked chunks by group, the group that gets the GPU, and as many of
    its chunks as fit (server/app/scheduler/service.py, `_select_next_batch`). */
module BatchSelection {
  import opened Wrappers
  import opened Sorting
  import opened JobModel
  import opened Pipeline
  import opened PipelineSafety
  import opened DispatchOrder
  import opened Residency

  // ---- how many chunks ----

  /** What is known of the memory when a batch is sized. `perChunk` is the learned cost of
      one chunk; a cost of zero counts as unknown. */
  datatype Memory = Memory(inUse: nat, total: nat, softLimit: nat, perChunk: Option<real>, headroom: Option<int>)
  {
    predicate Valid() { perChunk.Some? ==> perChunk.value >= 0.0 }

    predicate KnowsCost() { perChunk.Some? && perChunk.value != 0.0 }

    function Budget(): nat { if softLimit != 0 then softLimit else total }
  }

  /** Python's `int`: towards zero. */
  function Truncate(x: real): int { if x >= 0.0 then x.Floor else -((-x).Floor) }

  function BudgetFit(m: Memory): int
    requires m.KnowsCost()
  {
    Truncate((m.Budget() - m.inUse) as real / m.perChunk.value)
  }

  function HeadroomFit(m: Memory): int
    requires m.KnowsCost() && m.headroom.Some?
  {
    Truncate(m.headroom.value as real / m.perChunk.value)
  }

  predicate InBudget(size: nat, m: Memory) { m.Budget() > 0 && m.KnowsCost() ==> size <= BudgetFit(m) }

  predicate InHeadroom(size: nat, m: Memory) { m.headroom.Some? && m.KnowsCost() ==> size <= HeadroomFit(m) }

  predicate IsFull(m: Memory) { m.Budget() > 0 && m.inUse >= m.Budget() }

  predicate Usable(size: nat, available: nat, m: Memory) {
    size <= available && !IsFull(m) && InBudget(size, m) && InHeadroom(size, m)
  }

  function UpToLimit(candidates: seq<nat>, limit: int): (r: seq<nat>)
    ensures forall c :: c in r <==> c in candidates && c <= limit
  {
    if candidates == [] then [] else
      (if candidates[0] <= limit then [candidates[0]] else []) + UpToLimit(candidates[1..], limit)
  }

  ghost predicate Descending(candidates: seq<nat>) {
    forall k, l :: 0 <= k < l < |candidates| ==> candidates[k] >= candidates[l]
  }

  lemma {:induction false} FilterStaysDescending(candidates: seq<nat>, limit: int)
    requires Descending(candidates)
    ensures Descending(UpToLimit(candidates, limit))
  {
    if candidates != [] {
      var rest := UpToLimit(candidates[1..], limit);
      FilterStaysDescending(candidates[1..], limit);
      forall k | 0 <= k < |rest| ensures candidates[0] >= rest[k] {
        assert rest[k] in rest && rest[k] in candidates[1..];
      }
    }
  }

  /** What is left of the candidates: each passes `keep` or is the single chunk that is
      always tried, and none that passes every test is lost. */
  ghost predicate Narrowed(candidates: seq<nat>, left: seq<nat>, keep: nat -> bool, usable: nat -> bool) {
    && (forall c :: c in left ==> c == 1 || (c in candidates && keep(c)))
    && (forall c :: c in candidates && usable(c) ==> c in left)
    && (Descending(candidates) ==> Descending(left))
  }

  function BudgetTest(m: Memory): nat -> bool { (c: nat) => InBudget(c, m) }

  function MemoryTest(m: Memory): nat -> bool { (c: nat) => InBudget(c, m) && InHeadroom(c, m) }

  function UsableTest(available: nat, m: Memory): nat -> bool { (c: nat) => Usable(c, available, m) }

  /** `_choose_batch_size`: a single chunk, or a candidate that fits the memory and the
      queue; with the candidates in falling order, the largest one. */
  method ChooseBatchSize(candidates: seq<nat>, available: nat, m: Memory) returns (size: nat)
    requires m.Valid() && forall c :: c in candidates ==> c >= 1
    ensures size == 1 || (size in candidates && Usable(size, available, m))
    ensures Descending(candidates) ==> forall c :: c in candidates && Usable(c, available, m) ==> c <= size
  {
    hide InBudget, InHeadroom;
    if IsFull(m) { return 1; }
    var left := NarrowToBudget(candidates, available, m);
    left := NarrowToHeadroom(candidates, left, available, m);
    for k := 0 to |left|
      invariant forall l :: 0 <= l < k ==> left[l] > available
    {
      assert left[k] in left;
      if available >= left[k] {
        forall c | c in candidates && Usable(c, available, m) && Descending(candidates) ensures c <= left[k] {
          assert UsableTest(available, m)(c);
          var l :| 0 <= l < |left| && left[l] == c;
        }
        return left[k];
      }
    }
    assert forall c :: c in left ==> c > available;
    forall c | c in candidates ensures !Usable(c, available, m) {
      assert UsableTest(available, m)(c) ==> c in left;
    }
    return 1;
  }

  method NarrowToBudget(candidates: seq<nat>, ghost available: nat, m: Memory) returns (left: seq<nat>)
    requires m.Valid() && !IsFull(m)
    ensures Narrowed(candidates, left, BudgetTest(m), UsableTest(available, m))
  {
    left := candidates;
    if m.Budget() > 0 && m.KnowsCost() {
      left := UpToLimit(candidates, BudgetFit(m));
      if Descending(candidates) { FilterStaysDescending(candidates, BudgetFit(m)); }
      if left == [] { left := [1]; }
    }
  }

  method NarrowToHeadroom(candidates: seq<nat>, before: seq<nat>, ghost available: nat, m: Memory)
    returns (left: seq<nat>)
    requires m.Valid() && Narrowed(candidates, before, BudgetTest(m), UsableTest(available, m))
    ensures Narrowed(candidates, left, MemoryTest(m), UsableTest(available, m))
  {
    left := before;
    if m.headroom.Some? && m.KnowsCost() {
      left := UpToLimit(before, HeadroomFit(m));
      if Descending(before) { FilterStaysDescending(before, HeadroomFit(m)); }
      if left == [] { left := [1]; }
    }
  }

  /** A size is usable exactly when there are as many chunks and, as far as the cost of one is
      known, so many are expected to stay within the budget and within the memory that is
      really free. While the cost is not known, it is enough that the budget is not used up. */
  lemma UsableExactlyWhen(size: nat, available: nat, m: Memory)
    requires m.Valid() && size >= 1
    ensures m.KnowsCost() ==>
      (Usable(size, available, m) <==>
        && size <= available
        && (m.Budget() > 0 ==> m.inUse as real + size as real * m.perChunk.value <= m.Budget() as real)
        && (m.headroom.Some? ==> size as real * m.perChunk.value <= m.headroom.value as real))
    ensures !m.KnowsCost() ==>
      (Usable(size, available, m) <==> size <= available && (m.Budget() == 0 || m.inUse < m.Budget()))
  {
    if m.KnowsCost() {
      var cost := m.perChunk.value;
      assert size as real * cost > 0.0;
      if m.Budget() > 0 { TruncatedQuotient((m.Budget() - m.inUse) as real, cost, size); }
      if m.headroom.Some? { TruncatedQuotient(m.headroom.value as real, cost, size); }
      hide Truncate;
    }
  }

  lemma TruncatedQuotient(x: real, cost: real, size: nat)
    requires cost > 0.0 && size >= 1
    ensures size <= Truncate(x / cost) <==> size as real * cost <= x
  {
    var q := x / cost;
    assert q * cost == x;
    assert size as real <= q <==> size as real * cost <= q * cost;
    assert q < 0.0 ==> (-q).Floor >= 0;
  }

  // ---- which chunks ----

  function BandsIn(ranked: seq<Item>, places: seq<nat>, band: nat -> nat): seq<nat>
    requires forall k :: 0 <= k < |places| ==> places[k] < |ranked|
  {
    seq<nat>(|places|, k requires 0 <= k < |places| => band(ranked[places[k]].job))
  }

  /** Per group, the bands of its chunks' jobs. */
  function BandsOf(ranked: seq<Item>, band: nat -> nat): (r: map<Group, seq<nat>>)
    ensures forall g :: g in r <==> g in Groups(ranked, |ranked|)
  {
    map g | g in Groups(ranked, |ranked|) ::
      assert forall k :: 0 <= k < |GroupPlaces(ranked, g)| ==> GroupPlaces(ranked, g)[k] in GroupPlaces(ranked, g);
      BandsIn(ranked, GroupPlaces(ranked, g), band)
  }

  ghost predicate HasBandZero(ranked: seq<Item>, band: nat -> nat, g: Group) {
    exists p: nat :: p < |ranked| && ranked[p].group == g && band(ranked[p].job) == 0
  }

  lemma {:induction false} UrgentGroupsAre(ranked: seq<Item>, band: nat -> nat, g: Group)
    requires g in Groups(ranked, |ranked|)
    ensures HasUrgent(BandsOf(ranked, band)[g]) <==> HasBandZero(ranked, band, g)
  {
    var places, bands := GroupPlaces(ranked, g), BandsOf(ranked, band)[g];
    hide Groups, Places;
    assert forall i :: 0 <= i < |places| ==> places[i] in places;
    assert |bands| == |places| && forall i :: 0 <= i < |places| ==> bands[i] == band(ranked[places[i]].job);
    hide BandsOf, GroupPlaces;
    if HasUrgent(bands) {
      var i :| 0 <= i < |bands| && bands[i] == 0;
      assert ranked[places[i]].group == g;
    }
    if HasBandZero(ranked, band, g) {
      var p: nat :| p < |ranked| && ranked[p].group == g && band(ranked[p].job) == 0;
      var i :| 0 <= i < |places| && places[i] == p;
      assert bands[i] == 0;
    }
  }

  /** A model is urgent exactly when it has a chunk whose job is in band 0. */
  lemma {:induction false} UrgentModelsAre(ranked: seq<Item>, band: nat -> nat, model: string)
    ensures model in UrgentModels(Groups(ranked, |ranked|), BandsOf(ranked, band)) <==>
      exists p: nat :: p < |ranked| && ranked[p].group.model == model && band(ranked[p].job) == 0
  {
    var keys, bands := Groups(ranked, |ranked|), BandsOf(ranked, band);
    hide Groups, BandsOf, HasUrgent;
    if model in UrgentModels(keys, bands) {
      var k :| 0 <= k < |keys| && HasUrgent(bands[keys[k]]) && keys[k].model == model;
      UrgentGroupsAre(ranked, band, keys[k]);
      var p: nat :| p < |ranked| && ranked[p].group == keys[k] && band(ranked[p].job) == 0;
    }
    if p: nat :| p < |ranked| && ranked[p].group.model == model && band(ranked[p].job) == 0 {
      assert ranked[p].group in keys;
      UrgentGroupsAre(ranked, band, ranked[p].group);
      assert HasBandZero(ranked, band, ranked[p].group);
      var k :| 0 <= k < |keys| && keys[k] == ranked[p].group;
    }
  }

  lemma GroupsHaveChunks(items: seq<Item>, keys: seq<Group>, groups: map<Group, seq<nat>>)
    requires ListsGroups(items, keys, groups, |items|)
    ensures keys == Groups(items, |items|) && (keys == [] <==> items == [])
    ensures forall g :: g in keys ==> g in groups
    ensures forall g :: g in groups ==> groups[g] == GroupPlaces(items, g) != []
    ensures forall g, k :: g in groups && 0 <= k < |groups[g]| ==> groups[g][k] < |items|
  {
    GroupsExist(items);
    hide Groups, Places;
    forall g | g in groups
      ensures groups[g] != []
      ensures forall k :: 0 <= k < |groups[g]| ==> groups[g][k] < |items|
    {
      assert groups[g] == GroupPlaces(items, g) && g in keys;
      GroupHasPlaces(items, g);
    }
  }

  lemma GroupsExist(items: seq<Item>)
    ensures Groups(items, |items|) == [] <==> items == []
  {
    if items != [] { assert items[0].group in Groups(items, |items|); }
  }

  lemma GroupHasPlaces(items: seq<Item>, g: Group)
    requires g in Groups(items, |items|)
    ensures GroupPlaces(items, g) != []
    ensures forall k :: 0 <= k < |GroupPlaces(items, g)| ==> GroupPlaces(items, g)[k] < |items|
  {
    hide Groups, Places;
    var places := GroupPlaces(items, g);
    var p :| 0 <= p < |items| && items[p].group == g;
    assert p in places;
    assert forall k :: 0 <= k < |places| ==> places[k] in places;
  }

  /** `_select_next_batch` on the ranked list: the best chunks of one group. */
  method SelectNextBatch(tracker: ResidencyTracker, ranked: seq<Item>, band: nat -> nat, w: Windows,
                         loaded: Option<string>, candidates: seq<nat>, m: Memory)
    returns (group: Option<Group>, batch: seq<nat>)
    requires m.Valid() && forall c :: c in candidates ==> c >= 1
    modifies tracker
    ensures ranked == [] <==> group.None?
    ensures group.None? ==> batch == []
    ensures group.Some? ==>
      var keys := Groups(ranked, |ranked|);
      var waiting := GroupPlaces(ranked, group.value);
      && keys != [] && group.value == ChooseKey(tracker.State(), keys, UrgentModels(keys, BandsOf(ranked, band)), w)
      && 0 < |batch| <= |waiting| && batch == waiting[..|batch|]
      && (|batch| == 1 || (|batch| in candidates && Usable(|batch|, |waiting|, m)))
    ensures tracker.State() == if ranked == [] then old(tracker.State()) else Sync(old(tracker.State()), loaded)
  {
    var keys, groups := GroupLists(ranked);
    GroupsHaveChunks(ranked, keys, groups);
    hide ListsGroups, Groups, GroupPlaces, BandsOf, Sync, ChooseKey, UrgentModels, Usable;
    if keys == [] { return None, []; }
    var g := tracker.ChooseGroupKey(keys, BandsOf(ranked, band), w, loaded, false);
    var size := ChooseBatchSize(candidates, |groups[g]|, m);
    group, batch := Some(g), groups[g][..size];
  }

  // ---- the selection is one the pipeline may dispatch ----

  function ItemOf(jobs: seq<Job>, r: Ref): Item
    requires ValidRef(jobs, r)
  {
    Item(r.job, ChunkOf(jobs, r).index, Group(jobs[r.job].model, jobs[r.job].language, ChunkOf(jobs, r).voice))
  }

  function ItemsOf(jobs: seq<Job>, refs: seq<Ref>): (r: seq<Item>)
    requires ValidRefs(jobs, refs)
    ensures |r| == |refs| && forall k :: 0 <= k < |refs| ==> r[k] == ItemOf(jobs, refs[k])
  {
    seq(|refs|, k requires 0 <= k < |refs| => assert ValidRef(jobs, refs[k]); ItemOf(jobs, refs[k]))
  }

  function Pick<T>(xs: seq<T>, places: seq<nat>): (r: seq<T>)
    requires forall k :: 0 <= k < |places| ==> places[k] < |xs|
    ensures |r| == |places| && forall k :: 0 <= k < |places| ==> r[k] == xs[places[k]]
  {
    seq(|places|, k requires 0 <= k < |places| => xs[places[k]])
  }

  /** By job, and within a job by place. */
  ghost predicate InTableOrder(refs: seq<Ref>) {
    forall k, l :: 0 <= k < l < |refs| ==>
      refs[k].job < refs[l].job || (refs[k].job == refs[l].job && refs[k].pos < refs[l].pos)
  }

  lemma {:induction false} RenderableOfInOrder(job: Job, j: nat, n: nat)
    requires n <= |job.chunks|
    ensures InTableOrder(RenderableOf(job, j, n))
  {
    if n > 0 {
      RenderableOfInOrder(job, j, n - 1);
      var front := RenderableOf(job, j, n - 1);
      forall k | 0 <= k < |front| ensures front[k].job == j && front[k].pos < n - 1 {
        RenderableOfMembers(job, j, n - 1, front[k]);
        assert front[k] in front;
      }
    }
  }

  /** The renderable takes are listed in the order of the table. */
  lemma {:induction false} RenderableInTableOrder(jobs: seq<Job>, m: nat)
    requires m <= |jobs|
    ensures InTableOrder(RenderableRefs(jobs, m)) && DistinctRefs(RenderableRefs(jobs, m))
  {
    if m > 0 {
      RenderableInTableOrder(jobs, m - 1);
      RenderableOfInOrder(jobs[m - 1], m - 1, |jobs[m - 1].chunks|);
      var a, b := RenderableRefs(jobs, m - 1), RenderableOf(jobs[m - 1], m - 1, |jobs[m - 1].chunks|);
      hide IsRenderable;
      forall k, l | 0 <= k < |a| && 0 <= l < |b| ensures a[k].job < b[l].job {
        assert a[k] in a && b[l] in b;
        RenderableRefsMembers(jobs, m - 1, a[k]);
        RenderableOfMembers(jobs[m - 1], m - 1, |jobs[m - 1].chunks|, b[l]);
      }
    }
  }

  lemma RenderableRefsAreValid(jobs: seq<Job>)
    ensures ValidRefs(jobs, RenderableRefs(jobs, |jobs|))
    ensures forall r :: r in RenderableRefs(jobs, |jobs|) ==> r.job < |jobs| && IsVisible(jobs[r.job])
  {
    var refs := RenderableRefs(jobs, |jobs|);
    forall r | r in refs ensures ValidRef(jobs, r) && IsVisible(jobs[r.job]) {
      RenderableRefsMembers(jobs, |jobs|, r);
    }
  }

  /** The ranked list of the renderable chunks. */
  function Ranking(jobs: seq<Job>, refs: seq<Ref>, ranks: Ranks): (order: seq<nat>)
    requires ValidRefs(jobs, refs)
    ensures forall k :: 0 <= k < |order| ==> order[k] < |refs|
  {
    var order := DispatchList(ItemsOf(jobs, refs), ranks);
    RankingIsInRange(ItemsOf(jobs, refs), ranks);
    order
  }

  lemma RankingIsInRange(items: seq<Item>, ranks: Ranks)
    ensures forall k :: 0 <= k < |DispatchList(items, ranks)| ==> DispatchList(items, ranks)[k] < |items|
  {
    DispatchIsAPermutation(items, ranks);
    hide DispatchList;
    forall k | 0 <= k < |DispatchList(items, ranks)| ensures DispatchList(items, ranks)[k] < |items| {
      assert DispatchList(items, ranks)[k] in DispatchList(items, ranks);
    }
  }

  /** The places that `g` takes in the ranked list. */
  function PlacesInRanking(jobs: seq<Job>, refs: seq<Ref>, order: seq<nat>, g: Group): (r: seq<nat>)
    requires ValidRefs(jobs, refs) && forall k :: 0 <= k < |order| ==> order[k] < |refs|
    ensures forall p: nat :: p in r ==> p < |order|
    ensures forall k :: 0 <= k < |r| ==> r[k] in r && r[k] < |order| && ItemsOf(jobs, refs)[order[r[k]]].group == g
  {
    var r := GroupPlaces(Pick(ItemsOf(jobs, refs), order), g);
    assert forall k :: 0 <= k < |r| ==> r[k] in r;
    r
  }

  /** What ranking, ordering and selection come to: the first `size` chunks of one group of
      the ranked list are a batch the pipeline may dispatch, even when commands have changed
      the jobs into `now` since they were ranked, unless a ranked job left the library. */
  lemma SelectionCanBeDispatched(jobs: seq<Job>, now: seq<Job>, ranks: Ranks, g: Group, size: nat)
    requires ValidRefs(now, RenderableRefs(jobs, |jobs|))
    requires forall r :: r in RenderableRefs(jobs, |jobs|) ==> r.job < |now| && IsVisible(now[r.job])
    ensures ValidRefs(jobs, RenderableRefs(jobs, |jobs|))
    ensures
      var refs := RenderableRefs(jobs, |jobs|);
      var order := Ranking(jobs, refs, ranks);
      var places := PlacesInRanking(now, refs, order, g);
      0 < size <= |places| ==> CanDispatch(now, refs, Pick(refs, Pick(order, places[..size])))
  {
    RenderableInTableOrder(jobs, |jobs|);
    RenderableRefsAreValid(jobs);
    hide RenderableRefs;
    var refs := RenderableRefs(jobs, |jobs|);
    DispatchIsAPermutation(ItemsOf(jobs, refs), ranks);
    hide DispatchList, IsVisible;
    var order := Ranking(jobs, refs, ranks);
    var places := PlacesInRanking(now, refs, order, g);
    if 0 < size <= |places| { PickedIsDispatchable(now, refs, order, places[..size], g); }
  }

  lemma PickedIsDispatchable(jobs: seq<Job>, refs: seq<Ref>, order: seq<nat>, places: seq<nat>, g: Group)
    requires ValidRefs(jobs, refs) && DistinctRefs(refs) && forall r :: r in refs ==> IsVisible(jobs[r.job])
    requires Distinct(order) && forall k :: 0 <= k < |order| ==> order[k] < |refs|
    requires places != [] && Distinct(places)
    requires forall k :: 0 <= k < |places| ==> places[k] < |order| && ItemsOf(jobs, refs)[order[places[k]]].group == g
    ensures CanDispatch(jobs, refs, Pick(refs, Pick(order, places)))
  {
    hide IsVisible;
    var picked := Pick(order, places);
    var batch := Pick(refs, picked);
    forall k | 0 <= k < |batch|
      ensures batch[k] in refs && ValidRef(jobs, batch[k]) && ItemOf(jobs, batch[k]).group == g
    {
      assert batch[k] == refs[order[places[k]]];
    }
    forall k, l | 0 <= k < l < |batch| ensures batch[k] != batch[l] {
      assert places[k] != places[l];
      assert order[places[k]] != order[places[l]];
    }
    assert forall k :: 0 <= k < |batch| ==> SameGroup(jobs, batch[0], batch[k]);
    assert forall k :: 0 <= k < |refs| ==> refs[k] in refs;
  }
}
