/** The order chunks are dispatched in (server/app/scheduler/service.py,
    `_ordered_for_dispatch`): group by group, and within a group job by job in turns. */
module DispatchOrder {
  import opened Sorting

  /** Chunks of different models, languages or voices cannot share a batch. */
  datatype Group = Group(model: string, language: string, voice: string)

  /** A renderable chunk: its job, its index in the job, its batch group. */
  datatype Item = Item(job: nat, index: nat, group: Group)

  /** What the order needs to know of a job: its priority band and submission time. */
  datatype JobRank = JobRank(band: nat, submitted: real)

  type Ranks = nat -> JobRank

  // ---- keys ----

  datatype Key = Key(band: nat, ordinal: nat, submitted: real, job: nat, index: nat)

  /** Python compares the key tuples from left to right. */
  predicate KeyBefore(a: Key, b: Key) {
    || a.band < b.band
    || (a.band == b.band && a.ordinal < b.ordinal)
    || (a.band == b.band && a.ordinal == b.ordinal && a.submitted < b.submitted)
    || (a.band == b.band && a.ordinal == b.ordinal && a.submitted == b.submitted && a.job < b.job)
    || (a.band == b.band && a.ordinal == b.ordinal && a.submitted == b.submitted && a.job == b.job && a.index < b.index)
  }

  datatype Priority = Priority(band: nat, submitted: real, job: nat)

  predicate PriorityBefore(a: Priority, b: Priority) {
    || a.band < b.band
    || (a.band == b.band && a.submitted < b.submitted)
    || (a.band == b.band && a.submitted == b.submitted && a.job < b.job)
  }

  /** The places of the first `n` items that satisfy `keep`, in list order. */
  function Places(items: seq<Item>, keep: Item -> bool, n: nat): (r: seq<nat>)
    requires n <= |items|
    ensures forall p: nat :: p in r <==> p < n && keep(items[p])
    ensures Distinct(r)
  {
    if n == 0 then [] else Places(items, keep, n - 1) + (if keep(items[n - 1]) then [n - 1] else [])
  }

  predicate ByIndex(items: seq<Item>, p: nat, q: nat) {
    p < |items| && q < |items| &&
    (items[p].index < items[q].index || (items[p].index == items[q].index && p < q))
  }

  function IndexOrder(items: seq<Item>): Order { (p: nat, q: nat) => ByIndex(items, p, q) }

  function OfJob(job: nat): Item -> bool { (item: Item) => item.job == job }

  function OfGroup(g: Group): Item -> bool { (item: Item) => item.group == g }

  /** One job's chunks in index order. */
  function JobList(items: seq<Item>, job: nat): (r: seq<nat>)
    ensures forall p: nat :: p in r <==> p < |items| && items[p].job == job
  {
    Sort(Places(items, OfJob(job), |items|), IndexOrder(items))
  }

  lemma JobListSorted(items: seq<Item>, job: nat)
    ensures Distinct(JobList(items, job)) && SortedBy(JobList(items, job), IndexOrder(items))
  {
    SortSorts(Places(items, OfJob(job), |items|), IndexOrder(items));
  }

  /** The per-job ordinal: 0 for the job's next chunk, whatever its index. */
  function Ordinal(items: seq<Item>, p: nat): nat
    requires p < |items|
  {
    PlaceIn(JobList(items, items[p].job), p)
  }

  function KeyOf(items: seq<Item>, ranks: Ranks, p: nat): Key
    requires p < |items|
  {
    var job := items[p].job;
    Key(ranks(job).band, Ordinal(items, p), ranks(job).submitted, job, items[p].index)
  }

  predicate ByKey(items: seq<Item>, ranks: Ranks, p: nat, q: nat) {
    p < |items| && q < |items| && KeyBefore(KeyOf(items, ranks, p), KeyOf(items, ranks, q))
  }

  function KeyOrder(items: seq<Item>, ranks: Ranks): Order { (p: nat, q: nat) => ByKey(items, ranks, p, q) }

  lemma KeyOrderOrders(items: seq<Item>, ranks: Ranks, xs: seq<nat>)
    requires forall p: nat :: p in xs ==> p < |items|
    ensures Orders(xs, KeyOrder(items, ranks))
  {
    forall p, q | p in xs && q in xs && p != q
      ensures ByKey(items, ranks, p, q) <==> !ByKey(items, ranks, q, p)
    {
      if items[p].job == items[q].job { OrdinalsDiffer(items, p, q); }
      hide Ordinal;
    }
    hide Ordinal;
  }

  lemma OrdinalsDiffer(items: seq<Item>, p: nat, q: nat)
    requires p < |items| && q < |items| && p != q && items[p].job == items[q].job
    ensures Ordinal(items, p) != Ordinal(items, q)
  {
    var list := JobList(items, items[p].job);
    assert p == list[Ordinal(items, p)] && q == list[Ordinal(items, q)];
  }

  // ---- groups ----

  /** Groups in the order the chunks bring them up. */
  function Groups(items: seq<Item>, n: nat): (r: seq<Group>)
    requires n <= |items|
    ensures forall g :: g in r <==> exists p :: 0 <= p < n && items[p].group == g
    ensures forall i, j :: 0 <= i < j < |r| ==> r[i] != r[j]
  {
    if n == 0 then [] else
      var r := Groups(items, n - 1);
      var g := items[n - 1].group;
      if g in r then r else r + [g]
  }

  function GroupPlaces(items: seq<Item>, g: Group): (r: seq<nat>)
    ensures forall p: nat :: p in r <==> p < |items| && items[p].group == g
    ensures Distinct(r)
  {
    Places(items, OfGroup(g), |items|)
  }

  function PriorityOf(items: seq<Item>, ranks: Ranks, p: nat): Priority
    requires p < |items|
  {
    Priority(ranks(items[p].job).band, ranks(items[p].job).submitted, items[p].job)
  }

  /** The best of the priorities at the places `xs`. */
  function BestOf(items: seq<Item>, ranks: Ranks, xs: seq<nat>): (b: Priority)
    requires xs != [] && forall p: nat :: p in xs ==> p < |items|
    ensures exists p: nat :: p in xs && b == PriorityOf(items, ranks, p)
    ensures forall p: nat :: p in xs ==> !PriorityBefore(PriorityOf(items, ranks, p), b)
  {
    assert xs[0] in xs;
    var first := PriorityOf(items, ranks, xs[0]);
    if |xs| == 1 then assert xs == [xs[0]]; first else
      assert forall p: nat :: p in xs <==> p == xs[0] || p in xs[1..];
      var b := BestOf(items, ranks, xs[1..]);
      if PriorityBefore(b, first) then b else first
  }

  function Best(items: seq<Item>, ranks: Ranks, g: Group): Priority
    requires exists p :: 0 <= p < |items| && items[p].group == g
  {
    assert GroupPlaces(items, g) != [] by {
      var p :| 0 <= p < |items| && items[p].group == g;
      assert p in GroupPlaces(items, g);
    }
    BestOf(items, ranks, GroupPlaces(items, g))
  }

  /** Groups by best priority; equal ones stay in the order they came up. */
  predicate GroupBefore(items: seq<Item>, ranks: Ranks, gs: seq<Group>, a: nat, b: nat)
    requires gs == Groups(items, |items|)
  {
    a < |gs| && b < |gs| &&
    assert gs[a] in gs && gs[b] in gs;
    var x, y := Best(items, ranks, gs[a]), Best(items, ranks, gs[b]);
    PriorityBefore(x, y) || (x == y && a < b)
  }

  function GroupOrder(items: seq<Item>, ranks: Ranks): Order {
    (a: nat, b: nat) => GroupBefore(items, ranks, Groups(items, |items|), a, b)
  }

  function UpTo(n: nat): (r: seq<nat>)
    ensures |r| == n && forall k :: 0 <= k < n ==> r[k] == k
  {
    if n == 0 then [] else UpTo(n - 1) + [n - 1]
  }

  /** The groups, best first. */
  function SortedGroups(items: seq<Item>, ranks: Ranks): (r: seq<Group>)
    ensures forall g :: g in r ==> g in Groups(items, |items|)
  {
    var gs := Groups(items, |items|);
    var order := Sort(UpTo(|gs|), GroupOrder(items, ranks));
    assert forall k :: 0 <= k < |order| ==> order[k] in order && order[k] in UpTo(|gs|);
    seq(|order|, k requires 0 <= k < |order| => gs[order[k]])
  }

  function Block(items: seq<Item>, ranks: Ranks, g: Group): (r: seq<nat>)
    ensures forall p: nat :: p in r <==> p < |items| && items[p].group == g
  {
    Sort(GroupPlaces(items, g), KeyOrder(items, ranks))
  }

  function Blocks(items: seq<Item>, ranks: Ranks, gs: seq<Group>): (r: seq<nat>)
    ensures forall p: nat :: p in r <==> p < |items| && items[p].group in gs
  {
    if gs == [] then [] else
      assert forall g :: g in gs <==> g == gs[0] || g in gs[1..];
      Block(items, ranks, gs[0]) + Blocks(items, ranks, gs[1..])
  }

  /** `_ordered_for_dispatch`, as places in the list it is given. */
  function DispatchList(items: seq<Item>, ranks: Ranks): seq<nat> {
    Blocks(items, ranks, SortedGroups(items, ranks))
  }

  // ---- what the order promises ----

  lemma {:induction false} GroupsSorted(items: seq<Item>, ranks: Ranks)
    ensures
      var gs := Groups(items, |items|);
      var order := Sort(UpTo(|gs|), GroupOrder(items, ranks));
      SortedBy(order, GroupOrder(items, ranks)) && Distinct(order)
  {
    var gs := Groups(items, |items|);
    var xs := UpTo(|gs|);
    hide Best, Groups, GroupBefore, UpTo;
    forall a, b | a in xs && b in xs && a != b
      ensures GroupOrder(items, ranks)(a, b) <==> !GroupOrder(items, ranks)(b, a)
    {
      GroupsCompare(items, ranks, gs, a, b, a);
    }
    forall a, b, c | a in xs && b in xs && c in xs
      ensures GroupOrder(items, ranks)(a, b) && GroupOrder(items, ranks)(b, c) ==> GroupOrder(items, ranks)(a, c)
    {
      GroupsCompare(items, ranks, gs, a, b, c);
    }
    SortSorts(xs, GroupOrder(items, ranks));
  }

  lemma {:induction false} GroupsCompare(items: seq<Item>, ranks: Ranks, gs: seq<Group>, a: nat, b: nat, c: nat)
    requires gs == Groups(items, |items|) && a < |gs| && b < |gs| && c < |gs|
    ensures a != b ==> (GroupBefore(items, ranks, gs, a, b) <==> !GroupBefore(items, ranks, gs, b, a))
    ensures GroupBefore(items, ranks, gs, a, b) && GroupBefore(items, ranks, gs, b, c) ==>
      GroupBefore(items, ranks, gs, a, c)
  {
    assert gs[a] in gs && gs[b] in gs && gs[c] in gs;
    hide Best, Groups;
  }

  ghost predicate HasGroup(items: seq<Item>, g: Group) { exists p :: 0 <= p < |items| && items[p].group == g }

  /** The sorted groups: each group of the list once, no later one better than an earlier. */
  lemma {:induction false} SortedGroupsInOrder(items: seq<Item>, ranks: Ranks)
    ensures
      var gs := SortedGroups(items, ranks);
      && (forall i, j :: 0 <= i < j < |gs| ==> gs[i] != gs[j])
      && (forall g :: g in gs <==> HasGroup(items, g))
      && (forall i, j :: 0 <= i < j < |gs| && HasGroup(items, gs[i]) && HasGroup(items, gs[j]) ==>
           !PriorityBefore(Best(items, ranks, gs[j]), Best(items, ranks, gs[i])))
  {
    var gs := SortedGroups(items, ranks);
    hide SortedGroups, Best, Groups;
    forall i, j | 0 <= i < j < |gs|
      ensures gs[i] != gs[j]
      ensures HasGroup(items, gs[i]) && HasGroup(items, gs[j]) ==>
        !PriorityBefore(Best(items, ranks, gs[j]), Best(items, ranks, gs[i]))
    {
      SortedPair(items, ranks, i, j);
    }
    forall g | HasGroup(items, g) ensures g in gs { GroupIsListed(items, ranks, g); }
  }

  lemma SortedPair(items: seq<Item>, ranks: Ranks, i: nat, j: nat)
    requires i < j < |SortedGroups(items, ranks)|
    ensures
      var gs := SortedGroups(items, ranks);
      && gs[i] != gs[j]
      && (HasGroup(items, gs[i]) && HasGroup(items, gs[j]) ==>
           !PriorityBefore(Best(items, ranks, gs[j]), Best(items, ranks, gs[i])))
  {
    GroupsSorted(items, ranks);
    var all := Groups(items, |items|);
    var order := Sort(UpTo(|all|), GroupOrder(items, ranks));
    assert order[i] in order && order[i] in UpTo(|all|) && order[j] in order && order[j] in UpTo(|all|);
    hide Best, Groups;
    assert GroupOrder(items, ranks)(order[i], order[j]);
  }

  lemma GroupIsListed(items: seq<Item>, ranks: Ranks, g: Group)
    requires HasGroup(items, g)
    ensures g in SortedGroups(items, ranks)
  {
    var all := Groups(items, |items|);
    assert g in all;
    var order := Sort(UpTo(|all|), GroupOrder(items, ranks));
    hide Groups, GroupOrder;
    var k :| 0 <= k < |all| && all[k] == g;
    assert UpTo(|all|)[k] == k && k in UpTo(|all|) && k in order;
    var l :| 0 <= l < |order| && order[l] == k;
    assert SortedGroups(items, ranks)[l] == g;
  }

  lemma BlockSorted(items: seq<Item>, ranks: Ranks, g: Group)
    ensures SortedBy(Block(items, ranks, g), KeyOrder(items, ranks)) && Distinct(Block(items, ranks, g))
  {
    var xs := GroupPlaces(items, g);
    KeyOrderOrders(items, ranks, xs);
    SortSorts(xs, KeyOrder(items, ranks));
  }

  /** Either `p`'s group is listed before `q`'s, or they share a group and `p` has the
      smaller key. */
  ghost predicate ComesBefore(items: seq<Item>, ranks: Ranks, gs: seq<Group>, p: nat, q: nat) {
    && p < |items| && q < |items|
    && (items[p].group == items[q].group ==> ByKey(items, ranks, p, q))
    && (items[p].group != items[q].group ==> ListedBefore(gs, items[p].group, items[q].group))
  }

  ghost predicate ListedBefore(gs: seq<Group>, g: Group, h: Group) {
    exists i, j :: 0 <= i < j < |gs| && gs[i] == g && gs[j] == h
  }

  ghost predicate InOrder(items: seq<Item>, ranks: Ranks, gs: seq<Group>, xs: seq<nat>) {
    forall i, j :: 0 <= i < j < |xs| ==> xs[i] != xs[j] && ComesBefore(items, ranks, gs, xs[i], xs[j])
  }

  lemma OneBlockInOrder(items: seq<Item>, ranks: Ranks, gs: seq<Group>, g: Group)
    ensures InOrder(items, ranks, gs, Block(items, ranks, g))
  {
    BlockSorted(items, ranks, g);
    hide Block, KeyOf;
    var a := Block(items, ranks, g);
    forall i, j | 0 <= i < j < |a| ensures a[i] != a[j] && ComesBefore(items, ranks, gs, a[i], a[j]) {
      assert a[i] in a && a[j] in a && KeyOrder(items, ranks)(a[i], a[j]);
    }
  }

  /** Putting a group in front leaves the order of the rest alone. */
  lemma LaterBlocksInOrder(items: seq<Item>, ranks: Ranks, gs: seq<Group>, xs: seq<nat>)
    requires gs != [] && InOrder(items, ranks, gs[1..], xs)
    ensures InOrder(items, ranks, gs, xs)
  {
    hide KeyOf;
    var t := gs[1..];
    forall i, j | 0 <= i < j < |xs| ensures xs[i] != xs[j] && ComesBefore(items, ranks, gs, xs[i], xs[j]) {
      assert ComesBefore(items, ranks, t, xs[i], xs[j]);
      if items[xs[i]].group != items[xs[j]].group {
        var k, l :| 0 <= k < l < |t| && t[k] == items[xs[i]].group && t[l] == items[xs[j]].group;
        assert gs[k + 1] == t[k] && gs[l + 1] == t[l];
      }
    }
  }

  lemma FirstBlockComesFirst(items: seq<Item>, ranks: Ranks, gs: seq<Group>, p: nat, q: nat)
    requires gs != [] && (forall i, j :: 0 <= i < j < |gs| ==> gs[i] != gs[j])
    requires p < |items| && items[p].group == gs[0] && q < |items| && items[q].group in gs[1..]
    ensures p != q && ComesBefore(items, ranks, gs, p, q)
  {
    hide KeyOf;
    var l :| 0 <= l < |gs[1..]| && gs[1..][l] == items[q].group;
    assert gs[l + 1] == items[q].group;
    assert ListedBefore(gs, gs[0], gs[l + 1]);
  }

  lemma {:induction false} BlocksInOrder(items: seq<Item>, ranks: Ranks, gs: seq<Group>)
    requires forall i, j :: 0 <= i < j < |gs| ==> gs[i] != gs[j]
    ensures InOrder(items, ranks, gs, Blocks(items, ranks, gs))
  {
    if gs != [] {
      hide Block, ComesBefore;
      assert forall i, j :: 0 <= i < j < |gs| - 1 ==> gs[1..][i] == gs[i + 1] && gs[1..][j] == gs[j + 1];
      BlocksInOrder(items, ranks, gs[1..]);
      LaterBlocksInOrder(items, ranks, gs, Blocks(items, ranks, gs[1..]));
      OneBlockInOrder(items, ranks, gs, gs[0]);
      ConcatInOrder(items, ranks, gs, Block(items, ranks, gs[0]), Blocks(items, ranks, gs[1..]));
    }
  }

  lemma ConcatInOrder(items: seq<Item>, ranks: Ranks, gs: seq<Group>, a: seq<nat>, b: seq<nat>)
    requires gs != [] && (forall i, j :: 0 <= i < j < |gs| ==> gs[i] != gs[j])
    requires InOrder(items, ranks, gs, a) && InOrder(items, ranks, gs, b)
    requires forall p: nat :: p in a ==> p < |items| && items[p].group == gs[0]
    requires forall p: nat :: p in b ==> p < |items| && items[p].group in gs[1..]
    ensures InOrder(items, ranks, gs, a + b)
  {
    hide ComesBefore;
    var xs := a + b;
    forall i, j | 0 <= i < j < |xs| ensures xs[i] != xs[j] && ComesBefore(items, ranks, gs, xs[i], xs[j]) {
      if i < |a| <= j {
        assert a[i] in a && b[j - |a|] in b;
        FirstBlockComesFirst(items, ranks, gs, a[i], b[j - |a|]);
      }
    }
  }

  /** Dispatching neither loses nor repeats a chunk. */
  lemma DispatchIsAPermutation(items: seq<Item>, ranks: Ranks)
    ensures Distinct(DispatchList(items, ranks))
    ensures forall p: nat :: p in DispatchList(items, ranks) <==> p < |items|
  {
    SortedGroupsInOrder(items, ranks);
    var gs := SortedGroups(items, ranks);
    BlocksInOrder(items, ranks, gs);
    hide Blocks, Best;
    forall p: nat | p < |items| ensures p in DispatchList(items, ranks) {
      assert HasGroup(items, items[p].group);
    }
  }

  lemma DispatchInOrder(items: seq<Item>, ranks: Ranks, i: nat, j: nat)
    requires i < j < |DispatchList(items, ranks)|
    ensures
      var xs := DispatchList(items, ranks);
      xs[i] != xs[j] && ComesBefore(items, ranks, SortedGroups(items, ranks), xs[i], xs[j])
  {
    SortedGroupsInOrder(items, ranks);
    BlocksInOrder(items, ranks, SortedGroups(items, ranks));
    hide Blocks, Best;
  }

  /** A group is served in one go, and of two groups the better one is served first. */
  lemma GroupsAreServedOneByOne(items: seq<Item>, ranks: Ranks, i: nat, k: nat, j: nat)
    requires i < k < j < |DispatchList(items, ranks)|
    ensures
      var xs := DispatchList(items, ranks);
      && xs[i] < |items| && xs[k] < |items| && xs[j] < |items|
      && (items[xs[i]].group == items[xs[j]].group ==> items[xs[k]].group == items[xs[i]].group)
  {
    SortedGroupsInOrder(items, ranks);
    var xs, gs := DispatchList(items, ranks), SortedGroups(items, ranks);
    DispatchInOrder(items, ranks, i, k);
    DispatchInOrder(items, ranks, k, j);
    hide DispatchList, SortedGroups, KeyOf, Best;
    var g, h := items[xs[i]].group, items[xs[k]].group;
    ListedOneWay(gs, g, h);
  }

  lemma ListedOneWay(gs: seq<Group>, g: Group, h: Group)
    requires forall i, j :: 0 <= i < j < |gs| ==> gs[i] != gs[j]
    ensures !(ListedBefore(gs, g, h) && ListedBefore(gs, h, g))
  {
  }

  lemma BetterGroupListed(items: seq<Item>, ranks: Ranks, i: nat, j: nat)
    requires i < j < |DispatchList(items, ranks)|
    ensures
      var xs := DispatchList(items, ranks);
      && xs[i] < |items| && xs[j] < |items|
      && HasGroup(items, items[xs[i]].group) && HasGroup(items, items[xs[j]].group)
      && !PriorityBefore(Best(items, ranks, items[xs[j]].group), Best(items, ranks, items[xs[i]].group))
  {
    SortedGroupsInOrder(items, ranks);
    var xs, gs := DispatchList(items, ranks), SortedGroups(items, ranks);
    DispatchInOrder(items, ranks, i, j);
    hide DispatchList, SortedGroups, KeyOf, Best;
    assert HasGroup(items, items[xs[i]].group) && HasGroup(items, items[xs[j]].group);
    if items[xs[i]].group != items[xs[j]].group {
      var a, b :| 0 <= a < b < |gs| && gs[a] == items[xs[i]].group && gs[b] == items[xs[j]].group;
    }
  }

  /** The best of a group is one of its chunks, and no other of them is better. */
  lemma BestIsAChunk(items: seq<Item>, ranks: Ranks, g: Group)
    requires HasGroup(items, g)
    ensures exists p: nat :: p < |items| && items[p].group == g && Best(items, ranks, g) == PriorityOf(items, ranks, p)
    ensures forall q: nat :: q < |items| && items[q].group == g ==>
      !PriorityBefore(PriorityOf(items, ranks, q), Best(items, ranks, g))
  {
    var xs := GroupPlaces(items, g);
    hide Places;
    var p :| 0 <= p < |items| && items[p].group == g;
    assert p in xs;
  }

  /** Job `a` is more urgent than job `b`, or as urgent and submitted before it; with both equal
      the smaller id decides. */
  predicate GoesFirst(ranks: Ranks, a: nat, b: nat) {
    || ranks(a).band < ranks(b).band
    || (ranks(a).band == ranks(b).band && ranks(a).submitted < ranks(b).submitted)
    || (ranks(a).band == ranks(b).band && ranks(a).submitted == ranks(b).submitted && a <= b)
  }

  lemma PriorityChain(items: seq<Item>, ranks: Ranks, p: nat, b: Priority, q: nat)
    requires p < |items| && q < |items|
    requires !PriorityBefore(b, PriorityOf(items, ranks, p)) && !PriorityBefore(PriorityOf(items, ranks, q), b)
    ensures GoesFirst(ranks, items[p].job, items[q].job)
  {
  }

  /** Some chunk of `g` is of a job that goes before the job of each chunk of `h`. */
  ghost predicate HasBetterChunk(items: seq<Item>, ranks: Ranks, g: Group, h: Group) {
    exists p: nat :: p < |items| && items[p].group == g &&
      forall q: nat :: q < |items| && items[q].group == h ==> GoesFirst(ranks, items[p].job, items[q].job)
  }

  /** Of two groups the one with the best chunk is served first. */
  lemma BetterGroupsGoFirst(items: seq<Item>, ranks: Ranks, i: nat, j: nat)
    requires i < j < |DispatchList(items, ranks)|
    ensures
      var xs := DispatchList(items, ranks);
      && xs[i] < |items| && xs[j] < |items|
      && HasBetterChunk(items, ranks, items[xs[i]].group, items[xs[j]].group)
  {
    BetterGroupListed(items, ranks, i, j);
    var xs := DispatchList(items, ranks);
    var g, h := items[xs[i]].group, items[xs[j]].group;
    BestIsAChunk(items, ranks, g);
    BestIsAChunk(items, ranks, h);
    hide DispatchList, Best, PriorityBefore, PriorityOf, GoesFirst;
    var p: nat :| p < |items| && items[p].group == g && Best(items, ranks, g) == PriorityOf(items, ranks, p);
    forall q: nat | q < |items| && items[q].group == h ensures GoesFirst(ranks, items[p].job, items[q].job) {
      PriorityChain(items, ranks, p, Best(items, ranks, h), q);
    }
  }

  /** The first chunk of `g` in the list stands before every chunk of `h`. */
  ghost predicate ComesUpFirst(items: seq<Item>, g: Group, h: Group) {
    exists p: nat :: p < |items| && items[p].group == g && forall q: nat :: q <= p ==> items[q].group != h
  }

  lemma {:induction false} GroupsAsTheyComeUp(items: seq<Item>, n: nat, a: nat, b: nat)
    requires n <= |items| && a < b < |Groups(items, n)|
    ensures ComesUpFirst(items[..n], Groups(items, n)[a], Groups(items, n)[b])
  {
    var front, gs := Groups(items, n - 1), Groups(items, n);
    if b < |front| {
      GroupsAsTheyComeUp(items, n - 1, a, b);
      var before := items[..n - 1];
      var p: nat :| p < |before| && before[p].group == gs[a] &&
                    forall q: nat :: q <= p ==> before[q].group != gs[b];
      assert items[..n][p].group == gs[a];
      assert forall q: nat :: q <= p ==> items[..n][q] == before[q];
    } else {
      assert front[a] in front;
      var p :| 0 <= p < n - 1 && items[p].group == front[a];
      assert items[..n][p].group == gs[a];
      assert forall q: nat :: q <= p ==> items[..n][q] == items[q] && items[q].group in front;
    }
  }

  lemma EqualGroupsInOrder(items: seq<Item>, ranks: Ranks, i: nat, j: nat)
    requires i < j < |SortedGroups(items, ranks)|
    ensures
      var g, h := SortedGroups(items, ranks)[i], SortedGroups(items, ranks)[j];
      HasGroup(items, g) && HasGroup(items, h) &&
      (Best(items, ranks, g) == Best(items, ranks, h) ==> ComesUpFirst(items, g, h))
  {
    SortedGroupsInOrder(items, ranks);
    GroupsSorted(items, ranks);
    var all := Groups(items, |items|);
    var order := Sort(UpTo(|all|), GroupOrder(items, ranks));
    var gs := SortedGroups(items, ranks);
    assert gs[i] in gs && gs[j] in gs;
    hide Best, Groups;
    assert GroupOrder(items, ranks)(order[i], order[j]);
    if Best(items, ranks, gs[i]) == Best(items, ranks, gs[j]) {
      assert items[..|items|] == items;
      GroupsAsTheyComeUp(items, |items|, order[i], order[j]);
    }
  }

  /** Of two groups that are equally good, the one that comes up first is served first. */
  lemma EqualGroupsKeepTheirOrder(items: seq<Item>, ranks: Ranks, i: nat, j: nat)
    requires i < j < |DispatchList(items, ranks)|
    ensures
      var xs := DispatchList(items, ranks);
      && xs[i] < |items| && xs[j] < |items|
      && (items[xs[i]].group != items[xs[j]].group &&
          HasBetterChunk(items, ranks, items[xs[j]].group, items[xs[i]].group) ==>
            ComesUpFirst(items, items[xs[i]].group, items[xs[j]].group))
  {
    BetterGroupListed(items, ranks, i, j);
    DispatchInOrder(items, ranks, i, j);
    var xs, gs := DispatchList(items, ranks), SortedGroups(items, ranks);
    var g, h := items[xs[i]].group, items[xs[j]].group;
    hide DispatchList, SortedGroups, KeyOf, Best, ComesUpFirst;
    if g != h && HasBetterChunk(items, ranks, h, g) {
      EquallyGood(items, ranks, g, h);
      var a, b :| 0 <= a < b < |gs| && gs[a] == g && gs[b] == h;
      EqualGroupsInOrder(items, ranks, a, b);
    }
  }

  lemma EquallyGood(items: seq<Item>, ranks: Ranks, g: Group, h: Group)
    requires HasGroup(items, g) && HasGroup(items, h) && HasBetterChunk(items, ranks, h, g)
    requires !PriorityBefore(Best(items, ranks, h), Best(items, ranks, g))
    ensures Best(items, ranks, g) == Best(items, ranks, h)
  {
    BestIsAChunk(items, ranks, g);
    BestIsAChunk(items, ranks, h);
    hide Best;
    var p: nat :| p < |items| && items[p].group == h &&
      forall q: nat :: q < |items| && items[q].group == g ==> GoesFirst(ranks, items[p].job, items[q].job);
    var b: nat :| b < |items| && items[b].group == g && Best(items, ranks, g) == PriorityOf(items, ranks, b);
    assert GoesFirst(ranks, items[p].job, items[b].job);
    assert !PriorityBefore(PriorityOf(items, ranks, p), Best(items, ranks, h));
  }

  /** Inside a group the more urgent jobs are served first. Equally urgent jobs take turns: first
      the next chunk of each, then the one after that, and in each round the job that was
      submitted first. */
  lemma UrgentJobsGoFirst(items: seq<Item>, ranks: Ranks, i: nat, j: nat)
    requires i < j < |DispatchList(items, ranks)|
    ensures
      var xs := DispatchList(items, ranks);
      && xs[i] < |items| && xs[j] < |items|
      && (items[xs[i]].group == items[xs[j]].group ==>
           var (a, b) := (items[xs[i]].job, items[xs[j]].job);
           && ranks(a).band <= ranks(b).band
           && (ranks(a).band == ranks(b).band ==>
                && Ordinal(items, xs[i]) <= Ordinal(items, xs[j])
                && (Ordinal(items, xs[i]) == Ordinal(items, xs[j]) ==>
                     || ranks(a).submitted < ranks(b).submitted
                     || (ranks(a).submitted == ranks(b).submitted && a < b))))
  {
    DispatchInOrder(items, ranks, i, j);
    var xs := DispatchList(items, ranks);
    hide DispatchList, SortedGroups;
    if items[xs[i]].job == items[xs[j]].job { OrdinalsDiffer(items, xs[i], xs[j]); }
    hide Ordinal;
  }

  /** The ordinals of a job number its chunks from 0, by index. */
  lemma OrdinalsFollowTheIndexes(items: seq<Item>, p: nat)
    requires p < |items|
    ensures forall q: nat :: q < |items| && items[q].job == items[p].job && items[q].index < items[p].index ==>
      Ordinal(items, q) < Ordinal(items, p)
    ensures Ordinal(items, p) > 0 ==>
      exists q: nat :: q < |items| && items[q].job == items[p].job && items[q].index <= items[p].index &&
                       Ordinal(items, q) == Ordinal(items, p) - 1
  {
    forall q: nat | q < |items| && items[q].job == items[p].job && items[q].index < items[p].index
      ensures Ordinal(items, q) < Ordinal(items, p)
    {
      SmallerIndexSmallerOrdinal(items, q, p);
    }
    if Ordinal(items, p) > 0 {
      OrdinalIsPlace(items, items[p].job, Ordinal(items, p) - 1);
      var q := JobList(items, items[p].job)[Ordinal(items, p) - 1];
      SmallerIndexSmallerOrdinal(items, q, p);
      hide Ordinal, JobList;
    }
  }

  lemma SmallerIndexSmallerOrdinal(items: seq<Item>, p: nat, q: nat)
    requires p < |items| && q < |items| && items[p].job == items[q].job
    ensures ByIndex(items, p, q) <==> Ordinal(items, p) < Ordinal(items, q)
  {
    var list := JobList(items, items[p].job);
    JobListSorted(items, items[p].job);
    var a, b := Ordinal(items, p), Ordinal(items, q);
    assert list[a] == p && list[b] == q;
    if a < b { assert IndexOrder(items)(list[a], list[b]); }
    if b < a { assert IndexOrder(items)(list[b], list[a]); }
  }

  /** Chunks of one job in one group keep their order. */
  lemma JobsKeepTheirOrder(items: seq<Item>, ranks: Ranks, i: nat, j: nat)
    requires i < j < |DispatchList(items, ranks)|
    ensures
      var xs := DispatchList(items, ranks);
      && xs[i] < |items| && xs[j] < |items|
      && (items[xs[i]].job == items[xs[j]].job && items[xs[i]].group == items[xs[j]].group ==>
           items[xs[i]].index < items[xs[j]].index ||
           (items[xs[i]].index == items[xs[j]].index && xs[i] < xs[j]))
  {
    DispatchInOrder(items, ranks, i, j);
    var xs := DispatchList(items, ranks);
    if items[xs[i]].job == items[xs[j]].job && items[xs[i]].group == items[xs[j]].group {
      SmallerIndexSmallerOrdinal(items, xs[i], xs[j]);
      SmallerIndexSmallerOrdinal(items, xs[j], xs[i]);
      hide DispatchList, Ordinal;
    }
  }

  // ---- fairness ----

  /** How many of the first `e` of `xs` are on `list`. */
  function Served(xs: seq<nat>, list: seq<nat>, e: nat): nat
    requires e <= |xs|
  {
    if e == 0 then 0 else Served(xs, list, e - 1) + (if xs[e - 1] in list then 1 else 0)
  }

  /** All of `list` is in `xs`, in the order of `list`. */
  ghost predicate InTurn(xs: seq<nat>, list: seq<nat>) {
    && Distinct(xs) && Distinct(list) && (forall x :: x in list ==> x in xs)
    && forall k, l :: 0 <= k < l < |list| ==> Earlier(xs, list[k], list[l])
  }

  predicate Earlier(xs: seq<nat>, x: nat, y: nat) {
    x in xs && y in xs && PlaceIn(xs, x) < PlaceIn(xs, y)
  }

  /** What has been served of a list is always a prefix of it. */
  lemma {:induction false} ServedIsAPrefix(xs: seq<nat>, list: seq<nat>, e: nat, k: nat)
    requires InTurn(xs, list) && e <= |xs| && k < |list|
    ensures list[k] in xs && (PlaceIn(xs, list[k]) < e <==> k < Served(xs, list, e))
    decreases e
  {
    assert list[k] in list;
    if e > 0 {
      var x, c := xs[e - 1], Served(xs, list, e - 1);
      ServedIsAPrefix(xs, list, e - 1, k);
      PlaceOf(xs, e - 1);
      if x in list {
        var n := PlaceIn(list, x);
        ServedIsAPrefix(xs, list, e - 1, n);
        if n > c { ServedIsAPrefix(xs, list, e - 1, c); }
        assert n == c;
        PlaceOf(list, k);
      }
    }
  }

  lemma NeverTwoAhead(xs: seq<nat>, listA: seq<nat>, listB: seq<nat>, e: nat)
    requires InTurn(xs, listA) && InTurn(xs, listB) && e <= |xs|
    requires forall k, l :: 0 <= l < k < |listA| && l < |listB| ==> Earlier(xs, listB[l], listA[k])
    ensures Served(xs, listA, e) <= |listA| && Served(xs, listB, e) < |listB| ==>
      Served(xs, listA, e) <= Served(xs, listB, e) + 1
  {
    var a, b := Served(xs, listA, e), Served(xs, listB, e);
    if a <= |listA| && b < |listB| && a > b + 1 {
      ServedIsAPrefix(xs, listA, e, a - 1);
      ServedIsAPrefix(xs, listB, e, b);
      assert false;
    }
  }

  ghost predicate AllIn(items: seq<Item>, job: nat, g: Group) {
    forall p :: 0 <= p < |items| && items[p].job == job ==> items[p].group == g
  }

  /** In one group and one band, the smaller ordinal is dispatched first. */
  lemma SmallerOrdinalFirst(items: seq<Item>, ranks: Ranks, p: nat, q: nat)
    requires p < |items| && q < |items| && items[p].group == items[q].group
    requires ranks(items[p].job).band == ranks(items[q].job).band && Ordinal(items, p) < Ordinal(items, q)
    ensures Earlier(DispatchList(items, ranks), p, q)
  {
    hide DispatchList, Ordinal, SortedGroups;
    DispatchIsAPermutation(items, ranks);
    var xs := DispatchList(items, ranks);
    var i, j := PlaceIn(xs, p), PlaceIn(xs, q);
    if j < i { DispatchInOrder(items, ranks, j, i); }
  }

  lemma OrdinalIsPlace(items: seq<Item>, job: nat, k: nat)
    requires k < |JobList(items, job)|
    ensures JobList(items, job)[k] < |items| && items[JobList(items, job)[k]].job == job
    ensures Ordinal(items, JobList(items, job)[k]) == k
  {
    JobListSorted(items, job);
    assert JobList(items, job)[k] in JobList(items, job);
    PlaceOf(JobList(items, job), k);
  }

  lemma JobsTakeTurns(items: seq<Item>, ranks: Ranks, a: nat, b: nat, g: Group)
    requires AllIn(items, a, g) && AllIn(items, b, g) && ranks(a).band == ranks(b).band
    ensures forall k, l :: 0 <= l < k < |JobList(items, a)| && l < |JobList(items, b)| ==>
      Earlier(DispatchList(items, ranks), JobList(items, b)[l], JobList(items, a)[k])
  {
    forall k, l | 0 <= l < k < |JobList(items, a)| && l < |JobList(items, b)|
      ensures Earlier(DispatchList(items, ranks), JobList(items, b)[l], JobList(items, a)[k])
    {
      OrdinalIsPlace(items, a, k);
      OrdinalIsPlace(items, b, l);
      hide DispatchList, JobList, Ordinal;
      SmallerOrdinalFirst(items, ranks, JobList(items, b)[l], JobList(items, a)[k]);
    }
  }

  lemma JobIsInTurn(items: seq<Item>, ranks: Ranks, a: nat, g: Group)
    requires AllIn(items, a, g)
    ensures InTurn(DispatchList(items, ranks), JobList(items, a))
  {
    DispatchIsAPermutation(items, ranks);
    JobListSorted(items, a);
    JobsTakeTurns(items, ranks, a, a, g);
    hide DispatchList, JobList;
  }

  /** Turns are fair: of two jobs of one band whose chunks share one group, neither gets
      two chunks ahead of the other while both still have chunks waiting. */
  lemma TurnsAreFair(items: seq<Item>, ranks: Ranks, a: nat, b: nat, g: Group, e: nat)
    requires AllIn(items, a, g) && AllIn(items, b, g) && ranks(a).band == ranks(b).band
    requires e <= |DispatchList(items, ranks)|
    ensures
      var xs := DispatchList(items, ranks);
      var servedA, servedB := Served(xs, JobList(items, a), e), Served(xs, JobList(items, b), e);
      servedA < |JobList(items, a)| && servedB < |JobList(items, b)| ==> -1 <= servedA - servedB <= 1
  {
    JobIsInTurn(items, ranks, a, g);
    JobIsInTurn(items, ranks, b, g);
    JobsTakeTurns(items, ranks, a, b, g);
    JobsTakeTurns(items, ranks, b, a, g);
    hide DispatchList, JobList, Served;
    NeverTwoAhead(DispatchList(items, ranks), JobList(items, a), JobList(items, b), e);
    NeverTwoAhead(DispatchList(items, ranks), JobList(items, b), JobList(items, a), e);
  }

  // ---- the ordering as it runs ----

  lemma {:induction false} InsertSameOrder(x: nat, ys: seq<nat>, f: Order, g: Order)
    requires forall y :: y in ys ==> f(x, y) == g(x, y)
    ensures Insert(x, ys, f) == Insert(x, ys, g)
  {
    if ys != [] { InsertSameOrder(x, ys[1..], f, g); }
  }

  lemma {:induction false} SortSameOrder(xs: seq<nat>, f: Order, g: Order)
    requires forall x, y :: x in xs && y in xs ==> f(x, y) == g(x, y)
    ensures Sort(xs, f) == Sort(xs, g)
  {
    if xs != [] {
      SortSameOrder(xs[1..], f, g);
      InsertSameOrder(xs[0], Sort(xs[1..], g), f, g);
    }
  }

  /** `chunk_key`, with the ordinals looked up in the dictionary. */
  function ChunkKey(items: seq<Item>, ranks: Ranks, ordinal: map<nat, nat>, p: nat): Key
    requires p < |items| && p in ordinal
  {
    var job := items[p].job;
    Key(ranks(job).band, ordinal[p], ranks(job).submitted, job, items[p].index)
  }

  function ChunkOrder(items: seq<Item>, ranks: Ranks, ordinal: map<nat, nat>): Order {
    (p: nat, q: nat) =>
      p < |items| && q < |items| && p in ordinal && q in ordinal &&
      KeyBefore(ChunkKey(items, ranks, ordinal, p), ChunkKey(items, ranks, ordinal, q))
  }

  ghost predicate ListsJobs(items: seq<Item>, jobs: seq<nat>, perJob: map<nat, seq<nat>>, n: nat)
    requires n <= |items|
  {
    && Distinct(jobs) && (forall j :: j in perJob <==> j in jobs)
    && (forall j :: j in perJob ==> perJob[j] == Places(items, OfJob(j), n))
    && (forall p :: 0 <= p < n ==> items[p].job in perJob)
  }

  method PerJobLists(items: seq<Item>) returns (jobs: seq<nat>, perJob: map<nat, seq<nat>>)
    ensures ListsJobs(items, jobs, perJob, |items|)
  {
    jobs, perJob := [], map[];
    ListNoJob(items);
    hide ListsJobs;
    for p := 0 to |items|
      invariant ListsJobs(items, jobs, perJob, p)
    {
      var j := items[p].job;
      ListOneJob(items, jobs, perJob, p);
      if j !in perJob {
        jobs := jobs + [j];
        perJob := perJob[j := []];
      }
      perJob := perJob[j := perJob[j] + [p]];
    }
  }

  lemma ListNoJob(items: seq<Item>)
    ensures ListsJobs(items, [], map[], 0)
  {
  }

  lemma {:induction false} ListOneJob(items: seq<Item>, jobs: seq<nat>, perJob: map<nat, seq<nat>>, p: nat)
    requires p < |items| && ListsJobs(items, jobs, perJob, p)
    ensures
      var j := items[p].job;
      && (j in perJob ==> ListsJobs(items, jobs, perJob[j := perJob[j] + [p]], p + 1))
      && (j !in perJob ==> ListsJobs(items, jobs + [j], perJob[j := []][j := [] + [p]], p + 1))
  {
    hide Places;
    var j := items[p].job;
    if j !in perJob { NoPlaces(items, OfJob(j), p); }
    forall i: nat { PlacesStep(items, OfJob(i), p); }
  }

  lemma {:induction false} NoPlaces(items: seq<Item>, keep: Item -> bool, n: nat)
    requires n <= |items| && forall p :: 0 <= p < n ==> !keep(items[p])
    ensures Places(items, keep, n) == []
  {
    if n > 0 { NoPlaces(items, keep, n - 1); }
  }

  lemma PlacesStep(items: seq<Item>, keep: Item -> bool, p: nat)
    requires p < |items|
    ensures Places(items, keep, p + 1) == Places(items, keep, p) + (if keep(items[p]) then [p] else [])
  {
  }

  ghost predicate NumbersJobs(items: seq<Item>, jobs: seq<nat>, ordinal: map<nat, nat>) {
    forall p: nat :: p < |items| && items[p].job in jobs ==> p in ordinal && ordinal[p] == Ordinal(items, p)
  }

  method Ordinals(items: seq<Item>) returns (ordinal: map<nat, nat>)
    ensures forall p: nat :: p < |items| ==> p in ordinal && ordinal[p] == Ordinal(items, p)
  {
    var jobs, perJob := PerJobLists(items);
    ordinal := map[];
    for k := 0 to |jobs|
      invariant NumbersJobs(items, jobs[..k], ordinal)
    {
      assert jobs[..k + 1] == jobs[..k] + [jobs[k]];
      var list := Sort(perJob[jobs[k]], IndexOrder(items));
      assert list == JobList(items, jobs[k]);
      ordinal := NumberList(items, jobs[..k], jobs[k], list, ordinal);
    }
    assert jobs[..|jobs|] == jobs;
  }

  method NumberList(items: seq<Item>, ghost done: seq<nat>, job: nat, list: seq<nat>, before: map<nat, nat>)
    returns (ordinal: map<nat, nat>)
    requires list == JobList(items, job) && job !in done && NumbersJobs(items, done, before)
    ensures NumbersJobs(items, done + [job], ordinal)
  {
    hide Ordinal, JobList;
    ordinal := before;
    for position := 0 to |list|
      invariant NumbersJobs(items, done, ordinal)
      invariant forall k :: 0 <= k < position ==> list[k] in ordinal && ordinal[list[k]] == k
    {
      OrdinalIsPlace(items, job, position);
      forall k | 0 <= k < position ensures list[k] != list[position] { OrdinalIsPlace(items, job, k); }
      ordinal := ordinal[list[position] := position];
    }
    forall p: nat | p < |items| && items[p].job == job ensures p in ordinal && ordinal[p] == Ordinal(items, p) {
      assert p in list;
      OrdinalIsPlace(items, job, PlaceIn(list, p));
    }
  }

  ghost predicate ListsGroups(items: seq<Item>, keys: seq<Group>, groups: map<Group, seq<nat>>, n: nat)
    requires n <= |items|
  {
    && keys == Groups(items, n) && (forall g :: g in groups <==> g in keys)
    && (forall g :: g in groups ==> groups[g] == Places(items, OfGroup(g), n))
  }

  method GroupLists(items: seq<Item>) returns (keys: seq<Group>, groups: map<Group, seq<nat>>)
    ensures ListsGroups(items, keys, groups, |items|)
  {
    keys, groups := [], map[];
    ListNoGroup(items);
    hide ListsGroups;
    for p := 0 to |items|
      invariant ListsGroups(items, keys, groups, p)
    {
      var g := items[p].group;
      ListOneGroup(items, keys, groups, p);
      if g !in groups {
        keys := keys + [g];
        groups := groups[g := []];
      }
      groups := groups[g := groups[g] + [p]];
    }
  }

  lemma GroupsStep(items: seq<Item>, p: nat)
    requires p < |items|
    ensures
      var r, g := Groups(items, p), items[p].group;
      Groups(items, p + 1) == if g in r then r else r + [g]
  {
  }

  lemma ListNoGroup(items: seq<Item>)
    ensures ListsGroups(items, [], map[], 0)
  {
  }

  lemma {:induction false} ListOneGroup(items: seq<Item>, keys: seq<Group>, groups: map<Group, seq<nat>>, p: nat)
    requires p < |items| && ListsGroups(items, keys, groups, p)
    ensures
      var g := items[p].group;
      && (g in groups ==> ListsGroups(items, keys, groups[g := groups[g] + [p]], p + 1))
      && (g !in groups ==> ListsGroups(items, keys + [g], groups[g := []][g := [] + [p]], p + 1))
  {
    hide Places, Groups;
    var g := items[p].group;
    GroupsStep(items, p);
    if g !in groups {
      forall q | 0 <= q < p ensures items[q].group != g { assert items[q].group in keys; }
      NoPlaces(items, OfGroup(g), p);
    }
    forall h { PlacesStep(items, OfGroup(h), p); }
  }

  /** Draining the groups one after the other. */
  method EmitBlocks(items: seq<Item>, ranks: Ranks, ordinal: map<nat, nat>,
                    groups: map<Group, seq<nat>>, gs: seq<Group>) returns (ordered: seq<nat>)
    requires forall p: nat :: p < |items| ==> p in ordinal && ordinal[p] == Ordinal(items, p)
    requires forall g :: g in gs ==> g in groups && groups[g] == GroupPlaces(items, g)
    ensures ordered == Blocks(items, ranks, gs)
  {
    hide Ordinal, Blocks, Block, GroupPlaces;
    ordered := [];
    assert gs[0..] == gs;
    for k := 0 to |gs|
      invariant ordered + Blocks(items, ranks, gs[k..]) == Blocks(items, ranks, gs)
    {
      assert gs[k] in gs;
      BlockAsRun(items, ranks, ordinal, gs[k]);
      NextBlock(items, ranks, gs, k);
      var block := Sort(groups[gs[k]], ChunkOrder(items, ranks, ordinal));
      assert (ordered + block) + Blocks(items, ranks, gs[k + 1..])
        == ordered + (block + Blocks(items, ranks, gs[k + 1..]));
      ordered := ordered + block;
    }
    NoBlocks(items, ranks, gs[|gs|..]);
  }

  lemma NoBlocks(items: seq<Item>, ranks: Ranks, gs: seq<Group>)
    requires gs == []
    ensures Blocks(items, ranks, gs) == []
  {
  }

  /** `_ordered_for_dispatch`. */
  method OrderedForDispatch(items: seq<Item>, ranks: Ranks) returns (ordered: seq<nat>)
    ensures ordered == DispatchList(items, ranks)
  {
    var ordinal := Ordinals(items);
    var keys, groups := GroupLists(items);
    hide Ordinal, Places;
    var sortedKeys := SortedGroups(items, ranks);
    ordered := EmitBlocks(items, ranks, ordinal, groups, sortedKeys);
  }

  lemma NextBlock(items: seq<Item>, ranks: Ranks, gs: seq<Group>, k: nat)
    requires k < |gs|
    ensures Blocks(items, ranks, gs[k..]) == Block(items, ranks, gs[k]) + Blocks(items, ranks, gs[k + 1..])
  {
    assert gs[k..][0] == gs[k] && gs[k..][1..] == gs[k + 1..];
  }

  lemma BlockAsRun(items: seq<Item>, ranks: Ranks, ordinal: map<nat, nat>, g: Group)
    requires forall p: nat :: p < |items| ==> p in ordinal && ordinal[p] == Ordinal(items, p)
    ensures Sort(GroupPlaces(items, g), ChunkOrder(items, ranks, ordinal)) == Block(items, ranks, g)
  {
    hide Ordinal, KeyBefore;
    SortSameOrder(GroupPlaces(items, g), ChunkOrder(items, ranks, ordinal), KeyOrder(items, ranks));
  }
}
