/** The streaming append queue of the browser player (web/src/lib/media-source.ts) and the
    window rules it follows (web/src/lib/media-window.ts), for the life of one stream. The
    steps are the stretches of code between two awaits. */
module AppendQueue {
  import opened Wrappers

  // ---- window rules ----

  const AHEAD := 240.0
  const KEEP_BEHIND := 120.0
  const REFILL := 30.0
  const SEEK_LOOKAHEAD := 1.0
  const EMERGENCY_KEEP_BEHIND := 10.0
  const EPSILON := 0.05
  const RETRY_BACKOFF := 3.0

  /** What the media element shows at one moment. */
  datatype View = View(playhead: real, bufferedStart: real, bufferedEnd: real, seek: Option<real>,
                       now: real, updating: bool)

  function Max(a: real, b: real): real { if a >= b then a else b }

  /** `resolveAppendWindowEnd`. */
  function WindowEnd(v: View): real {
    var ahead := Max(0.0, v.playhead) + AHEAD;
    if v.seek.None? then ahead else Max(ahead, v.seek.value + SEEK_LOOKAHEAD)
  }

  /** `needsWindowFill`. */
  predicate NeedsFill(v: View) {
    || (v.seek.Some? && v.seek.value > v.bufferedEnd)
    || v.bufferedEnd - Max(0.0, v.playhead) < AHEAD - REFILL
  }

  datatype Range = Range(start: real, end: real)

  /** `resolveEvictionRange`. */
  function EvictionRange(bufferedStart: real, playhead: real, keepBehind: real): Option<Range> {
    var end := Max(0.0, playhead) - Max(0.0, keepBehind);
    if end - bufferedStart <= EPSILON then None else Some(Range(0.0, end))
  }

  /** Eviction frees something: all that lies behind the playhead by the margin, and no more. */
  lemma EvictionStaysBehindPlayhead(bufferedStart: real, playhead: real, keepBehind: real)
    requires bufferedStart >= 0.0
    ensures
      var range := EvictionRange(bufferedStart, playhead, keepBehind);
      && (range.Some? <==> playhead > bufferedStart + Max(0.0, keepBehind) + EPSILON)
      && (range.Some? ==>
           range.value.start == 0.0 <= bufferedStart < range.value.end == playhead - Max(0.0, keepBehind))
  {
  }

  /** The chunk a pending seek lands in starts inside the window, and until it is buffered
      the window keeps being filled. */
  lemma SeekIsServed(v: View, start: real)
    requires v.seek.Some? && start <= v.seek.value
    ensures start < WindowEnd(v)
    ensures v.seek.value > v.bufferedEnd ==> NeedsFill(v)
  {
  }

  // ---- the stream ----

  datatype MediaChunk = MediaChunk(index: nat, start: real, hasUrl: bool)

  datatype Queued = Queued(index: nat, position: nat)

  /** Who holds `processingQueueRef`: nobody, the append loop (waiting for a fetch or an
      append, or for room to be freed), or an eviction. */
  datatype Lock = Free | Appending | Recovering | Evicting

  /** `appended` lists the chunks in the order they reached the SourceBuffer. */
  datatype Stream = Stream(manifest: seq<MediaChunk>, cursor: nat, queue: seq<Queued>, pending: set<nat>,
                           appended: seq<nat>, quotaRetried: set<nat>, retryAt: real, lock: Lock)

  function Opened(manifest: seq<MediaChunk>): Stream { Stream(manifest, 0, [], {}, [], {}, 0.0, Free) }

  /** Where the scan stops: at the first chunk that starts beyond the window. */
  function ScanEnd(chunks: seq<MediaChunk>, cursor: nat, end: real): (r: nat)
    requires cursor <= |chunks|
    ensures cursor <= r <= |chunks|
    decreases |chunks| - cursor
  {
    if cursor == |chunks| || chunks[cursor].start >= end then cursor else ScanEnd(chunks, cursor + 1, end)
  }

  predicate IsWanted(s: Stream, c: MediaChunk) { c.hasUrl && c.index !in s.appended && c.index !in s.pending }

  /** The chunks from the cursor up to `stop` that are queued. */
  function Collected(s: Stream, stop: nat): seq<Queued>
    requires s.cursor <= stop <= |s.manifest|
    decreases stop
  {
    if stop == s.cursor then [] else
      var front := Collected(s, stop - 1);
      var c := s.manifest[stop - 1];
      if IsWanted(s, c) && (forall k :: 0 <= k < |front| ==> front[k].index != c.index)
      then front + [Queued(c.index, stop - 1)] else front
  }

  function Indexes(queue: seq<Queued>): (r: seq<nat>)
    ensures |r| == |queue| && forall k :: 0 <= k < |queue| ==> r[k] == queue[k].index
  {
    seq(|queue|, k requires 0 <= k < |queue| => queue[k].index)
  }

  ghost function IndexSet(queue: seq<Queued>): (r: set<nat>)
    ensures forall x :: x in r <==> x in Indexes(queue)
  {
    set x | x in Indexes(queue)
  }

  // `sort((left, right) => left.index - right.index)`

  function InsertByIndex(q: Queued, queue: seq<Queued>): (r: seq<Queued>)
    ensures |r| == |queue| + 1
  {
    if queue == [] || q.index <= queue[0].index then [q] + queue else [queue[0]] + InsertByIndex(q, queue[1..])
  }

  function SortByIndex(queue: seq<Queued>): (r: seq<Queued>)
    ensures |r| == |queue|
  {
    if queue == [] then [] else InsertByIndex(queue[0], SortByIndex(queue[1..]))
  }

  ghost predicate Increasing(queue: seq<Queued>) {
    forall k, l :: 0 <= k < l < |queue| ==> queue[k].index < queue[l].index
  }

  lemma {:induction false} SortedAlready(queue: seq<Queued>)
    requires Increasing(queue)
    ensures SortByIndex(queue) == queue
  {
    if queue != [] {
      assert Increasing(queue[1..]);
      SortedAlready(queue[1..]);
      assert queue[0] == queue[0] && (|queue| > 1 ==> queue[0].index < queue[1].index);
    }
  }

  /** `processQueue` up to its first await. */
  function StartLoop(s: Stream): Stream { if s.lock.Free? then s.(lock := Appending) else s }

  predicate CanFill(s: Stream, v: View) { s.queue == [] && v.now >= s.retryAt && NeedsFill(v) }

  /** `fillAppendWindow`. */
  ghost function FillWindow(s: Stream, v: View): Stream
    requires s.cursor <= |s.manifest|
  {
    if !CanFill(s, v) then s else
      var stop := ScanEnd(s.manifest, s.cursor, WindowEnd(v));
      var found := Collected(s, stop);
      var t := s.(cursor := stop, queue := SortByIndex(found), pending := s.pending + IndexSet(found));
      if found == [] then t else StartLoop(t)
  }

  /** `evictPlayedAudio` up to its await. */
  function StartEviction(s: Stream, v: View): Stream {
    if s.lock.Free? && !v.updating && EvictionRange(v.bufferedStart, v.playhead, KEEP_BEHIND).Some?
    then s.(lock := Evicting) else s
  }

  /** `runWindowMaintenance`, on every playback tick. */
  ghost function Maintain(s: Stream, v: View): Stream
    requires s.cursor <= |s.manifest|
  {
    StartEviction(FillWindow(s, v), v)
  }

  function EndLoop(s: Stream, v: View): Stream { StartEviction(s.(lock := Free), v) }

  /** The head of the queue has been appended; the loop goes on or ends. */
  ghost function HeadAppended(s: Stream, v: View): Stream
    requires s.queue != [] && s.cursor <= |s.manifest|
  {
    var head := s.queue[0];
    var t := Maintain(s.(queue := s.queue[1..], pending := s.pending - {head.index},
                         appended := s.appended + [head.index], retryAt := 0.0), v);
    if t.queue != [] then t else EndLoop(t, v)
  }

  /** Give up for now: drop the queue, rewind the scan to the failed chunk, back off. */
  ghost function GiveUp(s: Stream, v: View): Stream
    requires s.queue != []
  {
    EndLoop(s.(pending := s.pending - IndexSet(s.queue), queue := [], cursor := s.queue[0].position,
               retryAt := v.now + RETRY_BACKOFF), v)
  }

  predicate CanRecover(v: View) {
    !v.updating && EvictionRange(v.bufferedStart, v.playhead, EMERGENCY_KEEP_BEHIND).Some?
  }

  /** Fetching or appending the head failed. A full buffer gets one retry per chunk. */
  ghost function HeadFailed(s: Stream, quota: bool, v: View): Stream
    requires s.queue != []
  {
    var head := s.queue[0];
    var t := s.(pending := s.pending - {head.index});
    if quota && head.index !in s.quotaRetried then
      var u := t.(quotaRetried := t.quotaRetried + {head.index});
      if CanRecover(v) then u.(lock := Recovering) else GiveUp(u, v)
    else GiveUp(t, v)
  }

  ghost function RoomFreed(s: Stream, v: View): Stream
    requires s.queue != [] && s.cursor <= |s.manifest|
  {
    Maintain(s.(pending := s.pending + {s.queue[0].index}, lock := Appending), v)
  }

  // ---- runs ----

  datatype Event =
    | Grow(more: seq<MediaChunk>)
    | Fill(v: View)
    | Tick(v: View)
    | Appended(v: View)
    | Failed(quota: bool, v: View)
    | Freed(v: View)
    | Evicted

  ghost function Next(s: Stream, e: Event): Stream
    requires s.cursor <= |s.manifest|
  {
    match e
    case Grow(more) => s.(manifest := s.manifest + more)
    case Fill(v) => FillWindow(s, v)
    case Tick(v) => Maintain(s, v)
    case Appended(v) => if s.lock.Appending? && s.queue != [] then HeadAppended(s, v) else s
    case Failed(quota, v) => if s.lock.Appending? && s.queue != [] then HeadFailed(s, quota, v) else s
    case Freed(v) => if s.lock.Recovering? && s.queue != [] then RoomFreed(s, v) else s
    case Evicted => if s.lock.Evicting? then s.(lock := Free) else s
  }

  /** Manifests list written chunks in index order. */
  ghost predicate InOrder(chunks: seq<MediaChunk>) {
    forall k, l :: 0 <= k < l < |chunks| ==> chunks[k].index < chunks[l].index
  }

  /** What there is to play among the first `n` chunks: those that have a segment. */
  function Playable(chunks: seq<MediaChunk>, n: nat): seq<Queued>
    requires n <= |chunks|
  {
    if n == 0 then [] else
      Playable(chunks, n - 1) + (if chunks[n - 1].hasUrl then [Queued(chunks[n - 1].index, n - 1)] else [])
  }

  /** Appended, then queued, is what there is to play up to the cursor. */
  ghost predicate IsPrefix(s: Stream) {
    && s.cursor <= |s.manifest|
    && var all := Playable(s.manifest, s.cursor);
       |s.appended| <= |all| && s.appended == Indexes(all[..|s.appended|]) && s.queue == all[|s.appended|..]
  }

  ghost predicate ByPosition(queue: seq<Queued>) {
    forall k, l :: 0 <= k < l < |queue| ==> queue[k].position < queue[l].position
  }

  /** `q` is the chunk at its position, and has a segment. */
  predicate IsListed(chunks: seq<MediaChunk>, q: Queued, n: nat) {
    q.position < n <= |chunks| && chunks[q.position].hasUrl && chunks[q.position].index == q.index
  }

  lemma {:induction false} PlayableIsListed(chunks: seq<MediaChunk>, n: nat)
    requires n <= |chunks|
    ensures forall k :: 0 <= k < |Playable(chunks, n)| ==> IsListed(chunks, Playable(chunks, n)[k], n)
    ensures ByPosition(Playable(chunks, n))
  {
    if n > 0 {
      PlayableIsListed(chunks, n - 1);
      var front := Playable(chunks, n - 1);
      assert forall k :: 0 <= k < |front| ==> Playable(chunks, n)[k] == front[k] && IsListed(chunks, front[k], n - 1);
    }
  }

  lemma PlayableIsOrdered(chunks: seq<MediaChunk>, n: nat)
    requires InOrder(chunks) && n <= |chunks|
    ensures Increasing(Playable(chunks, n))
    ensures forall k :: 0 <= k < |Playable(chunks, n)| ==> IsListed(chunks, Playable(chunks, n)[k], n)
  {
    PlayableIsListed(chunks, n);
    hide Playable;
    var all := Playable(chunks, n);
    forall k, l | 0 <= k < l < |all| ensures all[k].index < all[l].index {
      assert IsListed(chunks, all[k], n) && IsListed(chunks, all[l], n);
    }
  }

  /** Going back to a chunk leaves what comes before it. */
  lemma {:induction false} PlayableUpTo(chunks: seq<MediaChunk>, n: nat, k: nat)
    requires n <= |chunks| && k < |Playable(chunks, n)|
    ensures Playable(chunks, n)[k].position < n
    ensures Playable(chunks, Playable(chunks, n)[k].position) == Playable(chunks, n)[..k]
  {
    if k < |Playable(chunks, n - 1)| {
      PlayableUpTo(chunks, n - 1, k);
      assert Playable(chunks, n)[..k] == Playable(chunks, n - 1)[..k];
    } else {
      assert Playable(chunks, n)[..k] == Playable(chunks, n - 1);
    }
  }

  lemma {:induction false} PlayableStays(chunks: seq<MediaChunk>, more: seq<MediaChunk>, n: nat)
    requires n <= |chunks|
    ensures Playable(chunks + more, n) == Playable(chunks, n)
  {
    if n > 0 { PlayableStays(chunks, more, n - 1); }
  }

  ghost predicate Inv(s: Stream) {
    && InOrder(s.manifest) && IsPrefix(s)
    && (s.lock.Appending? || s.lock.Recovering? ==> s.queue != [])
    && s.pending == (if s.lock.Recovering? then IndexSet(s.queue[1..]) else IndexSet(s.queue))
    && (s.lock.Recovering? ==> s.queue[0].index in s.quotaRetried)
  }

  /** In the middle of a step the append loop may hold the lock over an empty queue. */
  ghost predicate InvInLoop(s: Stream) {
    && InOrder(s.manifest) && IsPrefix(s) && s.pending == IndexSet(s.queue) && !s.lock.Recovering?
  }

  /** With nothing queued, the scan collects what there is to play from the cursor on. */
  lemma {:induction false} CollectsWhatIsPlayable(s: Stream, stop: nat)
    requires InOrder(s.manifest) && IsPrefix(s) && s.queue == [] && s.pending == {} && s.cursor <= stop <= |s.manifest|
    ensures Playable(s.manifest, stop) == Playable(s.manifest, s.cursor) + Collected(s, stop)
    decreases stop
  {
    if stop > s.cursor {
      CollectsWhatIsPlayable(s, stop - 1);
      var c, all, front := s.manifest[stop - 1], Playable(s.manifest, s.cursor), Collected(s, stop - 1);
      NotYetAppended(s, stop);
      NotYetCollected(s, stop, all, front);
      hide InOrder, IsPrefix;
      assert IsWanted(s, c) == c.hasUrl;
      assert (all + front) + [Queued(c.index, stop - 1)] == all + (front + [Queued(c.index, stop - 1)]);
    }
  }

  lemma NotYetCollected(s: Stream, stop: nat, all: seq<Queued>, front: seq<Queued>)
    requires InOrder(s.manifest) && s.cursor < stop <= |s.manifest| && Playable(s.manifest, stop - 1) == all + front
    ensures forall k :: 0 <= k < |front| ==> front[k].index != s.manifest[stop - 1].index
  {
    PlayableIsOrdered(s.manifest, stop - 1);
    hide Playable;
    forall k | 0 <= k < |front| ensures front[k].index != s.manifest[stop - 1].index {
      assert (all + front)[|all| + k] == front[k] && IsListed(s.manifest, front[k], stop - 1);
    }
  }

  lemma NotYetAppended(s: Stream, stop: nat)
    requires InOrder(s.manifest) && IsPrefix(s) && s.cursor < stop <= |s.manifest|
    ensures s.manifest[stop - 1].index !in s.appended
  {
    PlayableIsOrdered(s.manifest, s.cursor);
    var all := Playable(s.manifest, s.cursor);
    hide Playable;
    forall k | 0 <= k < |s.appended| ensures s.appended[k] < s.manifest[stop - 1].index {
      assert s.appended[k] == Indexes(all[..|s.appended|])[k] == all[k].index && IsListed(s.manifest, all[k], s.cursor);
    }
  }

  lemma FillKeepsInv(s: Stream, v: View)
    requires InvInLoop(s)
    ensures InvInLoop(FillWindow(s, v)) && FillWindow(s, v).appended == s.appended
    ensures FillWindow(s, v).manifest == s.manifest && FillWindow(s, v).quotaRetried == s.quotaRetried
    ensures s.queue != [] ==> FillWindow(s, v) == s
    ensures FillWindow(s, v).lock == s.lock
      || (s.lock.Free? && FillWindow(s, v).lock.Appending? && FillWindow(s, v).queue != [])
    ensures s.lock.Free? && s.queue == [] ==> (FillWindow(s, v).queue != [] <==> FillWindow(s, v).lock.Appending?)
  {
    if CanFill(s, v) {
      assert s.pending == {};
      var stop := ScanEnd(s.manifest, s.cursor, WindowEnd(v));
      hide ScanEnd, Collected, SortByIndex, CanFill, WindowEnd;
      CollectsWhatIsPlayable(s, stop);
      var found := Collected(s, stop);
      CollectedIsIncreasing(s, stop);
      SortedAlready(found);
      FoundKeepsInv(s, stop, found);
      hide IsPrefix, InOrder, Increasing;
    }
  }

  lemma CollectedIsIncreasing(s: Stream, stop: nat)
    requires InOrder(s.manifest) && IsPrefix(s) && s.queue == [] && s.pending == {} && s.cursor <= stop <= |s.manifest|
    ensures Increasing(Collected(s, stop))
  {
    CollectsWhatIsPlayable(s, stop);
    PlayableIsOrdered(s.manifest, stop);
    hide Collected, Playable;
    var all, found := Playable(s.manifest, s.cursor), Collected(s, stop);
    assert forall k :: 0 <= k < |found| ==> (all + found)[|all| + k] == found[k];
  }

  lemma FoundKeepsInv(s: Stream, stop: nat, found: seq<Queued>)
    requires InvInLoop(s) && s.queue == [] && s.cursor <= stop <= |s.manifest|
    requires Playable(s.manifest, stop) == Playable(s.manifest, s.cursor) + found
    ensures InvInLoop(s.(cursor := stop, queue := found, pending := s.pending + IndexSet(found)))
    ensures InvInLoop(s.(cursor := stop, queue := found, pending := s.pending + IndexSet(found), lock := Appending))
  {
    assert s.pending + IndexSet(found) == IndexSet(found);
    hide IndexSet, Playable;
    var all := Playable(s.manifest, s.cursor);
    assert all[|s.appended|..] == [] && |all| == |s.appended|;
    assert (all + found)[..|all|] == all[..|all|] && (all + found)[|all|..] == found;
  }

  lemma EndLoopKeepsInv(s: Stream, v: View)
    requires InvInLoop(s)
    ensures Inv(EndLoop(s, v))
  {
  }

  lemma GiveUpKeepsInv(s: Stream, v: View)
    requires InOrder(s.manifest) && IsPrefix(s) && s.queue != [] && s.pending == IndexSet(s.queue[1..])
    ensures Inv(GiveUp(s, v))
  {
    var t := s.(pending := s.pending - IndexSet(s.queue), queue := [], cursor := s.queue[0].position,
                retryAt := v.now + RETRY_BACKOFF);
    var all := Playable(s.manifest, s.cursor);
    PlayableUpTo(s.manifest, s.cursor, |s.appended|);
    assert s.queue[0] == all[|s.appended|] && all[..|s.appended|][..|s.appended|] == all[..|s.appended|];
    assert forall x :: x in Indexes(s.queue[1..]) ==> x in Indexes(s.queue) by {
      assert forall k :: 0 <= k < |s.queue| - 1 ==> Indexes(s.queue[1..])[k] == Indexes(s.queue)[k + 1];
    }
    assert t.pending == {};
    assert InvInLoop(t.(lock := Free));
    EndLoopKeepsInv(t.(lock := Free), v);
  }

  lemma HeadLeavesPending(s: Stream)
    requires InOrder(s.manifest) && IsPrefix(s) && s.queue != []
    ensures IndexSet(s.queue) - {s.queue[0].index} == IndexSet(s.queue[1..])
    ensures IndexSet(s.queue[1..]) + {s.queue[0].index} == IndexSet(s.queue)
  {
    var a, b := Indexes(s.queue), Indexes(s.queue[1..]);
    assert a == [s.queue[0].index] + b;
    PlayableIsOrdered(s.manifest, s.cursor);
    hide Playable;
    var all := Playable(s.manifest, s.cursor);
    forall k | 0 <= k < |b| ensures b[k] != s.queue[0].index {
      assert s.queue[0] == all[|s.appended|] && s.queue[1..][k] == s.queue[k + 1] == all[|s.appended| + (k + 1)];
    }
  }

  lemma HeadAppendedKeepsInv(s: Stream, v: View)
    requires Inv(s) && s.lock.Appending? && s.queue != []
    ensures Inv(HeadAppended(s, v))
  {
    HeadLeavesPending(s);
    var head := s.queue[0];
    var moved := s.(queue := s.queue[1..], pending := s.pending - {head.index},
                    appended := s.appended + [head.index], retryAt := 0.0);
    HeadMoves(s);
    FillKeepsInv(moved, v);
    var t := Maintain(moved, v);
    hide FillWindow;
    assert t == FillWindow(moved, v) && t.lock.Appending?;
    if t.queue == [] { EndLoopKeepsInv(t, v); }
  }

  /** The head goes from the queue to what has been appended. */
  lemma HeadMoves(s: Stream)
    requires Inv(s) && s.lock.Appending? && s.queue != []
    ensures InvInLoop(s.(queue := s.queue[1..], pending := s.pending - {s.queue[0].index},
                         appended := s.appended + [s.queue[0].index], retryAt := 0.0))
  {
    HeadLeavesPending(s);
    hide Playable, IndexSet;
    var all, n := Playable(s.manifest, s.cursor), |s.appended|;
    assert s.queue[0] == all[n] && all[n..][1..] == all[n + 1..];
    assert all[..n + 1] == all[..n] + [all[n]];
    assert Indexes(all[..n + 1]) == Indexes(all[..n]) + [all[n].index];
  }

  lemma RecoveringKeepsInv(s: Stream)
    requires Inv(s) && s.lock.Appending? && s.queue != []
    ensures Inv(s.(pending := s.pending - {s.queue[0].index}, quotaRetried := s.quotaRetried + {s.queue[0].index},
                   lock := Recovering))
  {
    HeadLeavesPending(s);
    hide IndexSet, InOrder, IsPrefix;
  }

  lemma GivingUpKeepsInv(s: Stream, retried: set<nat>, v: View)
    requires Inv(s) && s.lock.Appending? && s.queue != []
    ensures Inv(GiveUp(s.(pending := s.pending - {s.queue[0].index}, quotaRetried := retried), v))
  {
    HeadLeavesPending(s);
    hide GiveUp, IndexSet;
    GiveUpKeepsInv(s.(pending := s.pending - {s.queue[0].index}, quotaRetried := retried), v);
  }

  lemma HeadFailedKeepsInv(s: Stream, quota: bool, v: View)
    requires Inv(s) && s.lock.Appending? && s.queue != []
    ensures Inv(HeadFailed(s, quota, v))
  {
    hide Inv, GiveUp, CanRecover;
    RecoveringKeepsInv(s);
    GivingUpKeepsInv(s, s.quotaRetried, v);
    GivingUpKeepsInv(s, s.quotaRetried + {s.queue[0].index}, v);
    var t := s.(pending := s.pending - {s.queue[0].index});
    assert t == t.(quotaRetried := s.quotaRetried);
  }

  lemma MaintainKeepsInv(s: Stream, v: View)
    requires Inv(s)
    ensures Inv(Maintain(s, v))
  {
    hide FillWindow;
    if s.lock.Recovering? {
      FilledStays(s, v);
    } else {
      FillKeepsInv(s, v);
    }
  }

  lemma FilledStays(s: Stream, v: View)
    requires s.cursor <= |s.manifest| && s.queue != []
    ensures FillWindow(s, v) == s
  {
  }

  lemma GrowKeepsInv(s: Stream, more: seq<MediaChunk>)
    requires Inv(s) && InOrder(s.manifest + more)
    ensures Inv(s.(manifest := s.manifest + more))
  {
    PlayableStays(s.manifest, more, s.cursor);
  }

  ghost predicate IsOrderly(s: Stream, e: Event) { e.Grow? ==> InOrder(s.manifest + e.more) }

  lemma NextKeepsInv(s: Stream, e: Event)
    requires Inv(s) && IsOrderly(s, e)
    ensures Inv(Next(s, e))
  {
    hide FillWindow, HeadAppended, HeadFailed, Maintain;
    match e
    case Grow(more) => GrowKeepsInv(s, more);
    case Fill(v) => if s.lock.Recovering? { FilledStays(s, v); } else { FillKeepsInv(s, v); }
    case Tick(v) => MaintainKeepsInv(s, v);
    case Appended(v) => if s.lock.Appending? && s.queue != [] { HeadAppendedKeepsInv(s, v); }
    case Failed(quota, v) => if s.lock.Appending? && s.queue != [] { HeadFailedKeepsInv(s, quota, v); }
    case Freed(v) =>
      if s.lock.Recovering? && s.queue != [] {
        HeadLeavesPending(s);
        MaintainKeepsInv(s.(pending := s.pending + {s.queue[0].index}, lock := Appending), v);
      }
    case Evicted =>
  }

  // ---- what each event does ----

  /** Eviction takes the lock exactly when it is free, the buffer is idle, and more than the
      played audio that is kept lies behind the playhead. Nothing else changes. */
  lemma EvictionStartsExactlyWhen(s: Stream, v: View)
    requires v.bufferedStart >= 0.0
    ensures
      var t := StartEviction(s, v);
      && t == s.(lock := t.lock)
      && t.lock == (if s.lock.Free? && !v.updating && v.playhead > v.bufferedStart + 120.0 + 0.05
                    then Evicting else s.lock)
  {
    EvictionStaysBehindPlayhead(v.bufferedStart, v.playhead, KEEP_BEHIND);
  }

  /** A fill is due: nothing is queued, no failure is being waited out, and either a seek
      waits for audio that is not there or less than 210 seconds are buffered ahead. */
  predicate IsDue(s: Stream, v: View) {
    && s.queue == [] && v.now >= s.retryAt
    && ((v.seek.Some? && v.seek.value > v.bufferedEnd)
        || (if v.playhead >= 0.0 then v.bufferedEnd - v.playhead else v.bufferedEnd) < 210.0)
  }

  /** The chunk starts within 240 seconds of the playhead, or in front of a seek's target and
      a second beyond. */
  predicate IsNear(c: MediaChunk, v: View) {
    || c.start < 240.0 || c.start < v.playhead + 240.0
    || (v.seek.Some? && c.start < v.seek.value + 1.0)
  }

  /** The chunks with a segment between two cursors, in order. */
  ghost predicate IsSliceOf(queue: seq<Queued>, chunks: seq<MediaChunk>, lo: nat, hi: nat)
    requires lo <= hi <= |chunks|
  {
    && (forall k: nat :: lo <= k < hi && chunks[k].hasUrl ==> Queued(chunks[k].index, k) in queue)
    && (forall q :: q in queue ==> lo <= q.position && IsListed(chunks, q, hi))
    && ByPosition(queue)
  }

  /** A fill that is due moves the cursor to the first chunk that is not near and queues what it
      passes; the loop starts unless the lock is held. Otherwise a fill does nothing. */
  lemma FillTakesWhatIsNear(s: Stream, v: View)
    requires Inv(s)
    ensures !IsDue(s, v) ==> FillWindow(s, v) == s
    ensures IsDue(s, v) ==>
      var t := FillWindow(s, v);
      && t == s.(cursor := t.cursor, queue := t.queue, pending := t.pending, lock := t.lock)
      && s.cursor <= t.cursor <= |s.manifest| && IsSliceOf(t.queue, s.manifest, s.cursor, t.cursor)
      && (forall k :: s.cursor <= k < t.cursor ==> IsNear(s.manifest[k], v))
      && (t.cursor < |s.manifest| ==> !IsNear(s.manifest[t.cursor], v))
      && t.lock == (if t.queue != [] && s.lock.Free? then Appending else s.lock)
  {
    if IsDue(s, v) {
      DueFill(s, v);
      hide FillWindow, Inv, IsDue, ScanEnd, WindowEnd, IsNear, IsSliceOf, Playable;
      ScanReach(s.manifest, s.cursor, WindowEnd(v));
      forall k | 0 <= k < |s.manifest| ensures IsNear(s.manifest[k], v) <==> s.manifest[k].start < WindowEnd(v) {
        NearIsInWindow(s.manifest[k], v);
      }
      PlayableSlice(s.manifest, s.cursor, FillWindow(s, v).cursor);
    }
  }

  lemma DueFill(s: Stream, v: View)
    requires Inv(s) && IsDue(s, v)
    ensures
      var t := FillWindow(s, v);
      && t == s.(cursor := t.cursor, queue := t.queue, pending := t.pending, lock := t.lock)
      && t.cursor == ScanEnd(s.manifest, s.cursor, WindowEnd(v))
      && |Playable(s.manifest, s.cursor)| <= |Playable(s.manifest, t.cursor)|
      && t.queue == Playable(s.manifest, t.cursor)[|Playable(s.manifest, s.cursor)|..]
      && t.lock == (if t.queue != [] && s.lock.Free? then Appending else s.lock)
  {
    FillKeepsInv(s, v);
    hide ScanEnd, WindowEnd, Collected, SortByIndex, IndexSet, InOrder, Playable;
  }

  lemma NearIsInWindow(c: MediaChunk, v: View)
    ensures IsNear(c, v) <==> c.start < WindowEnd(v)
  {
  }

  lemma {:induction false} ScanReach(chunks: seq<MediaChunk>, cursor: nat, end: real)
    requires cursor <= |chunks|
    ensures
      var stop := ScanEnd(chunks, cursor, end);
      && (forall k :: cursor <= k < stop ==> chunks[k].start < end)
      && (stop < |chunks| ==> chunks[stop].start >= end)
    decreases |chunks| - cursor
  {
    if cursor < |chunks| && chunks[cursor].start < end { ScanReach(chunks, cursor + 1, end); }
  }

  lemma {:induction false} PlayableSlice(chunks: seq<MediaChunk>, lo: nat, hi: nat)
    requires lo <= hi <= |chunks|
    ensures Playable(chunks, lo) <= Playable(chunks, hi)
    ensures IsSliceOf(Playable(chunks, hi)[|Playable(chunks, lo)|..], chunks, lo, hi)
    decreases hi
  {
    if lo < hi {
      PlayableSlice(chunks, lo, hi - 1);
      var n, all := |Playable(chunks, lo)|, Playable(chunks, hi - 1);
      var last := if chunks[hi - 1].hasUrl then [Queued(chunks[hi - 1].index, hi - 1)] else [];
      assert Playable(chunks, hi) == all + last;
      hide Playable, IsSliceOf;
      assert (all + last)[n..] == all[n..] + last;
      SliceExtends(all[n..], last, chunks, lo, hi);
    } else {
      assert Playable(chunks, hi)[|Playable(chunks, lo)|..] == [];
    }
  }

  lemma SliceExtends(queue: seq<Queued>, last: seq<Queued>, chunks: seq<MediaChunk>, lo: nat, hi: nat)
    requires lo < hi <= |chunks| && IsSliceOf(queue, chunks, lo, hi - 1)
    requires last == if chunks[hi - 1].hasUrl then [Queued(chunks[hi - 1].index, hi - 1)] else []
    ensures IsSliceOf(queue + last, chunks, lo, hi)
  {
    assert forall k :: 0 <= k < |queue| ==> queue[k] in queue;
  }

  /** A chunk was appended: it is off the queue, nothing is being waited out any more, and the
      loop goes on with the next one. With none left a fill is tried, and if that finds
      nothing either, the loop ends and what has been played may be evicted. */
  lemma AppendMovesOn(s: Stream, v: View)
    requires Inv(s) && s.lock.Appending? && s.queue != []
    ensures
      var t := HeadAppended(s, v);
      var moved := s.(queue := s.queue[1..], pending := IndexSet(s.queue[1..]),
                      appended := s.appended + [s.queue[0].index], retryAt := 0.0);
      && t.appended == s.appended + [s.queue[0].index] && t.retryAt == 0.0
      && (|s.queue| > 1 ==> t == moved)
      && (|s.queue| == 1 ==>
           var filled := FillWindow(moved, v);
           t == if filled.queue != [] then filled else StartEviction(filled.(lock := Free), v))
  {
    HeadLeavesPending(s);
    HeadMoves(s);
    var moved := s.(queue := s.queue[1..], pending := IndexSet(s.queue[1..]),
                    appended := s.appended + [s.queue[0].index], retryAt := 0.0);
    FillKeepsInv(moved, v);
    hide ScanEnd, Collected, SortByIndex, IndexSet, CanFill, WindowEnd;
  }

  /** Appending the head failed. Room is made for it exactly when the buffer was full, this is
      the first time for this chunk, the buffer is idle, and more than ten seconds of played
      audio can go; then it keeps its place, and once there is room it is tried again at once.
      Otherwise the queue is dropped, the cursor goes back to the chunk, and fills have to wait
      three seconds. */
  lemma QuotaMakesRoomExactlyWhen(s: Stream, quota: bool, v: View, later: View)
    requires Inv(s) && s.lock.Appending? && s.queue != [] && v.bufferedStart >= 0.0
    ensures
      var head, t := s.queue[0], HeadFailed(s, quota, v);
      && (t.lock.Recovering? <==>
           quota && head.index !in s.quotaRetried && !v.updating && v.playhead > v.bufferedStart + 10.0 + 0.05)
      && t.appended == s.appended && t.manifest == s.manifest
      && t.quotaRetried == (if quota then s.quotaRetried + {head.index} else s.quotaRetried)
      && (t.lock.Recovering? ==>
           && t.queue == s.queue && t.cursor == s.cursor && t.retryAt == s.retryAt
           && RoomFreed(t, later) == s.(quotaRetried := t.quotaRetried))
      && (!t.lock.Recovering? ==>
           && t.queue == [] && t.pending == {} && t.cursor == head.position && t.retryAt == v.now + 3.0
           && (t.lock.Free? || t.lock.Evicting?))
  {
    EvictionStaysBehindPlayhead(v.bufferedStart, v.playhead, EMERGENCY_KEEP_BEHIND);
    HeadLeavesPending(s);
    HeadFailedKeepsInv(s, quota, v);
    var t := HeadFailed(s, quota, v);
    if t.lock.Recovering? {
      FilledStays(s.(quotaRetried := t.quotaRetried), later);
      hide FillWindow, IndexSet, IsPrefix, InOrder;
      assert t.pending + {s.queue[0].index} == s.pending;
    } else {
      assert IndexSet([]) == {};
    }
  }

  /** A run of events with the stream it leaves behind, as long as manifests stay orderly. */
  ghost predicate Leads(s: Stream, events: seq<Event>, t: Stream)
    decreases |events|
  {
    if events == [] then s == t else
      s.cursor <= |s.manifest| && IsOrderly(s, events[0]) && Leads(Next(s, events[0]), events[1..], t)
  }

  lemma {:induction false} RunKeepsInv(s: Stream, events: seq<Event>, t: Stream)
    requires Inv(s) && Leads(s, events, t)
    ensures Inv(t)
    decreases |events|
  {
    hide Inv, IsOrderly, Next;
    if events != [] {
      assert Inv(Next(s, events[0])) by { NextKeepsInv(s, events[0]); }
      RunKeepsInv(Next(s, events[0]), events[1..], t);
    }
  }

  /** Nothing is skipped, repeated or reordered: after any run, what has been appended,
      followed by what is queued, is what the manifest has to play up to the cursor. */
  lemma AppendedThenQueuedIsAPrefix(manifest: seq<MediaChunk>, events: seq<Event>, t: Stream)
    requires InOrder(manifest) && Leads(Opened(manifest), events, t)
    ensures t.cursor <= |t.manifest|
    ensures t.appended + Indexes(t.queue) == Indexes(Playable(t.manifest, t.cursor))
    ensures |t.appended| <= |Playable(t.manifest, t.cursor)|
    ensures t.queue == Playable(t.manifest, t.cursor)[|t.appended|..]
  {
    assert IndexSet([]) == {};
    assert Inv(Opened(manifest));
    RunKeepsInv(Opened(manifest), events, t);
    var all := Playable(t.manifest, t.cursor);
    assert all == all[..|t.appended|] + all[|t.appended|..];
  }

  /** Room is made for a chunk at most once per stream: each recovery marks its chunk, and
      no mark is ever taken back. */
  lemma RecoversOncePerChunk(s: Stream, e: Event)
    requires Inv(s) && IsOrderly(s, e)
    ensures s.quotaRetried <= Next(s, e).quotaRetried
    ensures Next(s, e).lock.Recovering? && !s.lock.Recovering? ==>
      s.queue != [] && s.queue[0].index !in s.quotaRetried && s.queue[0].index in Next(s, e).quotaRetried
  {
    hide Collected, SortByIndex, ScanEnd, Inv, IsOrderly, IndexSet;
  }

  // ---- when the queue stops moving ----

  /** Chunks are queued and no append loop is running to take them. */
  predicate IsStalled(s: Stream) { s.queue != [] && (s.lock.Free? || s.lock.Evicting?) }

  /** A stalled queue stays stalled: only a fill starts the loop, and a fill waits for the
      queue to be empty. */
  lemma {:induction false} StalledForGood(s: Stream, events: seq<Event>, t: Stream)
    requires IsStalled(s) && Leads(s, events, t)
    ensures IsStalled(t) && t.appended == s.appended && t.queue == s.queue
    decreases |events|
  {
    hide IsOrderly;
    if events != [] { StalledForGood(Next(s, events[0]), events[1..], t); }
  }

  /** Some chunk with a segment stands in the window from the cursor on. */
  predicate HasMore(s: Stream, end: real) {
    exists k :: s.cursor <= k < |s.manifest| && IsNext(s, k, end)
  }

  predicate IsNext(s: Stream, k: nat, end: real)
    requires k < |s.manifest|
  {
    s.manifest[k].hasUrl && forall l :: s.cursor <= l <= k ==> s.manifest[l].start < end
  }

  /** The one way into it: while an eviction holds the lock, a fill is due and finds a chunk
      with a segment in the window. */
  lemma StallsExactlyWhen(s: Stream, e: Event)
    requires Inv(s) && IsOrderly(s, e) && !IsStalled(s)
    ensures IsStalled(Next(s, e)) <==>
      (e.Fill? || e.Tick?) && s.lock.Evicting? && e.v.now >= s.retryAt && NeedsFill(e.v) && HasMore(s, WindowEnd(e.v))
  {
    hide Collected, SortByIndex, ScanEnd, HasMore, WindowEnd, NeedsFill;
    match e
    case Grow(more) =>
    case Fill(v) => StallOnFill(s, v);
    case Tick(v) => StallOnFill(s, v);
    case Appended(v) => if s.lock.Appending? && s.queue != [] { AppendedIsNoStall(s, v); }
    case Failed(quota, v) =>
    case Freed(v) => if s.lock.Recovering? && s.queue != [] { FilledStays(s.(lock := Appending), v); }
    case Evicted =>
  }

  lemma StallOnFill(s: Stream, v: View)
    requires Inv(s) && !IsStalled(s)
    ensures IsStalled(FillWindow(s, v)) <==> IsStallingFill(s, v)
    ensures IsStalled(Maintain(s, v)) <==> IsStallingFill(s, v)
  {
    hide HasMore, WindowEnd, NeedsFill;
    if s.lock.Recovering? { FilledStays(s, v); } else { FillKeepsInv(s, v); }
    if s.lock.Evicting? { FillFindsExactlyWhen(s, v); }
    hide FillWindow;
  }

  predicate IsStallingFill(s: Stream, v: View) {
    s.lock.Evicting? && v.now >= s.retryAt && NeedsFill(v) && HasMore(s, WindowEnd(v))
  }

  lemma FillFindsExactlyWhen(s: Stream, v: View)
    requires InvInLoop(s) && s.queue == []
    ensures FillWindow(s, v).queue != [] <==> v.now >= s.retryAt && NeedsFill(v) && HasMore(s, WindowEnd(v))
  {
    assert s.pending == {};
    var stop := ScanEnd(s.manifest, s.cursor, WindowEnd(v));
    CollectsWhatIsPlayable(s, stop);
    ScanFinds(s, WindowEnd(v));
    PlayableSome(s.manifest, s.cursor, stop);
    hide WindowEnd, NeedsFill, HasMore, IndexSet, ScanEnd, Collected, Playable, InOrder, IsPrefix;
    assert FillWindow(s, v).queue == if CanFill(s, v) then SortByIndex(Collected(s, stop)) else [];
    assert |SortByIndex(Collected(s, stop))| == |Collected(s, stop)|;
  }

  lemma {:induction false} PlayableSome(chunks: seq<MediaChunk>, a: nat, b: nat)
    requires a <= b <= |chunks|
    ensures |Playable(chunks, a)| < |Playable(chunks, b)| <==> exists k :: a <= k < b && chunks[k].hasUrl
    ensures |Playable(chunks, a)| <= |Playable(chunks, b)|
    decreases b
  {
    if a < b { PlayableSome(chunks, a, b - 1); }
  }

  lemma {:induction false} ScanStops(chunks: seq<MediaChunk>, cursor: nat, end: real, k: nat)
    requires cursor <= k < |chunks|
    ensures k < ScanEnd(chunks, cursor, end) <==> forall l :: cursor <= l <= k ==> chunks[l].start < end
    decreases |chunks| - cursor
  {
    if chunks[cursor].start < end && cursor < k { ScanStops(chunks, cursor + 1, end, k); }
  }

  lemma ScanFinds(s: Stream, end: real)
    requires s.cursor <= |s.manifest|
    ensures HasMore(s, end) <==> exists k :: s.cursor <= k < ScanEnd(s.manifest, s.cursor, end) && s.manifest[k].hasUrl
  {
    hide ScanEnd;
    forall k: nat | s.cursor <= k < |s.manifest|
      ensures IsNext(s, k, end) <==> k < ScanEnd(s.manifest, s.cursor, end) && s.manifest[k].hasUrl
    {
      ScanStops(s.manifest, s.cursor, end, k);
    }
    if HasMore(s, end) {
      var k :| s.cursor <= k < |s.manifest| && IsNext(s, k, end);
      assert k < ScanEnd(s.manifest, s.cursor, end) && s.manifest[k].hasUrl;
    }
  }

  lemma AppendedIsNoStall(s: Stream, v: View)
    requires Inv(s) && s.lock.Appending? && s.queue != []
    ensures !IsStalled(HeadAppended(s, v))
  {
    HeadLeavesPending(s);
    var head := s.queue[0];
    var moved := s.(queue := s.queue[1..], pending := s.pending - {head.index},
                    appended := s.appended + [head.index], retryAt := 0.0);
    HeadMoves(s);
    FillKeepsInv(moved, v);
    hide FillWindow;
  }

  // Such a fill exists: the listener is 150 seconds in, so an eviction starts as soon as the
  // loop has run dry; the manifest grows while it runs, and the next tick queues a chunk
  // that no loop will take.

  const FIRST := [MediaChunk(0, 0.0, true)]
  const SECOND := [MediaChunk(1, 200.0, true)]
  const AT_START := View(0.0, 0.0, 0.0, None, 1.0, false)
  const LATER := View(150.0, 0.0, 200.0, None, 1.0, false)
  const QUEUED_ONE := Stream(FIRST, 1, [Queued(0, 0)], {0}, [], {}, 0.0, Appending)
  const EVICTING_ONE := Stream(FIRST, 1, [], {}, [0], {}, 0.0, Evicting)
  const STUCK := Stream(FIRST + SECOND, 2, [Queued(1, 1)], {1}, [0], {}, 0.0, Evicting)

  lemma ScanPassesFirst()
    ensures ScanEnd(FIRST, 0, WindowEnd(AT_START)) == 1
  {
    assert ScanEnd(FIRST, 1, WindowEnd(AT_START)) == 1;
  }

  lemma FillsFirst()
    ensures Next(Opened(FIRST), Fill(AT_START)) == QUEUED_ONE
  {
    FirstIsCollected();
    ScanPassesFirst();
    hide Collected, SortByIndex, ScanEnd, WindowEnd;
    SortedAlready([Queued(0, 0)]);
    assert Indexes([Queued(0, 0)]) == [0];
    assert {} + IndexSet([Queued(0, 0)]) == {0};
  }

  lemma FirstIsCollected()
    ensures Collected(Opened(FIRST), 1) == [Queued(0, 0)]
  {
    assert Collected(Opened(FIRST), 0) == [];
  }

  lemma AppendsFirst()
    ensures Next(QUEUED_ONE, Appended(LATER)) == EVICTING_ONE
  {
    assert ScanEnd(FIRST, 1, WindowEnd(LATER)) == 1;
    assert IndexSet([]) == {};
    assert SortByIndex([]) == [];
  }

  lemma FillsUnderEviction()
    ensures Next(EVICTING_ONE.(manifest := FIRST + SECOND), Tick(LATER)) == STUCK
  {
    var s := EVICTING_ONE.(manifest := FIRST + SECOND);
    assert ScanEnd(s.manifest, 1, WindowEnd(LATER)) == 2 by { assert ScanEnd(s.manifest, 2, WindowEnd(LATER)) == 2; }
    hide ScanEnd;
    SecondIsCollected(s);
    hide Collected;
    assert SortByIndex([Queued(1, 1)]) == [Queued(1, 1)] by { SortedAlready([Queued(1, 1)]); }
    hide SortByIndex;
    assert s.pending + IndexSet([Queued(1, 1)]) == {1};
  }

  lemma SecondIsCollected(s: Stream)
    requires s == EVICTING_ONE.(manifest := FIRST + SECOND)
    ensures Collected(s, 2) == [Queued(1, 1)]
  {
    assert Collected(s, 1) == [];
  }

  lemma {:induction false} Onward(s: Stream, e: Event, rest: seq<Event>, t: Stream)
    requires s.cursor <= |s.manifest| && IsOrderly(s, e) && Leads(Next(s, e), rest, t)
    ensures Leads(s, [e] + rest, t)
  {
    assert ([e] + rest)[1..] == rest;
  }

  /** From a fresh stream, five events lead to a chunk that is queued and never appended. */
  lemma StallHappens()
    ensures
      var events := [Fill(AT_START)] + ([Appended(LATER)] + ([Grow(SECOND)] + ([Tick(LATER)] + ([Evicted] + []))));
      Leads(Opened(FIRST), events, STUCK.(lock := Free)) && IsStalled(STUCK.(lock := Free))
  {
    FillsFirst();
    AppendsFirst();
    FillsUnderEviction();
    var t := STUCK.(lock := Free);
    var grown := EVICTING_ONE.(manifest := FIRST + SECOND);
    assert Next(STUCK, Evicted) == t && Leads(t, [], t);
    assert Next(EVICTING_ONE, Grow(SECOND)) == grown && IsOrderly(EVICTING_ONE, Grow(SECOND));
    hide Next, Leads;
    Onward(STUCK, Evicted, [], t);
    Onward(grown, Tick(LATER), [Evicted] + [], t);
    Onward(EVICTING_ONE, Grow(SECOND), [Tick(LATER)] + ([Evicted] + []), t);
    Onward(QUEUED_ONE, Appended(LATER), [Grow(SECOND)] + ([Tick(LATER)] + ([Evicted] + [])), t);
    Onward(Opened(FIRST), Fill(AT_START),
           [Appended(LATER)] + ([Grow(SECOND)] + ([Tick(LATER)] + ([Evicted] + []))), t);
  }

  // ---- the player, as it runs ----

  class StreamPlayer {
    var manifest: seq<MediaChunk>
    var windowCursor: nat
    var appendQueue: seq<Queued>
    var pendingIndexes: set<nat>
    var appendedIndexes: seq<nat>
    var quotaRetriedIndexes: set<nat>
    var appendRetryAt: real
    var lock: Lock

    ghost function State(): Stream
      reads this
    {
      Stream(manifest, windowCursor, appendQueue, pendingIndexes, appendedIndexes, quotaRetriedIndexes,
             appendRetryAt, lock)
    }

    ghost predicate Valid()
      reads this
    {
      Inv(State())
    }

    constructor (chunks: seq<MediaChunk>)
      requires InOrder(chunks)
      ensures Valid() && State() == Opened(chunks)
    {
      manifest, windowCursor, appendQueue, pendingIndexes := chunks, 0, [], {};
      appendedIndexes, quotaRetriedIndexes, appendRetryAt, lock := [], {}, 0.0, Free;
    }

    /** `fillAppendWindow`. */
    method FillAppendWindow(v: View)
      requires windowCursor <= |manifest|
      modifies this
      ensures State() == FillWindow(old(State()), v)
    {
      if |appendQueue| > 0 || v.now < appendRetryAt || !NeedsFill(v) { return; }
      ghost var before := State();
      var end := WindowEnd(v);
      var cursor := windowCursor;
      assert IndexSet([]) == {};
      while cursor < |manifest| && manifest[cursor].start < end
        invariant before.cursor <= cursor <= |manifest| && manifest == before.manifest
        invariant ScanEnd(manifest, cursor, end) == ScanEnd(manifest, before.cursor, end)
        invariant appendQueue == Collected(before, cursor)
        invariant pendingIndexes == before.pending + IndexSet(appendQueue)
        invariant State() == before.(queue := appendQueue, pending := pendingIndexes)
      {
        var chunk := manifest[cursor];
        PendingAreQueued(before, appendQueue, chunk.index);
        if chunk.hasUrl && chunk.index !in appendedIndexes && chunk.index !in pendingIndexes {
          OneMoreIndex(appendQueue, Queued(chunk.index, cursor));
          pendingIndexes := pendingIndexes + {chunk.index};
          appendQueue := appendQueue + [Queued(chunk.index, cursor)];
        }
        cursor := cursor + 1;
      }
      hide Collected, ScanEnd;
      windowCursor := cursor;
      if |appendQueue| == 0 { return; }
      appendQueue := SortByIndex(appendQueue);
      if lock.Free? { lock := Appending; }
    }

    /** `evictPlayedAudio` up to its await. */
    method EvictPlayedAudio(v: View)
      modifies this
      ensures State() == StartEviction(old(State()), v) && (old(Valid()) ==> Valid())
    {
      if v.updating || lock != Free { return; }
      var range := EvictionRange(v.bufferedStart, v.playhead, KEEP_BEHIND);
      if range.None? { return; }
      lock := Evicting;
    }

    /** `runWindowMaintenance`. */
    method RunWindowMaintenance(v: View)
      requires windowCursor <= |manifest|
      modifies this
      ensures State() == Maintain(old(State()), v) && (old(Valid()) ==> Valid())
    {
      if Valid() { MaintainKeepsInv(State(), v); }
      FillAppendWindow(v);
      EvictPlayedAudio(v);
    }

    /** The append loop after an append: take the chunk off the queue, tend the window, and
        go on with the next chunk or leave. */
    method OnAppended(v: View)
      requires Valid() && lock.Appending?
      modifies this
      ensures Valid() && State() == HeadAppended(old(State()), v)
    {
      HeadAppendedKeepsInv(State(), v);
      hide FillWindow;
      var next := appendQueue[0];
      appendQueue := appendQueue[1..];
      pendingIndexes := pendingIndexes - {next.index};
      appendedIndexes := appendedIndexes + [next.index];
      appendRetryAt := 0.0;
      RunWindowMaintenance(v);
      if |appendQueue| == 0 {
        lock := Free;
        EvictPlayedAudio(v);
      }
    }

    /** The append loop after a failure. */
    method OnFailed(quota: bool, v: View)
      requires Valid() && lock.Appending?
      modifies this
      ensures Valid() && State() == HeadFailed(old(State()), quota, v)
      ensures v.bufferedStart >= 0.0 ==>
        (lock.Recovering? <==> quota && old(appendQueue[0].index !in quotaRetriedIndexes) && !v.updating &&
                               v.playhead > v.bufferedStart + 10.0 + 0.05)
      ensures !lock.Recovering? ==>
        appendQueue == [] && windowCursor == old(appendQueue[0].position) && appendRetryAt == v.now + 3.0
    {
      HeadFailedKeepsInv(State(), quota, v);
      if v.bufferedStart >= 0.0 { QuotaMakesRoomExactlyWhen(State(), quota, v, v); }
      var next := appendQueue[0];
      pendingIndexes := pendingIndexes - {next.index};
      if quota && next.index !in quotaRetriedIndexes {
        quotaRetriedIndexes := quotaRetriedIndexes + {next.index};
        if !v.updating && EvictionRange(v.bufferedStart, v.playhead, EMERGENCY_KEEP_BEHIND).Some? {
          lock := Recovering;
          return;
        }
      }
      DropQueue(v);
    }

    method DropQueue(v: View)
      requires appendQueue != []
      modifies this
      ensures State() == GiveUp(old(State()), v)
    {
      var next := appendQueue[0];
      ghost var pending := pendingIndexes;
      for k := 0 to |appendQueue|
        invariant appendQueue == old(appendQueue) && State() == old(State()).(pending := pendingIndexes)
        invariant forall x :: x in pendingIndexes <==> x in pending && x !in Indexes(appendQueue)[..k]
      {
        assert Indexes(appendQueue)[..k + 1] == Indexes(appendQueue)[..k] + [appendQueue[k].index];
        pendingIndexes := pendingIndexes - {appendQueue[k].index};
      }
      assert Indexes(appendQueue)[..|appendQueue|] == Indexes(appendQueue);
      assert pendingIndexes == pending - IndexSet(appendQueue);
      appendQueue := [];
      windowCursor := next.position;
      appendRetryAt := v.now + RETRY_BACKOFF;
      lock := Free;
      EvictPlayedAudio(v);
    }

    /** Room was freed for the chunk that did not fit: try it once more. */
    method OnRoomFreed(v: View)
      requires Valid() && lock.Recovering?
      modifies this
      ensures Valid() && State() == RoomFreed(old(State()), v)
    {
      NextKeepsInv(State(), Freed(v));
      hide FillWindow;
      pendingIndexes := pendingIndexes + {appendQueue[0].index};
      lock := Appending;
      RunWindowMaintenance(v);
    }
  }

  lemma PendingAreQueued(s: Stream, queue: seq<Queued>, index: nat)
    ensures index in s.pending + IndexSet(queue) <==>
      index in s.pending || exists k :: 0 <= k < |queue| && queue[k].index == index
  {
    if index in IndexSet(queue) {
      var k :| 0 <= k < |Indexes(queue)| && Indexes(queue)[k] == index;
    }
    if k :| 0 <= k < |queue| && queue[k].index == index { assert Indexes(queue)[k] == index; }
  }

  lemma OneMoreIndex(queue: seq<Queued>, q: Queued)
    ensures IndexSet(queue + [q]) == IndexSet(queue) + {q.index}
  {
    assert Indexes(queue + [q]) == Indexes(queue) + [q.index];
  }
}
