/** What every command keeps true of one job. `flight` is the set of positions of the
    job's chunks that the batch on the GPU still owns. */
module JobInvariants {
  import opened Wrappers
  import opened Text
  import opened Planner
  import opened JobModel

  // ---- takes and text spans ----

  ghost predicate UniqueTakes(chunks: seq<Chunk>) {
    forall p, q :: 0 <= p < q < |chunks| && chunks[p].index == chunks[q].index ==>
      chunks[p].version != chunks[q].version
  }

  /** Every index below `n` has a live take, the one the active map names. */
  ghost predicate OneLiveTake(chunks: seq<Chunk>, n: nat, active: map<nat, nat>) {
    && (forall i: nat :: i in active <==> i < n)
    && (forall p :: 0 <= p < |chunks| ==> chunks[p].index < n)
    && (forall p :: 0 <= p < |chunks| ==>
         (chunks[p].deprecated <==> chunks[p].version != active[chunks[p].index]))
    && (forall i: nat :: i < n ==> LivePosition(chunks, i).Some?)
  }

  function EndOfCursor(text: string, cursor: int): int { if cursor < 0 then |text| else cursor }

  function CursorEnd(job: Job): int { EndOfCursor(job.text, job.cursor) }

  predicate Follows(a: Chunk, b: Chunk) { b.index == a.index + 1 }

  ghost predicate SpansTile(chunks: seq<Chunk>, n: nat, text: string, cursor: int) {
    && (forall p :: 0 <= p < |chunks| ==>
         && chunks[p].charStart < chunks[p].charEnd <= |text|
         && (chunks[p].index == 0 ==> chunks[p].charStart == 0)
         && (chunks[p].index + 1 == n ==> chunks[p].charEnd == EndOfCursor(text, cursor)))
    && (forall p, q :: 0 <= p < |chunks| && 0 <= q < |chunks| && Follows(chunks[p], chunks[q]) ==>
         chunks[q].charStart == chunks[p].charEnd)
    && (n == 0 ==> EndOfCursor(text, cursor) == 0)
    && (cursor >= 0 ==> OnWord(text, cursor))
  }

  /** The chunk says exactly what its span of the text says. */
  ghost predicate SpeaksItsSpan(c: Chunk, text: string) {
    c.charStart <= c.charEnd <= |text| && Squeeze(c.text) == Squeeze(text[c.charStart..c.charEnd])
  }

  /** Takes cut by the planner (version 0) say what the text says. */
  ghost predicate PlannedTakesSpeakTheText(chunks: seq<Chunk>, text: string) {
    forall p :: 0 <= p < |chunks| && chunks[p].version == 0 ==> SpeaksItsSpan(chunks[p], text)
  }

  ghost predicate StructureOf(chunks: seq<Chunk>, n: nat, active: map<nat, nat>, text: string, cursor: int) {
    && UniqueTakes(chunks) && OneLiveTake(chunks, n, active)
    && SpansTile(chunks, n, text, cursor) && PlannedTakesSpeakTheText(chunks, text)
  }

  ghost predicate Structure(job: Job) {
    StructureOf(job.chunks, job.nextIndex, job.active, job.text, job.cursor)
  }

  // ---- status ----

  ghost predicate ChunkState(c: Chunk, planVersion: nat, inFlight: bool) {
    && (c.status.Planned? || c.status.Rendering? || c.status.Written? || c.status.Failed?)
    && (c.status.Rendering? <==> inFlight) && c.planVersion <= planVersion
    && (!c.deprecated && c.status.Planned? ==> c.planVersion == planVersion)
    && (c.status.Written? <==> c.segment.Some?)
    && (c.status.Written? ==> c.segment.value.text == c.text && c.segment.value.voice == c.voice)
  }

  /** Each chunk is in a state the scheduler produces. `Rendering` means in flight; a live
      planned chunk is under the current plan; written audio is the chunk's own text in
      the chunk's own voice. */
  ghost predicate ChunkStates(chunks: seq<Chunk>, planVersion: nat, flight: set<nat>) {
    && (forall p: nat :: p < |chunks| ==> ChunkState(chunks[p], planVersion, p in flight))
    && (forall p :: p in flight ==> p < |chunks|)
  }

  predicate SettlesOnReturn(c: Chunk, planVersion: nat) { c.deprecated || c.planVersion == planVersion }

  ghost predicate AwaitsSettling(chunks: seq<Chunk>, planVersion: nat, flight: set<nat>) {
    exists p: nat :: p < |chunks| && p in flight && SettlesOnReturn(chunks[p], planVersion)
  }

  ghost predicate CompletedIsSound(status: JobStatus, chunks: seq<Chunk>, cursor: int) {
    status.JobCompleted? ==> cursor < 0 && !HasUnfinishedChunks(chunks)
  }

  /** Every cached value equals its definition over the live takes. */
  ghost predicate DerivedFreshOf(chunks: seq<Chunk>, n: nat, count: nat, contiguous: real) {
    && (forall p :: 0 <= p < |chunks| && !chunks[p].deprecated && chunks[p].status.Written? ==>
         chunks[p].startSeconds == StartAt(chunks, chunks[p].index))
    && count == WrittenBelow(chunks, n)
    && contiguous == PlayableBelow(chunks, n)
  }

  ghost predicate DerivedFresh(job: Job) {
    && DerivedFreshOf(job.chunks, job.nextIndex, job.writtenCount, job.contiguous)
    && job.buffered == Max(0.0, job.contiguous - job.currentTime)
  }

  /** What settling and refreshing build on. */
  ghost predicate Sound(job: Job, flight: set<nat>) {
    && Structure(job) && ChunkStates(job.chunks, job.planVersion, flight)
    && !job.status.JobFailed? && CompletedIsSound(job.status, job.chunks, job.cursor)
  }

  /** The job invariant. A job is `JobRendering` only while a chunk is in flight whose
      return settles the status. */
  ghost predicate JobInv(job: Job, flight: set<nat>) {
    && Sound(job, flight) && DerivedFresh(job)
    && (job.status.JobRendering? ==> AwaitsSettling(job.chunks, job.planVersion, flight))
  }

  // ---- frames ----

  ghost predicate SameTake(a: Chunk, b: Chunk) {
    && a.index == b.index && a.version == b.version && a.deprecated == b.deprecated
    && a.charStart == b.charStart && a.charEnd == b.charEnd && a.text == b.text
  }

  ghost predicate SameTakes(a: Job, b: Job) {
    && a.text == b.text && a.cursor == b.cursor && a.nextIndex == b.nextIndex && a.active == b.active
    && |a.chunks| == |b.chunks|
    && forall p :: 0 <= p < |a.chunks| ==> SameTake(a.chunks[p], b.chunks[p])
  }

  lemma SameLivePosition(a: seq<Chunk>, b: seq<Chunk>, i: nat)
    requires |a| == |b|
    requires forall p :: 0 <= p < |a| ==> a[p].index == b[p].index && a[p].deprecated == b[p].deprecated
    ensures LivePosition(a, i) == LivePosition(b, i)
  {
    var x, y := LivePosition(a, i), LivePosition(b, i);
    if x.Some? { assert b[x.value].index == i; }
    if y.Some? { assert a[y.value].index == i; }
  }

  lemma SameTakesKeepStructure(a: Job, b: Job)
    requires Structure(a) && SameTakes(a, b)
    ensures Structure(b)
  {
    hide IsSpace, Squeeze, LivePosition;
    forall i: nat { SameLivePosition(a.chunks, b.chunks, i); }
  }

  ghost predicate SameSound(a: seq<Chunk>, b: seq<Chunk>, n: nat) {
    forall i: nat :: i < n ==> WrittenAt(a, i) == WrittenAt(b, i) && DurationAt(a, i) == DurationAt(b, i)
  }

  lemma {:induction false} SameSoundSameTimeline(a: seq<Chunk>, b: seq<Chunk>, n: nat)
    requires SameSound(a, b, n)
    ensures StartAt(a, n) == StartAt(b, n) && WrittenBelow(a, n) == WrittenBelow(b, n)
    ensures PlayableBelow(a, n) == PlayableBelow(b, n)
  {
    if n > 0 { SameSoundSameTimeline(a, b, n - 1); }
  }

  /** Chunk by chunk, written takes keep their place and their seconds. */
  ghost predicate SameWritten(a: seq<Chunk>, b: seq<Chunk>) {
    && |a| == |b|
    && forall p :: 0 <= p < |a| ==>
         && a[p].index == b[p].index && a[p].deprecated == b[p].deprecated
         && (!a[p].deprecated ==> a[p].status.Written? == b[p].status.Written?)
         && (!a[p].deprecated && a[p].status.Written? ==> a[p].duration == b[p].duration)
  }

  lemma SameWrittenSameSound(a: seq<Chunk>, b: seq<Chunk>, n: nat)
    requires SameWritten(a, b)
    ensures SameSound(a, b, n)
  {
    forall i: nat | i < n
      ensures WrittenAt(a, i) == WrittenAt(b, i) && DurationAt(a, i) == DurationAt(b, i)
    {
      SameLivePosition(a, b, i);
    }
  }

  lemma SameWrittenStaysFresh(a: seq<Chunk>, b: seq<Chunk>, n: nat, count: nat, contiguous: real)
    requires DerivedFreshOf(a, n, count, contiguous) && SameWritten(a, b)
    requires forall p :: 0 <= p < |a| && !a[p].deprecated && a[p].status.Written? ==>
      a[p].startSeconds == b[p].startSeconds
    ensures DerivedFreshOf(b, n, count, contiguous)
  {
    SameWrittenSameTimeline(a, b);
  }

  lemma SameWrittenSameTimeline(a: seq<Chunk>, b: seq<Chunk>)
    requires SameWritten(a, b)
    ensures forall n: nat :: StartAt(a, n) == StartAt(b, n)
    ensures forall n: nat :: WrittenBelow(a, n) == WrittenBelow(b, n)
    ensures forall n: nat :: PlayableBelow(a, n) == PlayableBelow(b, n)
  {
    forall n: nat
      ensures StartAt(a, n) == StartAt(b, n) && WrittenBelow(a, n) == WrittenBelow(b, n)
      ensures PlayableBelow(a, n) == PlayableBelow(b, n)
    {
      SameWrittenSameSound(a, b, n);
      SameSoundSameTimeline(a, b, n);
    }
  }

  lemma RefreshIsFresh(job: Job)
    ensures DerivedFresh(RefreshDerived(job))
  {
    hide StartAt, WrittenBelow, PlayableBelow;
    SameWrittenSameTimeline(job.chunks, RefreshDerived(job).chunks);
  }

  // ---- what refreshing and settling leave alone ----

  ghost predicate SameButPlace(a: seq<Chunk>, b: seq<Chunk>) {
    |a| == |b| && forall p :: 0 <= p < |a| ==> b[p] == a[p].(startSeconds := b[p].startSeconds)
  }

  lemma RefreshFrame(job: Job)
    ensures SameButPlace(job.chunks, RefreshDerived(job).chunks)
    ensures RefreshDerived(job) == job.(chunks := RefreshDerived(job).chunks,
      writtenCount := RefreshDerived(job).writtenCount, contiguous := RefreshDerived(job).contiguous,
      buffered := RefreshDerived(job).buffered, completedSeconds := RefreshDerived(job).completedSeconds)
  {
    hide StartAt, WrittenBelow, PlayableBelow, Max;
  }

  lemma SettleFrame(job: Job)
    ensures SettleStatus(job) == job.(status := SettleStatus(job).status, listening := SettleStatus(job).listening)
  {
    hide HasUnfinishedChunks;
  }

  // ---- settling ----

  lemma RefreshKeepsSound(job: Job, flight: set<nat>)
    requires Sound(job, flight)
    ensures Sound(RefreshDerived(job), flight)
  {
    hide StructureOf, IsSpace, StartAt, WrittenBelow, PlayableBelow;
    var j := RefreshDerived(job);
    SameTakesKeepStructure(job, j);
    assert forall p :: 0 <= p < |job.chunks| ==> UnfinishedAt(j.chunks, p) == UnfinishedAt(job.chunks, p);
    assert forall p: nat :: p < |job.chunks| ==>
      ChunkState(job.chunks[p], job.planVersion, p in flight) ==> ChunkState(j.chunks[p], job.planVersion, p in flight);
  }

  lemma SettleEstablishes(job: Job, flight: set<nat>)
    requires Sound(job, flight) && DerivedFresh(job)
    ensures JobInv(SettleStatus(job), flight) && !SettleStatus(job).status.JobRendering?
  {
    hide StructureOf, ChunkStates, DerivedFreshOf;
  }

  lemma RefreshAndSettleEstablish(job: Job, flight: set<nat>)
    requires Sound(job, flight)
    ensures JobInv(SettleStatus(RefreshDerived(job)), flight)
    ensures !SettleStatus(RefreshDerived(job)).status.JobRendering?
  {
    RefreshKeepsSound(job, flight);
    RefreshIsFresh(job);
    SettleEstablishes(RefreshDerived(job), flight);
  }

  // ---- the commands, one by one ----

  lemma NewJobInv(source: string, model: string, language: string, voice: string, now: real)
    ensures JobInv(NewJob(source, model, language, voice, now), {})
  {
    NormalizedStartsOnWord(source);
  }

  /** Activate, pause, resume, playback reports, listener expiry, reactivation and the
      render-to-end switch move the coarse status and the clock, never a take. */
  lemma ListenerCommandsKeepInv(job: Job, flight: set<nat>, now: real, timeout: real, on: bool)
    requires JobInv(job, flight)
    ensures JobInv(ActivateJob(job, now), flight) && JobInv(PauseJob(job, now), flight)
    ensures JobInv(ResumeJob(job), flight) && JobInv(ReactivateJob(job), flight)
    ensures JobInv(ExpireListener(job, now, timeout), flight)
    ensures JobInv(SetRenderToEnd(job, on), flight)
  {
    hide StructureOf, ChunkStates, DerivedFreshOf, AwaitsSettling, HasUnfinishedChunks, Max;
  }

  lemma UpdatePlaybackKeepsInv(job: Job, flight: set<nat>, position: real, playing: bool, now: real)
    requires JobInv(job, flight)
    ensures JobInv(UpdatePlayback(job, position, playing, now), flight)
  {
    hide StructureOf, ChunkStates, DerivedFreshOf, AwaitsSettling, HasUnfinishedChunks, Max;
  }

  lemma SetVoiceKeepsInv(job: Job, flight: set<nat>, voice: string, rerender: bool)
    requires JobInv(job, flight)
    ensures JobInv(SetVoice(job, voice, rerender), flight)
  {
    if job.voice == voice && !rerender { return; }
    var r := Revoiced(job, voice, rerender);
    RevoicedStates(job, flight, voice, rerender);
    hide StructureOf, ChunkStates, DerivedFreshOf, Revoiced, HasUnfinishedChunks;
    if rerender || AnyRequeued(job.chunks, rerender) {
      RefreshAndSettleEstablish(Reopened(r), flight);
    } else {
      RefreshKeepsSound(r, flight);
      RefreshIsFresh(r);
      if job.status.JobRendering? { AwaitsSettlingIgnoresPlacing(r, flight); }
    }
  }

  lemma AwaitsSettlingIgnoresPlacing(job: Job, flight: set<nat>)
    requires AwaitsSettling(job.chunks, job.planVersion, flight)
    ensures AwaitsSettling(RefreshDerived(job).chunks, job.planVersion, flight)
  {
    var p: nat :| p < |job.chunks| && p in flight && SettlesOnReturn(job.chunks[p], job.planVersion);
    assert SettlesOnReturn(RefreshDerived(job).chunks[p], job.planVersion);
  }

  lemma RevoicedStates(job: Job, flight: set<nat>, voice: string, rerender: bool)
    requires JobInv(job, flight)
    ensures
      var r := Revoiced(job, voice, rerender);
      && Structure(r) && ChunkStates(r.chunks, r.planVersion, flight) && r.status == job.status
      && (!rerender && !AnyRequeued(job.chunks, rerender) ==>
           && HasUnfinishedChunks(r.chunks) == HasUnfinishedChunks(job.chunks)
           && (job.status.JobRendering? ==> AwaitsSettling(r.chunks, r.planVersion, flight)))
  {
    hide StructureOf, DerivedFreshOf, IsSpace;
    var r := Revoiced(job, voice, rerender);
    SameTakesKeepStructure(job, r);
    forall p: nat | p < |job.chunks| ensures ChunkState(r.chunks[p], r.planVersion, p in flight) {
      assert ChunkState(job.chunks[p], job.planVersion, p in flight);
    }
    if !rerender && !AnyRequeued(job.chunks, rerender) {
      assert forall p :: 0 <= p < |job.chunks| ==> !IsRequeuedBy(job.chunks[p], rerender);
      assert forall p :: 0 <= p < |job.chunks| ==> UnfinishedAt(r.chunks, p) == UnfinishedAt(job.chunks, p);
      if job.status.JobRendering? {
        var p: nat :| p < |job.chunks| && p in flight && SettlesOnReturn(job.chunks[p], job.planVersion);
        assert ChunkState(job.chunks[p], job.planVersion, true);
        assert SettlesOnReturn(r.chunks[p], r.planVersion);
      }
    }
  }

  /** A chunk that comes back may be replaced by any record of the same take. */
  lemma PutKeepsSound(job: Job, flight: set<nat>, p: nat, c: Chunk)
    requires Sound(job, flight) && p in flight && p < |job.chunks|
    requires SameTake(job.chunks[p], c) && ChunkState(c, job.planVersion, false)
    ensures Sound(Put(job, p, c), flight - {p})
  {
    hide StructureOf, IsSpace;
    var j := Put(job, p, c);
    SameTakesKeepStructure(job, j);
    forall q: nat | q < |job.chunks| ensures ChunkState(j.chunks[q], job.planVersion, q in flight - {p}) {
      assert ChunkState(job.chunks[q], job.planVersion, q in flight);
    }
    assert ChunkState(job.chunks[p], job.planVersion, true);
    if job.status.JobCompleted? {
      assert !UnfinishedAt(job.chunks, p);
      assert forall q :: 0 <= q < |job.chunks| ==> UnfinishedAt(j.chunks, q) ==> UnfinishedAt(job.chunks, q);
    }
  }

  lemma PutUnwrittenStaysFresh(job: Job, flight: set<nat>, p: nat, c: Chunk)
    requires DerivedFresh(job) && ChunkStates(job.chunks, job.planVersion, flight)
    requires p < |job.chunks| && SameTake(job.chunks[p], c)
    requires !job.chunks[p].status.Written? && !c.status.Written?
    ensures DerivedFresh(Put(job, p, c))
  {
    hide ChunkStates;
    SameWrittenStaysFresh(job.chunks, Put(job, p, c).chunks, job.nextIndex, job.writtenCount, job.contiguous);
  }

  lemma MarkRenderingKeepsInv(job: Job, flight: set<nat>, p: nat)
    requires JobInv(job, flight) && p < |job.chunks| && job.chunks[p].status.Planned?
    ensures JobInv(MarkRendering(job, p), flight + {p})
  {
    hide StructureOf, DerivedFreshOf, IsSpace;
    var c := job.chunks[p].(status := Rendering);
    var j := Put(job, p, c);
    SameTakesKeepStructure(job, MarkRendering(job, p));
    PutUnwrittenStaysFresh(job, flight, p, c);
    assert ChunkState(job.chunks[p], job.planVersion, p in flight);
    forall q: nat | q < |job.chunks| ensures ChunkState(j.chunks[q], job.planVersion, q in flight + {p}) {
      assert ChunkState(job.chunks[q], job.planVersion, q in flight);
    }
    assert SettlesOnReturn(j.chunks[p], job.planVersion);
    assert p in flight + {p};
  }

  lemma RequeueKeepsInv(job: Job, flight: set<nat>, p: nat, c: Chunk)
    requires JobInv(job, flight) && p in flight && p < |job.chunks|
    requires SameTake(job.chunks[p], c) && c.segment.None?
    requires c.planVersion == job.chunks[p].planVersion
    ensures JobInv(RequeueAs(job, p, c), flight - {p}) && !RequeueAs(job, p, c).status.JobRendering?
  {
    hide StructureOf, DerivedFreshOf, HasUnfinishedChunks;
    assert ChunkState(job.chunks[p], job.planVersion, true);
    var d := OrSuperseded(job, c.(status := Planned));
    PutKeepsSound(job, flight, p, d);
    PutUnwrittenStaysFresh(job, flight, p, d);
    hide ChunkStates;
    SettleEstablishes(Put(job, p, d), flight - {p});
  }

  lemma InFlightIsUnwritten(job: Job, flight: set<nat>, p: nat)
    requires JobInv(job, flight) && p in flight
    ensures p < |job.chunks| && job.chunks[p].status.Rendering? && job.chunks[p].segment.None?
  {
    hide StructureOf, DerivedFreshOf, CompletedIsSound;
    assert ChunkState(job.chunks[p], job.planVersion, true);
  }

  lemma MarkPlannedKeepsInv(job: Job, flight: set<nat>, p: nat)
    requires JobInv(job, flight) && p in flight && p < |job.chunks|
    ensures JobInv(MarkPlanned(job, p), flight - {p}) && !MarkPlanned(job, p).status.JobRendering?
  {
    hide JobInv, RequeueAs;
    InFlightIsUnwritten(job, flight, p);
    RequeueKeepsInv(job, flight, p, job.chunks[p]);
  }

  lemma MarkRetryKeepsInv(job: Job, flight: set<nat>, p: nat, error: string)
    requires JobInv(job, flight) && p in flight && p < |job.chunks|
    ensures JobInv(MarkRetry(job, p, error), flight - {p}) && !MarkRetry(job, p, error).status.JobRendering?
  {
    hide JobInv, RequeueAs;
    InFlightIsUnwritten(job, flight, p);
    RequeueKeepsInv(job, flight, p, Charged(job.chunks[p], error));
  }

  lemma MarkFailedKeepsInv(job: Job, flight: set<nat>, p: nat, error: string)
    requires JobInv(job, flight) && p in flight && p < |job.chunks|
    ensures JobInv(MarkFailed(job, p, error), flight - {p}) && !MarkFailed(job, p, error).status.JobRendering?
  {
    hide StructureOf, DerivedFreshOf, HasUnfinishedChunks;
    assert ChunkState(job.chunks[p], job.planVersion, true);
    var d := OrSuperseded(job, job.chunks[p].(status := Failed, error := Some(error)));
    PutKeepsSound(job, flight, p, d);
    hide ChunkStates;
    RefreshAndSettleEstablish(Put(job, p, d), flight - {p});
  }

  /** A rendered result lands on the chunk it was dispatched for, unless the plan moved
      on: then the chunk goes back to the queue and another chunk's return settles the job. */
  lemma MarkWrittenKeepsInv(job: Job, flight: set<nat>, p: nat, duration: real, audio: Audio)
    requires JobInv(job, flight) && p in flight && p < |job.chunks|
    requires audio.text == job.chunks[p].text && audio.voice == job.chunks[p].voice
    ensures JobInv(MarkWritten(job, p, duration, audio), flight - {p})
    ensures !IsSuperseded(job, job.chunks[p]) ==> !MarkWritten(job, p, duration, audio).status.JobRendering?
  {
    hide StructureOf, DerivedFreshOf, HasUnfinishedChunks;
    assert ChunkState(job.chunks[p], job.planVersion, true);
    var c := job.chunks[p];
    if IsSuperseded(job, c) {
      var d := ApplyVoice(c, job.voice, job.planVersion);
      PutKeepsSound(job, flight, p, d);
      PutUnwrittenStaysFresh(job, flight, p, d);
      if job.status.JobRendering? {
        var q: nat :| q < |job.chunks| && q in flight && SettlesOnReturn(job.chunks[q], job.planVersion);
        assert SettlesOnReturn(Put(job, p, d).chunks[q], job.planVersion);
        assert q in flight - {p};
      }
    } else {
      var d := c.(status := Written, duration := duration, segment := Some(audio), error := None);
      PutKeepsSound(job, flight, p, d);
      hide ChunkStates;
      RefreshAndSettleEstablish(Put(job, p, d), flight - {p});
    }
  }

  // ---- planning ----

  lemma AppendKeepsLiveTakes(chunks: seq<Chunk>, c: Chunk, n: nat, active: map<nat, nat>)
    requires UniqueTakes(chunks) && OneLiveTake(chunks, n, active)
    requires c.index == n && c.version == 0 && !c.deprecated
    ensures UniqueTakes(chunks + [c]) && OneLiveTake(chunks + [c], n + 1, active[n := 0])
  {
    var b := chunks + [c];
    assert b[|chunks|] == c;
    forall i: nat | i < n + 1 ensures LivePosition(b, i).Some? {
      if i < n { assert b[LivePosition(chunks, i).value].index == i; }
    }
  }

  lemma AppendKeepsSpans(chunks: seq<Chunk>, c: Chunk, n: nat, text: string, cursor: int, next: int)
    requires SpansTile(chunks, n, text, cursor) && cursor >= 0
    requires forall p :: 0 <= p < |chunks| ==> chunks[p].index < n
    requires c.index == n && c.charStart == cursor < c.charEnd <= |text|
    requires c.charEnd == EndOfCursor(text, next) && (next >= 0 ==> OnWord(text, next))
    ensures SpansTile(chunks + [c], n + 1, text, next)
  {
    hide OnWord;
    var b := chunks + [c];
    assert forall p :: 0 <= p < |b| ==> (if p < |chunks| then b[p] == chunks[p] else b[p] == c);
  }

  lemma PlanCuts(text: string, cursor: int, cfg: PlannerConfig, plan: ChunkPlan)
    requires cfg.Valid() && cursor >= 0 && OnWord(text, cursor) && PlanNext(text, cursor, cfg) == Some(plan)
    ensures plan.charStart == cursor < plan.charEnd <= |text| && OnWord(text, plan.charEnd)
    ensures Squeeze(plan.text) == Squeeze(text[plan.charStart..plan.charEnd])
  {
    PlanNextAdvances(text, cursor, cfg);
  }

  lemma AddPlannedKeepsStructure(job: Job, plan: ChunkPlan, cfg: PlannerConfig)
    requires cfg.Valid() && Structure(job) && PlanNext(job.text, job.cursor, cfg) == Some(plan)
    ensures Structure(AddPlannedChunk(job, plan))
  {
    hide IsSpace, Squeeze, UniqueTakes, PlannedTakesSpeakTheText, PlanNext, LivePosition;
    PlanCuts(job.text, job.cursor, cfg, plan);
    hide OnWord;
    var c := PlannedChunk(job, plan);
    AppendKeepsLiveTakes(job.chunks, c, job.nextIndex, job.active);
    AppendKeepsSpans(job.chunks, c, job.nextIndex, job.text, job.cursor, AddPlannedChunk(job, plan).cursor);
    hide OneLiveTake, SpansTile;
    AppendKeepsSpoken(job.chunks, c, job.text);
  }

  lemma AppendKeepsSpoken(chunks: seq<Chunk>, c: Chunk, text: string)
    requires PlannedTakesSpeakTheText(chunks, text) && SpeaksItsSpan(c, text)
    ensures PlannedTakesSpeakTheText(chunks + [c], text)
  {
    hide SpeaksItsSpan;
  }

  lemma AddPlannedKeepsInv(job: Job, flight: set<nat>, plan: ChunkPlan, cfg: PlannerConfig)
    requires cfg.Valid() && JobInv(job, flight) && !job.status.JobCompleted?
    requires PlanNext(job.text, job.cursor, cfg) == Some(plan)
    ensures JobInv(AddPlannedChunk(job, plan), flight)
  {
    hide HasUnfinishedChunks, PlanNext, DerivedFreshOf, ChunkStates, AwaitsSettling, Max;
    hide UniqueTakes, OneLiveTake, SpansTile, PlannedTakesSpeakTheText;
    AddPlannedKeepsStructure(job, plan, cfg);
    hide StructureOf;
    AppendQuietStaysFresh(job, PlannedChunk(job, plan));
    AppendKeepsStates(job, flight, PlannedChunk(job, plan));
  }

  lemma AppendKeepsStates(job: Job, flight: set<nat>, c: Chunk)
    requires ChunkStates(job.chunks, job.planVersion, flight)
    requires ChunkState(c, job.planVersion, false)
    ensures ChunkStates(job.chunks + [c], job.planVersion, flight)
    ensures AwaitsSettling(job.chunks, job.planVersion, flight) ==>
      AwaitsSettling(job.chunks + [c], job.planVersion, flight)
  {
    var b := job.chunks + [c];
    hide ChunkState;
    assert forall p :: 0 <= p < |job.chunks| ==> b[p] == job.chunks[p];
    if AwaitsSettling(job.chunks, job.planVersion, flight) {
      var p: nat :| p < |job.chunks| && p in flight && SettlesOnReturn(job.chunks[p], job.planVersion);
      assert SettlesOnReturn(b[p], job.planVersion);
    }
  }

  lemma AppendSameSound(chunks: seq<Chunk>, c: Chunk, n: nat)
    requires forall p :: 0 <= p < |chunks| ==> chunks[p].index < n
    requires forall i: nat :: i < n ==> LivePosition(chunks, i).Some?
    requires c.index == n && !c.status.Written?
    ensures SameSound(chunks, chunks + [c], n) && !WrittenAt(chunks + [c], n)
  {
    var b := chunks + [c];
    forall i: nat | i < n ensures LivePosition(chunks, i) == LivePosition(b, i) {
      assert b[LivePosition(chunks, i).value].index == i;
    }
  }

  /** A new index at the end, with nothing written, adds nothing to the timeline. */
  lemma AppendQuietStaysFresh(job: Job, c: Chunk)
    requires DerivedFresh(job) && OneLiveTake(job.chunks, job.nextIndex, job.active)
    requires c.index == job.nextIndex && !c.status.Written?
    ensures DerivedFreshOf(job.chunks + [c], job.nextIndex + 1, job.writtenCount, job.contiguous)
  {
    var a, b, n := job.chunks, job.chunks + [c], job.nextIndex;
    AppendSameSound(a, c, n);
    hide LivePosition, WrittenAt;
    forall k: nat | k <= n
      ensures StartAt(a, k) == StartAt(b, k) && WrittenBelow(a, k) == WrittenBelow(b, k)
      ensures PlayableBelow(a, k) == PlayableBelow(b, k)
    {
      SameSoundSameTimeline(a, b, k);
    }
    forall p | 0 <= p < |b| && !b[p].deprecated && b[p].status.Written?
      ensures b[p].startSeconds == StartAt(b, b[p].index)
    {
      assert b[p] == a[p];
    }
  }

  lemma FinishPlanningKeepsInv(job: Job, flight: set<nat>, cfg: PlannerConfig)
    requires cfg.Valid() && JobInv(job, flight)
    requires PlanNext(job.text, job.cursor, cfg).None?
    ensures JobInv(FinishPlanning(job), flight)
  {
    if job.cursor >= 0 { PlanNextAdvances(job.text, job.cursor, cfg); }
    hide PlanNext, IsSpace, Squeeze, HasUnfinishedChunks, DerivedFreshOf, ChunkStates;
    SettleEstablishes(job.(cursor := -1), flight);
  }

  // ---- takes ----

  /** A live take's record is the one `active_chunk` finds. */
  lemma ActiveTakeIsLive(job: Job, i: nat)
    requires Structure(job)
    ensures ActiveTake(job, i).Some? <==> i < job.nextIndex
    ensures i < job.nextIndex ==> ActiveTake(job, i) == LivePosition(job.chunks, i)
  {
    hide IsSpace, Squeeze, SpansTile, PlannedTakesSpeakTheText;
    if i < job.nextIndex {
      var p := LivePosition(job.chunks, i).value;
      assert job.chunks[p].version == job.active[i];
    }
  }

  /** Activating an existing version leaves one live take per index, `i` included. */
  lemma ActivateKeepsLiveTakes(chunks: seq<Chunk>, n: nat, active: map<nat, nat>, i: nat, v: nat)
    requires UniqueTakes(chunks) && TakePosition(chunks, i, v).Some?
    requires forall k: nat :: k in active <==> k < n
    requires forall p :: 0 <= p < |chunks| ==> chunks[p].index < n
    requires forall p :: 0 <= p < |chunks| && chunks[p].index != i ==>
      (chunks[p].deprecated <==> chunks[p].version != active[chunks[p].index])
    requires forall k: nat :: k < n && k != i ==> LivePosition(chunks, k).Some?
    ensures UniqueTakes(ActivatedAll(chunks, i, v)) && OneLiveTake(ActivatedAll(chunks, i, v), n, active[i := v])
  {
    var b := ActivatedAll(chunks, i, v);
    var t := TakePosition(chunks, i, v).value;
    assert b[t].index == i && !b[t].deprecated;
    forall k: nat | k < n ensures LivePosition(b, k).Some? {
      if k != i { assert b[LivePosition(chunks, k).value].index == k; }
    }
  }

  lemma ActivateKeepsSpans(chunks: seq<Chunk>, n: nat, text: string, cursor: int, i: nat, v: nat)
    requires SpansTile(chunks, n, text, cursor) && PlannedTakesSpeakTheText(chunks, text)
    ensures SpansTile(ActivatedAll(chunks, i, v), n, text, cursor)
    ensures PlannedTakesSpeakTheText(ActivatedAll(chunks, i, v), text)
  {
    hide OnWord, Squeeze;
    var b := ActivatedAll(chunks, i, v);
    forall p | 0 <= p < |b| && b[p].version == 0 ensures SpeaksItsSpan(b[p], text) {
      assert SpeaksItsSpan(chunks[p], text);
    }
  }

  lemma SwitchKeepsStructure(job: Job, i: nat, v: nat)
    requires Structure(job) && TakePosition(job.chunks, i, v).Some?
    ensures Structure(ActivateVersion(job, i, v))
  {
    hide UniqueTakes, SpansTile, PlannedTakesSpeakTheText, TakePosition, LivePosition;
    ActivateKeepsLiveTakes(job.chunks, job.nextIndex, job.active, i, v);
    hide OneLiveTake;
    ActivateKeepsSpans(job.chunks, job.nextIndex, job.text, job.cursor, i, v);
  }

  /** The take at `t` can go live without breaking a promise: it is not waiting under an
      outdated plan, where the scheduler would never pick it, and it does not put
      unfinished work into a completed job, which stays completed. */
  predicate CanGoLive(job: Job, t: Chunk) {
    && !(t.status.Planned? && t.planVersion != job.planVersion)
    && !(job.status.JobCompleted? && IsUnfinished(t.status))
  }

  lemma SetActiveVersionKeepsInv(job: Job, flight: set<nat>, i: nat, v: nat)
    requires JobInv(job, flight) && TakePosition(job.chunks, i, v).Some?
    requires CanGoLive(job, job.chunks[TakePosition(job.chunks, i, v).value])
    ensures JobInv(SetActiveVersion(job, i, v), flight)
  {
    hide StructureOf, DerivedFreshOf, ChunkStates, HasUnfinishedChunks, TakePosition;
    hide RefreshDerived, SettleStatus, ActivatedAll;
    SwitchKeepsStructure(job, i, v);
    ActivateKeepsStates(job, flight, i, v);
    var j := ActivateVersion(job, i, v);
    RefreshAndSettleEstablish(j.(audioEpoch := j.audioEpoch + 1), flight);
  }

  lemma ActivateKeepsStates(job: Job, flight: set<nat>, i: nat, v: nat)
    requires ChunkStates(job.chunks, job.planVersion, flight) && Structure(job)
    requires TakePosition(job.chunks, i, v).Some?
    requires CanGoLive(job, job.chunks[TakePosition(job.chunks, i, v).value])
    ensures ChunkStates(ActivatedAll(job.chunks, i, v), job.planVersion, flight)
    ensures job.status.JobCompleted? && HasUnfinishedChunks(ActivatedAll(job.chunks, i, v)) ==>
      HasUnfinishedChunks(job.chunks)
  {
    hide OneLiveTake, SpansTile, PlannedTakesSpeakTheText;
    var b := ActivatedAll(job.chunks, i, v);
    forall p: nat | p < |b|
      ensures ChunkState(b[p], job.planVersion, p in flight)
      ensures job.status.JobCompleted? && UnfinishedAt(b, p) ==> UnfinishedAt(job.chunks, p)
    {
      assert ChunkState(job.chunks[p], job.planVersion, p in flight);
      if job.chunks[p].index == i && job.chunks[p].version == v {
        assert p == TakePosition(job.chunks, i, v).value;
      }
    }
  }

  lemma SwitchedTake(job: Job, i: nat, v: nat, at: nat)
    requires TakePosition(job.chunks, i, v) == Some(at)
    ensures
      var s := SetActiveVersion(job, i, v);
      && |s.chunks| == |job.chunks| && at < |job.chunks| && s.planVersion == job.planVersion
      && s.chunks[at].status == job.chunks[at].status && !s.chunks[at].deprecated
      && s.chunks[at].planVersion == job.chunks[at].planVersion
      && (job.status.JobCompleted? ==> s.status.JobCompleted?)
  {
    hide TakePosition, RefreshDerived, HasUnfinishedChunks;
    var j := ActivateVersion(job, i, v);
    RefreshFrame(j.(audioEpoch := j.audioEpoch + 1));
  }

  /** That condition is exact: any other switch breaks the invariant at once. */
  lemma SwitchIsSoundExactlyWhen(job: Job, flight: set<nat>, i: nat, v: nat)
    requires JobInv(job, flight) && TakePosition(job.chunks, i, v).Some?
    ensures JobInv(SetActiveVersion(job, i, v), flight) <==>
      CanGoLive(job, job.chunks[TakePosition(job.chunks, i, v).value])
  {
    var at := TakePosition(job.chunks, i, v).value;
    var t := job.chunks[at];
    if CanGoLive(job, t) {
      hide JobInv, SetActiveVersion, TakePosition, CanGoLive;
      SetActiveVersionKeepsInv(job, flight, i, v);
    } else {
      hide StructureOf, DerivedFreshOf, TakePosition, SetActiveVersion;
      var s := SetActiveVersion(job, i, v);
      SwitchedTake(job, i, v, at);
      if t.status.Planned? && t.planVersion != job.planVersion {
        assert !ChunkState(s.chunks[at], s.planVersion, at in flight);
      } else {
        assert UnfinishedAt(s.chunks, at);
      }
    }
  }

  /** The take `add_versioned_chunk` makes for index `i`. */
  function NewTake(job: Job, text: string, voice: string, i: nat): Chunk
    requires ActiveTake(job, i).Some?
  {
    var live := job.chunks[ActiveTake(job, i).value];
    VersionedChunk(job, text, live.charStart, live.charEnd, voice, i)
  }

  lemma AddTakeKeepsStructure(job: Job, text: string, voice: string, i: nat)
    requires Structure(job) && ActiveTake(job, i).Some?
    ensures
      var c := NewTake(job, text, voice, i);
      StructureOf(ActivatedAll(job.chunks + [c], i, c.version), job.nextIndex,
                  job.active[i := c.version], job.text, job.cursor)
  {
    ActiveTakeIsLive(job, i);
    hide OnWord, Squeeze;
    var c := NewTake(job, text, voice, i);
    var live := job.chunks[ActiveTake(job, i).value];
    var b := job.chunks + [c];
    var n := |job.chunks|;
    assert b[n] == c && c.version >= 1;
    assert forall p :: 0 <= p < n ==> b[p] == job.chunks[p];
    forall k: nat | k < job.nextIndex ensures LivePosition(b, k).Some? {
      assert b[LivePosition(job.chunks, k).value].index == k;
    }
    assert TakePosition(b, i, c.version).Some?;
    assert UniqueTakes(b);
    ActivateKeepsLiveTakes(b, job.nextIndex, job.active, i, c.version);
    hide UniqueTakes, OneLiveTake, LivePosition, TakePosition;
    TakeOfSameSpanTiles(job.chunks, c, live, job.nextIndex, job.text, job.cursor);
    ActivateKeepsSpans(b, job.nextIndex, job.text, job.cursor, i, c.version);
  }

  lemma TakeOfSameSpanTiles(chunks: seq<Chunk>, c: Chunk, live: Chunk, n: nat, text: string, cursor: int)
    requires SpansTile(chunks, n, text, cursor) && PlannedTakesSpeakTheText(chunks, text)
    requires live in chunks && c.index == live.index && c.version >= 1
    requires c.charStart == live.charStart && c.charEnd == live.charEnd
    ensures SpansTile(chunks + [c], n, text, cursor) && PlannedTakesSpeakTheText(chunks + [c], text)
  {
    hide OnWord, Squeeze;
    var b := chunks + [c];
    var l :| 0 <= l < |chunks| && chunks[l] == live;
    forall p, q | 0 <= p < |b| && 0 <= q < |b| && Follows(b[p], b[q])
      ensures b[q].charStart == b[p].charEnd
    {
      var x := if p < |chunks| then p else l;
      var y := if q < |chunks| then q else l;
      assert Follows(chunks[x], chunks[y]);
    }
    forall p | 0 <= p < |b| && b[p].version == 0 ensures SpeaksItsSpan(b[p], text) {
      assert b[p] == chunks[p];
    }
  }

  /** A new take of an index that exists, cut from the same span as its live take. */
  lemma AddVersionedKeepsInv(job: Job, flight: set<nat>, text: string, voice: string, i: nat)
    requires JobInv(job, flight) && ActiveTake(job, i).Some?
    ensures
      var live := job.chunks[ActiveTake(job, i).value];
      JobInv(AddVersionedChunk(job, text, live.charStart, live.charEnd, voice, i), flight)
  {
    hide StructureOf, DerivedFreshOf, ActiveTake, HasUnfinishedChunks, ChunkStates, LatestVersion;
    AddTakeKeepsStructure(job, text, voice, i);
    var c := NewTake(job, text, voice, i);
    AppendKeepsStates(job, flight, c);
    AddedTakeStates(job.chunks + [c], job.planVersion, flight, i, c.version);
    var r := ReactivateJob(job);
    RefreshAndSettleEstablish(ActivateVersion(r.(chunks := r.chunks + [c]), i, c.version), flight);
  }

  lemma AddedTakeStates(chunks: seq<Chunk>, planVersion: nat, flight: set<nat>, i: nat, v: nat)
    requires ChunkStates(chunks, planVersion, flight)
    requires forall p :: 0 <= p < |chunks| && chunks[p].index == i && chunks[p].version == v ==>
      chunks[p].planVersion == planVersion
    ensures ChunkStates(ActivatedAll(chunks, i, v), planVersion, flight)
  {
    var b := ActivatedAll(chunks, i, v);
    forall p: nat | p < |b| ensures ChunkState(b[p], planVersion, p in flight) {
      assert ChunkState(chunks[p], planVersion, p in flight);
    }
  }
}
