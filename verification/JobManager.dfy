/** The job manager as it runs: each command loads a job, changes it step by step and
    saves it (server/app/jobs/manager.py). Every method is proved to do to the job table
    exactly what `JobModel` says, and to keep the job invariant. */
module JobManagement {
  import opened Wrappers
  import opened Planner
  import opened JobModel
  import opened JobInvariants
  import opened Pipeline
  import PipelineSafety
  import opened TakeEffects

  // ---- takes ----

  /** Each index has its takes, told apart by their version, and exactly one of them is live.
      No call of the manager can break this. */
  ghost predicate Versioned(job: Job) {
    UniqueTakes(job.chunks) && OneLiveTake(job.chunks, job.nextIndex, job.active)
  }

  ghost predicate SameVersions(a: Job, b: Job) {
    && a.nextIndex == b.nextIndex && a.active == b.active && |a.chunks| == |b.chunks|
    && forall p :: 0 <= p < |a.chunks| ==>
         && a.chunks[p].index == b.chunks[p].index && a.chunks[p].version == b.chunks[p].version
         && a.chunks[p].deprecated == b.chunks[p].deprecated
  }

  lemma SameVersionsStayVersioned(a: Job, b: Job)
    requires Versioned(a) && SameVersions(a, b)
    ensures Versioned(b)
  {
    hide LivePosition;
    forall i: nat { SameLivePosition(a.chunks, b.chunks, i); }
  }

  lemma SettledStaysVersioned(a: Job, b: Job)
    requires Versioned(a) && SameVersions(a, b)
    ensures Versioned(b) && Versioned(RefreshDerived(b)) && Versioned(SettleStatus(b))
    ensures Versioned(SettleStatus(RefreshDerived(b)))
  {
    hide RefreshDerived, SettleStatus, Versioned;
    RefreshFrame(b);
    SettleFrame(b);
    SettleFrame(RefreshDerived(b));
    SameVersionsStayVersioned(a, b);
    SameVersionsStayVersioned(a, RefreshDerived(b));
    SameVersionsStayVersioned(a, SettleStatus(b));
    SameVersionsStayVersioned(a, SettleStatus(RefreshDerived(b)));
  }

  lemma NewJobIsVersioned(source: string, model: string, language: string, voice: string, now: real)
    ensures Versioned(NewJob(source, model, language, voice, now))
  {
  }

  lemma SetVoiceStaysVersioned(job: Job, voice: string, rerender: bool)
    requires Versioned(job)
    ensures Versioned(JobModel.SetVoice(job, voice, rerender)) && Versioned(Revoiced(job, voice, rerender))
    ensures Versioned(Reopened(Revoiced(job, voice, rerender)))
  {
    hide Versioned, RefreshDerived, SettleStatus, AnyRequeued;
    var r := Revoiced(job, voice, rerender);
    assert SameVersions(job, r) && SameVersions(job, Reopened(r));
    hide Revoiced, SameVersions;
    SettledStaysVersioned(job, r);
    SettledStaysVersioned(job, Reopened(r));
  }

  lemma PutStaysVersioned(job: Job, p: nat, c: Chunk)
    requires Versioned(job) && p < |job.chunks| && SameTake(job.chunks[p], c)
    ensures Versioned(Put(job, p, c)) && Versioned(SettleStatus(Put(job, p, c)))
    ensures Versioned(SettleStatus(RefreshDerived(Put(job, p, c))))
  {
    hide Versioned, RefreshDerived, SettleStatus;
    SettledStaysVersioned(job, Put(job, p, c));
  }

  lemma AddPlannedStaysVersioned(job: Job, plan: ChunkPlan)
    requires Versioned(job)
    ensures Versioned(JobModel.AddPlannedChunk(job, plan))
  {
    AppendKeepsLiveTakes(job.chunks, PlannedChunk(job, plan), job.nextIndex, job.active);
    hide UniqueTakes, OneLiveTake;
  }

  lemma ActivatedStaysVersioned(job: Job, i: nat, v: nat)
    requires Versioned(job) && TakePosition(job.chunks, i, v).Some?
    ensures Versioned(ActivateVersion(job, i, v))
  {
    ActivateKeepsLiveTakes(job.chunks, job.nextIndex, job.active, i, v);
    hide UniqueTakes, OneLiveTake, ActivatedAll, TakePosition;
  }

  lemma SwitchStaysVersioned(job: Job, i: nat, v: nat)
    requires Versioned(job) && TakePosition(job.chunks, i, v).Some?
    ensures Versioned(ActivateVersion(job, i, v)) && Versioned(SetActiveVersion(job, i, v))
  {
    hide Versioned, TakePosition, RefreshDerived, SettleStatus, ActivatedAll;
    ActivatedStaysVersioned(job, i, v);
    var j := ActivateVersion(job, i, v);
    SettledStaysVersioned(j, j.(audioEpoch := j.audioEpoch + 1));
  }

  lemma NextTakeStaysVersioned(job: Job, text: string, start: nat, end: nat, voice: string, i: nat)
    requires Versioned(job) && i in job.active
    ensures
      var c := VersionedChunk(job, text, start, end, voice, i);
      && Versioned(ActivateVersion(ReactivateJob(job).(chunks := job.chunks + [c]), i, c.version))
      && Versioned(AddVersionedChunk(job, text, start, end, voice, i))
  {
    var c := VersionedChunk(job, text, start, end, voice, i);
    var b := job.chunks + [c];
    var j := ReactivateJob(job).(chunks := b);
    NextTakeIsNew(job, c);
    ActivateKeepsLiveTakes(b, job.nextIndex, job.active, i, c.version);
    var a := ActivateVersion(j, i, c.version);
    assert Versioned(a);
    hide Versioned, RefreshDerived, SettleStatus, LatestVersion;
    SettledStaysVersioned(a, a);
  }

  lemma NextTakeIsNew(job: Job, c: Chunk)
    requires Versioned(job) && c.index in job.active && c.version == LatestVersion(job.chunks, c.index) + 1
    ensures
      var b := job.chunks + [c];
      && UniqueTakes(b) && TakePosition(b, c.index, c.version).Some?
      && (forall p :: 0 <= p < |b| ==> b[p].index < job.nextIndex)
      && (forall p :: 0 <= p < |b| && b[p].index != c.index ==>
           (b[p].deprecated <==> b[p].version != job.active[b[p].index]))
      && (forall k: nat :: k < job.nextIndex && k != c.index ==> LivePosition(b, k).Some?)
  {
    var b, n := job.chunks + [c], |job.chunks|;
    assert b[n] == c && forall p :: 0 <= p < n ==> b[p] == job.chunks[p];
    forall k: nat | k < job.nextIndex ensures LivePosition(b, k).Some? {
      assert b[LivePosition(job.chunks, k).value].index == k;
    }
  }

  // ---- the live takes, in timeline order ----

  ghost predicate StrictlyByIndex(chunks: seq<Chunk>, at: seq<nat>) {
    && (forall k :: 0 <= k < |at| ==> at[k] < |chunks|)
    && forall k, l :: 0 <= k < l < |at| ==> chunks[at[k]].index < chunks[at[l]].index
  }

  ghost predicate ListsLive(chunks: seq<Chunk>, at: seq<nat>, n: nat)
    requires n <= |chunks|
  {
    forall p: nat :: p in at <==> p < n && !chunks[p].deprecated
  }

  /** `active_chunks`: the records not superseded, sorted by index. */
  method ActiveChunks(job: Job) returns (at: seq<nat>)
    requires Versioned(job)
    ensures |at| == job.nextIndex
    ensures forall i: nat :: i < job.nextIndex ==> LivePosition(job.chunks, i) == Some(at[i])
  {
    at := [];
    for n := 0 to |job.chunks|
      invariant StrictlyByIndex(job.chunks, at) && ListsLive(job.chunks, at, n)
    {
      if !job.chunks[n].deprecated {
        at := InsertByIndex(job.chunks, at, n);
      }
    }
    DenseIndexes(job, at);
  }

  method InsertByIndex(chunks: seq<Chunk>, at: seq<nat>, p: nat) returns (r: seq<nat>)
    requires p < |chunks| && StrictlyByIndex(chunks, at)
    requires forall k :: 0 <= k < |at| ==> chunks[at[k]].index != chunks[p].index
    ensures StrictlyByIndex(chunks, r) && forall q: nat :: q in r <==> q in at || q == p
  {
    var k := |at|;
    while k > 0 && chunks[at[k - 1]].index > chunks[p].index
      invariant 0 <= k <= |at|
      invariant forall l :: k <= l < |at| ==> chunks[at[l]].index > chunks[p].index
    {
      k := k - 1;
    }
    r := at[..k] + [p] + at[k..];
    InsertedByIndex(chunks, at, p, k);
    assert at == at[..k] + at[k..];
    forall q: nat { InsertedMembers(at[..k], p, at[k..], q); }
  }

  lemma InsertedMembers(a: seq<nat>, p: nat, b: seq<nat>, q: nat)
    ensures q in a + [p] + b <==> q in a + b || q == p
  {
  }

  lemma InsertedByIndex(chunks: seq<Chunk>, at: seq<nat>, p: nat, k: nat)
    requires p < |chunks| && k <= |at| && StrictlyByIndex(chunks, at)
    requires forall l :: k <= l < |at| ==> chunks[at[l]].index > chunks[p].index
    requires k > 0 ==> chunks[at[k - 1]].index < chunks[p].index
    ensures StrictlyByIndex(chunks, at[..k] + [p] + at[k..])
  {
    var r := at[..k] + [p] + at[k..];
    forall m, n | 0 <= m < n < |r| ensures chunks[r[m]].index < chunks[r[n]].index {
      var x := if m < k then at[m] else if m == k then p else at[m - 1];
      var y := if n < k then at[n] else if n == k then p else at[n - 1];
      assert r[m] == x && r[n] == y;
      if n == k && m < k - 1 { assert chunks[at[m]].index < chunks[at[k - 1]].index; }
    }
  }

  lemma DenseIndexes(job: Job, at: seq<nat>)
    requires Versioned(job) && StrictlyByIndex(job.chunks, at) && ListsLive(job.chunks, at, |job.chunks|)
    ensures |at| == job.nextIndex
    ensures forall i: nat :: i < job.nextIndex ==> LivePosition(job.chunks, i) == Some(at[i])
  {
    forall i: nat | i < job.nextIndex ensures i < |at| && job.chunks[at[i]].index == i {
      DenseIndex(job, at, i);
    }
    if |at| != job.nextIndex { NoFurtherIndex(job, at); }
    forall i: nat | i < job.nextIndex ensures LivePosition(job.chunks, i) == Some(at[i]) {
      assert at[i] in at;
      var p := LivePosition(job.chunks, i).value;
      assert p in at;
    }
  }

  lemma NoFurtherIndex(job: Job, at: seq<nat>)
    requires OneLiveTake(job.chunks, job.nextIndex, job.active)
    requires StrictlyByIndex(job.chunks, at) && ListsLive(job.chunks, at, |job.chunks|)
    ensures |at| == job.nextIndex
  {
    if job.nextIndex > 0 { DenseIndex(job, at, job.nextIndex - 1); }
    assert at != [] ==> at[|at| - 1] in at;
  }

  lemma {:induction false} DenseIndex(job: Job, at: seq<nat>, i: nat)
    requires OneLiveTake(job.chunks, job.nextIndex, job.active) && i < job.nextIndex
    requires StrictlyByIndex(job.chunks, at) && ListsLive(job.chunks, at, |job.chunks|)
    ensures i < |at| && job.chunks[at[i]].index == i
  {
    if i > 0 { DenseIndex(job, at, i - 1); }
    var p := LivePosition(job.chunks, i).value;
    assert p in at;
    var k :| 0 <= k < |at| && at[k] == p;
  }

  /** The records once the first `i` indexes have been placed on the timeline. */
  ghost predicate PlacedBelow(chunks: seq<Chunk>, placed: seq<Chunk>, i: nat) {
    && |placed| == |chunks|
    && forall p :: 0 <= p < |chunks| ==>
         placed[p] == if chunks[p].index < i then Placed(chunks, chunks[p]) else chunks[p]
  }

  lemma TimelineStep(chunks: seq<Chunk>, i: nat, p: nat)
    requires LivePosition(chunks, i) == Some(p)
    ensures StartAt(chunks, i + 1) ==
      StartAt(chunks, i) + (if chunks[p].status.Written? then chunks[p].duration else 0.0)
    ensures WrittenBelow(chunks, i + 1) == WrittenBelow(chunks, i) + (if chunks[p].status.Written? then 1 else 0)
    ensures NoHoleBelow(chunks, i + 1) <==> NoHoleBelow(chunks, i) && chunks[p].status.Written?
    ensures PlayableBelow(chunks, i + 1) ==
      PlayableBelow(chunks, i) +
      (if NoHoleBelow(chunks, i) && chunks[p].status.Written? then chunks[p].duration else 0.0)
  {
    assert WrittenAt(chunks, i) <==> chunks[p].status.Written?;
    hide LivePosition;
  }

  lemma PlaceOne(job: Job, placed: seq<Chunk>, i: nat, p: nat)
    requires Versioned(job) && PlacedBelow(job.chunks, placed, i) && LivePosition(job.chunks, i) == Some(p)
    ensures PlacedBelow(job.chunks, placed[p := Placed(job.chunks, job.chunks[p])], i + 1)
    ensures placed[p] == job.chunks[p]
  {
    TakesAtIndex(job, i, p);
    hide Versioned, StartAt;
  }

  /** `_refresh_derived`: one pass over the live takes with running totals. */
  method Refresh(job: Job) returns (r: Job)
    requires Versioned(job)
    ensures r == RefreshDerived(job)
  {
    hide Versioned, StartAt, WrittenBelow, PlayableBelow, NoHoleBelow, LivePosition;
    var at := ActiveChunks(job);
    var chunks := job.chunks;
    var runningStart, contiguous, contiguousOpen, completed := 0.0, 0.0, true, 0;
    NothingBelowZero(job.chunks);
    for i := 0 to |at|
      invariant runningStart == StartAt(job.chunks, i) && completed == WrittenBelow(job.chunks, i)
      invariant contiguous == PlayableBelow(job.chunks, i)
      invariant contiguousOpen <==> NoHoleBelow(job.chunks, i)
      invariant PlacedBelow(job.chunks, chunks, i)
    {
      var p := at[i];
      assert LivePosition(job.chunks, i) == Some(p);
      TimelineStep(job.chunks, i, p);
      PlaceOne(job, chunks, i, p);
      if chunks[p].status != Written {
        contiguousOpen := false;
        assert chunks == chunks[p := Placed(job.chunks, job.chunks[p])];
      } else {
        completed := completed + 1;
        chunks := chunks[p := chunks[p].(startSeconds := runningStart)];
        runningStart := runningStart + chunks[p].duration;
        if contiguousOpen { contiguous := contiguous + chunks[p].duration; }
      }
    }
    AllBelow(job);
    r := job.(chunks := chunks, writtenCount := completed, contiguous := contiguous,
              buffered := Max(0.0, contiguous - job.currentTime),
              completedSeconds := Max(job.completedSeconds, job.currentTime));
  }

  lemma NothingBelowZero(chunks: seq<Chunk>)
    ensures StartAt(chunks, 0) == 0.0 && WrittenBelow(chunks, 0) == 0 && PlayableBelow(chunks, 0) == 0.0
    ensures NoHoleBelow(chunks, 0) && PlacedBelow(chunks, chunks, 0)
  {
  }

  lemma TakesAtIndex(job: Job, i: nat, p: nat)
    requires Versioned(job) && LivePosition(job.chunks, i) == Some(p)
    ensures forall q :: 0 <= q < |job.chunks| && job.chunks[q].index == i && q != p ==> job.chunks[q].deprecated
  {
    assert job.chunks[p].version == job.active[i];
  }

  lemma AllBelow(job: Job)
    requires Versioned(job)
    ensures forall p :: 0 <= p < |job.chunks| ==> job.chunks[p].index < job.nextIndex
  {
    hide UniqueTakes;
  }

  // ---- loops over the chunk list ----

  /** `has_unfinished_chunks`. */
  method AnyUnfinished(chunks: seq<Chunk>) returns (any: bool)
    ensures any == HasUnfinishedChunks(chunks)
  {
    for p := 0 to |chunks|
      invariant forall q :: 0 <= q < p ==> !UnfinishedAt(chunks, q)
    {
      if !chunks[p].deprecated && IsUnfinished(chunks[p].status) {
        assert UnfinishedAt(chunks, p);
        return true;
      }
    }
    any := false;
  }

  /** `_settle_status`. */
  method Settle(job: Job) returns (r: Job)
    ensures r == SettleStatus(job)
  {
    r := job;
    if job.status.JobPaused? || job.status.JobCompleted? || job.status.JobFailed? { return; }
    var unfinished := AnyUnfinished(job.chunks);
    if job.cursor < 0 && !unfinished {
      r := r.(status := JobCompleted);
      r := r.(listening := false);
    } else if job.listening {
      r := r.(status := JobPlaying);
    } else {
      r := r.(status := JobQueued);
    }
  }

  /** `_resolve_chunk`: the aggregate's own record of a take. */
  method ResolveChunk(job: Job, index: nat, version: nat) returns (at: Option<nat>)
    ensures at == TakePosition(job.chunks, index, version)
  {
    for p := 0 to |job.chunks|
      invariant forall q :: 0 <= q < p ==> !(job.chunks[q].index == index && job.chunks[q].version == version)
    {
      if job.chunks[p].index == index && job.chunks[p].version == version { return Some(p); }
    }
    at := None;
  }

  /** The loop of `set_voice` over the chunks; `job` already has its new voice and plan. */
  method RevoiceChunks(job: Job, rerender: bool) returns (chunks: seq<Chunk>, requeued: bool)
    ensures |chunks| == |job.chunks| && requeued == AnyRequeued(job.chunks, rerender)
    ensures forall p :: 0 <= p < |chunks| ==>
      && chunks[p] == Revoice(job.chunks[p], job.voice, job.planVersion, rerender)
      && IsAfterVoiceChange(job.chunks[p], chunks[p], job.voice, job.planVersion, rerender)
  {
    chunks, requeued := job.chunks, false;
    for p := 0 to |chunks|
      invariant |chunks| == |job.chunks|
      invariant forall q :: 0 <= q < p ==>
        chunks[q] == Revoice(job.chunks[q], job.voice, job.planVersion, rerender)
      invariant forall q :: p <= q < |chunks| ==> chunks[q] == job.chunks[q]
      invariant requeued <==> exists q :: 0 <= q < p && IsRequeuedBy(job.chunks[q], rerender)
    {
      var chunk := chunks[p];
      if chunk.deprecated {
        continue;
      }
      if chunk.status.Rendering? {
        if !rerender {
          chunks := chunks[p := chunk.(planVersion := job.planVersion)];
        }
        continue;
      }
      if rerender || IsRevoiceable(chunk.status) {
        chunks := chunks[p := ApplyVoice(chunk, job.voice, job.planVersion)];
        requeued := true;
      }
    }
  }

  /** `activate_chunk_version`: nothing changes when the version does not exist. */
  method ActivateTake(job: Job, index: nat, version: nat) returns (r: Option<Job>)
    ensures r == if TakePosition(job.chunks, index, version).None? then None
                 else Some(ActivateVersion(job, index, version))
  {
    var at := ResolveChunk(job, index, version);
    if at.None? { return None; }
    var chunks := job.chunks;
    for p := 0 to |chunks|
      invariant |chunks| == |job.chunks|
      invariant forall q :: 0 <= q < p ==> chunks[q] == Activated(job.chunks[q], index, version)
      invariant forall q :: p <= q < |chunks| ==> chunks[q] == job.chunks[q]
    {
      if chunks[p].index != index {
        continue;
      }
      chunks := chunks[p := chunks[p].(deprecated := chunks[p].version != version)];
    }
    assert chunks == ActivatedAll(job.chunks, index, version);
    r := Some(job.(chunks := chunks, active := job.active[index := version]));
  }

  /** `get_latest_chunk_version`. */
  method Latest(chunks: seq<Chunk>, index: nat) returns (version: int)
    ensures version == LatestVersion(chunks, index)
  {
    version := -1;
    var p := |chunks|;
    while p > 0
      invariant 0 <= p <= |chunks| && version == LatestVersion(chunks[p..], index)
    {
      p := p - 1;
      assert chunks[p..][1..] == chunks[p + 1..];
      if chunks[p].index == index && chunks[p].version > version { version := chunks[p].version; }
    }
    assert chunks[0..] == chunks;
  }

  // ---- what a command does to the loaded job ----

  method ReportPlayback(loaded: Job, position: real, playing: bool, now: real) returns (job: Job)
    ensures job == JobModel.UpdatePlayback(loaded, position, playing, now)
  {
    job := loaded;
    if IsTerminal(job.status) {
      job := job.(listening := playing, lastEvent := now);
      return;
    }
    job := job.(currentTime := position, isPlaying := playing, lastEvent := now);
    job := job.(completedSeconds := Max(job.completedSeconds, position));
    job := job.(buffered := Max(0.0, job.contiguous - position));
    if playing && job.status != JobPaused { job := job.(listening := true, status := JobPlaying); }
  }

  method PointAtVoice(loaded: Job, voice: string, rerender: bool) returns (job: Job, requeued: bool)
    ensures job == Revoiced(loaded, voice, rerender) && requeued == AnyRequeued(loaded.chunks, rerender)
  {
    job := loaded.(voice := voice, planVersion := loaded.planVersion + 1);
    var chunks: seq<Chunk>;
    chunks, requeued := RevoiceChunks(job, rerender);
    job := job.(chunks := chunks);
    if rerender {
      job := job.(audioEpoch := job.audioEpoch + 1);
      job := job.(completedSeconds := 0.0, currentTime := 0.0, isPlaying := false);
    }
  }

  method RevoiceJob(loaded: Job, voice: string, rerender: bool) returns (job: Job)
    requires Versioned(loaded)
    ensures job == JobModel.SetVoice(loaded, voice, rerender)
  {
    hide Versioned, RefreshDerived, SettleStatus, Revoiced;
    SetVoiceStaysVersioned(loaded, voice, rerender);
    job := loaded;
    if job.voice == voice && !rerender { return; }
    var requeued: bool;
    job, requeued := PointAtVoice(job, voice, rerender);
    if requeued || rerender {
      if job.status == JobCompleted || job.status == JobFailed { job := job.(status := JobQueued); }
      job := Refresh(job);
      job := Settle(job);
    } else {
      job := Refresh(job);
    }
  }

  method StorePlan(loaded: Job, plan: ChunkPlan) returns (job: Job)
    ensures job == JobModel.AddPlannedChunk(loaded, plan)
  {
    job := loaded;
    var chunk := PlannedChunk(job, plan);
    job := job.(chunks := job.chunks + [chunk]);
    job := job.(nextIndex := job.nextIndex + 1);
    job := job.(active := job.active[chunk.index := chunk.version]);
    job := job.(cursor := if plan.charEnd >= |job.text| then -1 else plan.charEnd);
  }

  method StoreRendering(loaded: Job, p: nat) returns (job: Job)
    requires Versioned(loaded) && p < |loaded.chunks|
    ensures job == MarkRendering(loaded, p)
  {
    job := loaded;
    TakeIsItsOwnPosition(job, p);
    hide Versioned, TakePosition;
    var at := ResolveChunk(job, job.chunks[p].index, job.chunks[p].version);
    job := job.(chunks := job.chunks[at.value := job.chunks[at.value].(status := Rendering)]);
    if job.status != JobPaused { job := job.(status := JobRendering); }
  }

  method StoreResult(loaded: Job, p: nat, duration: real, audio: Audio) returns (job: Job)
    requires Versioned(loaded) && p < |loaded.chunks|
    ensures job == MarkWritten(loaded, p, duration, audio)
  {
    job := loaded;
    TakeIsItsOwnPosition(job, p);
    var at := ResolveChunk(job, job.chunks[p].index, job.chunks[p].version);
    var stored := job.chunks[at.value];
    hide RefreshDerived, SettleStatus, TakePosition;
    if !stored.deprecated && stored.planVersion != job.planVersion {
      job := job.(chunks := job.chunks[at.value := ApplyVoice(stored, job.voice, job.planVersion)]);
      return;
    }
    stored := stored.(status := Written, duration := duration);
    stored := stored.(segment := Some(audio), error := None);
    PutStaysVersioned(job, p, stored);
    hide Versioned;
    job := job.(chunks := job.chunks[at.value := stored]);
    job := Refresh(job);
    job := Settle(job);
  }

  method StoreFailure(loaded: Job, p: nat, error: string, maxAttempts: nat) returns (job: Job)
    requires Versioned(loaded) && p < |loaded.chunks|
    ensures job == FailOne(loaded, p, error, maxAttempts)
  {
    job := loaded;
    TakeIsItsOwnPosition(job, p);
    var at := ResolveChunk(job, job.chunks[p].index, job.chunks[p].version);
    var stored := job.chunks[at.value];
    hide RefreshDerived, SettleStatus, TakePosition;
    if stored.attempts + 1 >= maxAttempts {
      stored := stored.(status := Failed, error := Some(error));
      if IsSuperseded(job, stored) { stored := ApplyVoice(stored, job.voice, job.planVersion); }
      PutStaysVersioned(job, p, stored);
      hide Versioned;
      job := job.(chunks := job.chunks[at.value := stored]);
      job := Refresh(job);
    } else {
      stored := stored.(attempts := stored.attempts + 1, error := Some(error));
      stored := stored.(status := Planned);
      if IsSuperseded(job, stored) { stored := ApplyVoice(stored, job.voice, job.planVersion); }
      job := job.(chunks := job.chunks[at.value := stored]);
    }
    job := Settle(job);
  }

  method AddTake(loaded: Job, text: string, start: nat, end: nat, voice: string, index: nat, latest: nat)
    returns (job: Job)
    requires Versioned(loaded) && latest == LatestVersion(loaded.chunks, index) && index in loaded.active
    ensures job == AddVersionedChunk(loaded, text, start, end, voice, index)
  {
    NextTakeStaysVersioned(loaded, text, start, end, voice, index);
    hide Versioned, RefreshDerived, SettleStatus, LatestVersion;
    job := loaded;
    if IsTerminal(job.status) { job := job.(status := JobQueued, listening := false, isPlaying := false); }
    var chunk := VersionedChunk(loaded, text, start, end, voice, index);
    job := job.(chunks := job.chunks + [chunk]);
    assert job.chunks[|job.chunks| - 1] == chunk;
    var activated := ActivateTake(job, index, latest + 1);
    hide TakePosition, ActivatedAll;
    job := activated.value;
    job := Refresh(job);
    job := Settle(job);
  }

  method SwitchJobTake(loaded: Job, index: nat, version: nat) returns (r: Option<Job>)
    requires Versioned(loaded)
    ensures r == if TakePosition(loaded.chunks, index, version).None? then None
                 else Some(SetActiveVersion(loaded, index, version))
  {
    hide Versioned, RefreshDerived, SettleStatus, TakePosition, ActivatedAll;
    var activated := ActivateTake(loaded, index, version);
    if activated.None? { return None; }
    SwitchStaysVersioned(loaded, index, version);
    var job := activated.value;
    SameVersionsStayVersioned(job, job.(audioEpoch := job.audioEpoch + 1));
    job := job.(audioEpoch := job.audioEpoch + 1);
    job := Refresh(job);
    job := Settle(job);
    r := Some(job);
  }

  /** The span that the planner cuts next, of a job that is not completed. */
  predicate IsNextPlan(job: Job, plan: ChunkPlan, cfg: PlannerConfig) {
    cfg.Valid() && PlanNext(job.text, job.cursor, cfg) == Some(plan) && !job.status.JobCompleted?
  }

  /** What is still in flight once `ref` has been dealt with. */
  function Dealt(flight: seq<Ref>, ref: Ref): seq<Ref> {
    if flight != [] && flight[0] == ref then flight[1..] else flight
  }

  // ---- the manager ----

  class JobManager {
    /** The job table; a row's place is the job's id. */
    var jobs: seq<Job>
    /** The chunks of the batch on the GPU that have not been dealt with yet. */
    ghost var flight: seq<Ref>

    /** What every call keeps, whatever it is given. */
    ghost predicate Valid()
      reads this
    {
      forall id :: 0 <= id < |jobs| && !jobs[id].purged ==> Versioned(jobs[id])
    }

    /** What the scheduler and the request handlers keep besides, by calling in turn. */
    ghost predicate Sound()
      reads this
    {
      Valid() && JobsInv(jobs, flight)
    }

    constructor ()
      ensures Sound() && jobs == [] && flight == []
    {
      jobs, flight := [], [];
    }

    predicate Sees(id: nat)
      reads this
    {
      id < |jobs| && IsVisible(jobs[id])
    }

    method CreateJob(source: string, model: string, language: string, voice: string, now: real)
      returns (id: nat)
      requires Valid()
      modifies this
      ensures Valid() && flight == old(flight) && (old(Sound()) ==> Sound())
      ensures id == |old(jobs)| && jobs == old(jobs) + [NewJob(source, model, language, voice, now)]
    {
      id := |jobs|;
      var job := NewJob(source, model, language, voice, now);
      NewJobInv(source, model, language, voice, now);
      NewJobIsVersioned(source, model, language, voice, now);
      hide JobInv, Versioned, JobsInv, NewJob;
      if Sound() { AddJob(jobs, flight, job); }
      jobs := jobs + [job];
    }

    method PauseJob(id: nat, now: real) returns (ok: bool)
      requires Valid()
      modifies this
      ensures Valid() && flight == old(flight) && ok == old(Sees(id)) && (old(Sound()) ==> Sound())
      ensures jobs == if ok then old(jobs)[id := JobModel.PauseJob(old(jobs)[id], now)] else old(jobs)
    {
      ok := Sees(id);
      if !ok { return; }
      var job := jobs[id];
      job := job.(listening := false, isPlaying := false, lastEvent := now);
      if !IsTerminal(job.status) { job := job.(status := JobPaused); }
      hide JobInv, Flight, Versioned, JobsInv;
      if Sound() { ListenerCommandsKeepInv(jobs[id], Flight(flight, id), now, 0.0, false); }
      SameVersionsStayVersioned(jobs[id], job);
      Save(id, job);
    }

    method UpdatePlayback(id: nat, position: real, playing: bool, now: real) returns (ok: bool)
      requires Valid()
      modifies this
      ensures Valid() && flight == old(flight) && ok == old(Sees(id)) && (old(Sound()) ==> Sound())
      ensures jobs == if ok then old(jobs)[id := JobModel.UpdatePlayback(old(jobs)[id], position, playing, now)]
                      else old(jobs)
    {
      ok := Sees(id);
      if !ok { return; }
      hide JobInv, Flight, Versioned, JobsInv;
      if Sound() { UpdatePlaybackKeepsInv(jobs[id], Flight(flight, id), position, playing, now); }
      var job := ReportPlayback(jobs[id], position, playing, now);
      SameVersionsStayVersioned(jobs[id], job);
      Save(id, job);
    }

    method SetVoice(id: nat, voice: string, rerender: bool) returns (ok: bool)
      requires Valid()
      modifies this
      ensures Valid() && flight == old(flight) && ok == old(Sees(id)) && (old(Sound()) ==> Sound())
      ensures jobs == if ok then old(jobs)[id := JobModel.SetVoice(old(jobs)[id], voice, rerender)] else old(jobs)
      ensures ok && (rerender || old(jobs)[id].voice != voice) ==>
        && |jobs[id].chunks| == |old(jobs)[id].chunks|
        && forall p :: 0 <= p < |jobs[id].chunks| ==>
             IsAfterVoiceChange(old(jobs)[id].chunks[p], jobs[id].chunks[p], voice, old(jobs)[id].planVersion + 1,
                                rerender)
    {
      ok := Sees(id);
      if !ok { return; }
      VoiceChangeOnTakes(jobs[id], voice, rerender);
      hide JobInv, Flight, Versioned, JobsInv, JobModel.SetVoice, IsAfterVoiceChange;
      if Sound() { SetVoiceKeepsInv(jobs[id], Flight(flight, id), voice, rerender); }
      PipelineSafety.SetVoiceFrame(jobs[id], voice, rerender);
      SetVoiceStaysVersioned(jobs[id], voice, rerender);
      var job := RevoiceJob(jobs[id], voice, rerender);
      Save(id, job);
    }

    /** `add_planned_chunk`, for any span. The job stays sound when the span is the one that
        the planner cuts next, of a job that is not completed. */
    method AddPlannedChunk(id: nat, plan: ChunkPlan, ghost cfg: PlannerConfig) returns (ok: bool)
      requires Valid()
      modifies this
      ensures Valid() && flight == old(flight) && ok == old(Sees(id))
      ensures jobs == if ok then old(jobs)[id := JobModel.AddPlannedChunk(old(jobs)[id], plan)] else old(jobs)
      ensures old(Sound()) && (ok ==> old(IsNextPlan(jobs[id], plan, cfg))) ==> Sound()
    {
      ok := Sees(id);
      if !ok { return; }
      hide JobInv, Flight, PlanNext, Versioned, JobsInv;
      if Sound() && IsNextPlan(jobs[id], plan, cfg) {
        AddPlannedKeepsInv(jobs[id], Flight(flight, id), plan, cfg);
      }
      AddPlannedStaysVersioned(jobs[id], plan);
      var job := StorePlan(jobs[id], plan);
      Save(id, job);
    }

    /** `finish_planning`. The job stays sound when the planner has nothing left to cut. */
    method FinishPlanning(id: nat, ghost cfg: PlannerConfig) returns (ok: bool)
      requires Valid()
      modifies this
      ensures Valid() && flight == old(flight) && ok == old(Sees(id))
      ensures jobs == if ok then old(jobs)[id := JobModel.FinishPlanning(old(jobs)[id])] else old(jobs)
      ensures old(Sound()) && (ok ==> old(cfg.Valid() && PlanNext(jobs[id].text, jobs[id].cursor, cfg).None?)) ==>
        Sound()
    {
      ok := Sees(id);
      if !ok { return; }
      var job := jobs[id];
      hide JobInv, Flight, PlanNext, Versioned, JobsInv;
      if Sound() && cfg.Valid() && PlanNext(job.text, job.cursor, cfg).None? {
        FinishPlanningKeepsInv(job, Flight(flight, id), cfg);
      }
      SettleFrame(job.(cursor := -1));
      SettledStaysVersioned(job, job.(cursor := -1));
      hide SettleStatus;
      job := job.(cursor := -1);
      job := Settle(job);
      Save(id, job);
    }

    /** `mark_chunk_rendering`, for any take of a job that exists; the batch owns the take from
        here on. The table stays sound when the take was waiting and nobody owned it. */
    method MarkChunkRendering(ref: Ref) returns (ok: bool)
      requires Valid() && ValidRef(jobs, ref)
      modifies this
      ensures Valid() && ok == !old(jobs)[ref.job].purged
      ensures flight == if ok then old(flight) + [ref] else old(flight)
      ensures jobs == if ok then old(jobs)[ref.job := MarkRendering(old(jobs)[ref.job], ref.pos)] else old(jobs)
      ensures old(Sound()) && (ok ==> ref !in old(flight) && ChunkOf(old(jobs), ref).status.Planned?) ==> Sound()
    {
      ok := !jobs[ref.job].purged;
      if !ok { return; }
      hide JobInv, Flight, Versioned, JobsInv, MarkRendering;
      if Sound() && ref !in flight && ChunkOf(jobs, ref).status.Planned? { MarksOne(jobs, flight, ref); }
      RenderingStaysVersioned(jobs[ref.job], ref.pos);
      var job := StoreRendering(jobs[ref.job], ref.pos);
      jobs := jobs[ref.job := job];
      flight := flight + [ref];
    }

    /** `mark_chunk_written`, for any take and any audio; a purged job has nothing to write to.
        The table stays sound when the take is the next one in flight and the audio is its own. */
    method MarkChunkWritten(ref: Ref, duration: real, audio: Audio) returns (ok: bool)
      requires Valid() && ValidRef(jobs, ref)
      modifies this
      ensures Valid() && flight == Dealt(old(flight), ref) && ok == !old(jobs)[ref.job].purged
      ensures jobs == LandOne(old(jobs), ref, Rendered(duration, audio))
      ensures ok ==>
        var a := old(jobs)[ref.job];
        && ValidRef(jobs, ref) && OnlyTake(a, jobs[ref.job], ref.pos)
        && IsAfterLanding(a.chunks[ref.pos], ChunkOf(jobs, ref), a.voice, a.planVersion, duration, audio)
      ensures old(Sound() && flight != [] && flight[0] == ref && Matches(jobs, ref, audio)) ==> Sound()
    {
      LandingOnTake(jobs[ref.job], ref.pos, duration, audio);
      hide JobInv, Flight, Versioned, JobsInv, MarkWritten, IsAfterLanding, OnlyTake;
      if Sound() && flight != [] && flight[0] == ref && Matches(jobs, ref, audio) {
        PipelineSafety.LandOneKeepsInv(jobs, flight, Rendered(duration, audio));
      }
      ok := !jobs[ref.job].purged;
      if ok {
        var job := StoreResult(jobs[ref.job], ref.pos, duration, audio);
        WrittenStaysVersioned(jobs[ref.job], ref.pos, duration, audio);
        jobs := jobs[ref.job := job];
      }
      flight := Dealt(flight, ref);
    }

    /** `mark_chunk_retry` or `mark_chunk_failed`, whichever the attempt budget calls for. The
        table stays sound when the take is the next one in flight. */
    method FailChunk(ref: Ref, error: string, maxAttempts: nat) returns (ok: bool)
      requires Valid() && ValidRef(jobs, ref)
      modifies this
      ensures Valid() && flight == Dealt(old(flight), ref) && ok == !old(jobs)[ref.job].purged
      ensures jobs == FailIn(old(jobs), ref, error, maxAttempts)
      ensures ok ==>
        var a := old(jobs)[ref.job];
        && ValidRef(jobs, ref) && OnlyTake(a, jobs[ref.job], ref.pos)
        && IsAfterFailure(a.chunks[ref.pos], ChunkOf(jobs, ref), a.voice, a.planVersion, error, maxAttempts)
      ensures old(Sound() && flight != [] && flight[0] == ref) ==> Sound()
    {
      FailureOnTake(jobs[ref.job], ref.pos, error, maxAttempts);
      hide JobInv, Flight, Versioned, JobsInv, FailOne, IsAfterFailure, OnlyTake;
      if Sound() && flight != [] && flight[0] == ref { FailsHead(jobs, flight, error, maxAttempts); }
      ok := !jobs[ref.job].purged;
      if ok {
        var job := StoreFailure(jobs[ref.job], ref.pos, error, maxAttempts);
        FailedStaysVersioned(jobs[ref.job], ref.pos, error, maxAttempts);
        jobs := jobs[ref.job := job];
      }
      flight := Dealt(flight, ref);
    }

    /** `mark_chunk_planned`. The table stays sound when the take is the next one in flight. */
    method MarkChunkPlanned(ref: Ref) returns (ok: bool)
      requires Valid() && ValidRef(jobs, ref)
      modifies this
      ensures Valid() && flight == Dealt(old(flight), ref) && ok == !old(jobs)[ref.job].purged
      ensures jobs == if ok then old(jobs)[ref.job := MarkPlanned(old(jobs)[ref.job], ref.pos)] else old(jobs)
      ensures ok ==>
        var a := old(jobs)[ref.job];
        && ValidRef(jobs, ref) && OnlyTake(a, jobs[ref.job], ref.pos)
        && IsAfterReturn(a.chunks[ref.pos], ChunkOf(jobs, ref), a.voice, a.planVersion)
      ensures old(Sound() && flight != [] && flight[0] == ref) ==> Sound()
    {
      ReturnOnTake(jobs[ref.job], ref.pos);
      hide JobInv, Flight, Versioned, JobsInv, SettleStatus, IsAfterReturn, OnlyTake;
      if Sound() && flight != [] && flight[0] == ref { RequeuesHead(jobs, flight); }
      ok := !jobs[ref.job].purged;
      flight := Dealt(flight, ref);
      if !ok { return; }
      var job := jobs[ref.job];
      PlannedStaysVersioned(job, ref.pos);
      TakeIsItsOwnPosition(job, ref.pos);
      var at := ResolveChunk(job, job.chunks[ref.pos].index, job.chunks[ref.pos].version);
      var stored := job.chunks[at.value].(status := Planned);
      if IsSuperseded(job, stored) { stored := ApplyVoice(stored, job.voice, job.planVersion); }
      job := job.(chunks := job.chunks[at.value := stored]);
      job := Settle(job);
      jobs := jobs[ref.job := job];
    }

    /** The reprocess request: `add_versioned_chunk` on the live take's span. */
    method ReprocessChunk(id: nat, index: nat, newText: Option<string>, newVoice: Option<string>)
      returns (ok: bool)
      requires Valid()
      modifies this
      ensures Valid() && flight == old(flight) && (old(Sound()) ==> Sound())
      ensures ok == (old(Sees(id)) && ActiveTake(old(jobs)[id], index).Some? &&
                     LatestVersion(old(jobs)[id].chunks, index) < 3)
      ensures jobs == if ok then old(jobs)[id := Pipeline.ReprocessChunk(old(jobs)[id], index, newText, newVoice)]
                      else old(jobs)
    {
      ok := Sees(id);
      if !ok { return; }
      hide JobInv, Flight, Versioned, JobsInv, LatestVersion, AddVersionedChunk;
      var at: Option<nat> := None;
      if index in jobs[id].active { at := ResolveChunk(jobs[id], index, jobs[id].active[index]); }
      var latest := Latest(jobs[id].chunks, index);
      assert at == ActiveTake(jobs[id], index);
      hide TakePosition;
      ok := at.Some? && latest < 3;
      if !ok { return; }
      var live := jobs[id].chunks[at.value];
      var text := if newText.Some? then newText.value else live.text;
      var voice := if newVoice.Some? then newVoice.value else jobs[id].voice;
      if Sound() { PipelineSafety.ReprocessKeeps(jobs[id], Flight(flight, id), index, newText, newVoice); }
      PipelineSafety.ReprocessFrame(jobs[id], index, newText, newVoice);
      NextTakeStaysVersioned(jobs[id], text, live.charStart, live.charEnd, voice, index);
      KnownLatest(jobs[id], at.value);
      var job := AddTake(jobs[id], text, live.charStart, live.charEnd, voice, index, latest);
      assert job == Pipeline.ReprocessChunk(jobs[id], index, newText, newVoice);
      hide Pipeline.ReprocessChunk, ActiveTake, PipelineSafety.LeavesInFlightAlone;
      Save(id, job);
    }

    /** `set_active_chunk_version`, to any take that exists. The table stays sound exactly when
        the take can go live. */
    method SetActiveChunkVersion(id: nat, index: nat, version: nat) returns (ok: bool)
      requires Valid()
      modifies this
      ensures Valid() && flight == old(flight)
      ensures ok == (old(Sees(id)) && TakePosition(old(jobs)[id].chunks, index, version).Some?)
      ensures jobs == if ok then old(jobs)[id := SetActiveVersion(old(jobs)[id], index, version)] else old(jobs)
      ensures old(Sound()) && !ok ==> Sound()
      ensures old(Sound()) && ok ==>
        (Sound() <==> old(CanGoLive(jobs[id], jobs[id].chunks[TakePosition(jobs[id].chunks, index, version).value])))
    {
      ok := Sees(id);
      if !ok { return; }
      hide JobInv, Flight, Versioned, JobsInv, SetActiveVersion, TakePosition, CanGoLive;
      var switched := SwitchJobTake(jobs[id], index, version);
      ok := switched.Some?;
      if !ok { return; }
      if Sound() { SwitchesExactlyWhen(jobs, flight, id, index, version); }
      PipelineSafety.SwitchFrame(jobs[id], index, version);
      SwitchStaysVersioned(jobs[id], index, version);
      jobs := jobs[id := switched.value];
    }

    /** `expire_stale_listeners`: one pass over the visible jobs. */
    method ExpireStaleListeners(now: real, timeout: real)
      requires Valid()
      modifies this
      ensures Valid() && flight == old(flight) && jobs == ExpireAll(old(jobs), now, timeout)
      ensures old(Sound()) ==> Sound()
    {
      hide JobInv, Flight, Versioned, JobsInv;
      if timeout <= 0.0 {
        assert jobs == ExpireAll(jobs, now, timeout);
        return;
      }
      for id := 0 to |jobs|
        invariant Valid() && flight == old(flight) && |jobs| == |old(jobs)| && (old(Sound()) ==> Sound())
        invariant forall k :: 0 <= k < |jobs| ==>
          jobs[k] == (if k < id && IsVisible(old(jobs)[k]) then ExpireListener(old(jobs)[k], now, timeout)
                      else old(jobs)[k])
      {
        var job := jobs[id];
        if !IsVisible(job) || !job.listening { continue; }
        if now - job.lastEvent <= timeout { continue; }
        if Sound() {
          JobIsSound(jobs, flight, id);
          ListenerCommandsKeepInv(job, Flight(flight, id), now, timeout, false);
        }
        job := job.(listening := false);
        if job.status == JobPlaying { job := job.(status := JobQueued); }
        SameVersionsStayVersioned(jobs[id], job);
        Save(id, job);
      }
    }

    /** `renderable_chunks`, in table order. */
    method RenderableChunks() returns (refs: seq<Ref>)
      ensures refs == RenderableRefs(jobs, |jobs|)
    {
      refs := [];
      for id := 0 to |jobs|
        invariant refs == RenderableRefs(jobs, id)
      {
        var job := jobs[id];
        var own: seq<Ref> := [];
        for p := 0 to |job.chunks|
          invariant own == RenderableOf(job, id, p)
        {
          if IsRenderable(job, p) { own := own + [Ref(id, p)]; }
        }
        refs := refs + own;
      }
    }

    /** The end of a transaction: the row is saved. */
    method Save(id: nat, job: Job)
      requires Valid() && id < |jobs| && (!job.purged ==> Versioned(job))
      modifies this`jobs
      ensures Valid() && jobs == old(jobs)[id := job]
      ensures old(Sound()) && |old(jobs)[id].chunks| <= |job.chunks| &&
        (!job.purged ==> JobInv(job, Flight(flight, id)))
        ==> Sound()
    {
      hide JobInv, Versioned, JobsInv, Flight;
      if Sound() && |jobs[id].chunks| <= |job.chunks| && (!job.purged ==> JobInv(job, Flight(flight, id))) {
        PipelineSafety.ReplaceJob(jobs, flight, id, job);
      }
      jobs := jobs[id := job];
    }
  }

  // ---- facts the methods need ----

  lemma JobIsSound(jobs: seq<Job>, flight: seq<Ref>, id: nat)
    requires JobsInv(jobs, flight) && id < |jobs| && !jobs[id].purged
    ensures JobInv(jobs[id], Flight(flight, id))
  {
  }

  lemma AddJob(jobs: seq<Job>, flight: seq<Ref>, job: Job)
    requires JobsInv(jobs, flight) && JobInv(job, {})
    ensures JobsInv(jobs + [job], flight)
  {
    hide JobInv;
    assert forall k :: 0 <= k < |flight| ==> ValidRef(jobs, flight[k]);
    assert Flight(flight, |jobs|) == {};
  }

  lemma TakeIsItsOwnPosition(job: Job, p: nat)
    requires Versioned(job) && p < |job.chunks|
    ensures TakePosition(job.chunks, job.chunks[p].index, job.chunks[p].version) == Some(p)
  {
    hide OneLiveTake;
  }

  lemma KnownLatest(job: Job, p: nat)
    requires p < |job.chunks|
    ensures LatestVersion(job.chunks, job.chunks[p].index) >= 0
  {
  }

  lemma WrittenStaysVersioned(job: Job, p: nat, duration: real, audio: Audio)
    requires Versioned(job) && p < |job.chunks|
    ensures Versioned(MarkWritten(job, p, duration, audio))
  {
    hide Versioned, RefreshDerived, SettleStatus;
    var c := job.chunks[p];
    PutStaysVersioned(job, p, ApplyVoice(c, job.voice, job.planVersion));
    PutStaysVersioned(job, p, c.(status := Written, duration := duration, segment := Some(audio), error := None));
  }

  lemma FailedStaysVersioned(job: Job, p: nat, error: string, maxAttempts: nat)
    requires Versioned(job) && p < |job.chunks|
    ensures Versioned(FailOne(job, p, error, maxAttempts))
  {
    hide Versioned, RefreshDerived, SettleStatus;
    PutStaysVersioned(job, p, OrSuperseded(job, job.chunks[p].(status := Failed, error := Some(error))));
    PutStaysVersioned(job, p, OrSuperseded(job, Charged(job.chunks[p], error).(status := Planned)));
  }

  lemma RenderingStaysVersioned(job: Job, p: nat)
    requires Versioned(job) && p < |job.chunks|
    ensures Versioned(MarkRendering(job, p))
  {
    SameVersionsStayVersioned(job, MarkRendering(job, p));
    hide Versioned;
  }

  lemma PlannedStaysVersioned(job: Job, p: nat)
    requires Versioned(job) && p < |job.chunks|
    ensures Versioned(MarkPlanned(job, p))
  {
    hide Versioned, SettleStatus;
    PutStaysVersioned(job, p, OrSuperseded(job, job.chunks[p].(status := Planned)));
  }

  lemma MarksOne(jobs: seq<Job>, flight: seq<Ref>, ref: Ref)
    requires JobsInv(jobs, flight) && ValidRef(jobs, ref) && ref !in flight
    requires !jobs[ref.job].purged && ChunkOf(jobs, ref).status.Planned?
    ensures JobsInv(jobs[ref.job := MarkRendering(jobs[ref.job], ref.pos)], flight + [ref])
  {
    hide JobInv, Flight, MarkRendering;
    PipelineSafety.MarkOneKeepsInv(jobs, flight, ref);
  }

  lemma FailsHead(jobs: seq<Job>, flight: seq<Ref>, error: string, maxAttempts: nat)
    requires JobsInv(jobs, flight) && flight != []
    ensures ValidRef(jobs, flight[0]) && JobsInv(FailIn(jobs, flight[0], error, maxAttempts), flight[1..])
  {
    hide JobInv, Flight, FailOne;
    var r := flight[0];
    PipelineSafety.HeadInFlight(jobs, flight);
    if jobs[r.job].purged {
      PipelineSafety.DropPurgedHead(jobs, flight);
    } else {
      PipelineSafety.FailOneKeepsInv(jobs[r.job], Flight(flight, r.job), r.pos, error, maxAttempts);
      PipelineSafety.DropHead(jobs, flight, FailOne(jobs[r.job], r.pos, error, maxAttempts));
    }
  }

  lemma RequeuesHead(jobs: seq<Job>, flight: seq<Ref>)
    requires JobsInv(jobs, flight) && flight != []
    ensures ValidRef(jobs, flight[0])
    ensures jobs[flight[0].job].purged ==> JobsInv(jobs, flight[1..])
    ensures !jobs[flight[0].job].purged ==>
      JobsInv(jobs[flight[0].job := MarkPlanned(jobs[flight[0].job], flight[0].pos)], flight[1..])
  {
    hide JobInv, Flight, MarkPlanned;
    var r := flight[0];
    PipelineSafety.HeadInFlight(jobs, flight);
    if jobs[r.job].purged {
      PipelineSafety.DropPurgedHead(jobs, flight);
    } else {
      MarkPlannedKeepsInv(jobs[r.job], Flight(flight, r.job), r.pos);
      PipelineSafety.MarkPlannedFrame(jobs[r.job], r.pos);
      PipelineSafety.DropHead(jobs, flight, MarkPlanned(jobs[r.job], r.pos));
    }
  }

  lemma SwitchesExactlyWhen(jobs: seq<Job>, flight: seq<Ref>, id: nat, i: nat, v: nat)
    requires JobsInv(jobs, flight) && id < |jobs| && IsVisible(jobs[id]) && TakePosition(jobs[id].chunks, i, v).Some?
    ensures JobsInv(jobs[id := SetActiveVersion(jobs[id], i, v)], flight) <==>
      CanGoLive(jobs[id], jobs[id].chunks[TakePosition(jobs[id].chunks, i, v).value])
  {
    hide JobInv, Flight, SetActiveVersion, TakePosition, CanGoLive;
    var job := SetActiveVersion(jobs[id], i, v);
    SwitchIsSoundExactlyWhen(jobs[id], Flight(flight, id), i, v);
    PipelineSafety.SwitchFrame(jobs[id], i, v);
    SwitchStaysVisible(jobs[id], i, v);
    var next := jobs[id := job];
    if JobInv(job, Flight(flight, id)) {
      PipelineSafety.ReplaceJob(jobs, flight, id, job);
    } else {
      assert next[id] == job && !next[id].purged;
    }
  }

  lemma SwitchStaysVisible(job: Job, i: nat, v: nat)
    ensures SetActiveVersion(job, i, v).purged == job.purged
  {
    hide RefreshDerived, SettleStatus;
    var j := ActivateVersion(job, i, v);
    PipelineSafety.RefreshedAndSettledFrame(j.(audioEpoch := j.audioEpoch + 1));
  }
}
