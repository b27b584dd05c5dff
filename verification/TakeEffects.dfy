/** What each command of the job manager makes of the takes of a job, take by take
    (server/app/jobs/manager.py). */
module TakeEffects {
  import opened Wrappers
  import opened Planner
  import opened JobModel
  import opened JobInvariants
  import opened Pipeline

  // ---- what can become of a take ----

  /** Nothing happened to it, except that a live recording may have moved on the timeline. */
  predicate IsKept(c: Chunk, d: Chunk) {
    if !c.deprecated && c.status.Written? then d == c.(startSeconds := d.startSeconds) else d == c
  }

  /** Back in the queue in `voice`, under plan `plan`, as if it had never been tried. */
  predicate IsStartedOver(c: Chunk, d: Chunk, voice: string, plan: nat) {
    && d.index == c.index && d.version == c.version && d.text == c.text && d.deprecated == c.deprecated
    && d.charStart == c.charStart && d.charEnd == c.charEnd
    && d.voice == voice && d.planVersion == plan && d.status == Planned && d.attempts == 0
    && d.error.None? && d.segment.None? && !d.reprocessing && d.duration == 0.0 && d.startSeconds == 0.0
  }

  /** The voice of the job became `voice` under the new plan `plan`. */
  predicate IsAfterVoiceChange(c: Chunk, d: Chunk, voice: string, plan: nat, rerender: bool) {
    if c.deprecated then d == c
    else if c.status.Rendering? then d == c.(planVersion := if rerender then c.planVersion else plan)
    else if c.status.Written? && !rerender then IsKept(c, d)
    else IsStartedOver(c, d, voice, plan)
  }

  /** The batch is back. A live take whose plan moved on meanwhile starts over. */
  predicate IsOutdated(c: Chunk, plan: nat) { !c.deprecated && c.planVersion != plan }

  predicate IsAfterReturn(c: Chunk, d: Chunk, voice: string, plan: nat) {
    if IsOutdated(c, plan) then IsStartedOver(c, d, voice, plan) else IsKept(c.(status := Planned), d)
  }

  predicate IsAfterFailure(c: Chunk, d: Chunk, voice: string, plan: nat, error: string, maxAttempts: nat) {
    if IsOutdated(c, plan) then IsStartedOver(c, d, voice, plan)
    else if c.attempts + 1 < maxAttempts then
      IsKept(c.(status := Planned, attempts := c.attempts + 1, error := Some(error)), d)
    else IsKept(c.(status := Failed, error := Some(error)), d)
  }

  predicate IsAfterLanding(c: Chunk, d: Chunk, voice: string, plan: nat, duration: real, audio: Audio) {
    if IsOutdated(c, plan) then IsStartedOver(c, d, voice, plan)
    else IsKept(c.(status := Written, duration := duration, segment := Some(audio), error := None), d)
  }

  // ---- frames ----

  /** Nothing but takes, status, listening and cached values may differ. */
  ghost predicate IsSameJob(a: Job, b: Job) {
    b == a.(chunks := b.chunks, status := b.status, listening := b.listening, buffered := b.buffered,
            completedSeconds := b.completedSeconds, writtenCount := b.writtenCount, contiguous := b.contiguous)
  }

  /** Take `p` is dealt with; the other takes are kept. */
  ghost predicate OnlyTake(a: Job, b: Job, p: nat) {
    && IsSameJob(a, b) && |b.chunks| == |a.chunks|
    && forall q :: 0 <= q < |a.chunks| && q != p ==> IsKept(a.chunks[q], b.chunks[q])
  }

  /** Refreshing the cached values keeps every take. */
  lemma RefreshOnTakes(job: Job)
    ensures
      var b := RefreshDerived(job);
      && IsSameJob(job, b) && |b.chunks| == |job.chunks|
      && forall p :: 0 <= p < |job.chunks| ==>
           IsKept(job.chunks[p], b.chunks[p])
  {
    RefreshFrame(job);
    hide StartAt, WrittenBelow, PlayableBelow, Max;
  }

  lemma SettledPut(job: Job, p: nat, c: Chunk)
    requires p < |job.chunks|
    ensures
      var b := SettleStatus(Put(job, p, c));
      OnlyTake(job, b, p) && b.chunks[p] == c
    ensures
      var b := SettleStatus(RefreshDerived(Put(job, p, c)));
      OnlyTake(job, b, p) && IsKept(c, b.chunks[p])
  {
    var put := Put(job, p, c);
    SettleFrame(put);
    RefreshOnTakes(put);
    SettleFrame(RefreshDerived(put));
    hide RefreshDerived, SettleStatus;
  }

  // ---- settling ----

  /** A live take that somebody still has to deal with. */
  predicate IsOpen(c: Chunk) {
    !c.deprecated && (c.status.Planned? || c.status.Queued? || c.status.Rendering? || c.status.Reprocessing?)
  }

  /** What settling makes of the status: a paused or finished job keeps it; any other is complete
      exactly when its text is used up and no take of it is open, and stops being listened to
      then; otherwise it is playing or queued, as somebody listens or not. */
  lemma SettlesTo(job: Job)
    ensures
      var b := SettleStatus(job);
      var done := job.cursor < 0 && forall p :: 0 <= p < |job.chunks| ==> !IsOpen(job.chunks[p]);
      && b == job.(status := b.status, listening := b.listening)
      && (job.status.JobPaused? || job.status.JobCompleted? || job.status.JobFailed? ==> b == job)
      && (!(job.status.JobPaused? || job.status.JobCompleted? || job.status.JobFailed?) ==>
           && (b.status.JobCompleted? <==> done) && (done ==> !b.listening)
           && (!done ==> b.listening == job.listening && b.status == if job.listening then JobPlaying else JobQueued))
  {
    assert forall p: nat :: p < |job.chunks| ==> UnfinishedAt(job.chunks, p) == IsOpen(job.chunks[p]);
  }

  // ---- a batch goes out and comes back ----

  /** A dispatched take is rendering, and so is its job unless that is paused. */
  lemma DispatchOnTake(job: Job, p: nat)
    requires p < |job.chunks|
    ensures
      var b := MarkRendering(job, p);
      && b == job.(chunks := b.chunks, status := if job.status.JobPaused? then JobPaused else JobRendering)
      && b.chunks == job.chunks[p := job.chunks[p].(status := Rendering)]
  {
  }

  /** A chunk put back untouched (`mark_chunk_planned`). */
  lemma ReturnOnTake(job: Job, p: nat)
    requires p < |job.chunks|
    ensures OnlyTake(job, MarkPlanned(job, p), p)
    ensures IsAfterReturn(job.chunks[p], MarkPlanned(job, p).chunks[p], job.voice, job.planVersion)
  {
    hide SettleStatus;
    SettledPut(job, p, OrSuperseded(job, job.chunks[p].(status := Planned)));
  }

  /** A failed attempt: the take is tried again, with the attempt counted, while that leaves
      the budget unspent, and fails otherwise. */
  lemma FailureOnTake(job: Job, p: nat, error: string, maxAttempts: nat)
    requires p < |job.chunks|
    ensures OnlyTake(job, FailOne(job, p, error, maxAttempts), p)
    ensures
      IsAfterFailure(job.chunks[p], FailOne(job, p, error, maxAttempts).chunks[p], job.voice, job.planVersion, error,
                     maxAttempts)
  {
    hide SettleStatus, RefreshDerived;
    var c := job.chunks[p];
    SettledPut(job, p, OrSuperseded(job, c.(status := Failed, error := Some(error))));
    SettledPut(job, p, OrSuperseded(job, Charged(c, error).(status := Planned)));
  }

  /** A result: it is stored, unless the plan moved on, in which case the take starts over. */
  lemma LandingOnTake(job: Job, p: nat, duration: real, audio: Audio)
    requires p < |job.chunks|
    ensures OnlyTake(job, MarkWritten(job, p, duration, audio), p)
    ensures
      IsAfterLanding(job.chunks[p], MarkWritten(job, p, duration, audio).chunks[p], job.voice, job.planVersion,
                     duration, audio)
  {
    hide SettleStatus, RefreshDerived;
    SettledPut(job, p, job.chunks[p].(status := Written, duration := duration, segment := Some(audio), error := None));
  }

  // ---- a voice change ----

  /** The same after refreshing alone and after settling. */
  lemma SettledFields(job: Job)
    ensures HasFieldsOf(job, RefreshDerived(job)) && HasFieldsOf(job, SettleStatus(RefreshDerived(job)))
  {
    RefreshOnTakes(job);
    SettleFrame(RefreshDerived(job));
    hide RefreshDerived, SettleStatus;
  }

  ghost predicate HasFieldsOf(a: Job, b: Job) {
    && b.active == a.active && b.nextIndex == a.nextIndex && b.cursor == a.cursor
    && b.planVersion == a.planVersion && b.voice == a.voice && b.audioEpoch == a.audioEpoch
    && |b.chunks| == |a.chunks|
    && forall p :: 0 <= p < |a.chunks| ==>
         IsKept(a.chunks[p], b.chunks[p])
  }

  /** The takes once the voice is set, before the cached values are recomputed. */
  lemma RevoicedOnTakes(job: Job, voice: string, rerender: bool)
    ensures
      var r := Revoiced(job, voice, rerender);
      && r.voice == voice && r.planVersion == job.planVersion + 1 && |r.chunks| == |job.chunks|
      && r.audioEpoch == (if rerender then job.audioEpoch + 1 else job.audioEpoch)
      && forall p :: 0 <= p < |job.chunks| ==>
           IsAfterVoiceChange(job.chunks[p], r.chunks[p], voice, job.planVersion + 1, rerender)
  {
  }

  lemma PlacedAfterVoiceChange(c: Chunk, r: Chunk, b: Chunk, voice: string, plan: nat, rerender: bool)
    requires IsAfterVoiceChange(c, r, voice, plan, rerender)
    requires IsKept(r, b)
    ensures IsAfterVoiceChange(c, b, voice, plan, rerender)
  {
  }

  lemma PlacedJobAfterVoiceChange(job: Job, b: Job, voice: string, rerender: bool)
    requires
      var r := Revoiced(job, voice, rerender);
      && |b.chunks| == |r.chunks|
      && forall p :: 0 <= p < |r.chunks| ==>
           IsKept(r.chunks[p], b.chunks[p])
    ensures |b.chunks| == |job.chunks|
    ensures forall p :: 0 <= p < |job.chunks| ==>
      IsAfterVoiceChange(job.chunks[p], b.chunks[p], voice, job.planVersion + 1, rerender)
  {
    RevoicedOnTakes(job, voice, rerender);
    var r := Revoiced(job, voice, rerender);
    hide Revoiced, IsAfterVoiceChange, IsKept;
    forall p | 0 <= p < |job.chunks|
      ensures IsAfterVoiceChange(job.chunks[p], b.chunks[p], voice, job.planVersion + 1, rerender)
    {
      PlacedAfterVoiceChange(job.chunks[p], r.chunks[p], b.chunks[p], voice, job.planVersion + 1, rerender);
    }
  }

  /** A change of voice, take by take. Asking for the voice the job has changes nothing. */
  lemma VoiceChangeOnTakes(job: Job, voice: string, rerender: bool)
    ensures
      var b := SetVoice(job, voice, rerender);
      && (!rerender && job.voice == voice ==> b == job)
      && (rerender || job.voice != voice ==>
           && b.voice == voice && b.planVersion == job.planVersion + 1
           && b.audioEpoch == (if rerender then job.audioEpoch + 1 else job.audioEpoch)
           && |b.chunks| == |job.chunks|
           && forall p :: 0 <= p < |job.chunks| ==>
                IsAfterVoiceChange(job.chunks[p], b.chunks[p], voice, job.planVersion + 1, rerender))
  {
    hide RefreshDerived, SettleStatus, AnyRequeued, IsAfterVoiceChange, IsKept, IsSameJob;
    var r := Revoiced(job, voice, rerender);
    RevoicedOnTakes(job, voice, rerender);
    hide Revoiced;
    SettledFields(r);
    SettledFields(Reopened(r));
    PlacedJobAfterVoiceChange(job, RefreshDerived(r), voice, rerender);
    PlacedJobAfterVoiceChange(job, SettleStatus(RefreshDerived(Reopened(r))), voice, rerender);
  }

  /** A take that a change of voice puts back in the queue. */
  predicate IsToRedo(c: Chunk, rerender: bool) {
    !c.deprecated && !c.status.Rendering? && (rerender || !c.status.Written?)
  }

  ghost predicate HasToRedo(job: Job, rerender: bool) {
    exists p :: 0 <= p < |job.chunks| && IsToRedo(job.chunks[p], rerender)
  }

  /** A re-render takes the listener back to the start. */
  lemma RerenderStartsOver(job: Job, voice: string)
    ensures
      var b := SetVoice(job, voice, true);
      b.currentTime == 0.0 && b.completedSeconds == 0.0 && !b.isPlaying
  {
    var r := Revoiced(job, voice, true);
    RefreshFrame(Reopened(r));
    SettleFrame(RefreshDerived(Reopened(r)));
    assert RefreshDerived(Reopened(r)).completedSeconds == 0.0 by { hide PlayableBelow, WrittenBelow, StartAt; }
    hide RefreshDerived, SettleStatus;
  }

  /** What it makes of the job's status: a finished job opens again if there is anything to
      redo; a paused job stays paused; with nothing to redo the status stands. */
  lemma VoiceChangeOnStatus(job: Job, voice: string, rerender: bool)
    requires rerender || job.voice != voice
    ensures
      var b := SetVoice(job, voice, rerender);
      && (job.status.JobPaused? ==> b.status.JobPaused?)
      && (HasToRedo(job, rerender) && !job.status.JobPaused? ==>
           b.status == (if job.listening then JobPlaying else JobQueued) && b.listening == job.listening)
      && (!HasToRedo(job, rerender) && !rerender ==> b.status == job.status && b.listening == job.listening)
  {
    hide RefreshDerived, SettleStatus, Revoiced;
    var r := Revoiced(job, voice, rerender);
    RevoicedOnStatus(job, voice, rerender);
    RequeuedMeansRedo(job, rerender);
    hide AnyRequeued, HasToRedo;
    SettledAgain(r);
    SettledAgain(Reopened(r));
    if HasToRedo(job, rerender) { RedoneIsUnfinished(job, voice, rerender); }
  }

  lemma RequeuedMeansRedo(job: Job, rerender: bool)
    ensures AnyRequeued(job.chunks, rerender) <==> HasToRedo(job, rerender)
  {
    assert forall p :: 0 <= p < |job.chunks| ==>
      IsRequeuedBy(job.chunks[p], rerender) == IsToRedo(job.chunks[p], rerender);
  }

  lemma SettledAgain(job: Job)
    ensures
      var b := RefreshDerived(job);
      && b.status == job.status && b.listening == job.listening
      && (job.status.JobPaused? ==> SettleStatus(b).status.JobPaused?)
      && (!job.status.JobPaused? && !IsTerminal(job.status) && HasUnfinishedChunks(b.chunks) ==>
           SettleStatus(b).status == (if job.listening then JobPlaying else JobQueued) &&
           SettleStatus(b).listening == job.listening)
  {
    RefreshFrame(job);
    hide RefreshDerived, HasUnfinishedChunks;
  }

  lemma RedoneIsUnfinished(job: Job, voice: string, rerender: bool)
    requires HasToRedo(job, rerender)
    ensures HasUnfinishedChunks(RefreshDerived(Reopened(Revoiced(job, voice, rerender))).chunks)
  {
    RevoicedOnTakes(job, voice, rerender);
    var r := Revoiced(job, voice, rerender);
    RefreshOnTakes(Reopened(r));
    hide RefreshDerived, Revoiced;
    var p :| 0 <= p < |job.chunks| && IsToRedo(job.chunks[p], rerender);
    assert UnfinishedAt(RefreshDerived(Reopened(r)).chunks, p);
  }

  lemma RevoicedOnStatus(job: Job, voice: string, rerender: bool)
    ensures Revoiced(job, voice, rerender).status == job.status
    ensures Revoiced(job, voice, rerender).listening == job.listening
  {
  }

  // ---- further takes ----

  predicate HasTake(job: Job, i: nat, v: nat) {
    exists p :: 0 <= p < |job.chunks| && job.chunks[p].index == i && job.chunks[p].version == v
  }

  /** `v` is the first number above all versions of index `i`. */
  ghost predicate IsNextVersion(job: Job, i: nat, v: nat) {
    && (forall p :: 0 <= p < |job.chunks| && job.chunks[p].index == i ==> job.chunks[p].version < v)
    && (v > 0 ==> HasTake(job, i, v - 1))
  }

  lemma {:induction false} LatestIsATake(chunks: seq<Chunk>, i: nat)
    ensures LatestVersion(chunks, i) >= 0 ==>
      exists p :: 0 <= p < |chunks| && chunks[p].index == i && chunks[p].version == LatestVersion(chunks, i)
  {
    if chunks != [] && LatestVersion(chunks, i) >= 0 {
      LatestIsATake(chunks[1..], i);
      if chunks[0].index == i && chunks[0].version == LatestVersion(chunks, i) {
        assert chunks[0].version == LatestVersion(chunks, i);
      } else {
        var q :| 0 <= q < |chunks| - 1 && chunks[1..][q].index == i &&
                 chunks[1..][q].version == LatestVersion(chunks, i);
        assert chunks[q + 1] == chunks[1..][q];
      }
    }
  }

  /** A further take of index `i` is live now: the others no longer are, and hold what they held. */
  predicate IsSetAside(c: Chunk, d: Chunk, i: nat) {
    IsKept(c.(deprecated := c.deprecated || c.index == i), d)
  }

  /** A take waiting in the queue that has not been tried. */
  predicate IsUntried(c: Chunk) {
    c.status.Planned? && c.attempts == 0 && c.error.None? && c.segment.None? && c.duration == 0.0
  }

  /** A reprocess request is refused when the index has no live take, or has a take with
      version 3: that is the fourth. Otherwise it adds the take of the next version, with the
      live take's span, the text and voice asked for or else the live take's text and the job's
      voice; that take is the live one, and the others keep what they hold. */
  lemma ReprocessAddsATake(job: Job, i: nat, newText: Option<string>, newVoice: Option<string>)
    requires Structure(job)
    ensures
      var b := ReprocessChunk(job, i, newText, newVoice);
      var full := exists p :: 0 <= p < |job.chunks| && job.chunks[p].index == i && job.chunks[p].version >= 3;
      && (i >= job.nextIndex || full ==> b == job)
      && (i < job.nextIndex && !full ==>
           var at := LivePosition(job.chunks, i);
           && at.Some?
           && var live := job.chunks[at.value];
           && AddsTake(job, b, i)
           && var c := b.chunks[|job.chunks|];
           && c.text == (if newText.Some? then newText.value else live.text)
           && c.voice == (if newVoice.Some? then newVoice.value else job.voice)
           && c.charStart == live.charStart && c.charEnd == live.charEnd)
  {
    hide LivePosition, AddVersionedChunk, AddsTake;
    ActiveTakeIsLive(job, i);
    LatestIsATake(job.chunks, i);
    var at := ActiveTake(job, i);
    hide TakePosition, StructureOf, ActiveTake;
    if at.Some? && LatestVersion(job.chunks, i) < 3 {
      var live := job.chunks[at.value];
      AddedTake(job, if newText.Some? then newText.value else live.text, live.charStart, live.charEnd,
                if newVoice.Some? then newVoice.value else job.voice, i);
    }
  }

  /** A further take of index `i` comes last and is live: the next version, untried, under the
      current plan. The other takes of the index are set aside, and nothing else changes. */
  ghost predicate AddsTake(a: Job, b: Job, i: nat) {
    && |b.chunks| == |a.chunks| + 1
    && b.nextIndex == a.nextIndex && b.planVersion == a.planVersion && b.voice == a.voice && b.cursor == a.cursor
    && b.audioEpoch == a.audioEpoch
    && (forall p :: 0 <= p < |a.chunks| ==> IsSetAside(a.chunks[p], b.chunks[p], i))
    && var c := b.chunks[|a.chunks|];
    && c.index == i && IsNextVersion(a, i, c.version) && IsUntried(c) && !c.deprecated && c.reprocessing
    && c.planVersion == a.planVersion && b.active == a.active[i := c.version]
  }

  /** A finished job that a take is added to is queued again, and nobody listens to it; a paused
      job stays paused; any other is playing or queued, as somebody listens or not. */
  lemma ReprocessRevives(job: Job, text: string, start: nat, end: nat, voice: string, i: nat)
    ensures
      var b := AddVersionedChunk(job, text, start, end, voice, i);
      if job.status.JobPaused? then b.status.JobPaused?
      else if job.status.JobCompleted? || job.status.JobFailed? then
        b.status.JobQueued? && !b.listening && !b.isPlaying
      else b.status == (if job.listening then JobPlaying else JobQueued) && b.listening == job.listening
  {
    AddedTake(job, text, start, end, voice, i);
    var c := VersionedChunk(job, text, start, end, voice, i);
    var r := ReactivateJob(job);
    var a := ActivateVersion(r.(chunks := r.chunks + [c]), i, c.version);
    var b := RefreshDerived(a);
    SettledFields(a);
    RefreshFrame(a);
    SettleFrame(b);
    hide RefreshDerived, LatestVersion, ActivatedAll, HasFieldsOf;
    assert SettleStatus(b).chunks == b.chunks && UnfinishedAt(b.chunks, |job.chunks|);
    SettledAgain(a);
  }

  lemma AddedTake(job: Job, text: string, start: nat, end: nat, voice: string, i: nat)
    ensures
      var b := AddVersionedChunk(job, text, start, end, voice, i);
      && AddsTake(job, b, i)
      && var c := b.chunks[|job.chunks|];
      && c.text == text && c.voice == voice && c.charStart == start && c.charEnd == end
  {
    var c := VersionedChunk(job, text, start, end, voice, i);
    var a := ActivateVersion(ReactivateJob(job).(chunks := job.chunks + [c]), i, c.version);
    NextAfterLatest(job, i);
    AddedBeforeRefresh(job, c, a);
    hide RefreshDerived, SettleStatus, LatestVersion, ActivatedAll, AddsTake, HasFieldsOf;
    SettledFields(a);
    AddsTakeWhenPlaced(job, a, SettleStatus(RefreshDerived(a)), i);
  }

  lemma NextAfterLatest(job: Job, i: nat)
    ensures IsNextVersion(job, i, LatestVersion(job.chunks, i) + 1)
  {
    LatestIsATake(job.chunks, i);
    hide LatestVersion;
  }

  lemma AddedBeforeRefresh(job: Job, c: Chunk, a: Job)
    requires c.version == LatestVersion(job.chunks, c.index) + 1 && IsNextVersion(job, c.index, c.version)
    requires !c.deprecated && c.reprocessing && IsUntried(c) && c.planVersion == job.planVersion
    requires a.nextIndex == job.nextIndex && a.planVersion == job.planVersion && a.voice == job.voice
    requires a.cursor == job.cursor && a.audioEpoch == job.audioEpoch && a.active == job.active[c.index := c.version]
    requires a.chunks == ActivatedAll(job.chunks + [c], c.index, c.version)
    ensures AddsTake(job, a, c.index) && a.chunks[|job.chunks|] == c
  {
    hide LatestVersion, IsNextVersion;
    assert forall p :: 0 <= p < |job.chunks| ==> (job.chunks + [c])[p] == job.chunks[p];
    assert forall p :: 0 <= p < |job.chunks| && job.chunks[p].index == c.index ==>
      job.chunks[p].version <= LatestVersion(job.chunks, c.index);
  }

  lemma AddsTakeWhenPlaced(job: Job, a: Job, b: Job, i: nat)
    requires AddsTake(job, a, i) && HasFieldsOf(a, b)
    ensures AddsTake(job, b, i) && b.chunks[|job.chunks|] == a.chunks[|job.chunks|]
  {
    hide IsNextVersion;
  }

  // ---- switching takes ----

  /** The take after version `v` of index `i` was made the live one. */
  predicate IsAfterSwitch(c: Chunk, d: Chunk, i: nat, v: nat) {
    IsKept(c.(deprecated := if c.index == i then c.version != v else c.deprecated), d)
  }

  /** Of the takes of index `i` exactly those of version `v` are live from now on, under a new
      audio epoch; every other take stays what it was. */
  lemma SwitchOnTakes(job: Job, i: nat, v: nat)
    ensures
      var b := SetActiveVersion(job, i, v);
      && b.audioEpoch == job.audioEpoch + 1 && b.active == job.active[i := v]
      && b.voice == job.voice && b.planVersion == job.planVersion && |b.chunks| == |job.chunks|
      && forall p :: 0 <= p < |job.chunks| ==> IsAfterSwitch(job.chunks[p], b.chunks[p], i, v)
  {
    var s := ActivateVersion(job, i, v).(audioEpoch := job.audioEpoch + 1);
    SwitchedTakes(job, i, v);
    hide RefreshDerived, SettleStatus, IsKept, IsAfterSwitch, Activated, ActivatedAll;
    SettledFields(s);
    var b := SettleStatus(RefreshDerived(s));
    forall p | 0 <= p < |job.chunks| ensures IsAfterSwitch(job.chunks[p], b.chunks[p], i, v) {
      PlacedAfterSwitch(job.chunks[p], b.chunks[p], i, v);
    }
  }

  lemma SwitchedTakes(job: Job, i: nat, v: nat)
    ensures
      var s := ActivateVersion(job, i, v);
      && |s.chunks| == |job.chunks| && s.active == job.active[i := v] && s.audioEpoch == job.audioEpoch
      && s.voice == job.voice && s.planVersion == job.planVersion
      && forall p :: 0 <= p < |job.chunks| ==> s.chunks[p] == Activated(job.chunks[p], i, v)
  {
  }

  lemma PlacedAfterSwitch(c: Chunk, d: Chunk, i: nat, v: nat)
    requires IsKept(Activated(c, i, v), d)
    ensures IsAfterSwitch(c, d, i, v)
  {
  }
}
