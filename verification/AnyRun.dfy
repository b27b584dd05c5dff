/** What holds after any run at all, whatever the user does: takes keep their structure,
    cached values are current, and what the batch owns is rendering. */
module AnyRun {
  import opened Wrappers
  import opened Planner
  import opened JobModel
  import opened JobInvariants
  import opened Pipeline
  import opened PipelineSafety

  // ---- one job ----

  /** A chunk in a state that the scheduler produces. Written audio is the chunk's own text
      in the chunk's own voice. */
  ghost predicate IsRecord(c: Chunk, planVersion: nat) {
    && (c.status.Planned? || c.status.Rendering? || c.status.Written? || c.status.Failed?)
    && c.planVersion <= planVersion && (c.status.Written? <==> c.segment.Some?)
    && (c.status.Written? ==> c.segment.value.text == c.text && c.segment.value.voice == c.voice)
  }

  ghost predicate AreRecords(chunks: seq<Chunk>, planVersion: nat) {
    forall p :: 0 <= p < |chunks| ==> IsRecord(chunks[p], planVersion)
  }

  ghost predicate Coherent(job: Job) {
    Structure(job) && AreRecords(job.chunks, job.planVersion) && DerivedFresh(job)
  }

  /** What refreshing builds on. */
  ghost predicate HasRecords(job: Job) { Structure(job) && AreRecords(job.chunks, job.planVersion) }

  lemma RefreshMakesCoherent(job: Job)
    requires HasRecords(job)
    ensures Coherent(RefreshDerived(job))
  {
    hide StructureOf, StartAt, WrittenBelow, PlayableBelow, DerivedFresh;
    RefreshIsFresh(job);
    SameTakesKeepStructure(job, RefreshDerived(job));
    hide DerivedFreshOf;
    forall p | 0 <= p < |job.chunks| ensures IsRecord(RefreshDerived(job).chunks[p], job.planVersion) {
      assert IsRecord(job.chunks[p], job.planVersion);
    }
  }

  lemma SettleKeepsCoherent(job: Job)
    requires Coherent(job)
    ensures Coherent(SettleStatus(job))
  {
    hide StructureOf, AreRecords, DerivedFreshOf, SettleStatus;
    SettleFrame(job);
  }

  lemma RefreshAndSettleMakeCoherent(job: Job)
    requires HasRecords(job)
    ensures Coherent(RefreshDerived(job)) && Coherent(SettleStatus(RefreshDerived(job)))
  {
    hide Coherent, HasRecords, RefreshDerived, SettleStatus;
    RefreshMakesCoherent(job);
    SettleKeepsCoherent(RefreshDerived(job));
  }

  lemma NewJobIsCoherent(source: string, model: string, language: string, voice: string, now: real)
    ensures Coherent(NewJob(source, model, language, voice, now))
  {
    NormalizedStartsOnWord(source);
  }

  lemma ListenerCommandsKeepCoherent(job: Job, now: real, timeout: real, on: bool)
    requires Coherent(job)
    ensures Coherent(ActivateJob(job, now)) && Coherent(PauseJob(job, now)) && Coherent(ResumeJob(job))
    ensures Coherent(ReactivateJob(job)) && Coherent(ExpireListener(job, now, timeout))
    ensures Coherent(SetRenderToEnd(job, on))
    ensures forall t, p :: Coherent(job.(trashed := t)) && Coherent(job.(purged := p))
  {
    hide StructureOf, AreRecords, DerivedFreshOf, Max;
  }

  lemma UpdatePlaybackKeepsCoherent(job: Job, position: real, playing: bool, now: real)
    requires Coherent(job)
    ensures Coherent(UpdatePlayback(job, position, playing, now))
  {
    hide StructureOf, AreRecords, DerivedFreshOf, Max;
  }

  lemma SetVoiceKeepsCoherent(job: Job, voice: string, rerender: bool)
    requires Coherent(job)
    ensures Coherent(SetVoice(job, voice, rerender))
  {
    hide RefreshDerived, SettleStatus, Revoiced, AnyRequeued, Structure, AreRecords;
    var r := Revoiced(job, voice, rerender);
    RevoicedHasRecords(job, voice, rerender);
    ReopenedHasRecords(r);
    hide Coherent;
    RefreshAndSettleMakeCoherent(r);
    RefreshAndSettleMakeCoherent(Reopened(r));
  }

  lemma ReopenedHasRecords(job: Job)
    requires HasRecords(job)
    ensures HasRecords(Reopened(job)) && HasRecords(ReactivateJob(job))
  {
    hide StructureOf, AreRecords;
  }

  lemma RevoicedHasRecords(job: Job, voice: string, rerender: bool)
    requires Coherent(job)
    ensures HasRecords(Revoiced(job, voice, rerender))
  {
    hide StructureOf, DerivedFresh;
    var r := Revoiced(job, voice, rerender);
    SameTakesKeepStructure(job, r);
    forall p | 0 <= p < |job.chunks| ensures IsRecord(r.chunks[p], r.planVersion) {
      assert IsRecord(job.chunks[p], job.planVersion);
    }
  }

  lemma SwitchKeepsCoherent(job: Job, i: nat, v: nat)
    requires Coherent(job) && TakePosition(job.chunks, i, v).Some?
    ensures Coherent(SetActiveVersion(job, i, v))
  {
    hide StructureOf, DerivedFresh, TakePosition, RefreshDerived, SettleStatus;
    SwitchKeepsStructure(job, i, v);
    var j := ActivateVersion(job, i, v);
    forall p | 0 <= p < |job.chunks| ensures IsRecord(j.chunks[p], j.planVersion) {
      assert IsRecord(job.chunks[p], job.planVersion);
    }
    hide Coherent;
    RefreshAndSettleMakeCoherent(j.(audioEpoch := j.audioEpoch + 1));
  }

  lemma ReprocessKeepsCoherent(job: Job, i: nat, newText: Option<string>, newVoice: Option<string>)
    requires Coherent(job)
    ensures Coherent(ReprocessChunk(job, i, newText, newVoice))
  {
    hide Coherent, LatestVersion, LivePosition, TakePosition, AddVersionedChunk;
    if ActiveTake(job, i).Some? && LatestVersion(job.chunks, i) < 3 {
      var live := job.chunks[ActiveTake(job, i).value];
      AddedTakeIsCoherent(job, if newText.Some? then newText.value else live.text,
                          if newVoice.Some? then newVoice.value else job.voice, i);
    }
  }

  lemma AddedTakeIsCoherent(job: Job, text: string, voice: string, i: nat)
    requires Coherent(job) && ActiveTake(job, i).Some?
    ensures
      var live := job.chunks[ActiveTake(job, i).value];
      Coherent(AddVersionedChunk(job, text, live.charStart, live.charEnd, voice, i))
  {
    hide StructureOf, DerivedFresh, ActiveTake, LatestVersion, RefreshDerived, SettleStatus;
    AddTakeKeepsStructure(job, text, voice, i);
    var c := NewTake(job, text, voice, i);
    var r := ReactivateJob(job);
    var b := ActivateVersion(r.(chunks := r.chunks + [c]), i, c.version);
    forall p | 0 <= p < |b.chunks| ensures IsRecord(b.chunks[p], b.planVersion) {
      if p < |job.chunks| { assert IsRecord(job.chunks[p], job.planVersion); }
    }
    hide Coherent, AreRecords;
    RefreshAndSettleMakeCoherent(b);
  }

  lemma AddPlannedKeepsCoherent(job: Job, plan: ChunkPlan, cfg: PlannerConfig)
    requires cfg.Valid() && Coherent(job) && PlanNext(job.text, job.cursor, cfg) == Some(plan)
    ensures Coherent(AddPlannedChunk(job, plan))
  {
    hide PlanNext, DerivedFreshOf, Max, UniqueTakes, OneLiveTake, SpansTile, PlannedTakesSpeakTheText;
    AddPlannedKeepsStructure(job, plan, cfg);
    AppendQuietStaysFresh(job, PlannedChunk(job, plan));
    hide StructureOf;
    var b := AddPlannedChunk(job, plan);
    forall p | 0 <= p < |b.chunks| ensures IsRecord(b.chunks[p], b.planVersion) {
      if p < |job.chunks| { assert IsRecord(job.chunks[p], job.planVersion); }
    }
  }

  lemma FinishPlanningKeepsCoherent(job: Job, cfg: PlannerConfig)
    requires cfg.Valid() && Coherent(job) && PlanNext(job.text, job.cursor, cfg).None?
    ensures Coherent(FinishPlanning(job))
  {
    if job.cursor >= 0 { PlanNextAdvances(job.text, job.cursor, cfg); }
    hide PlanNext, SettleStatus, DerivedFreshOf, AreRecords, UniqueTakes, OneLiveTake, PlannedTakesSpeakTheText;
    SettleKeepsCoherent(job.(cursor := -1));
  }

  lemma {:induction false} PlanLoopKeepsCoherent(job: Job, cfg: SchedulerConfig)
    requires cfg.Valid() && Coherent(job)
    ensures Coherent(PlanLoop(job, cfg))
    decreases Unplanned(job)
  {
    hide Coherent, PlanNext, NeedsMorePlanning, FinishPlanning;
    if NeedsMorePlanning(job, cfg) {
      match PlanNext(job.text, job.cursor, cfg.planner) {
        case None => FinishPlanningKeepsCoherent(job, cfg.planner);
        case Some(plan) =>
          AddPlannedKeepsCoherent(job, plan, cfg.planner);
          PlanLoopKeepsCoherent(AddPlannedChunk(job, plan), cfg);
      }
    }
  }

  // ---- one chunk of a batch ----

  /** Apart from the chunk at `p`, nothing but places on the timeline changed. */
  ghost predicate OnlyAt(a: Job, b: Job, p: nat) {
    && |a.chunks| == |b.chunks|
    && forall q :: 0 <= q < |a.chunks| && q != p ==>
         b.chunks[q] == a.chunks[q].(startSeconds := b.chunks[q].startSeconds)
  }

  lemma PutHasRecords(job: Job, p: nat, c: Chunk)
    requires Coherent(job) && p < |job.chunks|
    requires SameTake(job.chunks[p], c) && IsRecord(c, job.planVersion)
    ensures HasRecords(Put(job, p, c)) && OnlyAt(job, Put(job, p, c), p)
    ensures !job.chunks[p].status.Written? && !c.status.Written? ==> Coherent(Put(job, p, c))
  {
    hide StructureOf, IsRecord, DerivedFreshOf, Max;
    var b := Put(job, p, c);
    SameTakesKeepStructure(job, b);
    if !job.chunks[p].status.Written? && !c.status.Written? {
      SameWrittenStaysFresh(job.chunks, b.chunks, job.nextIndex, job.writtenCount, job.contiguous);
    }
  }

  lemma SettledOnlyAt(job: Job, b: Job, p: nat)
    requires OnlyAt(job, b, p)
    ensures OnlyAt(job, SettleStatus(b), p) && OnlyAt(job, SettleStatus(RefreshDerived(b)), p)
  {
    hide RefreshDerived, SettleStatus;
    SettleFrame(b);
    RefreshedAndSettledFrame(b);
  }

  lemma MarkRenderingKeepsCoherent(job: Job, p: nat)
    requires Coherent(job) && p < |job.chunks| && job.chunks[p].status.Planned?
    ensures Coherent(MarkRendering(job, p)) && OnlyAt(job, MarkRendering(job, p), p)
    ensures MarkRendering(job, p).chunks[p].status.Rendering?
  {
    assert IsRecord(job.chunks[p], job.planVersion);
    hide Coherent;
    PutHasRecords(job, p, job.chunks[p].(status := Rendering));
    StatusIsFree(Put(job, p, job.chunks[p].(status := Rendering)), JobRendering);
  }

  lemma StatusIsFree(job: Job, status: JobStatus)
    requires Coherent(job)
    ensures Coherent(job.(status := status))
  {
    hide StructureOf, AreRecords, DerivedFreshOf, Max;
  }

  lemma RequeueKeepsCoherent(job: Job, p: nat, c: Chunk)
    requires Coherent(job) && p < |job.chunks| && job.chunks[p].status.Rendering?
    requires SameTake(job.chunks[p], c) && c.segment.None? && c.planVersion <= job.planVersion
    ensures Coherent(RequeueAs(job, p, c)) && OnlyAt(job, RequeueAs(job, p, c), p)
  {
    var d := OrSuperseded(job, c.(status := Planned));
    PutHasRecords(job, p, d);
    hide Coherent, HasRecords, SettleStatus, OnlyAt;
    SettleKeepsCoherent(Put(job, p, d));
    SettledOnlyAt(job, Put(job, p, d), p);
  }

  lemma MarkPlannedKeepsCoherent(job: Job, p: nat)
    requires Coherent(job) && p < |job.chunks| && job.chunks[p].status.Rendering?
    ensures Coherent(MarkPlanned(job, p)) && OnlyAt(job, MarkPlanned(job, p), p)
  {
    assert IsRecord(job.chunks[p], job.planVersion);
    hide Coherent, RequeueAs, OnlyAt;
    RequeueKeepsCoherent(job, p, job.chunks[p]);
  }

  lemma FailOneKeepsCoherent(job: Job, p: nat, error: string, maxAttempts: nat)
    requires Coherent(job) && p < |job.chunks| && job.chunks[p].status.Rendering?
    ensures Coherent(FailOne(job, p, error, maxAttempts)) && OnlyAt(job, FailOne(job, p, error, maxAttempts), p)
  {
    assert IsRecord(job.chunks[p], job.planVersion);
    if job.chunks[p].attempts + 1 >= maxAttempts {
      var d := OrSuperseded(job, job.chunks[p].(status := Failed, error := Some(error)));
      PutHasRecords(job, p, d);
      hide Coherent, HasRecords, RefreshDerived, SettleStatus, OnlyAt;
      RefreshAndSettleMakeCoherent(Put(job, p, d));
      SettledOnlyAt(job, Put(job, p, d), p);
    } else {
      hide Coherent, RequeueAs, OnlyAt;
      RequeueKeepsCoherent(job, p, Charged(job.chunks[p], error));
    }
  }

  lemma MarkWrittenKeepsCoherent(job: Job, p: nat, duration: real, audio: Audio)
    requires Coherent(job) && p < |job.chunks| && job.chunks[p].status.Rendering?
    requires audio.text == job.chunks[p].text && audio.voice == job.chunks[p].voice
    ensures Coherent(MarkWritten(job, p, duration, audio)) && OnlyAt(job, MarkWritten(job, p, duration, audio), p)
  {
    var c := job.chunks[p];
    assert IsRecord(c, job.planVersion);
    if IsSuperseded(job, c) {
      PutHasRecords(job, p, ApplyVoice(c, job.voice, job.planVersion));
    } else {
      var d := c.(status := Written, duration := duration, segment := Some(audio), error := None);
      PutHasRecords(job, p, d);
      hide Coherent, HasRecords, RefreshDerived, SettleStatus, OnlyAt;
      RefreshAndSettleMakeCoherent(Put(job, p, d));
      SettledOnlyAt(job, Put(job, p, d), p);
    }
  }

  // ---- the table ----

  ghost predicate AllCoherent(jobs: seq<Job>) { forall j :: 0 <= j < |jobs| ==> Coherent(jobs[j]) }

  ghost predicate AreRendering(jobs: seq<Job>, refs: seq<Ref>) {
    && ValidRefs(jobs, refs) && DistinctRefs(refs)
    && forall k :: 0 <= k < |refs| ==> ChunkOf(jobs, refs[k]).status.Rendering?
  }

  ghost predicate ArePlanned(jobs: seq<Job>, refs: seq<Ref>) {
    ValidRefs(jobs, refs) && forall k :: 0 <= k < |refs| ==> ChunkOf(jobs, refs[k]).status.Planned?
  }

  /** `audio` is the chunk's own text in the chunk's own voice. */
  ghost predicate Speaks(jobs: seq<Job>, r: Ref, audio: Audio) {
    ValidRef(jobs, r) && audio.text == ChunkOf(jobs, r).text && audio.voice == ChunkOf(jobs, r).voice
  }

  ghost predicate PhaseHolds(jobs: seq<Job>, phase: Phase) {
    match phase
    case Idle => true
    case Ranked(refs) => ArePlanned(jobs, refs)
    case OnGpu(batch, spoken) => |spoken| == |batch| && forall k :: 0 <= k < |batch| ==>
      Speaks(jobs, batch[k], spoken[k])
    case Landing(batch, results, done) => done <= |results| <= |batch| && forall k :: done <= k < |results| ==>
      Speaks(jobs, batch[k], results[k].audio)
  }

  /** The part of the invariant that no command and no step can break. */
  ghost predicate Steady(s: System) {
    AllCoherent(s.jobs) && AreRendering(s.jobs, InFlight(s.phase)) && PhaseHolds(s.jobs, s.phase)
  }

  lemma HeadIsRendering(jobs: seq<Job>, refs: seq<Ref>)
    requires AreRendering(jobs, refs) && refs != []
    ensures ValidRef(jobs, refs[0]) && ChunkOf(jobs, refs[0]).status.Rendering?
  {
    assert ValidRef(jobs, refs[0]);
  }

  lemma TailIsRendering(jobs: seq<Job>, refs: seq<Ref>)
    requires AreRendering(jobs, refs) && refs != []
    ensures AreRendering(jobs, refs[1..])
  {
    assert forall k :: 0 <= k < |refs| - 1 ==> refs[1..][k] == refs[k + 1];
    assert forall k :: 0 <= k < |refs| ==> ValidRef(jobs, refs[k]);
  }

  /** The head of a batch has been dealt with; the rest is as it was. */
  lemma HeadIsDone(jobs: seq<Job>, refs: seq<Ref>, job: Job)
    requires AllCoherent(jobs) && AreRendering(jobs, refs) && refs != [] && ValidRef(jobs, refs[0])
    requires Coherent(job) && OnlyAt(jobs[refs[0].job], job, refs[0].pos)
    ensures AllCoherent(jobs[refs[0].job := job]) && AreRendering(jobs[refs[0].job := job], refs[1..])
  {
    hide Coherent;
    var next := jobs[refs[0].job := job];
    forall k | 0 <= k < |refs| - 1
      ensures ValidRef(next, refs[1..][k]) && ChunkOf(next, refs[1..][k]).status.Rendering?
    {
      assert refs[1..][k] == refs[k + 1] && refs[k + 1] != refs[0];
      assert ValidRef(jobs, refs[k + 1]);
    }
  }

  lemma {:induction false} RequeueAllKeepsCoherent(jobs: seq<Job>, refs: seq<Ref>)
    requires AllCoherent(jobs) && AreRendering(jobs, refs)
    ensures AllCoherent(RequeueAll(jobs, refs))
    decreases |refs|
  {
    if refs != [] && !jobs[refs[0].job].purged {
      var r := refs[0];
      HeadIsRendering(jobs, refs);
      hide Coherent, MarkPlanned, OnlyAt, AreRendering;
      MarkPlannedKeepsCoherent(jobs[r.job], r.pos);
      HeadIsDone(jobs, refs, MarkPlanned(jobs[r.job], r.pos));
      RequeueAllKeepsCoherent(jobs[r.job := MarkPlanned(jobs[r.job], r.pos)], refs[1..]);
    }
  }

  lemma {:induction false} FailAllKeepsCoherent(jobs: seq<Job>, refs: seq<Ref>, error: string, maxAttempts: nat)
    requires AllCoherent(jobs) && AreRendering(jobs, refs)
    ensures AllCoherent(FailAll(jobs, refs, error, maxAttempts))
    decreases |refs|
  {
    if refs != [] {
      var r := refs[0];
      HeadIsRendering(jobs, refs);
      hide Coherent, FailOne, OnlyAt, AreRendering;
      if jobs[r.job].purged {
        TailIsRendering(jobs, refs);
        FailAllKeepsCoherent(jobs, refs[1..], error, maxAttempts);
      } else {
        FailOneKeepsCoherent(jobs[r.job], r.pos, error, maxAttempts);
        HeadIsDone(jobs, refs, FailOne(jobs[r.job], r.pos, error, maxAttempts));
        FailAllKeepsCoherent(jobs[r.job := FailOne(jobs[r.job], r.pos, error, maxAttempts)], refs[1..], error,
                             maxAttempts);
      }
    }
  }

  lemma LandOneKeepsCoherent(jobs: seq<Job>, refs: seq<Ref>, result: Rendered)
    requires AllCoherent(jobs) && AreRendering(jobs, refs) && refs != [] && Speaks(jobs, refs[0], result.audio)
    ensures AllCoherent(LandOne(jobs, refs[0], result)) && AreRendering(LandOne(jobs, refs[0], result), refs[1..])
  {
    var r := refs[0];
    HeadIsRendering(jobs, refs);
    hide Coherent, MarkWritten, OnlyAt, AreRendering;
    if jobs[r.job].purged {
      TailIsRendering(jobs, refs);
    } else {
      MarkWrittenKeepsCoherent(jobs[r.job], r.pos, result.duration, result.audio);
      HeadIsDone(jobs, refs, MarkWritten(jobs[r.job], r.pos, result.duration, result.audio));
    }
  }

  lemma {:induction false} MarkAllMakesRendering(jobs: seq<Job>, marked: seq<Ref>, refs: seq<Ref>)
    requires AllCoherent(jobs) && AreRendering(jobs, marked) && ArePlanned(jobs, refs) && DistinctRefs(marked + refs)
    ensures AllCoherent(MarkAllRendering(jobs, refs)) && AreRendering(MarkAllRendering(jobs, refs), marked + refs)
    decreases |refs|
  {
    if refs == [] {
      assert marked + refs == marked;
    } else {
      var r := refs[0];
      HeadIsPlanned(jobs, refs);
      hide Coherent, MarkRendering, AreRendering, ArePlanned, OnlyAt, DistinctRefs;
      MarkRenderingKeepsCoherent(jobs[r.job], r.pos);
      assert (marked + [r]) + refs[1..] == marked + refs;
      MarkOneMore(jobs, marked, refs, MarkRendering(jobs[r.job], r.pos));
      MarkAllMakesRendering(jobs[r.job := MarkRendering(jobs[r.job], r.pos)], marked + [r], refs[1..]);
    }
  }

  lemma HeadIsPlanned(jobs: seq<Job>, refs: seq<Ref>)
    requires AllCoherent(jobs) && ArePlanned(jobs, refs) && refs != []
    ensures ValidRef(jobs, refs[0]) && ChunkOf(jobs, refs[0]).status.Planned? && Coherent(jobs[refs[0].job])
  {
  }

  lemma MarkOneMore(jobs: seq<Job>, marked: seq<Ref>, refs: seq<Ref>, job: Job)
    requires AllCoherent(jobs) && AreRendering(jobs, marked) && ArePlanned(jobs, refs) && refs != []
    requires DistinctRefs(marked + refs) && ValidRef(jobs, refs[0])
    requires Coherent(job) && OnlyAt(jobs[refs[0].job], job, refs[0].pos) && job.chunks[refs[0].pos].status.Rendering?
    ensures
      var next := jobs[refs[0].job := job];
      && AllCoherent(next) && AreRendering(next, marked + [refs[0]]) && ArePlanned(next, refs[1..])
      && DistinctRefs((marked + [refs[0]]) + refs[1..])
  {
    hide Coherent;
    var r := refs[0];
    var next := jobs[r.job := job];
    assert (marked + [r]) + refs[1..] == marked + refs;
    DistinctPrefix(marked, refs);
    DistinctPrefix(marked + [r], refs[1..]);
    forall k | 0 <= k < |marked| + 1
      ensures ValidRef(next, (marked + [r])[k]) && ChunkOf(next, (marked + [r])[k]).status.Rendering?
    {
      if k < |marked| { assert ValidRef(jobs, marked[k]) && marked[k] != refs[0]; }
    }
    forall k | 0 <= k < |refs| - 1
      ensures ValidRef(next, refs[1..][k]) && ChunkOf(next, refs[1..][k]).status.Planned?
    {
      assert refs[1..][k] == refs[k + 1] && (marked + [r])[|marked|] == r;
      assert ValidRef(jobs, refs[k + 1]);
    }
  }

  // ---- commands ----

  lemma CommandKeepsCoherent(s: System, step: Step, j: nat)
    requires AllCoherent(s.jobs) && !IsTick(step) && j < |s.jobs|
    ensures j < |Command(s, step).jobs| && LeavesInFlightAlone(s.jobs[j], Command(s, step).jobs[j])
    ensures Coherent(Command(s, step).jobs[j])
  {
    hide Coherent, SetVoice, SetActiveVersion, ReprocessChunk, TakePosition, LeavesInFlightAlone;
    var job := s.jobs[j];
    UnchangedLeavesInFlightAlone(job);
    if IsListenerCommand(step) {
      ListenerCommandKeepsCoherent(s, step, j);
    } else if Targets(step, j) {
      match step
      case ChangeVoice(_, voice, rerender) =>
        SetVoiceKeepsCoherent(job, voice, rerender);
        SetVoiceFrame(job, voice, rerender);
      case Reprocess(_, i, t, v) =>
        ReprocessKeepsCoherent(job, i, t, v);
        ReprocessFrame(job, i, t, v);
      case SwitchTake(_, i, v) =>
        if TakePosition(job.chunks, i, v).Some? {
          SwitchKeepsCoherent(job, i, v);
          SwitchFrame(job, i, v);
        }
      case _ =>
        ListenerCommandsKeepCoherent(job, 0.0, 0.0, false);
        FlagsFrame(job);
    }
  }

  lemma ListenerCommandKeepsCoherent(s: System, step: Step, j: nat)
    requires AllCoherent(s.jobs) && IsListenerCommand(step) && j < |s.jobs|
    ensures j < |Command(s, step).jobs| && LeavesInFlightAlone(s.jobs[j], Command(s, step).jobs[j])
    ensures Coherent(Command(s, step).jobs[j])
  {
    hide Coherent, Max;
    var job := s.jobs[j];
    match step
    case Activate(_, now) => ListenerCommandsKeepCoherent(job, now, 0.0, false);
    case Pause(_, now) => ListenerCommandsKeepCoherent(job, now, 0.0, false);
    case Resume(_) => ListenerCommandsKeepCoherent(job, 0.0, 0.0, false);
    case Playback(_, position, playing, now) => UpdatePlaybackKeepsCoherent(job, position, playing, now);
    case RenderToEnd(_, on) => ListenerCommandsKeepCoherent(job, 0.0, 0.0, on);
    case Reactivate(_) => ListenerCommandsKeepCoherent(job, 0.0, 0.0, false);
    case ExpireListeners(now, timeout) => ListenerCommandsKeepCoherent(job, now, timeout, false);
  }

  lemma FlagsFrame(job: Job)
    ensures forall t: bool :: LeavesInFlightAlone(job, job.(trashed := t))
    ensures LeavesInFlightAlone(job, job.(purged := true))
  {
  }

  lemma CommandStaysSteady(s: System, step: Step)
    requires Steady(s) && !IsTick(step)
    ensures Steady(Command(s, step))
  {
    hide Coherent, Command, LeavesInFlightAlone, PhaseHolds, AreRendering;
    var t := Command(s, step);
    CommandKeepsPhase(s, step);
    forall j: nat | j < |s.jobs|
      ensures j < |t.jobs| && LeavesInFlightAlone(s.jobs[j], t.jobs[j]) && Coherent(t.jobs[j])
    {
      CommandKeepsCoherent(s, step, j);
    }
    CreatedJobIsCoherent(s, step);
    PhaseStays(s, t.jobs);
  }

  lemma CreatedJobIsCoherent(s: System, step: Step)
    requires !IsTick(step)
    ensures forall j: nat :: |s.jobs| <= j < |Command(s, step).jobs| ==> Coherent(Command(s, step).jobs[j])
  {
    hide Coherent, NewJob, SetVoice, SetActiveVersion, ReprocessChunk, TakePosition;
    if step.Create? { NewJobIsCoherent(step.source, step.model, step.language, step.voice, step.now); }
  }

  lemma PhaseStays(s: System, jobs: seq<Job>)
    requires AreRendering(s.jobs, InFlight(s.phase)) && PhaseHolds(s.jobs, s.phase) && |s.jobs| <= |jobs|
    requires forall j: nat :: j < |s.jobs| ==> LeavesInFlightAlone(s.jobs[j], jobs[j])
    ensures AreRendering(jobs, InFlight(s.phase)) && PhaseHolds(jobs, s.phase)
  {
    hide LeavesInFlightAlone;
    forall r: Ref | ValidRef(s.jobs, r)
      ensures ValidRef(jobs, r) && ChunkOf(jobs, r).text == ChunkOf(s.jobs, r).text
      ensures ChunkOf(s.jobs, r).status.Planned? ==> ChunkOf(jobs, r).status.Planned?
      ensures ChunkOf(s.jobs, r).status.Rendering? ==>
        ChunkOf(jobs, r).status.Rendering? && ChunkOf(jobs, r).voice == ChunkOf(s.jobs, r).voice
    {
      RefStays(s.jobs, jobs, r);
    }
    var refs := InFlight(s.phase);
    assert forall k :: 0 <= k < |refs| ==> ValidRef(s.jobs, refs[k]);
    match s.phase
    case Idle =>
    case Ranked(ranked) => assert forall k :: 0 <= k < |ranked| ==> ValidRef(s.jobs, ranked[k]);
    case OnGpu(batch, spoken) =>
    case Landing(batch, results, done) =>
      forall k | done <= k < |results| ensures Speaks(jobs, batch[k], results[k].audio) {
        assert refs[k - done] == batch[k] && Speaks(s.jobs, batch[k], results[k].audio);
      }
  }

  lemma RefStays(a: seq<Job>, b: seq<Job>, r: Ref)
    requires ValidRef(a, r) && |a| <= |b| && LeavesInFlightAlone(a[r.job], b[r.job])
    ensures ValidRef(b, r) && ChunkOf(b, r).text == ChunkOf(a, r).text
    ensures ChunkOf(a, r).status.Planned? ==> ChunkOf(b, r).status.Planned?
    ensures ChunkOf(a, r).status.Rendering? ==>
      ChunkOf(b, r).status.Rendering? && ChunkOf(b, r).voice == ChunkOf(a, r).voice
  {
  }

  // ---- the steps of a tick ----

  lemma PlanAheadStaysSteady(s: System, j: nat, cfg: SchedulerConfig)
    requires Steady(s) && s.phase.Idle? && j < |s.jobs| && cfg.Valid()
    ensures Steady(On(s, j, EnsurePlanned(s.jobs[j], cfg)))
  {
    hide Coherent, PlanLoop;
    PlanLoopKeepsCoherent(s.jobs[j], cfg);
  }

  lemma RankStaysSteady(s: System)
    requires Steady(s) && s.phase.Idle?
    ensures Steady(Tick(s, Rank))
  {
    hide Coherent;
    var refs := RenderableRefs(s.jobs, |s.jobs|);
    forall k | 0 <= k < |refs| ensures ValidRef(s.jobs, refs[k]) && ChunkOf(s.jobs, refs[k]).status.Planned? {
      assert refs[k] in refs;
      RenderableRefsMembers(s.jobs, |s.jobs|, refs[k]);
    }
  }

  lemma DispatchStaysSteady(s: System, batch: seq<Ref>)
    requires Steady(s) && s.phase.Ranked? && CanDispatch(s.jobs, s.phase.refs, batch)
    ensures Steady(Tick(s, Dispatch(batch)))
  {
    hide Coherent, IsVisible, SameGroup, MarkAllRendering;
    DispatchedArePlanned(s, batch);
    assert [] + batch == batch;
    MarkAllMakesRendering(s.jobs, [], batch);
    SpokenIsOwn(s.jobs, batch, s.dispatches);
  }

  lemma DispatchedArePlanned(s: System, batch: seq<Ref>)
    requires Steady(s) && s.phase.Ranked? && CanDispatch(s.jobs, s.phase.refs, batch)
    ensures ArePlanned(s.jobs, batch) && DistinctRefs(batch)
  {
    hide Coherent, IsVisible, SameGroup;
    forall k | 0 <= k < |batch|
      ensures ValidRef(s.jobs, batch[k]) && ChunkOf(s.jobs, batch[k]).status.Planned?
    {
      var l :| 0 <= l < |s.phase.refs| && s.phase.refs[l] == batch[k];
    }
  }

  lemma SpokenIsOwn(jobs: seq<Job>, batch: seq<Ref>, dispatch: nat)
    requires ValidRefs(jobs, batch)
    ensures forall k :: 0 <= k < |batch| ==>
      Speaks(MarkAllRendering(jobs, batch), batch[k], Speak(jobs, batch, dispatch)[k])
  {
    MarkAllKeepsWords(jobs, batch);
    hide MarkAllRendering;
    forall k | 0 <= k < |batch|
      ensures Speaks(MarkAllRendering(jobs, batch), batch[k], Speak(jobs, batch, dispatch)[k])
    {
      assert ValidRef(jobs, batch[k]);
    }
  }

  lemma LandStaysSteady(s: System)
    requires Steady(s) && s.phase.Landing? && s.phase.done < |s.phase.results|
    ensures Steady(Tick(s, Land))
  {
    hide Coherent;
    var (batch, results, done) := (s.phase.batch, s.phase.results, s.phase.done);
    var refs := batch[done..];
    assert refs[0] == batch[done] && refs[1..] == batch[done + 1..];
    assert Speaks(s.jobs, batch[done], results[done].audio);
    HeadIsRendering(s.jobs, refs);
    LandOneKeepsCoherent(s.jobs, refs, results[done]);
    var next := LandOne(s.jobs, batch[done], results[done]);
    hide LandOne;
    forall k | done + 1 <= k < |results| ensures Speaks(next, batch[k], results[k].audio) {
      assert refs[k - done] == batch[k] && refs[0] != refs[k - done];
      LandingKeepsOthers(s.jobs, refs[0], refs[k - done], results[done]);
    }
  }

  lemma LandingKeepsOthers(jobs: seq<Job>, r: Ref, other: Ref, result: Rendered)
    requires AllCoherent(jobs) && ValidRef(jobs, r) && ValidRef(jobs, other) && other != r
    requires ChunkOf(jobs, r).status.Rendering? && Speaks(jobs, r, result.audio)
    ensures
      var next := LandOne(jobs, r, result);
      && ValidRef(next, other) && ChunkOf(next, other).text == ChunkOf(jobs, other).text
      && ChunkOf(next, other).voice == ChunkOf(jobs, other).voice
  {
    hide MarkWritten, Coherent;
    MarkWrittenKeepsCoherent(jobs[r.job], r.pos, result.duration, result.audio);
  }

  lemma ReturnResultsStaysSteady(s: System, durations: seq<real>)
    requires Steady(s) && s.phase.OnGpu? && 0 < |durations| <= |s.phase.spoken|
    ensures Steady(Tick(s, ReturnResults(durations)))
  {
    hide Coherent;
    var batch := s.phase.batch;
    assert batch[0..] == batch;
  }

  lemma TickStaysSteady(s: System, step: Step)
    requires Steady(s) && IsTick(step)
    ensures Steady(Tick(s, step))
  {
    hide Coherent, EnsurePlanned, CanDispatch, Speak, LandOne;
    match (step, s.phase)
    case (PlanAhead(j, cfg), Idle) => if Sees(s, j) && cfg.Valid() { PlanAheadStaysSteady(s, j, cfg); }
    case (Rank, Idle) => RankStaysSteady(s);
    case (Dispatch(batch), Ranked(refs)) =>
      if CanDispatch(s.jobs, refs, batch) { DispatchStaysSteady(s, batch); }
    case (ReturnResults(durations), OnGpu(_, spoken)) =>
      if 0 < |durations| <= |spoken| { ReturnResultsStaysSteady(s, durations); }
    case (ReturnFailure(error, maxAttempts), OnGpu(batch, _)) =>
      FailAllKeepsCoherent(s.jobs, batch, error, maxAttempts);
    case (ReturnVramError, OnGpu(batch, _)) => RequeueAllKeepsCoherent(s.jobs, batch);
    case (Land, Landing(_, results, done)) => if done < |results| { LandStaysSteady(s); }
    case (RequeueLeftovers, Landing(batch, results, done)) =>
      if done == |results| { RequeueAllKeepsCoherent(s.jobs, batch[done..]); }
    case _ =>
  }

  // ---- whole runs ----

  lemma NextStaysSteady(s: System, step: Step)
    requires Steady(s)
    ensures Steady(Next(s, step))
  {
    hide Steady, Tick, Command;
    if IsTick(step) { TickStaysSteady(s, step); } else { CommandStaysSteady(s, step); }
  }

  lemma {:induction false} RunStaysSteady(s: System, steps: seq<Step>)
    requires Steady(s)
    ensures Steady(Run(s, steps))
    decreases |steps|
  {
    hide Steady, Next;
    if steps != [] {
      NextStaysSteady(s, steps[0]);
      RunStaysSteady(Next(s, steps[0]), steps[1..]);
    }
  }

  /** Any interleaving of any commands with the steps of the scheduler. */
  lemma AfterAnyRun(steps: seq<Step>)
    ensures Steady(Run(Empty, steps))
  {
    assert Steady(Empty);
    hide Steady;
    RunStaysSteady(Empty, steps);
  }

  lemma JobAfterAnyRun(steps: seq<Step>, j: nat)
    requires j < |Run(Empty, steps).jobs|
    ensures Coherent(Run(Empty, steps).jobs[j])
  {
    AfterAnyRun(steps);
    hide Run, Coherent;
  }
}
