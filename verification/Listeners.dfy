/** What listeners do to their jobs, and what pausing means to the pipeline: nothing of a paused
    job is dispatched until somebody listens to it again or resumes it
    (server/app/jobs/manager.py, server/app/scheduler/service.py). */
module Listeners {
  import opened Wrappers
  import opened Planner
  import opened JobModel
  import opened JobInvariants
  import opened Pipeline
  import opened PipelineSafety
  import opened AnyRun
  import opened TakeEffects
  import opened TakeLife

  // ---- what a listener reports ----

  /** A listener is dropped exactly when it has been silent for longer than the timeout, and there
      is one; a playing job is then queued. Nothing else changes. */
  lemma ListenerExpiresExactlyWhen(job: Job, now: real, timeout: real)
    ensures
      var b := ExpireListener(job, now, timeout);
      && b == job.(listening := b.listening, status := b.status)
      && (b.listening <==> job.listening && (timeout <= 0.0 || now - job.lastEvent <= timeout))
      && b.status == (if job.listening && !b.listening && job.status.JobPlaying? then JobQueued else job.status)
  {
  }

  /** A report of playback on a job that is not finished: the position is noted, and with it how
      far anybody got and how many seconds are left before the first hole; playing marks the
      job as playing, unless it is paused. On a finished job only the listening is noted. */
  lemma PlaybackIsNoted(job: Job, position: real, playing: bool, now: real)
    ensures
      var b := UpdatePlayback(job, position, playing, now);
      && b.lastEvent == now && b.chunks == job.chunks && b.contiguous == job.contiguous
      && (job.status.JobCompleted? || job.status.JobFailed? ==>
           b == job.(listening := playing, lastEvent := now))
      && (!job.status.JobCompleted? && !job.status.JobFailed? ==>
           && b.currentTime == position && b.isPlaying == playing
           && b.completedSeconds >= position && b.completedSeconds >= job.completedSeconds
           && (b.completedSeconds == position || b.completedSeconds == job.completedSeconds)
           && b.buffered == (if job.contiguous > position then job.contiguous - position else 0.0)
           && (playing && !job.status.JobPaused? ==> b.listening && b.status.JobPlaying?)
           && (!playing || job.status.JobPaused? ==> b.listening == job.listening && b.status == job.status))
  {
  }

  /** The commands that end a pause. */
  predicate Wakes(step: Step, j: nat) { (step.Activate? || step.Resume?) && step.job == j }

  // ---- a paused job stays paused ----

  lemma SettleStaysPaused(job: Job)
    requires job.status.JobPaused?
    ensures SettleStatus(job).status.JobPaused? && SettleStatus(RefreshDerived(job)).status.JobPaused?
  {
    RefreshFrame(job);
    hide RefreshDerived, HasUnfinishedChunks;
  }

  lemma BatchStepsStayPaused(job: Job, p: nat, error: string, maxAttempts: nat, duration: real, audio: Audio)
    requires job.status.JobPaused? && p < |job.chunks|
    ensures MarkRendering(job, p).status.JobPaused? && MarkPlanned(job, p).status.JobPaused?
    ensures FailOne(job, p, error, maxAttempts).status.JobPaused?
    ensures MarkWritten(job, p, duration, audio).status.JobPaused?
  {
    var c := job.chunks[p];
    hide SettleStatus, RefreshDerived;
    SettleStaysPaused(Put(job, p, OrSuperseded(job, c.(status := Planned))));
    SettleStaysPaused(Put(job, p, OrSuperseded(job, Charged(c, error).(status := Planned))));
    SettleStaysPaused(Put(job, p, OrSuperseded(job, c.(status := Failed, error := Some(error)))));
    SettleStaysPaused(Put(job, p, c.(status := Written, duration := duration, segment := Some(audio), error := None)));
  }

  lemma TakeCommandsStayPaused(job: Job, voice: string, rerender: bool, i: nat, v: nat)
    requires job.status.JobPaused?
    ensures SetVoice(job, voice, rerender).status.JobPaused? && SetActiveVersion(job, i, v).status.JobPaused?
  {
    if rerender || job.voice != voice { VoiceChangeOnStatus(job, voice, rerender); }
    var j := ActivateVersion(job, i, v);
    SettleStaysPaused(j.(audioEpoch := j.audioEpoch + 1));
    hide SettleStatus, RefreshDerived, HasToRedo, Revoiced, AnyRequeued;
  }

  lemma ReprocessStaysPaused(job: Job, i: nat, newText: Option<string>, newVoice: Option<string>)
    requires job.status.JobPaused?
    ensures ReprocessChunk(job, i, newText, newVoice).status.JobPaused?
  {
    hide SettleStatus, RefreshDerived, LatestVersion, TakePosition;
    var at := ActiveTake(job, i);
    if at.Some? && LatestVersion(job.chunks, i) < 3 {
      var live := job.chunks[at.value];
      var text := if newText.Some? then newText.value else live.text;
      var voice := if newVoice.Some? then newVoice.value else job.voice;
      var c := VersionedChunk(job, text, live.charStart, live.charEnd, voice, i);
      SettleStaysPaused(ActivateVersion(ReactivateJob(job).(chunks := job.chunks + [c]), i, c.version));
    }
  }

  lemma CommandStaysPaused(s: System, step: Step, j: nat)
    requires !IsTick(step) && !Wakes(step, j) && j < |s.jobs| && s.jobs[j].status.JobPaused?
    ensures j < |Command(s, step).jobs| && Command(s, step).jobs[j].status.JobPaused?
  {
    if step.ChangeVoice? || step.Reprocess? || step.SwitchTake? {
      TakeCommands(s, step, j);
      hide Command, SetVoice, ReprocessChunk, SetActiveVersion;
      if step.ChangeVoice? { TakeCommandsStayPaused(s.jobs[j], step.voice, step.rerender, 0, 0); }
      if step.SwitchTake? { TakeCommandsStayPaused(s.jobs[j], "", true, step.index, step.version); }
      if step.Reprocess? { ReprocessStaysPaused(s.jobs[j], step.index, step.newText, step.newVoice); }
    }
  }

  lemma {:induction false} DispatchStaysPaused(jobs: seq<Job>, refs: seq<Ref>, j: nat)
    requires ValidRefs(jobs, refs) && j < |jobs| && jobs[j].status.JobPaused?
    ensures MarkAllRendering(jobs, refs)[j].status.JobPaused?
    decreases |refs|
  {
    if refs != [] {
      var r := refs[0];
      assert ValidRef(jobs, r);
      hide SettleStatus;
      DispatchStaysPaused(jobs[r.job := MarkRendering(jobs[r.job], r.pos)], refs[1..], j);
    }
  }

  lemma {:induction false} RequeueStaysPaused(jobs: seq<Job>, refs: seq<Ref>, j: nat)
    requires ValidRefs(jobs, refs) && j < |jobs| && jobs[j].status.JobPaused?
    ensures RequeueAll(jobs, refs)[j].status.JobPaused?
    decreases |refs|
  {
    if refs != [] && !jobs[refs[0].job].purged {
      var r := refs[0];
      assert ValidRef(jobs, r);
      ReturnOnTake(jobs[r.job], r.pos);
      if r.job == j { BatchStepsStayPaused(jobs[j], r.pos, "", 0, 0.0, Audio("", "", 0)); }
      hide MarkPlanned, IsSameJob, IsAfterReturn;
      RequeueStaysPaused(jobs[r.job := MarkPlanned(jobs[r.job], r.pos)], refs[1..], j);
    }
  }

  lemma {:induction false} FailureStaysPaused(jobs: seq<Job>, refs: seq<Ref>, j: nat, error: string, maxAttempts: nat)
    requires ValidRefs(jobs, refs) && j < |jobs| && jobs[j].status.JobPaused?
    ensures FailAll(jobs, refs, error, maxAttempts)[j].status.JobPaused?
    decreases |refs|
  {
    if refs != [] {
      var r := refs[0];
      assert ValidRef(jobs, r);
      if r.job == j { BatchStepsStayPaused(jobs[j], r.pos, error, maxAttempts, 0.0, Audio("", "", 0)); }
      hide FailOne;
      FailureStaysPaused(FailIn(jobs, r, error, maxAttempts), refs[1..], j, error, maxAttempts);
    }
  }

  lemma TickStaysPaused(s: System, step: Step, j: nat)
    requires Steady(s) && IsTick(step) && j < |s.jobs| && s.jobs[j].status.JobPaused?
    ensures j < |Tick(s, step).jobs| && Tick(s, step).jobs[j].status.JobPaused?
  {
    hide AllCoherent, PlanLoop, CanDispatch, Speak, Speaks, MarkWritten, MarkAllRendering, FailAll, RequeueAll;
    match (step, s.phase)
    case (Dispatch(batch), Ranked(refs)) =>
      if CanDispatch(s.jobs, refs, batch) {
        DispatchedArePlanned(s, batch);
        DispatchStaysPaused(s.jobs, batch, j);
      }
    case (ReturnFailure(error, maxAttempts), OnGpu(batch, _)) =>
      FailureStaysPaused(s.jobs, batch, j, error, maxAttempts);
    case (ReturnVramError, OnGpu(batch, _)) => RequeueStaysPaused(s.jobs, batch, j);
    case (Land, Landing(batch, results, done)) =>
      if done < |results| && ValidRef(s.jobs, batch[done]) && batch[done].job == j {
        BatchStepsStayPaused(s.jobs[j], batch[done].pos, "", 0, results[done].duration, results[done].audio);
      }
    case (RequeueLeftovers, Landing(batch, results, done)) =>
      if done == |results| { RequeueStaysPaused(s.jobs, batch[done..], j); }
    case _ =>
  }

  // ---- and nothing of it is dispatched ----

  /** Nothing of job `j` waits for being dispatched. */
  ghost predicate HoldsBack(phase: Phase, j: nat) {
    phase.Ranked? ==> forall k :: 0 <= k < |phase.refs| ==> phase.refs[k].job != j
  }

  /** Takes of job `j` that are rendering were so in `old`. */
  ghost predicate NoneStarted(before: seq<Chunk>, now: seq<Chunk>) {
    forall p :: 0 <= p < |now| && now[p].status.Rendering? ==> p < |before| && before[p].status.Rendering?
  }

  lemma StepStartsNothing(s: System, step: Step, j: nat)
    requires Steady(s) && j < |s.jobs| && HoldsBack(s.phase, j)
    ensures j < |Next(s, step).jobs| && NoneStarted(s.jobs[j].chunks, Next(s, step).jobs[j].chunks)
  {
    NextIsStep(s, step, j);
    var a, b := s.jobs[j], Next(s, step).jobs[j];
    assert forall p :: |a.chunks| <= p < |b.chunks| ==> IsNew(step, b, b.chunks[p]);
    if step.Dispatch? {
      DispatchStartsNothing(s, step.batch, j);
    } else {
      forall p | 0 <= p < |a.chunks| && b.chunks[p].status.Rendering? ensures a.chunks[p].status.Rendering? {
        assert MayBecome(step, a, a.chunks[p], b.chunks[p]);
        hide Steady, Next;
      }
    }
  }

  lemma DispatchStartsNothing(s: System, batch: seq<Ref>, j: nat)
    requires Steady(s) && j < |s.jobs| && HoldsBack(s.phase, j)
    ensures
      var t := Tick(s, Dispatch(batch));
      j < |t.jobs| && t.jobs[j].chunks == s.jobs[j].chunks
  {
    if s.phase.Ranked? && CanDispatch(s.jobs, s.phase.refs, batch) {
      DispatchedArePlanned(s, batch);
      BatchIsRanked(s.jobs, s.phase.refs, batch, j);
      hide Steady, CanDispatch, HoldsBack, MarkAllRendering, Speak;
      OthersAreLeft(s.jobs, batch, j);
    }
  }

  lemma BatchIsRanked(jobs: seq<Job>, refs: seq<Ref>, batch: seq<Ref>, j: nat)
    requires CanDispatch(jobs, refs, batch) && HoldsBack(Ranked(refs), j)
    ensures forall r :: r in batch ==> r.job != j
  {
    hide SameGroup, IsVisible;
    forall r | r in batch ensures r.job != j { assert r in refs; }
  }

  lemma OthersAreLeft(jobs: seq<Job>, batch: seq<Ref>, j: nat)
    requires ValidRefs(jobs, batch) && j < |jobs| && forall r :: r in batch ==> r.job != j
    ensures MarkAllRendering(jobs, batch)[j].chunks == jobs[j].chunks
  {
    DispatchOfBatch(jobs, batch);
    var b := MarkAllRendering(jobs, batch);
    hide MarkAllRendering, IsSameTable;
    forall p: nat | p < |jobs[j].chunks| ensures p < |b[j].chunks| && b[j].chunks[p] == jobs[j].chunks[p] {
      assert DispatchedAt(jobs, b, batch, Ref(j, p));
    }
  }

  lemma HoldingBackLasts(s: System, step: Step, j: nat)
    requires j < |s.jobs| && s.jobs[j].status.JobPaused? && HoldsBack(s.phase, j)
    ensures HoldsBack(Next(s, step).phase, j)
  {
    hide CanDispatch, Speak, EnsurePlanned, LandOne, MarkAllRendering, FailAll, RequeueAll, SetVoice;
    hide ReprocessChunk, SetActiveVersion, TakePosition;
    if step.Rank? && s.phase.Idle? {
      var refs := RenderableRefs(s.jobs, |s.jobs|);
      forall k | 0 <= k < |refs| ensures refs[k].job != j {
        assert refs[k] in refs;
        RenderableRefsMembers(s.jobs, |s.jobs|, refs[k]);
      }
    }
  }

  lemma {:induction false} RunStaysPaused(s: System, steps: seq<Step>, j: nat)
    requires Steady(s) && j < |s.jobs| && s.jobs[j].status.JobPaused? && HoldsBack(s.phase, j)
    requires forall k :: 0 <= k < |steps| ==> !Wakes(steps[k], j)
    ensures j < |Run(s, steps).jobs| && Run(s, steps).jobs[j].status.JobPaused?
    ensures NoneStarted(s.jobs[j].chunks, Run(s, steps).jobs[j].chunks)
    decreases |steps|
  {
    if steps != [] {
      var step, t := steps[0], Next(s, steps[0]);
      assert !Wakes(step, j);
      StepStartsNothing(s, step, j);
      HoldingBackLasts(s, step, j);
      if IsTick(step) { TickStaysPaused(s, step, j); } else { CommandStaysPaused(s, step, j); }
      NextStaysSteady(s, step);
      hide Steady, Next, Tick, Command, HoldsBack, Wakes;
      RunStaysPaused(t, steps[1..], j);
    }
  }

  /** Pausing a job that is not finished, when nothing of it is ranked: along any run in which
      nobody activates or resumes it, it stays paused and no take of it is dispatched. What is
      on the GPU at that moment may still come back. */
  lemma PausedJobsWait(before: seq<Step>, j: nat, now: real, after: seq<Step>)
    requires Sees(Run(Empty, before), j) && !IsTerminal(Run(Empty, before).jobs[j].status)
    requires HoldsBack(Run(Empty, before).phase, j)
    requires forall k :: 0 <= k < |after| ==> !Wakes(after[k], j)
    ensures
      var s := Run(Empty, before);
      var t := Run(Next(s, Pause(j, now)), after);
      && j < |t.jobs| && t.jobs[j].status.JobPaused? && NoneStarted(s.jobs[j].chunks, t.jobs[j].chunks)
  {
    AfterAnyRun(before);
    var s := Run(Empty, before);
    NextStaysSteady(s, Pause(j, now));
    var p := Next(s, Pause(j, now));
    assert p.jobs[j].status.JobPaused? && p.jobs[j].chunks == s.jobs[j].chunks && p.phase == s.phase;
    hide Run, Steady, Next, HoldsBack, Wakes;
    RunStaysPaused(p, after, j);
  }
}
