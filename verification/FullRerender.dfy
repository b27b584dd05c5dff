/** A full re-render (`set_voice` with `rerender_written`) leaves one consistent take of
    the whole job, even when a batch was in flight when it was asked for. */
module FullRerender {
  import opened Wrappers
  import opened Planner
  import opened JobModel
  import opened JobInvariants
  import opened Pipeline
  import opened PipelineSafety
  import opened AnyRun
  import opened TakeEffects
  import opened TakeLife
  import opened VoiceChanges

  /** A live take follows the current plan: written audio was dispatched at `since` or
      later, and whatever is under the current plan has the job's voice. */
  predicate FollowsPlan(job: Job, c: Chunk, since: nat) {
    !c.deprecated ==>
      && (c.planVersion == job.planVersion ==> c.voice == job.voice)
      && (c.status.Written? ==> c.planVersion == job.planVersion && c.segment.Some? &&
                                c.segment.value.dispatch >= since)
      && (c.status.Planned? || c.status.Failed? ==> c.planVersion == job.planVersion)
  }

  ghost predicate JobFollowsPlan(job: Job, since: nat) {
    forall p :: 0 <= p < |job.chunks| ==> FollowsPlan(job, job.chunks[p], since)
  }

  /** A result that will be kept for job `j` was dispatched at `since` or later. */
  predicate IsRecent(jobs: seq<Job>, j: nat, r: Ref, audio: Audio, since: nat) {
    ValidRef(jobs, r) && r.job == j && !IsSuperseded(jobs[j], ChunkOf(jobs, r)) && !ChunkOf(jobs, r).deprecated ==>
      audio.dispatch >= since
  }

  ghost predicate ResultsAreRecent(jobs: seq<Job>, phase: Phase, j: nat, since: nat) {
    match phase
    case OnGpu(batch, spoken) => |spoken| == |batch| && forall k :: 0 <= k < |batch| ==>
      IsRecent(jobs, j, batch[k], spoken[k], since)
    case Landing(batch, results, done) => |results| <= |batch| && forall k :: done <= k < |results| ==>
      IsRecent(jobs, j, batch[k], results[k].audio, since)
    case _ => true
  }

  ghost predicate Consistent(s: System, j: nat, since: nat) {
    && j < |s.jobs| && since <= s.dispatches
    && JobFollowsPlan(s.jobs[j], since) && ResultsAreRecent(s.jobs, s.phase, j, since)
  }

  /** The command makes the job consistent: nothing dispatched earlier will be kept. */
  lemma RerenderEstablishes(s: System, j: nat, voice: string)
    requires Steady(s) && Sees(s, j)
    ensures Consistent(Command(s, ChangeVoice(j, voice, true)), j, s.dispatches)
  {
    var r := SetVoice(s.jobs[j], voice, true);
    assert Coherent(s.jobs[j]);
    hide Steady, Coherent, SetVoice, ResultsAreRecent;
    RerenderStates(s.jobs[j], voice);
    NothingLateIsKept(s, j, r);
    hide JobFollowsPlan;
    assert Command(s, ChangeVoice(j, voice, true)) == s.(jobs := s.jobs[j := r]);
  }

  lemma NothingLateIsKept(s: System, j: nat, r: Job)
    requires Steady(s) && j < |s.jobs| && |r.chunks| == |s.jobs[j].chunks|
    requires forall p: nat :: p < |r.chunks| && s.jobs[j].chunks[p].status.Rendering? ==>
      r.chunks[p].deprecated || IsSuperseded(r, r.chunks[p])
    ensures ResultsAreRecent(s.jobs[j := r], s.phase, j, s.dispatches)
  {
    hide AllCoherent, AreRendering, IsRecent;
    var next := s.jobs[j := r];
    match s.phase
    case OnGpu(batch, spoken) =>
      forall k | 0 <= k < |batch| ensures IsRecent(next, j, batch[k], spoken[k], s.dispatches) {
        InFlightIsRendering(s, k);
        NothingLateIsRecent(s.jobs, j, r, batch[k], spoken[k], s.dispatches);
      }
    case Landing(batch, results, done) =>
      forall k | done <= k < |results| ensures IsRecent(next, j, batch[k], results[k].audio, s.dispatches) {
        assert InFlight(s.phase)[k - done] == batch[k];
        InFlightIsRendering(s, k - done);
        NothingLateIsRecent(s.jobs, j, r, batch[k], results[k].audio, s.dispatches);
      }
    case _ =>
  }

  lemma InFlightIsRendering(s: System, k: nat)
    requires Steady(s) && k < |InFlight(s.phase)|
    ensures ValidRef(s.jobs, InFlight(s.phase)[k]) && ChunkOf(s.jobs, InFlight(s.phase)[k]).status.Rendering?
  {
    hide AllCoherent;
  }

  lemma NothingLateIsRecent(jobs: seq<Job>, j: nat, r: Job, ref: Ref, audio: Audio, since: nat)
    requires j < |jobs| && ValidRef(jobs, ref) && ChunkOf(jobs, ref).status.Rendering? && |r.chunks| == |jobs[j].chunks|
    requires forall p: nat :: p < |r.chunks| && jobs[j].chunks[p].status.Rendering? ==>
      r.chunks[p].deprecated || IsSuperseded(r, r.chunks[p])
    ensures IsRecent(jobs[j := r], j, ref, audio, since)
  {
  }

  lemma RerenderStates(job: Job, voice: string)
    requires Coherent(job)
    ensures
      var r := SetVoice(job, voice, true);
      && (forall since: nat :: JobFollowsPlan(r, since))
      && |r.chunks| == |job.chunks|
      && forall p: nat :: p < |job.chunks| && job.chunks[p].status.Rendering? ==>
           r.chunks[p].deprecated || IsSuperseded(r, r.chunks[p])
  {
    VoiceChangeOnTakes(job, voice, true);
    hide StructureOf, DerivedFresh, SetVoice;
    var r := SetVoice(job, voice, true);
    forall p: nat, since: nat | p < |job.chunks|
      ensures FollowsPlan(r, r.chunks[p], since)
      ensures job.chunks[p].status.Rendering? ==> r.chunks[p].deprecated || IsSuperseded(r, r.chunks[p])
    {
      assert IsRecord(job.chunks[p], job.planVersion);
    }
  }

  /** The plan and the voice stand; no superseded take comes back. */
  ghost predicate SamePlan(a: Job, b: Job) {
    && b.voice == a.voice && b.planVersion == a.planVersion && |a.chunks| <= |b.chunks|
    && forall p :: 0 <= p < |a.chunks| ==>
         && (a.chunks[p].deprecated ==> b.chunks[p].deprecated)
         && b.chunks[p].planVersion == a.chunks[p].planVersion
  }

  lemma TakeFollowsPlan(step: Step, a: Job, b: Job, c: Chunk, d: Chunk, since: nat)
    requires FollowsPlan(a, c, since) && MayBecome(step, a, c, d)
    requires !step.Land? && !step.ChangeVoice? && !step.SwitchTake?
    requires b.voice == a.voice && b.planVersion == a.planVersion
    ensures FollowsPlan(b, d, since)
    ensures (c.deprecated ==> d.deprecated) && (!IsTick(step) ==> d.planVersion == c.planVersion)
  {
  }

  /** No quiet step but the arrival of a result can leave the plan. */
  lemma StepFollowsPlan(step: Step, j: nat, a: Job, b: Job, since: nat)
    requires JobFollowsPlan(a, since) && IsStepOf(step, j, a, b) && IsQuiet(step, j) && !step.Land?
    ensures JobFollowsPlan(b, since) && (!IsTick(step) ==> SamePlan(a, b))
  {
    if b != a {
      forall p | 0 <= p < |b.chunks|
        ensures FollowsPlan(b, b.chunks[p], since)
        ensures p < |a.chunks| ==> (a.chunks[p].deprecated ==> b.chunks[p].deprecated)
        ensures p < |a.chunks| && !IsTick(step) ==> b.chunks[p].planVersion == a.chunks[p].planVersion
      {
        if p < |a.chunks| {
          assert FollowsPlan(a, a.chunks[p], since) && MayBecome(step, a, a.chunks[p], b.chunks[p]);
          hide MayBecome, FollowsPlan, IsNew;
          TakeFollowsPlan(step, a, b, a.chunks[p], b.chunks[p], since);
        } else {
          assert IsNew(step, b, b.chunks[p]);
        }
      }
    }
  }

  lemma LandStaysConsistent(s: System, j: nat, since: nat)
    requires Steady(s) && Consistent(s, j, since)
    ensures Consistent(Tick(s, Land), j, since)
  {
    hide AllCoherent, JobFollowsPlan, PhaseHolds, IsRecent, ValidRef, ValidRefs, LandOne;
    if s.phase.Landing? && s.phase.done < |s.phase.results| && s.phase.done < |s.phase.batch| {
      var (batch, results, done) := (s.phase.batch, s.phase.results, s.phase.done);
      var r := batch[done];
      if ValidRef(s.jobs, r) {
        LandFollowsPlan(s.jobs, j, r, results[done], since);
        forall k | done + 1 <= k < |results|
          ensures IsRecent(LandOne(s.jobs, r, results[done]), j, batch[k], results[k].audio, since)
        {
          assert InFlight(s.phase)[0] == r && InFlight(s.phase)[k - done] == batch[k];
          LandKeepsRecent(s.jobs, r, results[done], batch[k], j, results[k].audio, since);
        }
      }
    }
  }

  lemma LandFollowsPlan(jobs: seq<Job>, j: nat, r: Ref, result: Rendered, since: nat)
    requires ValidRef(jobs, r) && j < |jobs| && JobFollowsPlan(jobs[j], since)
    requires IsRecent(jobs, j, r, result.audio, since)
    ensures |LandOne(jobs, r, result)| == |jobs| && JobFollowsPlan(LandOne(jobs, r, result)[j], since)
  {
    if r.job == j && !jobs[j].purged {
      var a, b := jobs[j], MarkWritten(jobs[j], r.pos, result.duration, result.audio);
      LandingOnTake(a, r.pos, result.duration, result.audio);
      hide MarkWritten;
      forall p | 0 <= p < |b.chunks| ensures FollowsPlan(b, b.chunks[p], since) {
        assert FollowsPlan(a, a.chunks[p], since);
      }
    }
  }

  lemma LandKeepsRecent(jobs: seq<Job>, r: Ref, result: Rendered, other: Ref, j: nat, audio: Audio, since: nat)
    requires ValidRef(jobs, r) && other != r && IsRecent(jobs, j, other, audio, since)
    ensures IsRecent(LandOne(jobs, r, result), j, other, audio, since)
  {
    hide LandOne;
    LandLeavesOthers(jobs, r, result, other);
  }

  lemma LandLeavesOthers(jobs: seq<Job>, r: Ref, result: Rendered, other: Ref)
    requires ValidRef(jobs, r) && other != r
    ensures |LandOne(jobs, r, result)| == |jobs|
    ensures ValidRef(LandOne(jobs, r, result), other) <==> ValidRef(jobs, other)
    ensures ValidRef(jobs, other) ==>
      var b := LandOne(jobs, r, result);
      && ChunkOf(b, other).planVersion == ChunkOf(jobs, other).planVersion
      && ChunkOf(b, other).deprecated == ChunkOf(jobs, other).deprecated
      && b[other.job].planVersion == jobs[other.job].planVersion
  {
    LandingOnTake(jobs[r.job], r.pos, result.duration, result.audio);
    hide MarkWritten, IsAfterLanding;
  }

  lemma TickStaysConsistent(s: System, step: Step, j: nat, since: nat)
    requires Steady(s) && IsTick(step) && Consistent(s, j, since)
    ensures Consistent(Tick(s, step), j, since)
  {
    if step.Land? {
      hide Steady, Consistent;
      if s.phase.Landing? { LandStaysConsistent(s, j, since); }
    } else {
      hide AllCoherent, JobFollowsPlan, EnsurePlanned, CanDispatch, Speaks, IsRecent, LandOne, IsStepOf;
      hide MarkAllRendering, FailAll, RequeueAll, RenderableRefs, Speak;
      NextIsStep(s, step, j);
      StepFollowsPlan(step, j, s.jobs[j], Tick(s, step).jobs[j], since);
      PhaseStaysRecent(s, step, j, since);
    }
  }

  /** A step other than the arrival of a result hands over no older audio. */
  lemma PhaseStaysRecent(s: System, step: Step, j: nat, since: nat)
    requires Steady(s) && IsTick(step) && !step.Land? && since <= s.dispatches
    requires ResultsAreRecent(s.jobs, s.phase, j, since)
    ensures ResultsAreRecent(Tick(s, step).jobs, Tick(s, step).phase, j, since)
    ensures since <= Tick(s, step).dispatches
  {
    hide AllCoherent, EnsurePlanned, CanDispatch, Speaks, LandOne, MarkAllRendering, FailAll, RequeueAll;
    hide RenderableRefs;
  }

  lemma QuietCommandStaysConsistent(s: System, step: Step, j: nat, since: nat)
    requires Steady(s) && !IsTick(step) && IsQuiet(step, j) && Consistent(s, j, since)
    ensures Consistent(Command(s, step), j, since)
  {
    hide AllCoherent, JobFollowsPlan, Command, IsQuiet, ResultsAreRecent, PhaseHolds, SamePlan, IsStepOf;
    NextIsStep(s, step, j);
    StepFollowsPlan(step, j, s.jobs[j], Command(s, step).jobs[j], since);
    CommandKeepsPhase(s, step);
    ResultsStayRecent(s.jobs, Command(s, step).jobs, s.phase, j, since);
  }

  lemma ResultsStayRecent(jobs: seq<Job>, next: seq<Job>, phase: Phase, j: nat, since: nat)
    requires ValidRefs(jobs, InFlight(phase)) && ResultsAreRecent(jobs, phase, j, since)
    requires j < |jobs| <= |next| && SamePlan(jobs[j], next[j])
    ensures ResultsAreRecent(next, phase, j, since)
  {
    hide SamePlan, IsRecent;
    assert forall k :: 0 <= k < |InFlight(phase)| ==> ValidRef(jobs, InFlight(phase)[k]);
    match phase
    case OnGpu(batch, spoken) =>
      forall k | 0 <= k < |batch| ensures IsRecent(next, j, batch[k], spoken[k], since) {
        ResultStaysRecent(jobs, next, j, batch[k], spoken[k], since);
      }
    case Landing(batch, results, done) =>
      forall k | done <= k < |results| ensures IsRecent(next, j, batch[k], results[k].audio, since) {
        assert InFlight(phase)[k - done] == batch[k];
        ResultStaysRecent(jobs, next, j, batch[k], results[k].audio, since);
      }
    case _ =>
  }

  lemma ResultStaysRecent(jobs: seq<Job>, next: seq<Job>, j: nat, r: Ref, audio: Audio, since: nat)
    requires ValidRef(jobs, r) && IsRecent(jobs, j, r, audio, since)
    requires j < |jobs| <= |next| && SamePlan(jobs[j], next[j])
    ensures IsRecent(next, j, r, audio, since)
  {
  }

  lemma {:induction false} RunStaysConsistent(s: System, steps: seq<Step>, j: nat, since: nat)
    requires Steady(s) && Consistent(s, j, since) && QuietRun(steps, j)
    ensures Consistent(Run(s, steps), j, since)
    decreases |steps|
  {
    hide Steady, Consistent, IsQuiet;
    if steps != [] {
      assert IsQuiet(steps[0], j);
      NextStaysSteady(s, steps[0]);
      if IsTick(steps[0]) {
        TickStaysConsistent(s, steps[0], j, since);
      } else {
        QuietCommandStaysConsistent(s, steps[0], j, since);
      }
      RunStaysConsistent(Next(s, steps[0]), steps[1..], j, since);
    }
  }

  /** Whatever happened `before`: after a full re-render, along any further run without
      another voice change or take switch on the job, each live written take has the job's
      voice, is under the current plan, and holds audio dispatched after the command. */
  lemma RerenderIsConsistent(before: seq<Step>, j: nat, voice: string, after: seq<Step>)
    requires Sees(Run(Empty, before), j) && QuietRun(after, j)
    ensures
      var s := Run(Empty, before);
      var t := Run(Next(s, ChangeVoice(j, voice, true)), after);
      && j < |t.jobs|
      && forall p :: 0 <= p < |t.jobs[j].chunks| ==>
           var c := t.jobs[j].chunks[p];
           !c.deprecated && c.status.Written? ==>
             && c.voice == t.jobs[j].voice == voice && c.planVersion == t.jobs[j].planVersion
             && c.segment.Some? && c.segment.value.dispatch >= s.dispatches
  {
    hide Run, Command, Steady;
    AfterAnyRun(before);
    var s := Run(Empty, before);
    RerenderEstablishes(s, j, voice);
    NextStaysSteady(s, ChangeVoice(j, voice, true));
    RunStaysConsistent(Next(s, ChangeVoice(j, voice, true)), after, j, s.dispatches);
    VoiceChangeTakesEffect(before, j, voice, true, after);
    var t := Run(Next(s, ChangeVoice(j, voice, true)), after);
    assert forall p :: 0 <= p < |t.jobs[j].chunks| ==> FollowsPlan(t.jobs[j], t.jobs[j].chunks[p], s.dispatches);
  }

  /** What chunk `p` is once its result has been handed over. */
  function StatusAfterLanding(job: Job, p: nat, duration: real, audio: Audio): ChunkStatus
    requires p < |job.chunks|
  {
    var b := MarkWritten(job, p, duration, audio);
    if p < |b.chunks| then b.chunks[p].status else Stale
  }

  /** The exception is a second, partial voice change before the batch is back. It pins the
      chunk to the newest plan, so the audio dispatched before both commands is kept. */
  lemma LateAudioIsKeptExactlyWhen(job: Job, p: nat, first: string, second: string, duration: real, audio: Audio)
    requires Coherent(job) && p < |job.chunks| && job.chunks[p].status.Rendering? && !job.chunks[p].deprecated
    ensures
      var rerendered := SetVoice(job, first, true);
      var revoiced := SetVoice(rerendered, second, false);
      && p < |job.chunks| == |rerendered.chunks| == |revoiced.chunks|
      && StatusAfterLanding(rerendered, p, duration, audio) == Planned
      && (StatusAfterLanding(revoiced, p, duration, audio) == Written <==> second != first)
  {
    hide Coherent, SetVoice, StatusAfterLanding, IsSuperseded;
    LateStates(job, p, first, second);
    var a := SetVoice(job, first, true);
    var b := SetVoice(a, second, false);
    LandedStatus(a, p, duration, audio);
    LandedStatus(b, p, duration, audio);
  }

  lemma LandedStatus(job: Job, p: nat, duration: real, audio: Audio)
    requires p < |job.chunks|
    ensures StatusAfterLanding(job, p, duration, audio) ==
      if IsSuperseded(job, job.chunks[p]) then Planned else Written
  {
    LandingOnTake(job, p, duration, audio);
    hide MarkWritten;
  }

  lemma LateStates(job: Job, p: nat, first: string, second: string)
    requires Coherent(job) && p < |job.chunks| && !job.chunks[p].deprecated
    requires job.chunks[p].status.Rendering?
    ensures
      var a := SetVoice(job, first, true);
      var b := SetVoice(a, second, false);
      && |a.chunks| == |b.chunks| == |job.chunks|
      && IsSuperseded(a, a.chunks[p]) && (IsSuperseded(b, b.chunks[p]) <==> second == first)
  {
    VoiceChangeOnTakes(job, first, true);
    var a := SetVoice(job, first, true);
    VoiceChangeOnTakes(a, second, false);
    hide StructureOf, DerivedFresh, SetVoice;
    assert IsRecord(job.chunks[p], job.planVersion);
    assert IsAfterVoiceChange(job.chunks[p], a.chunks[p], first, job.planVersion + 1, true);
    if second != first {
      assert IsAfterVoiceChange(a.chunks[p], SetVoice(a, second, false).chunks[p], second, a.planVersion + 1, false);
    }
  }
}
