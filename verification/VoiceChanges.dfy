/** A change of voice over a whole run (`set_voice`): which takes speak in the new voice, and
    which keep the one they have. */
module VoiceChanges {
  import opened Wrappers
  import opened JobModel
  import opened Pipeline
  import opened AnyRun
  import opened TakeEffects
  import opened TakeLife

  /** Steps that leave the choice of voices on job `j` alone: everything the scheduler, the
      planner and playback do, any command on another job, and reprocessing in the job's voice. */
  predicate IsQuiet(step: Step, j: nat) {
    match step
    case ChangeVoice(k, _, _) => k != j
    case SwitchTake(k, _, _) => k != j
    case Reprocess(k, _, _, newVoice) => k != j || newVoice.None?
    case _ => true
  }

  predicate QuietRun(steps: seq<Step>, j: nat) { forall k :: 0 <= k < |steps| ==> IsQuiet(steps[k], j) }

  /** A live take has the voice it should have and cannot lose it: it is under the current plan,
      or written. One that is on the GPU under an older plan will come back to the job's voice. */
  predicate IsVoiced(job: Job, c: Chunk, voice: string) {
    !c.deprecated ==>
      || (c.voice == voice && (c.planVersion == job.planVersion || c.status.Written?))
      || (c.status.Rendering? && c.planVersion != job.planVersion && job.voice == voice)
  }

  /** Take `p` is to have voice `voices[p]`, and a later one the job's. */
  ghost predicate AllVoiced(job: Job, voices: seq<string>) {
    && |voices| <= |job.chunks|
    && forall p :: 0 <= p < |job.chunks| ==>
         IsVoiced(job, job.chunks[p], if p < |voices| then voices[p] else job.voice)
  }

  lemma TakeStaysVoiced(step: Step, a: Job, b: Job, c: Chunk, d: Chunk, voice: string)
    requires IsVoiced(a, c, voice) && MayBecome(step, a, c, d) && !step.ChangeVoice? && !step.SwitchTake?
    requires b.voice == a.voice && b.planVersion == a.planVersion
    ensures IsVoiced(b, d, voice)
  {
    if step.Land? && !IsKept(c, d) {
      var duration: real, audio: Audio :| IsAfterLanding(c, d, a.voice, a.planVersion, duration, audio);
    }
  }

  lemma StepStaysVoiced(step: Step, j: nat, a: Job, b: Job, voices: seq<string>)
    requires AllVoiced(a, voices) && IsStepOf(step, j, a, b) && IsQuiet(step, j)
    ensures AllVoiced(b, voices) && b.voice == a.voice
  {
    if b != a {
      forall p | 0 <= p < |b.chunks|
        ensures IsVoiced(b, b.chunks[p], if p < |voices| then voices[p] else b.voice)
      {
        if p < |a.chunks| {
          assert MayBecome(step, a, a.chunks[p], b.chunks[p]);
          hide MayBecome, IsVoiced, IsNew;
          TakeStaysVoiced(step, a, b, a.chunks[p], b.chunks[p], if p < |voices| then voices[p] else b.voice);
        } else {
          assert IsNew(step, b, b.chunks[p]);
        }
      }
    }
  }

  lemma {:induction false} RunStaysVoiced(s: System, steps: seq<Step>, j: nat, voices: seq<string>)
    requires Steady(s) && j < |s.jobs| && AllVoiced(s.jobs[j], voices) && QuietRun(steps, j)
    ensures j < |Run(s, steps).jobs| && AllVoiced(Run(s, steps).jobs[j], voices)
    ensures Run(s, steps).jobs[j].voice == s.jobs[j].voice
    decreases |steps|
  {
    hide Steady, AllVoiced, IsQuiet, IsStepOf, Next;
    if steps != [] {
      assert IsQuiet(steps[0], j);
      NextStaysSteady(s, steps[0]);
      NextIsStep(s, steps[0], j);
      StepStaysVoiced(steps[0], j, s.jobs[j], Next(s, steps[0]).jobs[j], voices);
      RunStaysVoiced(Next(s, steps[0]), steps[1..], j, voices);
    }
  }

  /** The voice a take has once a change to `voice` has taken effect: a partial change leaves
      what is written or on the GPU in the voice it has. */
  function VoiceAfter(c: Chunk, voice: string, rerender: bool): string {
    if !rerender && !c.deprecated && (c.status.Written? || c.status.Rendering?) then c.voice else voice
  }

  function VoicesAfter(chunks: seq<Chunk>, voice: string, rerender: bool): (r: seq<string>)
    ensures |r| == |chunks| && forall p :: 0 <= p < |r| ==> r[p] == VoiceAfter(chunks[p], voice, rerender)
  {
    seq(|chunks|, p requires 0 <= p < |chunks| => VoiceAfter(chunks[p], voice, rerender))
  }

  lemma ChangeIsVoiced(job: Job, voice: string, rerender: bool)
    requires Coherent(job) && (rerender || job.voice != voice)
    ensures AllVoiced(SetVoice(job, voice, rerender), VoicesAfter(job.chunks, voice, rerender))
    ensures SetVoice(job, voice, rerender).voice == voice
  {
    VoiceChangeOnTakes(job, voice, rerender);
    hide SetVoice;
    var b := SetVoice(job, voice, rerender);
    forall p | 0 <= p < |b.chunks| ensures IsVoiced(b, b.chunks[p], VoiceAfter(job.chunks[p], voice, rerender)) {
      assert IsRecord(job.chunks[p], job.planVersion);
    }
  }

  lemma CommandIsVoiced(s: System, j: nat, voice: string, rerender: bool)
    requires Steady(s) && Sees(s, j) && (rerender || s.jobs[j].voice != voice)
    ensures
      var t := Next(s, ChangeVoice(j, voice, rerender));
      && Steady(t) && j < |t.jobs| && t.jobs[j].voice == voice
      && AllVoiced(t.jobs[j], VoicesAfter(s.jobs[j].chunks, voice, rerender))
  {
    assert Coherent(s.jobs[j]);
    hide Steady, Coherent, SetVoice, AllVoiced;
    ChangeIsVoiced(s.jobs[j], voice, rerender);
    NextStaysSteady(s, ChangeVoice(j, voice, rerender));
    assert Next(s, ChangeVoice(j, voice, rerender)).jobs[j] == SetVoice(s.jobs[j], voice, rerender);
  }

  /** Whatever happened before: from a change of voice on, along any run without another one,
      a take switch or a reprocess in a voice of its own, every live take that is not on the
      GPU has the new voice, except what a partial change found written or on the GPU; that
      keeps the voice it had. Takes planned later have the new voice. */
  lemma VoiceChangeTakesEffect(before: seq<Step>, j: nat, voice: string, rerender: bool, after: seq<Step>)
    requires Sees(Run(Empty, before), j) && QuietRun(after, j)
    requires rerender || Run(Empty, before).jobs[j].voice != voice
    ensures
      var s := Run(Empty, before);
      var t := Run(Next(s, ChangeVoice(j, voice, rerender)), after);
      && j < |t.jobs| && t.jobs[j].voice == voice && |s.jobs[j].chunks| <= |t.jobs[j].chunks|
      && forall p :: 0 <= p < |t.jobs[j].chunks| ==>
           var c := t.jobs[j].chunks[p];
           !c.deprecated && !c.status.Rendering? ==>
             c.voice == if p < |s.jobs[j].chunks| then VoiceAfter(s.jobs[j].chunks[p], voice, rerender) else voice
  {
    AfterAnyRun(before);
    var s, step := Run(Empty, before), ChangeVoice(j, voice, rerender);
    CommandIsVoiced(s, j, voice, rerender);
    hide Run, Steady, AllVoiced, Next;
    var voices := VoicesAfter(s.jobs[j].chunks, voice, rerender);
    RunStaysVoiced(Next(s, step), after, j, voices);
    VoicedTakes(Run(Next(s, step), after).jobs[j], voices);
  }

  lemma VoicedTakes(job: Job, voices: seq<string>)
    requires AllVoiced(job, voices)
    ensures |voices| <= |job.chunks|
    ensures forall p :: 0 <= p < |job.chunks| && !job.chunks[p].deprecated && !job.chunks[p].status.Rendering? ==>
      job.chunks[p].voice == if p < |voices| then voices[p] else job.voice
  {
  }
}
