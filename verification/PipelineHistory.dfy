/** What a take's address stands for, over a whole run. */
module PipelineHistory {
  import opened Wrappers
  import opened JobModel
  import opened Pipeline
  import opened AnyRun
  import opened TakeEffects
  import opened TakeLife

  ghost predicate SameRecording(a: Chunk, b: Chunk) {
    a.status.Written? ==> b.status.Written? && b.segment == a.segment && b.duration == a.duration
  }

  /** The audio epoch never goes back. While it stands still, a written take keeps its
      recording. Records are never removed or renumbered. */
  ghost predicate KeepsTakes(a: Job, b: Job) {
    && a.audioEpoch <= b.audioEpoch && |a.chunks| <= |b.chunks|
    && (forall p :: 0 <= p < |a.chunks| ==>
         b.chunks[p].index == a.chunks[p].index && b.chunks[p].version == a.chunks[p].version)
    && (a.audioEpoch == b.audioEpoch ==>
         forall p :: 0 <= p < |a.chunks| ==> SameRecording(a.chunks[p], b.chunks[p]))
  }

  ghost predicate AllKeepTakes(a: seq<Job>, b: seq<Job>) {
    |a| <= |b| && forall j :: 0 <= j < |a| ==> KeepsTakes(a[j], b[j])
  }

  lemma KeepsTakesTransitive(a: seq<Job>, b: seq<Job>, c: seq<Job>)
    requires AllKeepTakes(a, b) && AllKeepTakes(b, c)
    ensures AllKeepTakes(a, c)
  {
    forall j | 0 <= j < |a| ensures KeepsTakes(a[j], c[j]) {
      assert KeepsTakes(a[j], b[j]) && KeepsTakes(b[j], c[j]);
    }
  }

  /** A step that leaves the epoch alone leaves every recording alone. */
  lemma StepKeepsTakes(step: Step, j: nat, a: Job, b: Job)
    requires IsStepOf(step, j, a, b)
    ensures KeepsTakes(a, b)
  {
    forall p | 0 <= p < |a.chunks|
      ensures b.chunks[p].index == a.chunks[p].index && b.chunks[p].version == a.chunks[p].version
      ensures OpensEpoch(step) || SameRecording(a.chunks[p], b.chunks[p])
    {
      assert MayBecome(step, a, a.chunks[p], b.chunks[p]);
      hide IsStepOf;
    }
    hide IsStepOf, MayBecome;
    if b == a { KeepsItself(a); }
  }

  lemma {:induction false} RunKeepsTakes(s: System, steps: seq<Step>)
    requires Steady(s)
    ensures AllKeepTakes(s.jobs, Run(s, steps).jobs)
    decreases |steps|
  {
    hide Steady, KeepsTakes, IsStepOf, Next;
    if steps == [] {
      AllKeepThemselves(s.jobs);
    } else {
      var t := Next(s, steps[0]);
      NextStaysSteady(s, steps[0]);
      forall j: nat | j < |s.jobs| ensures j < |t.jobs| && KeepsTakes(s.jobs[j], t.jobs[j]) {
        NextIsStep(s, steps[0], j);
        StepKeepsTakes(steps[0], j, s.jobs[j], t.jobs[j]);
      }
      RunKeepsTakes(t, steps[1..]);
      if s.jobs != [] { NextIsStep(s, steps[0], |s.jobs| - 1); }
      KeepsTakesTransitive(s.jobs, t.jobs, Run(s, steps).jobs);
    }
  }

  lemma AllKeepThemselves(jobs: seq<Job>)
    ensures AllKeepTakes(jobs, jobs)
  {
    forall j | 0 <= j < |jobs| ensures KeepsTakes(jobs[j], jobs[j]) { KeepsItself(jobs[j]); }
  }

  lemma KeepsItself(job: Job)
    ensures KeepsTakes(job, job)
  {
  }

  /** A segment's address is its index, its version and the job's audio epoch. Over any run
      one address stands for one recording: in any two states of the run with the same
      epoch, a take that was written first is still written, with the same audio. */
  lemma AddressNamesOneRecording(before: seq<Step>, after: seq<Step>, j: nat, i: nat, v: nat)
    requires
      var a, b := Run(Empty, before).jobs, Run(Run(Empty, before), after).jobs;
      j < |a| && j < |b| && a[j].audioEpoch == b[j].audioEpoch && IsWrittenTake(a[j], i, v)
    ensures
      var a, b := Run(Empty, before).jobs[j].chunks, Run(Run(Empty, before), after).jobs[j].chunks;
      var at := TakePosition(b, i, v);
      at.Some? && SameRecording(a[TakePosition(a, i, v).value], b[at.value])
  {
    hide Run, Steady, TakePosition;
    AfterAnyRun(before);
    var s := Run(Empty, before);
    RunKeepsTakes(s, after);
    assert KeepsTakes(s.jobs[j], Run(s, after).jobs[j]);
    SameTakeSamePosition(s.jobs[j].chunks, Run(s, after).jobs[j].chunks, i, v);
  }

  predicate IsWrittenTake(job: Job, i: nat, v: nat) {
    var at := TakePosition(job.chunks, i, v);
    at.Some? && job.chunks[at.value].status.Written?
  }

  lemma SameTakeSamePosition(a: seq<Chunk>, b: seq<Chunk>, i: nat, v: nat)
    requires |a| <= |b| && TakePosition(a, i, v).Some?
    requires forall p :: 0 <= p < |a| ==> b[p].index == a[p].index && b[p].version == a[p].version
    ensures TakePosition(b, i, v) == TakePosition(a, i, v)
  {
    var p := TakePosition(a, i, v).value;
    assert b[p].index == i && b[p].version == v;
    var q := TakePosition(b, i, v).value;
    assert q <= p && a[q].index == b[q].index && a[q].version == b[q].version;
  }
}
