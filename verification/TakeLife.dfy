/** The life of a take: how it can change in one step of the pipeline, and what that means for
    the attempts spent on it and the number of takes, over any run. */
module TakeLife {
  import opened Wrappers
  import opened Planner
  import opened JobModel
  import opened JobInvariants
  import opened Pipeline
  import opened PipelineSafety
  import opened AnyRun
  import opened TakeEffects

  // ---- one after another ----

  lemma ThenKept(c: Chunk, d: Chunk, e: Chunk, job: Job, error: string, maxAttempts: nat)
    requires IsKept(d, e)
    ensures IsKept(c, d) ==> IsKept(c, e)
    ensures IsAfterReturn(c, d, job.voice, job.planVersion) ==> IsAfterReturn(c, e, job.voice, job.planVersion)
    ensures IsAfterFailure(c, d, job.voice, job.planVersion, error, maxAttempts) ==>
      IsAfterFailure(c, e, job.voice, job.planVersion, error, maxAttempts)
  {
  }

  lemma KeptThen(c: Chunk, d: Chunk, e: Chunk, job: Job, error: string, maxAttempts: nat)
    requires IsKept(c, d) && c.status.Rendering?
    ensures IsKept(d, e) ==> IsKept(c, e)
    ensures IsAfterReturn(d, e, job.voice, job.planVersion) ==> IsAfterReturn(c, e, job.voice, job.planVersion)
    ensures IsAfterFailure(d, e, job.voice, job.planVersion, error, maxAttempts) ==>
      IsAfterFailure(c, e, job.voice, job.planVersion, error, maxAttempts)
  {
  }

  /** Row by row the same job, with as many takes. */
  ghost predicate IsSameTable(a: seq<Job>, b: seq<Job>) {
    |a| == |b| && forall j :: 0 <= j < |a| ==> IsSameJob(a[j], b[j]) && |a[j].chunks| == |b[j].chunks|
  }

  /** Row `r.job` has one take dealt with, and nothing else changed. */
  ghost predicate OnlyRef(a: seq<Job>, b: seq<Job>, r: Ref) {
    && IsSameTable(a, b)
    && forall q: Ref :: ValidRef(a, q) && q != r ==> IsKept(ChunkOf(a, q), ChunkOf(b, q))
  }

  lemma OneRef(jobs: seq<Job>, r: Ref, job: Job)
    requires ValidRef(jobs, r) && OnlyTake(jobs[r.job], job, r.pos)
    ensures OnlyRef(jobs, jobs[r.job := job], r)
  {
  }

  lemma SameTableTransitive(a: seq<Job>, b: seq<Job>, c: seq<Job>)
    requires IsSameTable(a, b) && IsSameTable(b, c)
    ensures IsSameTable(a, c)
  {
  }

  lemma SameTableItself(jobs: seq<Job>)
    ensures IsSameTable(jobs, jobs)
  {
  }

  // ---- a batch, take by take ----

  lemma FailInOnTakes(jobs: seq<Job>, r: Ref, error: string, maxAttempts: nat)
    requires ValidRef(jobs, r)
    ensures
      var b := FailIn(jobs, r, error, maxAttempts);
      && OnlyRef(jobs, b, r)
      && var (c, d, job) := (ChunkOf(jobs, r), ChunkOf(b, r), jobs[r.job]);
         if job.purged then IsKept(c, d)
         else IsAfterFailure(c, d, job.voice, job.planVersion, error, maxAttempts)
  {
    FailureOnTake(jobs[r.job], r.pos, error, maxAttempts);
    hide FailOne;
    SameTableItself(jobs);
    if !jobs[r.job].purged { OneRef(jobs, r, FailOne(jobs[r.job], r.pos, error, maxAttempts)); }
  }

  /** A batch that is on the GPU: its takes are rendering, as far as their jobs exist. */
  ghost predicate AreOwned(jobs: seq<Job>, refs: seq<Ref>) {
    && ValidRefs(jobs, refs) && DistinctRefs(refs)
    && forall k :: 0 <= k < |refs| && !jobs[refs[k].job].purged ==> ChunkOf(jobs, refs[k]).status.Rendering?
  }

  lemma InvMeansOwned(jobs: seq<Job>, refs: seq<Ref>)
    requires JobsInv(jobs, refs)
    ensures AreOwned(jobs, refs)
  {
    hide StructureOf, DerivedFresh, CompletedIsSound;
    forall k | 0 <= k < |refs| && !jobs[refs[k].job].purged ensures ChunkOf(jobs, refs[k]).status.Rendering? {
      assert refs[k].pos in Flight(refs, refs[k].job);
      assert ValidRef(jobs, refs[k]);
    }
  }

  /** What a failed batch does to a take that it holds, and to any other. */
  ghost predicate FailedAt(a: seq<Job>, b: seq<Job>, refs: seq<Ref>, r: Ref, error: string, maxAttempts: nat)
    requires ValidRef(a, r)
  {
    && ValidRef(b, r)
    && var (c, d, job) := (ChunkOf(a, r), ChunkOf(b, r), a[r.job]);
       if r in refs && !job.purged then IsAfterFailure(c, d, job.voice, job.planVersion, error, maxAttempts)
       else IsKept(c, d)
  }

  /** The batch failed: each of its takes, unless its job was purged, is tried again or fails
      as its own budget says; every other take is kept. */
  lemma {:induction false} FailureOnBatch(jobs: seq<Job>, refs: seq<Ref>, error: string, maxAttempts: nat)
    requires AreOwned(jobs, refs)
    ensures IsSameTable(jobs, FailAll(jobs, refs, error, maxAttempts))
    ensures forall r: Ref :: ValidRef(jobs, r) ==>
      FailedAt(jobs, FailAll(jobs, refs, error, maxAttempts), refs, r, error, maxAttempts)
    decreases |refs|
  {
    hide IsSameJob, IsAfterFailure, IsKept;
    if refs == [] {
      SameTableItself(jobs);
      AllKept(jobs);
    } else {
      var next := FailIn(jobs, refs[0], error, maxAttempts);
      assert ValidRef(jobs, refs[0]);
      FailInOnTakes(jobs, refs[0], error, maxAttempts);
      hide FailIn;
      TailStaysOwned(jobs, next, refs);
      FailureOnBatch(next, refs[1..], error, maxAttempts);
      var last := FailAll(next, refs[1..], error, maxAttempts);
      SameTableTransitive(jobs, next, last);
      forall r: Ref | ValidRef(jobs, r) ensures FailedAt(jobs, last, refs, r, error, maxAttempts) {
        FailedThenRest(jobs, next, last, refs, r, error, maxAttempts);
      }
    }
  }

  lemma AllKept(jobs: seq<Job>)
    ensures forall r: Ref :: ValidRef(jobs, r) ==> IsKept(ChunkOf(jobs, r), ChunkOf(jobs, r))
  {
  }

  lemma TailStaysOwned(a: seq<Job>, b: seq<Job>, refs: seq<Ref>)
    requires AreOwned(a, refs) && refs != [] && OnlyRef(a, b, refs[0])
    ensures AreOwned(b, refs[1..])
  {
    SameTablePurges(a, b);
    forall k | 0 <= k < |refs| - 1
      ensures ValidRef(b, refs[1..][k])
      ensures !b[refs[1..][k].job].purged ==> ChunkOf(b, refs[1..][k]).status.Rendering?
    {
      assert refs[1..][k] == refs[k + 1] && refs[k + 1] != refs[0] && ValidRef(a, refs[k + 1]);
      assert IsKept(ChunkOf(a, refs[k + 1]), ChunkOf(b, refs[k + 1]));
    }
  }

  lemma FailedThenRest(a: seq<Job>, b: seq<Job>, c: seq<Job>, refs: seq<Ref>, r: Ref, error: string, maxAttempts: nat)
    requires AreOwned(a, refs) && refs != [] && ValidRef(a, r) && OnlyRef(a, b, refs[0]) && ValidRef(b, r)
    requires r == refs[0] ==> FailedAt(a, b, [r], r, error, maxAttempts)
    requires FailedAt(b, c, refs[1..], r, error, maxAttempts)
    ensures FailedAt(a, c, refs, r, error, maxAttempts)
  {
    assert refs == [refs[0]] + refs[1..];
    assert ValidRef(a, refs[0]) && IsSameJob(a[r.job], b[r.job]);
    var (x, y, z) := (ChunkOf(a, r), ChunkOf(b, r), ChunkOf(c, r));
    if r == refs[0] {
      assert r !in refs[1..];
      hide IsSameJob, IsKept, IsAfterFailure;
      ThenKept(x, y, z, a[r.job], error, maxAttempts);
    } else if r in refs[1..] && !a[r.job].purged {
      var k :| 0 <= k < |refs| - 1 && refs[1..][k] == r;
      assert refs[k + 1] == r && x.status.Rendering?;
      hide IsKept, IsAfterFailure;
      KeptThen(x, y, z, a[r.job], error, maxAttempts);
    } else {
      hide IsKept, IsAfterFailure;
      ThenKept(x, y, z, a[r.job], error, maxAttempts);
    }
  }

  /** Chunks are put back one by one up to the first purged job. */
  predicate IsReached(jobs: seq<Job>, refs: seq<Ref>, r: Ref)
    requires forall k :: 0 <= k < |refs| ==> refs[k].job < |jobs|
  {
    exists k :: 0 <= k < |refs| && refs[k] == r && forall l :: 0 <= l <= k ==> !jobs[refs[l].job].purged
  }

  ghost predicate ReturnedAt(a: seq<Job>, b: seq<Job>, refs: seq<Ref>, r: Ref)
    requires ValidRef(a, r) && forall k :: 0 <= k < |refs| ==> refs[k].job < |a|
  {
    && ValidRef(b, r)
    && var (c, d, job) := (ChunkOf(a, r), ChunkOf(b, r), a[r.job]);
       if IsReached(a, refs, r) then IsAfterReturn(c, d, job.voice, job.planVersion) else IsKept(c, d)
  }

  /** Chunks put back untouched: each that the loop reaches waits again, in its own voice or, if
      the plan moved on, in the job's; every other take is kept. */
  lemma {:induction false} ReturnOfBatch(jobs: seq<Job>, refs: seq<Ref>)
    requires AreOwned(jobs, refs)
    ensures forall k :: 0 <= k < |refs| ==> ValidRef(jobs, refs[k])
    ensures IsSameTable(jobs, RequeueAll(jobs, refs))
    ensures forall r: Ref :: ValidRef(jobs, r) ==> ReturnedAt(jobs, RequeueAll(jobs, refs), refs, r)
    decreases |refs|
  {
    hide IsSameJob, IsAfterReturn, IsKept;
    if refs == [] || jobs[refs[0].job].purged {
      SameTableItself(jobs);
      AllKept(jobs);
    } else {
      var r0 := refs[0];
      assert ValidRef(jobs, r0);
      ReturnOnTake(jobs[r0.job], r0.pos);
      OneRef(jobs, r0, MarkPlanned(jobs[r0.job], r0.pos));
      var next := jobs[r0.job := MarkPlanned(jobs[r0.job], r0.pos)];
      var last := RequeueAll(next, refs[1..]);
      assert RequeueAll(jobs, refs) == last;
      hide MarkPlanned, RequeueAll;
      TailStaysOwned(jobs, next, refs);
      ReturnOfBatch(next, refs[1..]);
      SameTableTransitive(jobs, next, last);
      forall r: Ref | ValidRef(jobs, r) ensures ReturnedAt(jobs, last, refs, r) {
        ReturnedThenRest(jobs, next, last, refs, r);
      }
    }
  }

  lemma ReachedThenRest(a: seq<Job>, b: seq<Job>, refs: seq<Ref>, r: Ref)
    requires |a| == |b| && forall k :: 0 <= k < |refs| ==> refs[k].job < |a|
    requires forall j :: 0 <= j < |a| ==> a[j].purged == b[j].purged
    requires refs != [] && DistinctRefs(refs) && !a[refs[0].job].purged
    ensures IsReached(a, refs, r) <==> r == refs[0] || IsReached(b, refs[1..], r)
    ensures r == refs[0] ==> !IsReached(b, refs[1..], r)
  {
    var rest := refs[1..];
    if IsReached(a, refs, r) && r != refs[0] {
      var k :| 0 <= k < |refs| && refs[k] == r && forall l :: 0 <= l <= k ==> !a[refs[l].job].purged;
      assert rest[k - 1] == r && forall l :: 0 <= l <= k - 1 ==> rest[l] == refs[l + 1];
    }
    if IsReached(b, rest, r) {
      var k :| 0 <= k < |rest| && rest[k] == r && forall l :: 0 <= l <= k ==> !b[rest[l].job].purged;
      assert refs[k + 1] == r && forall l :: 1 <= l <= k + 1 ==> refs[l] == rest[l - 1];
    }
  }

  lemma SameTablePurges(a: seq<Job>, b: seq<Job>)
    requires IsSameTable(a, b)
    ensures forall j :: 0 <= j < |a| ==> a[j].purged == b[j].purged
  {
  }

  lemma ReturnedThenRest(a: seq<Job>, b: seq<Job>, c: seq<Job>, refs: seq<Ref>, r: Ref)
    requires AreOwned(a, refs) && refs != [] && ValidRef(a, r) && OnlyRef(a, b, refs[0]) && ValidRef(b, r)
    requires !a[refs[0].job].purged
    requires r == refs[0] ==> IsAfterReturn(ChunkOf(a, r), ChunkOf(b, r), a[r.job].voice, a[r.job].planVersion)
    requires forall k :: 0 <= k < |refs| - 1 ==> refs[1..][k].job < |b|
    requires ReturnedAt(b, c, refs[1..], r)
    ensures forall k :: 0 <= k < |refs| ==> ValidRef(a, refs[k])
    ensures ReturnedAt(a, c, refs, r)
  {
    SameTablePurges(a, b);
    assert forall k :: 0 <= k < |refs| ==> ValidRef(a, refs[k]);
    ReachedThenRest(a, b, refs, r);
    assert IsSameJob(a[r.job], b[r.job]);
    var (x, y, z) := (ChunkOf(a, r), ChunkOf(b, r), ChunkOf(c, r));
    if r == refs[0] {
      hide IsSameJob, IsKept, IsAfterReturn, IsReached;
      ThenKept(x, y, z, a[r.job], "", 0);
    } else if IsReached(b, refs[1..], r) {
      var k :| 0 <= k < |refs| - 1 && refs[1..][k] == r && !b[refs[1..][k].job].purged;
      assert refs[k + 1] == r && x.status.Rendering?;
      hide IsKept, IsAfterReturn, IsReached;
      KeptThen(x, y, z, a[r.job], "", 0);
    } else {
      hide IsKept, IsAfterReturn, IsReached;
      ThenKept(x, y, z, a[r.job], "", 0);
    }
  }

  ghost predicate DispatchedAt(a: seq<Job>, b: seq<Job>, refs: seq<Ref>, r: Ref)
    requires ValidRef(a, r)
  {
    ValidRef(b, r) && ChunkOf(b, r) == if r in refs then ChunkOf(a, r).(status := Rendering) else ChunkOf(a, r)
  }

  /** Dispatching marks the takes of the batch and nothing else. */
  lemma {:induction false} DispatchOfBatch(jobs: seq<Job>, refs: seq<Ref>)
    requires ValidRefs(jobs, refs)
    ensures IsSameTable(jobs, MarkAllRendering(jobs, refs))
    ensures forall r: Ref :: ValidRef(jobs, r) ==> DispatchedAt(jobs, MarkAllRendering(jobs, refs), refs, r)
    decreases |refs|
  {
    if refs == [] {
      SameTableItself(jobs);
    } else {
      var r0 := refs[0];
      assert ValidRef(jobs, r0);
      var next := jobs[r0.job := MarkRendering(jobs[r0.job], r0.pos)];
      OneMarked(jobs, r0);
      var last := MarkAllRendering(next, refs[1..]);
      assert MarkAllRendering(jobs, refs) == last;
      hide MarkRendering, IsSameJob, MarkAllRendering, DispatchedAt;
      forall k | 0 <= k < |refs| - 1 ensures ValidRef(next, refs[1..][k]) {
        assert refs[1..][k] == refs[k + 1] && ValidRef(jobs, refs[k + 1]);
      }
      DispatchOfBatch(next, refs[1..]);
      SameTableTransitive(jobs, next, last);
      forall r: Ref | ValidRef(jobs, r) ensures DispatchedAt(jobs, last, refs, r) {
        DispatchedThenRest(jobs, next, last, refs, r);
      }
    }
  }

  lemma DispatchedThenRest(a: seq<Job>, b: seq<Job>, c: seq<Job>, refs: seq<Ref>, r: Ref)
    requires refs != [] && ValidRef(a, r) && ValidRef(b, r)
    requires DispatchedAt(a, b, [refs[0]], r) && DispatchedAt(b, c, refs[1..], r)
    ensures DispatchedAt(a, c, refs, r)
  {
    assert refs == [refs[0]] + refs[1..];
  }

  lemma OneMarked(jobs: seq<Job>, r0: Ref)
    requires ValidRef(jobs, r0)
    ensures
      var next := jobs[r0.job := MarkRendering(jobs[r0.job], r0.pos)];
      IsSameTable(jobs, next) && forall r: Ref :: ValidRef(jobs, r) ==> DispatchedAt(jobs, next, [r0], r)
  {
  }

  // ---- one step ----

  /** How a take may change in one step. */
  ghost predicate MayBecome(step: Step, job: Job, c: Chunk, d: Chunk) {
    match step
    case Dispatch(_) => d == c || (c.status.Planned? && d == c.(status := Rendering))
    case ReturnFailure(error, maxAttempts) =>
      IsKept(c, d) ||
      (c.status.Rendering? && IsAfterFailure(c, d, job.voice, job.planVersion, error, maxAttempts))
    case ReturnVramError => IsKept(c, d) || (c.status.Rendering? && IsAfterReturn(c, d, job.voice, job.planVersion))
    case RequeueLeftovers => IsKept(c, d) || (c.status.Rendering? && IsAfterReturn(c, d, job.voice, job.planVersion))
    case Land => IsKept(c, d) || (c.status.Rendering? && HasLanded(job, c, d))
    case ChangeVoice(_, voice, rerender) =>
      d == c || IsAfterVoiceChange(c, d, voice, job.planVersion + 1, rerender)
    case Reprocess(_, i, _, _) => d == c || IsSetAside(c, d, i)
    case SwitchTake(_, i, v) => d == c || IsAfterSwitch(c, d, i, v)
    case _ => d == c
  }

  ghost predicate HasLanded(job: Job, c: Chunk, d: Chunk) {
    exists duration: real, audio: Audio ::
      && audio.text == c.text && audio.voice == c.voice
      && IsAfterLanding(c, d, job.voice, job.planVersion, duration, audio)
  }

  /** A take that was not there before. */
  predicate IsNew(step: Step, job: Job, c: Chunk) {
    && IsUntried(c) && !c.deprecated && c.planVersion == job.planVersion && c.version <= 3
    && c.voice == if step.Reprocess? && step.newVoice.Some? then step.newVoice.value else job.voice
  }

  /** A step that makes what was recorded so far inaudible. */
  predicate OpensEpoch(step: Step) { (step.ChangeVoice? && step.rerender) || step.SwitchTake? }

  /** What one step may do to one job: its old takes change as they may, further ones are
      new, and only a change of voice moves voice and plan. */
  ghost predicate IsStepOf(step: Step, j: nat, a: Job, b: Job) {
    && |a.chunks| <= |b.chunks|
    && (forall p :: 0 <= p < |a.chunks| ==> MayBecome(step, a, a.chunks[p], b.chunks[p]))
    && (forall p :: |a.chunks| <= p < |b.chunks| ==> IsNew(step, b, b.chunks[p]))
    && ((b.voice == a.voice && b.planVersion == a.planVersion) ||
        (step.ChangeVoice? && step.job == j && b.voice == step.voice && b.planVersion == a.planVersion + 1))
    && (step.ChangeVoice? || step.Reprocess? || step.SwitchTake? ==> step.job == j || b == a)
    && b.audioEpoch == (if OpensEpoch(step) && b != a then a.audioEpoch + 1 else a.audioEpoch)
  }

  lemma SameTakesIsStep(step: Step, j: nat, a: Job, b: Job)
    requires b.chunks == a.chunks && b.voice == a.voice && b.planVersion == a.planVersion
    requires b.audioEpoch == a.audioEpoch
    requires step.ChangeVoice? || step.Reprocess? || step.SwitchTake? ==> b == a
    ensures IsStepOf(step, j, a, b)
  {
  }

  lemma VoiceChangeIsStep(job: Job, j: nat, voice: string, rerender: bool)
    ensures IsStepOf(ChangeVoice(j, voice, rerender), j, job, SetVoice(job, voice, rerender))
  {
    VoiceChangeOnTakes(job, voice, rerender);
    hide SetVoice, IsAfterVoiceChange;
  }

  lemma AddsTakeIsStep(job: Job, b: Job, j: nat, i: nat, newText: Option<string>, newVoice: Option<string>)
    requires AddsTake(job, b, i)
    requires forall p :: 0 <= p < |job.chunks| && job.chunks[p].index == i ==> job.chunks[p].version < 3
    requires b.chunks[|job.chunks|].voice == if newVoice.Some? then newVoice.value else job.voice
    ensures IsStepOf(Reprocess(j, i, newText, newVoice), j, job, b)
  {
    hide IsSetAside;
  }

  lemma ReprocessIsStep(job: Job, j: nat, i: nat, newText: Option<string>, newVoice: Option<string>)
    requires Coherent(job)
    ensures IsStepOf(Reprocess(j, i, newText, newVoice), j, job, ReprocessChunk(job, i, newText, newVoice))
  {
    var step := Reprocess(j, i, newText, newVoice);
    SameTakesIsStep(step, j, job, job);
    ReprocessAddsATake(job, i, newText, newVoice);
    hide ReprocessChunk, LivePosition, StructureOf, AddsTake, IsStepOf, AreRecords, DerivedFresh;
    var b := ReprocessChunk(job, i, newText, newVoice);
    if b != job { AddsTakeIsStep(job, b, j, i, newText, newVoice); }
  }

  lemma SwitchIsStep(job: Job, j: nat, i: nat, v: nat)
    ensures IsStepOf(SwitchTake(j, i, v), j, job, SetActiveVersion(job, i, v))
  {
    SwitchOnTakes(job, i, v);
    hide SetActiveVersion, IsAfterSwitch;
  }

  /** What the three commands that touch takes come to. */
  lemma TakeCommands(s: System, step: Step, j: nat)
    requires (step.ChangeVoice? || step.Reprocess? || step.SwitchTake?) && j < |s.jobs|
    ensures j < |Command(s, step).jobs|
    ensures
      var a, b := s.jobs[j], Command(s, step).jobs[j];
      || b == a
      || (step.job == j &&
          match step
          case ChangeVoice(_, voice, rerender) => b == SetVoice(a, voice, rerender)
          case Reprocess(_, i, newText, newVoice) => b == ReprocessChunk(a, i, newText, newVoice)
          case SwitchTake(_, i, v) => b == SetActiveVersion(a, i, v)
          case _ => false)
  {
    hide SetVoice, ReprocessChunk, SetActiveVersion, TakePosition;
  }

  lemma CommandIsStep(s: System, step: Step, j: nat)
    requires Steady(s) && !IsTick(step) && j < |s.jobs|
    ensures j < |Command(s, step).jobs| && IsStepOf(step, j, s.jobs[j], Command(s, step).jobs[j])
  {
    assert Coherent(s.jobs[j]);
    hide Steady, Command, SetVoice, ReprocessChunk, SetActiveVersion, IsStepOf, Coherent;
    SameTakesIsStep(step, j, s.jobs[j], s.jobs[j]);
    if step.ChangeVoice? || step.Reprocess? || step.SwitchTake? {
      TakeCommands(s, step, j);
      if step.ChangeVoice? { VoiceChangeIsStep(s.jobs[j], step.job, step.voice, step.rerender); }
      if step.Reprocess? { ReprocessIsStep(s.jobs[j], step.job, step.index, step.newText, step.newVoice); }
      if step.SwitchTake? { SwitchIsStep(s.jobs[j], step.job, step.index, step.version); }
    } else {
      OtherCommandsKeepTakes(s, step, j);
      SameTakesIsStep(step, j, s.jobs[j], Command(s, step).jobs[j]);
    }
  }

  lemma OtherCommandsKeepTakes(s: System, step: Step, j: nat)
    requires !IsTick(step) && !step.ChangeVoice? && !step.Reprocess? && !step.SwitchTake? && j < |s.jobs|
    ensures j < |Command(s, step).jobs|
    ensures
      var a, b := s.jobs[j], Command(s, step).jobs[j];
      && b.chunks == a.chunks && b.voice == a.voice && b.planVersion == a.planVersion
      && b.audioEpoch == a.audioEpoch
  {
  }

  /** Planning only ever adds takes: new ones, in the job's voice. */
  lemma {:induction false} PlanningAddsTakes(job: Job, cfg: SchedulerConfig)
    requires cfg.Valid()
    ensures
      var b := PlanLoop(job, cfg);
      && b.voice == job.voice && b.planVersion == job.planVersion && b.audioEpoch == job.audioEpoch
      && job.chunks <= b.chunks
      && forall p :: |job.chunks| <= p < |b.chunks| ==> IsNew(Rank, b, b.chunks[p])
    decreases Unplanned(job)
  {
    hide PlanNext, NeedsMorePlanning;
    if NeedsMorePlanning(job, cfg) {
      match PlanNext(job.text, job.cursor, cfg.planner) {
        case None => SettleFrame(job.(cursor := -1));
        case Some(plan) => PlanningAddsTakes(AddPlannedChunk(job, plan), cfg);
      }
    }
  }

  lemma PlanAheadIsStep(job: Job, k: nat, j: nat, cfg: SchedulerConfig)
    requires cfg.Valid()
    ensures IsStepOf(PlanAhead(k, cfg), j, job, EnsurePlanned(job, cfg))
  {
    PlanningAddsTakes(job, cfg);
    hide PlanLoop;
  }

  lemma SameJobIsStep(step: Step, j: nat, a: Job, b: Job)
    requires IsSameJob(a, b) && |b.chunks| == |a.chunks| && IsTick(step)
    requires forall p: nat :: p < |a.chunks| ==> MayBecome(step, a, a.chunks[p], b.chunks[p])
    ensures IsStepOf(step, j, a, b)
  {
    hide MayBecome;
  }

  predicate IsReturn(step: Step) { step.ReturnFailure? || step.ReturnVramError? || step.RequeueLeftovers? }

  lemma ComesBack(step: Step, job: Job, c: Chunk, d: Chunk)
    requires IsReturn(step)
    requires IsKept(c, d) || c.status.Rendering?
    requires IsKept(c, d) ||
      if step.ReturnFailure? then
        IsAfterFailure(c, d, job.voice, job.planVersion, step.error, step.maxAttempts)
      else IsAfterReturn(c, d, job.voice, job.planVersion)
    ensures MayBecome(step, job, c, d)
  {
    hide IsKept, IsAfterFailure, IsAfterReturn;
  }

  lemma InBatchIsRendering(jobs: seq<Job>, batch: seq<Ref>, r: Ref)
    requires AreRendering(jobs, batch) && r in batch
    ensures ValidRef(jobs, r) && ChunkOf(jobs, r).status.Rendering?
  {
    var k :| 0 <= k < |batch| && batch[k] == r;
  }

  lemma DispatchOnTake(jobs: seq<Job>, batch: seq<Ref>, r: Ref)
    requires ArePlanned(jobs, batch) && ValidRef(jobs, r)
    ensures ValidRef(MarkAllRendering(jobs, batch), r)
    ensures MayBecome(Dispatch(batch), jobs[r.job], ChunkOf(jobs, r), ChunkOf(MarkAllRendering(jobs, batch), r))
  {
    DispatchOfBatch(jobs, batch);
    assert DispatchedAt(jobs, MarkAllRendering(jobs, batch), batch, r);
    if r in batch { InBatchIsPlanned(jobs, batch, r); }
    hide MarkAllRendering, IsSameTable, ArePlanned;
  }

  lemma InBatchIsPlanned(jobs: seq<Job>, batch: seq<Ref>, r: Ref)
    requires ArePlanned(jobs, batch) && r in batch
    ensures ValidRef(jobs, r) && ChunkOf(jobs, r).status.Planned?
  {
    var k :| 0 <= k < |batch| && batch[k] == r;
  }

  lemma DispatchIsStep(jobs: seq<Job>, batch: seq<Ref>, j: nat)
    requires ArePlanned(jobs, batch) && j < |jobs|
    ensures IsStepOf(Dispatch(batch), j, jobs[j], MarkAllRendering(jobs, batch)[j])
  {
    DispatchOfBatch(jobs, batch);
    var b := MarkAllRendering(jobs, batch);
    hide MarkAllRendering, MayBecome, IsSameJob, DispatchedAt;
    forall p: nat | p < |jobs[j].chunks|
      ensures MayBecome(Dispatch(batch), jobs[j], jobs[j].chunks[p], b[j].chunks[p])
    {
      DispatchOnTake(jobs, batch, Ref(j, p));
    }
    SameJobIsStep(Dispatch(batch), j, jobs[j], b[j]);
  }

  lemma FailureOnOne(jobs: seq<Job>, batch: seq<Ref>, error: string, maxAttempts: nat, r: Ref)
    requires AreRendering(jobs, batch) && ValidRef(jobs, r)
    ensures ValidRef(FailAll(jobs, batch, error, maxAttempts), r)
    ensures MayBecome(ReturnFailure(error, maxAttempts), jobs[r.job], ChunkOf(jobs, r),
                      ChunkOf(FailAll(jobs, batch, error, maxAttempts), r))
  {
    FailureOnBatch(jobs, batch, error, maxAttempts);
    var b := FailAll(jobs, batch, error, maxAttempts);
    assert FailedAt(jobs, b, batch, r, error, maxAttempts);
    hide FailAll, IsSameTable, IsAfterFailure, IsKept, MayBecome, AreRendering;
    if r in batch { InBatchIsRendering(jobs, batch, r); }
    ComesBack(ReturnFailure(error, maxAttempts), jobs[r.job], ChunkOf(jobs, r), ChunkOf(b, r));
  }

  lemma FailureIsStep(jobs: seq<Job>, batch: seq<Ref>, error: string, maxAttempts: nat, j: nat)
    requires AreRendering(jobs, batch) && j < |jobs|
    ensures IsStepOf(ReturnFailure(error, maxAttempts), j, jobs[j], FailAll(jobs, batch, error, maxAttempts)[j])
  {
    FailureOnBatch(jobs, batch, error, maxAttempts);
    var step, b := ReturnFailure(error, maxAttempts), FailAll(jobs, batch, error, maxAttempts);
    hide FailAll, MayBecome, IsSameJob, FailedAt, AreRendering;
    forall p: nat | p < |jobs[j].chunks| ensures MayBecome(step, jobs[j], jobs[j].chunks[p], b[j].chunks[p]) {
      FailureOnOne(jobs, batch, error, maxAttempts, Ref(j, p));
    }
    SameJobIsStep(step, j, jobs[j], b[j]);
  }

  lemma ReturnOnOne(jobs: seq<Job>, batch: seq<Ref>, step: Step, r: Ref)
    requires AreRendering(jobs, batch) && ValidRef(jobs, r) && (step.ReturnVramError? || step.RequeueLeftovers?)
    ensures ValidRef(RequeueAll(jobs, batch), r)
    ensures MayBecome(step, jobs[r.job], ChunkOf(jobs, r), ChunkOf(RequeueAll(jobs, batch), r))
  {
    ReturnOfBatch(jobs, batch);
    var b := RequeueAll(jobs, batch);
    assert ReturnedAt(jobs, b, batch, r);
    assert IsReached(jobs, batch, r) ==> r in batch;
    hide RequeueAll, IsSameTable, IsAfterReturn, IsKept, MayBecome, AreRendering, IsReached;
    if r in batch { InBatchIsRendering(jobs, batch, r); }
    ComesBack(step, jobs[r.job], ChunkOf(jobs, r), ChunkOf(b, r));
  }

  lemma ReturnIsStep(jobs: seq<Job>, batch: seq<Ref>, step: Step, j: nat)
    requires AreRendering(jobs, batch) && j < |jobs| && (step.ReturnVramError? || step.RequeueLeftovers?)
    ensures IsStepOf(step, j, jobs[j], RequeueAll(jobs, batch)[j])
  {
    ReturnOfBatch(jobs, batch);
    var b := RequeueAll(jobs, batch);
    hide RequeueAll, MayBecome, IsSameJob, ReturnedAt, AreRendering;
    forall p: nat | p < |jobs[j].chunks| ensures MayBecome(step, jobs[j], jobs[j].chunks[p], b[j].chunks[p]) {
      ReturnOnOne(jobs, batch, step, Ref(j, p));
    }
    SameJobIsStep(step, j, jobs[j], b[j]);
  }

  lemma LandIsStep(jobs: seq<Job>, r: Ref, result: Rendered, j: nat)
    requires ValidRef(jobs, r) && ChunkOf(jobs, r).status.Rendering? && Speaks(jobs, r, result.audio) && j < |jobs|
    ensures |LandOne(jobs, r, result)| == |jobs| && IsStepOf(Land, j, jobs[j], LandOne(jobs, r, result)[j])
  {
    LandingOnTake(jobs[r.job], r.pos, result.duration, result.audio);
    hide MarkWritten, IsAfterLanding;
    SameTakesIsStep(Land, j, jobs[j], jobs[j]);
  }

  lemma TickIsStep(s: System, step: Step, j: nat)
    requires Steady(s) && IsTick(step) && j < |s.jobs|
    ensures j < |Tick(s, step).jobs| && IsStepOf(step, j, s.jobs[j], Tick(s, step).jobs[j])
  {
    SameTakesIsStep(step, j, s.jobs[j], s.jobs[j]);
    hide AllCoherent, IsStepOf, EnsurePlanned, CanDispatch, Speak, LandOne, Speaks;
    hide MarkAllRendering, FailAll, RequeueAll;
    match (step, s.phase)
    case (PlanAhead(k, cfg), Idle) =>
      if Sees(s, k) && cfg.Valid() && k == j { PlanAheadIsStep(s.jobs[j], k, j, cfg); }
    case (Dispatch(batch), Ranked(refs)) =>
      if CanDispatch(s.jobs, refs, batch) {
        DispatchedArePlanned(s, batch);
        DispatchIsStep(s.jobs, batch, j);
      }
    case (ReturnFailure(error, maxAttempts), OnGpu(batch, _)) => FailureIsStep(s.jobs, batch, error, maxAttempts, j);
    case (ReturnVramError, OnGpu(batch, _)) => ReturnIsStep(s.jobs, batch, step, j);
    case (Land, Landing(batch, results, done)) =>
      if done < |results| {
        assert batch[done..][0] == batch[done] && Speaks(s.jobs, batch[done], results[done].audio);
        LandIsStep(s.jobs, batch[done], results[done], j);
      }
    case (RequeueLeftovers, Landing(batch, results, done)) =>
      if done == |results| { ReturnIsStep(s.jobs, batch[done..], step, j); }
    case _ =>
  }

  /** After any run, in any further step, a take changes only as it may: its text, its span, its
      index and its version never change, only a waiting take is dispatched, only a take that
      is rendering comes back, and only the user's commands touch any other. */
  lemma TakesChangeOnlySo(before: seq<Step>, step: Step, j: nat)
    requires j < |Run(Empty, before).jobs|
    ensures
      var s := Run(Empty, before);
      j < |Next(s, step).jobs| && IsStepOf(step, j, s.jobs[j], Next(s, step).jobs[j])
  {
    AfterAnyRun(before);
    NextIsStep(Run(Empty, before), step, j);
  }

  lemma NextIsStep(s: System, step: Step, j: nat)
    requires Steady(s) && j < |s.jobs|
    ensures j < |Next(s, step).jobs| && IsStepOf(step, j, s.jobs[j], Next(s, step).jobs[j])
  {
    hide Steady, IsStepOf, Tick, Command;
    if IsTick(step) { TickIsStep(s, step, j); } else { CommandIsStep(s, step, j); }
  }

  // ---- what the attempts say, and how many takes there are ----

  /** The attempts counted on a take are within the budget, and a failed take has spent it. */
  predicate IsWithin(c: Chunk, budget: Option<nat>) {
    && c.version <= 3
    && (budget.Some? ==>
         && (c.attempts == 0 || c.attempts < budget.value)
         && (c.status.Failed? ==> c.attempts + 1 >= budget.value))
  }

  ghost predicate AllWithin(job: Job, budget: Option<nat>) {
    forall p :: 0 <= p < |job.chunks| ==> IsWithin(job.chunks[p], budget)
  }

  /** Failures are counted against one budget, if any. */
  predicate UsesBudget(step: Step, budget: Option<nat>) {
    budget.Some? && step.ReturnFailure? ==> step.maxAttempts == budget.value
  }

  lemma TakeStaysWithin(step: Step, job: Job, c: Chunk, d: Chunk, budget: Option<nat>)
    requires IsWithin(c, budget) && MayBecome(step, job, c, d) && UsesBudget(step, budget)
    ensures IsWithin(d, budget)
  {
    if step.Land? && !IsKept(c, d) {
      var duration: real, audio: Audio :| IsAfterLanding(c, d, job.voice, job.planVersion, duration, audio);
    }
  }

  lemma StepStaysWithin(step: Step, j: nat, a: Job, b: Job, budget: Option<nat>)
    requires AllWithin(a, budget) && IsStepOf(step, j, a, b) && UsesBudget(step, budget)
    ensures AllWithin(b, budget)
  {
    forall p | 0 <= p < |b.chunks| ensures IsWithin(b.chunks[p], budget) {
      if p < |a.chunks| {
        hide IsWithin, UsesBudget;
        TakeStaysWithin(step, a, a.chunks[p], b.chunks[p], budget);
      } else {
        assert IsNew(step, b, b.chunks[p]);
      }
    }
  }

  lemma NewRowsAreEmpty(s: System, step: Step)
    requires Steady(s)
    ensures forall j: nat :: |s.jobs| <= j < |Next(s, step).jobs| ==> Next(s, step).jobs[j].chunks == []
  {
    hide Steady, TakePosition, SetVoice, ReprocessChunk, SetActiveVersion;
    if IsTick(step) { TickKeepsRows(s, step); }
  }

  lemma TickKeepsRows(s: System, step: Step)
    requires IsTick(step)
    ensures |Tick(s, step).jobs| == |s.jobs|
  {
    hide CanDispatch, EnsurePlanned, Speak, IsVisible, MarkWritten, RenderableRefs, Package;
  }

  lemma {:induction false} RunStaysWithin(s: System, steps: seq<Step>, budget: Option<nat>)
    requires Steady(s) && forall j :: 0 <= j < |s.jobs| ==> AllWithin(s.jobs[j], budget)
    requires forall k :: 0 <= k < |steps| ==> UsesBudget(steps[k], budget)
    ensures forall j :: 0 <= j < |Run(s, steps).jobs| ==> AllWithin(Run(s, steps).jobs[j], budget)
    decreases |steps|
  {
    if steps != [] {
      var t := Next(s, steps[0]);
      assert UsesBudget(steps[0], budget);
      NewRowsAreEmpty(s, steps[0]);
      hide Steady, Next, IsStepOf, IsWithin, UsesBudget;
      forall j: nat | j < |t.jobs| ensures AllWithin(t.jobs[j], budget) {
        if j < |s.jobs| {
          NextIsStep(s, steps[0], j);
          StepStaysWithin(steps[0], j, s.jobs[j], t.jobs[j], budget);
        }
      }
      NextStaysSteady(s, steps[0]);
      RunStaysWithin(t, steps[1..], budget);
    }
  }

  /** No take is given up early: over any run in which failed batches count against one budget
      of attempts, a take that failed has spent it, and no take has more attempts counted. */
  lemma FailedTakesAreSpent(steps: seq<Step>, maxAttempts: nat, j: nat, p: nat)
    requires maxAttempts >= 1
    requires forall k :: 0 <= k < |steps| && steps[k].ReturnFailure? ==> steps[k].maxAttempts == maxAttempts
    requires j < |Run(Empty, steps).jobs| && p < |Run(Empty, steps).jobs[j].chunks|
    ensures
      var c := Run(Empty, steps).jobs[j].chunks[p];
      c.attempts < maxAttempts && (c.status.Failed? ==> c.attempts + 1 == maxAttempts)
  {
    RunStaysWithin(Empty, steps, Some(maxAttempts));
    hide Run;
    assert AllWithin(Run(Empty, steps).jobs[j], Some(maxAttempts));
  }

  /** After any run an index has at most four takes. */
  lemma AtMostFourTakes(steps: seq<Step>, j: nat, i: nat)
    requires j < |Run(Empty, steps).jobs|
    ensures
      var chunks := Run(Empty, steps).jobs[j].chunks;
      |set p | 0 <= p < |chunks| && chunks[p].index == i| <= 4
  {
    RunStaysWithin(Empty, steps, None);
    JobAfterAnyRun(steps, j);
    hide Run, OneLiveTake, SpansTile, PlannedTakesSpeakTheText;
    var chunks := Run(Empty, steps).jobs[j].chunks;
    assert AllWithin(Run(Empty, steps).jobs[j], None);
    VersionsBound(chunks, i, 4);
    assert (set p | 0 <= p < |chunks| && chunks[p].index == i) ==
           (set p | 0 <= p < |chunks| && chunks[p].index == i && chunks[p].version < 4);
  }

  /** Told apart by their versions, as many takes as versions. */
  lemma {:induction false} VersionsBound(chunks: seq<Chunk>, i: nat, n: nat)
    requires UniqueTakes(chunks)
    ensures |set p | 0 <= p < |chunks| && chunks[p].index == i && chunks[p].version < n| <= n
  {
    var here := set p | 0 <= p < |chunks| && chunks[p].index == i && chunks[p].version < n;
    if n > 0 {
      VersionsBound(chunks, i, n - 1);
      var below := set p | 0 <= p < |chunks| && chunks[p].index == i && chunks[p].version < n - 1;
      if p :| p in here && chunks[p].version == n - 1 {
        assert here == below + {p};
      } else {
        assert here == below;
      }
    }
  }
}
