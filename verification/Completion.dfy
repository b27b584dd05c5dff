/** Left alone, the scheduler finishes: every round of a tick lowers a measure, and when
    nothing is left to render every job is completed. */
module Completion {
  import opened Wrappers
  import opened Planner
  import opened JobModel
  import opened JobInvariants
  import opened Pipeline
  import opened PipelineSafety

  // ---- the measure ----

  /** Attempts a live pending chunk still has ahead of it; there is always one. */
  function BudgetOf(c: Chunk, maxAttempts: nat): nat {
    if c.deprecated || !IsPending(c.status) then 0
    else if c.attempts < maxAttempts then maxAttempts - c.attempts
    else 1
  }

  function Budget(chunks: seq<Chunk>, maxAttempts: nat): nat {
    if chunks == [] then 0
    else Budget(chunks[..|chunks| - 1], maxAttempts) + BudgetOf(chunks[|chunks| - 1], maxAttempts)
  }

  predicate IsServed(job: Job) { IsVisible(job) && !job.status.JobPaused? }

  /** Every character left to plan weighs more than the chunk it can become. */
  function Weight(job: Job, cfg: SchedulerConfig): int {
    if IsServed(job) then (cfg.maxAttempts + 1) * Unplanned(job) + Budget(job.chunks, cfg.maxAttempts) else 0
  }

  function Total(jobs: seq<Job>, cfg: SchedulerConfig): int {
    if jobs == [] then 0 else Total(jobs[..|jobs| - 1], cfg) + Weight(jobs[|jobs| - 1], cfg)
  }

  lemma {:induction false} BudgetUpdate(chunks: seq<Chunk>, p: nat, c: Chunk, maxAttempts: nat)
    requires p < |chunks|
    ensures Budget(chunks[p := c], maxAttempts) ==
      Budget(chunks, maxAttempts) - BudgetOf(chunks[p], maxAttempts) + BudgetOf(c, maxAttempts)
    decreases |chunks|
  {
    var b, n := chunks[p := c], |chunks| - 1;
    if p < n {
      assert b[..n] == chunks[..n][p := c];
      BudgetUpdate(chunks[..n], p, c, maxAttempts);
    } else {
      assert b[..n] == chunks[..n];
    }
  }

  lemma {:induction false} BudgetIgnoresPlace(a: seq<Chunk>, b: seq<Chunk>, maxAttempts: nat)
    requires SameButPlace(a, b)
    ensures Budget(a, maxAttempts) == Budget(b, maxAttempts)
    decreases |a|
  {
    if a != [] {
      var n := |a| - 1;
      assert b[n] == a[n].(startSeconds := b[n].startSeconds);
      BudgetIgnoresPlace(a[..n], b[..n], maxAttempts);
    }
  }

  lemma {:induction false} TotalUpdate(jobs: seq<Job>, j: nat, job: Job, cfg: SchedulerConfig)
    requires j < |jobs|
    ensures Total(jobs[j := job], cfg) == Total(jobs, cfg) - Weight(jobs[j], cfg) + Weight(job, cfg)
    decreases |jobs|
  {
    hide Weight;
    var b, n := jobs[j := job], |jobs| - 1;
    if j < n {
      assert b[..n] == jobs[..n][j := job];
      TotalUpdate(jobs[..n], j, job, cfg);
    } else {
      assert b[..n] == jobs[..n];
    }
  }

  lemma WeightIsNat(job: Job, cfg: SchedulerConfig)
    requires Structure(job)
    ensures Weight(job, cfg) >= 0
  {
    hide UniqueTakes, OneLiveTake, PlannedTakesSpeakTheText;
    assert Unplanned(job) >= 0;
    assert (cfg.maxAttempts + 1) * Unplanned(job) >= 0;
  }

  lemma {:induction false} TotalIsNat(jobs: seq<Job>, cfg: SchedulerConfig)
    requires forall j :: 0 <= j < |jobs| ==> !jobs[j].purged ==> Structure(jobs[j])
    ensures Total(jobs, cfg) >= 0
    decreases |jobs|
  {
    if jobs != [] {
      var n := |jobs| - 1;
      assert forall j :: 0 <= j < n ==> jobs[..n][j] == jobs[j];
      TotalIsNat(jobs[..n], cfg);
      if !jobs[n].purged { WeightIsNat(jobs[n], cfg); }
    }
  }

  // ---- a job the user leaves alone ----

  /** Nothing left to plan and nothing left to render. */
  predicate IsFinished(job: Job) { Exhausted(job) && !HasUnfinishedChunks(job.chunks) }

  /** A job that is finished says so. Resuming a job that finished while it was paused is the
      one way to a finished job that does not. */
  predicate IsSettled(job: Job) { IsFinished(job) ==> job.status.JobCompleted? }

  predicate IsReady(c: Chunk, planVersion: nat) {
    !c.deprecated && IsPending(c.status) ==> c.planVersion == planVersion
  }

  /** Pending chunks are under the current plan, and no lookahead cap holds the job. */
  ghost predicate LeftAlone(job: Job, cfg: SchedulerConfig) {
    IsServed(job) ==>
      && !job.status.JobFailed? && (cfg.renderAhead <= 0.0 || job.renderToEnd)
      && forall p :: 0 <= p < |job.chunks| ==> IsReady(job.chunks[p], job.planVersion)
  }

  /** The jobs of `js` are served besides, and settled where `js` says so. */
  ghost predicate AllLeftAlone(jobs: seq<Job>, cfg: SchedulerConfig, js: map<nat, bool>) {
    forall j :: 0 <= j < |jobs| ==> LeftAlone(jobs[j], cfg) && (j in js ==> IsAsWatched(jobs[j], js[j]))
  }

  predicate IsAsWatched(job: Job, settled: bool) { IsServed(job) && (settled ==> IsSettled(job)) }

  // ---- planning ----

  lemma {:induction false} BudgetAppend(chunks: seq<Chunk>, c: Chunk, maxAttempts: nat)
    ensures Budget(chunks + [c], maxAttempts) == Budget(chunks, maxAttempts) + BudgetOf(c, maxAttempts)
  {
    assert (chunks + [c])[..|chunks|] == chunks;
  }

  lemma AddPlannedLowersWeight(job: Job, plan: ChunkPlan, cfg: SchedulerConfig)
    requires cfg.Valid() && IsServed(job) && PlanNext(job.text, job.cursor, cfg.planner) == Some(plan)
    ensures Weight(AddPlannedChunk(job, plan), cfg) < Weight(job, cfg)
  {
    hide PlanNext;
    var j := AddPlannedChunk(job, plan);
    BudgetAppend(job.chunks, PlannedChunk(job, plan), cfg.maxAttempts);
    hide Budget;
    var a := cfg.maxAttempts + 1;
    PlanAdvances(job, plan, cfg);
    assert Unplanned(j) <= Unplanned(job) - 1;
    assert a * Unplanned(j) <= a * (Unplanned(job) - 1) == a * Unplanned(job) - a;
  }

  lemma PlanAdvances(job: Job, plan: ChunkPlan, cfg: SchedulerConfig)
    requires cfg.Valid() && PlanNext(job.text, job.cursor, cfg.planner) == Some(plan)
    ensures 0 <= job.cursor < plan.charEnd <= |job.text|
  {
  }

  lemma AddPlannedStaysLeftAlone(job: Job, plan: ChunkPlan, cfg: SchedulerConfig)
    requires cfg.Valid() && LeftAlone(job, cfg) && IsServed(job) && !job.status.JobCompleted?
    ensures LeftAlone(AddPlannedChunk(job, plan), cfg)
    ensures HasUnfinishedChunks(AddPlannedChunk(job, plan).chunks)
  {
    var j := AddPlannedChunk(job, plan);
    assert UnfinishedAt(j.chunks, |job.chunks|);
    forall p | 0 <= p < |j.chunks| ensures IsReady(j.chunks[p], j.planVersion) {
      if p < |job.chunks| { assert IsReady(job.chunks[p], job.planVersion); }
    }
  }

  /** A job that is served has work, or is past planning. */
  predicate HasWorkOrDone(job: Job) {
    IsServed(job) ==> job.status.JobCompleted? || Exhausted(job) || HasUnfinishedChunks(job.chunks)
  }

  lemma {:induction false} PlannedAheadIsWork(chunks: seq<Chunk>, planVersion: nat)
    requires PlannedAhead(chunks, planVersion) > 0
    ensures HasUnfinishedChunks(chunks)
    decreases |chunks|
  {
    var n := |chunks| - 1;
    if CountsAsPlanned(chunks[n], planVersion) {
      assert UnfinishedAt(chunks, n);
    } else {
      PlannedAheadIsWork(chunks[..n], planVersion);
      var p :| 0 <= p < n && UnfinishedAt(chunks[..n], p);
      assert UnfinishedAt(chunks, p);
    }
  }

  /** Planning never raises the measure, and leaves work to dispatch or a completed job. */
  lemma {:induction false} PlanLoopMakesWork(job: Job, cfg: SchedulerConfig)
    requires cfg.Valid() && LeftAlone(job, cfg) && IsServed(job) && !job.status.JobCompleted?
    requires job.cursor <= |job.text|
    ensures
      var r := PlanLoop(job, cfg);
      && LeftAlone(r, cfg) && IsServed(r) && IsSettled(r) && Weight(r, cfg) <= Weight(job, cfg)
      && (r.status.JobCompleted? || HasUnfinishedChunks(r.chunks))
    decreases Unplanned(job)
  {
    hide PlanNext, HasUnfinishedChunks, Budget, PlannedAhead;
    if NeedsMorePlanning(job, cfg) {
      match PlanNext(job.text, job.cursor, cfg.planner) {
        case None =>
          assert (cfg.maxAttempts + 1) * Unplanned(job) >= 0 by { UnplannedIsNat(job, cfg); }
        case Some(plan) =>
          PlanAdvances(job, plan, cfg);
          AddPlannedLowersWeight(job, plan, cfg);
          AddPlannedStaysLeftAlone(job, plan, cfg);
          PlanLoopMakesWork(AddPlannedChunk(job, plan), cfg);
      }
    } else {
      PlannedAheadIsWork(job.chunks, job.planVersion);
    }
  }

  lemma UnplannedIsNat(job: Job, cfg: SchedulerConfig)
    requires job.cursor <= |job.text|
    ensures (cfg.maxAttempts + 1) * Unplanned(job) >= 0
  {
  }

  lemma EnsurePlannedMakesWork(job: Job, cfg: SchedulerConfig)
    requires cfg.Valid() && LeftAlone(job, cfg) && job.cursor <= |job.text| && IsVisible(job)
    ensures
      var r := EnsurePlanned(job, cfg);
      && LeftAlone(r, cfg) && Weight(r, cfg) <= Weight(job, cfg) && r.cursor <= |r.text|
      && IsServed(r) == IsServed(job) && (IsSettled(job) ==> IsSettled(r)) && HasWorkOrDone(r)
  {
    hide PlanLoop, Budget, HasUnfinishedChunks;
    if IsServed(job) && !job.status.JobCompleted? && !Exhausted(job) {
      PlanLoopMakesWork(job, cfg);
      PlanLoopKeepsFlags(job, cfg);
    }
  }

  lemma {:induction false} PlanLoopKeepsFlags(job: Job, cfg: SchedulerConfig)
    requires cfg.Valid() && job.cursor <= |job.text|
    ensures
      var r := PlanLoop(job, cfg);
      r.trashed == job.trashed && r.purged == job.purged && r.cursor <= |r.text|
    decreases Unplanned(job)
  {
    hide PlanNext, HasUnfinishedChunks, NeedsMorePlanning;
    if NeedsMorePlanning(job, cfg) {
      match PlanNext(job.text, job.cursor, cfg.planner) {
        case None =>
        case Some(plan) =>
          PlanAdvances(job, plan, cfg);
          PlanLoopKeepsFlags(AddPlannedChunk(job, plan), cfg);
      }
    }
  }

  // ---- what a batch does to the measure ----

  /** `b` is `a` after something happened to the chunk at `p`, which is still live. */
  ghost predicate ChangedAt(a: Job, b: Job, p: nat) {
    && b == a.(chunks := b.chunks, status := b.status, listening := b.listening,
               writtenCount := b.writtenCount, contiguous := b.contiguous, buffered := b.buffered,
               completedSeconds := b.completedSeconds)
    && |a.chunks| == |b.chunks| && p < |a.chunks|
    && (forall q :: 0 <= q < |a.chunks| && q != p ==>
         b.chunks[q] == a.chunks[q].(startSeconds := b.chunks[q].startSeconds))
    && b.chunks[p].deprecated == a.chunks[p].deprecated && b.chunks[p].planVersion == a.chunks[p].planVersion
    && !b.status.JobPaused? && !b.status.JobFailed?
  }

  lemma ChangedAtWeight(a: Job, b: Job, p: nat, cfg: SchedulerConfig)
    requires ChangedAt(a, b, p) && IsServed(a)
    ensures Weight(b, cfg) == Weight(a, cfg)
      - BudgetOf(a.chunks[p], cfg.maxAttempts) + BudgetOf(b.chunks[p], cfg.maxAttempts)
  {
    BudgetUpdate(a.chunks, p, b.chunks[p], cfg.maxAttempts);
    BudgetIgnoresPlace(a.chunks[p := b.chunks[p]], b.chunks, cfg.maxAttempts);
    hide Budget;
  }

  lemma ChangedAtStaysLeftAlone(a: Job, b: Job, p: nat, cfg: SchedulerConfig)
    requires LeftAlone(a, cfg) && IsServed(a) && ChangedAt(a, b, p)
    requires IsReady(b.chunks[p], b.planVersion)
    ensures LeftAlone(b, cfg) && IsServed(b)
  {
    forall q | 0 <= q < |b.chunks| ensures IsReady(b.chunks[q], b.planVersion) {
      assert IsReady(a.chunks[q], a.planVersion);
    }
  }

  /** A chunk of a batch: live, pending, in a job that is being served. */
  predicate IsWork(jobs: seq<Job>, r: Ref) {
    && ValidRef(jobs, r) && IsServed(jobs[r.job])
    && !ChunkOf(jobs, r).deprecated && IsPending(ChunkOf(jobs, r).status)
  }

  ghost predicate AllWork(jobs: seq<Job>, refs: seq<Ref>) {
    DistinctRefs(refs) && forall k :: 0 <= k < |refs| ==> IsWork(jobs, refs[k])
  }

  lemma AllWorkRest(jobs: seq<Job>, refs: seq<Ref>, job: Job)
    requires AllWork(jobs, refs) && refs != [] && ChangedAt(jobs[refs[0].job], job, refs[0].pos)
    ensures AllWork(jobs[refs[0].job := job], refs[1..])
  {
    var r := refs[0];
    forall k | 0 <= k < |refs| - 1 ensures IsWork(jobs[r.job := job], refs[1..][k]) {
      assert refs[1..][k] == refs[k + 1] && refs[k + 1] != r;
      assert IsWork(jobs, refs[k + 1]) && IsWork(jobs, r);
    }
  }

  lemma SettleSettles(job: Job)
    requires !job.status.JobPaused? && !job.status.JobFailed?
    ensures IsSettled(SettleStatus(job)) && SettleStatus(job).chunks == job.chunks
    ensures !SettleStatus(job).status.JobPaused? && !SettleStatus(job).status.JobFailed?
  {
    hide HasUnfinishedChunks;
  }

  lemma SettledChangedAt(job: Job, p: nat, c: Chunk)
    requires p < |job.chunks| && c.deprecated == job.chunks[p].deprecated
    requires c.planVersion == job.chunks[p].planVersion && !job.status.JobPaused? && !job.status.JobFailed?
    ensures ChangedAt(job, SettleStatus(Put(job, p, c)), p) && IsSettled(SettleStatus(Put(job, p, c)))
    ensures SettleStatus(Put(job, p, c)).chunks[p] == c
  {
    hide SettleStatus, IsSettled;
    SettleSettles(Put(job, p, c));
    SettleFrame(Put(job, p, c));
  }

  lemma RefreshedChangedAt(job: Job, p: nat, c: Chunk)
    requires p < |job.chunks| && c.deprecated == job.chunks[p].deprecated
    requires c.planVersion == job.chunks[p].planVersion && !job.status.JobPaused? && !job.status.JobFailed?
    ensures
      var b := SettleStatus(RefreshDerived(Put(job, p, c)));
      ChangedAt(job, b, p) && IsSettled(b) && b.chunks[p].status == c.status && b.chunks[p].attempts == c.attempts
  {
    hide SettleStatus, IsSettled, RefreshDerived;
    RefreshFrame(Put(job, p, c));
    SettleSettles(RefreshDerived(Put(job, p, c)));
    SettleFrame(RefreshDerived(Put(job, p, c)));
  }

  // One chunk of a batch, whatever becomes of it: put on the GPU or back in the queue it
  // costs nothing; written, failed or charged an attempt it lowers the measure.

  lemma RenderingOutcome(job: Job, p: nat, cfg: SchedulerConfig)
    requires cfg.Valid() && IsServed(job) && LeftAlone(job, cfg) && p < |job.chunks|
    requires !job.chunks[p].deprecated && IsPending(job.chunks[p].status)
    ensures ChangedAt(job, MarkRendering(job, p), p) && LeftAlone(MarkRendering(job, p), cfg)
    ensures IsSettled(MarkRendering(job, p))
    ensures Weight(MarkRendering(job, p), cfg) == Weight(job, cfg)
  {
    assert IsReady(job.chunks[p], job.planVersion);
    var b := MarkRendering(job, p);
    assert UnfinishedAt(b.chunks, p);
    hide Budget;
    ChangedAtWeight(job, b, p, cfg);
    ChangedAtStaysLeftAlone(job, b, p, cfg);
  }

  lemma PlannedOutcome(job: Job, p: nat, cfg: SchedulerConfig)
    requires cfg.Valid() && IsServed(job) && LeftAlone(job, cfg) && p < |job.chunks|
    requires !job.chunks[p].deprecated && IsPending(job.chunks[p].status)
    ensures ChangedAt(job, MarkPlanned(job, p), p) && LeftAlone(MarkPlanned(job, p), cfg)
    ensures IsSettled(MarkPlanned(job, p))
    ensures Weight(MarkPlanned(job, p), cfg) == Weight(job, cfg)
  {
    hide SettleStatus, RefreshDerived, Budget;
    assert IsReady(job.chunks[p], job.planVersion);
    var b := MarkPlanned(job, p);
    SettledChangedAt(job, p, job.chunks[p].(status := Planned));
    ChangedAtWeight(job, b, p, cfg);
    ChangedAtStaysLeftAlone(job, b, p, cfg);
  }

  lemma FailOutcome(job: Job, p: nat, error: string, cfg: SchedulerConfig)
    requires cfg.Valid() && IsServed(job) && LeftAlone(job, cfg) && p < |job.chunks|
    requires !job.chunks[p].deprecated && IsPending(job.chunks[p].status)
    ensures
      var b := FailOne(job, p, error, cfg.maxAttempts);
      ChangedAt(job, b, p) && LeftAlone(b, cfg) && IsSettled(b) && Weight(b, cfg) < Weight(job, cfg)
  {
    hide SettleStatus, RefreshDerived, Budget;
    assert IsReady(job.chunks[p], job.planVersion);
    var b := FailOne(job, p, error, cfg.maxAttempts);
    SettledChangedAt(job, p, Charged(job.chunks[p], error).(status := Planned));
    RefreshedChangedAt(job, p, job.chunks[p].(status := Failed, error := Some(error)));
    ChangedAtWeight(job, b, p, cfg);
    ChangedAtStaysLeftAlone(job, b, p, cfg);
  }

  lemma WrittenOutcome(job: Job, p: nat, duration: real, audio: Audio, cfg: SchedulerConfig)
    requires cfg.Valid() && IsServed(job) && LeftAlone(job, cfg) && p < |job.chunks|
    requires !job.chunks[p].deprecated && IsPending(job.chunks[p].status)
    ensures
      var b := MarkWritten(job, p, duration, audio);
      ChangedAt(job, b, p) && LeftAlone(b, cfg) && IsSettled(b) && Weight(b, cfg) < Weight(job, cfg)
  {
    hide SettleStatus, RefreshDerived, Budget;
    assert IsReady(job.chunks[p], job.planVersion);
    var b := MarkWritten(job, p, duration, audio);
    RefreshedChangedAt(job, p, job.chunks[p].(status := Written, duration := duration,
                                              segment := Some(audio), error := None));
    ChangedAtWeight(job, b, p, cfg);
    ChangedAtStaysLeftAlone(job, b, p, cfg);
  }

  // ---- whole batches ----

  lemma ChangeOneJob(jobs: seq<Job>, refs: seq<Ref>, job: Job, cfg: SchedulerConfig, js: map<nat, bool>)
    requires AllLeftAlone(jobs, cfg, js) && AllWork(jobs, refs) && refs != []
    requires ChangedAt(jobs[refs[0].job], job, refs[0].pos) && LeftAlone(job, cfg) && IsSettled(job)
    ensures AllLeftAlone(jobs[refs[0].job := job], cfg, js) && AllWork(jobs[refs[0].job := job], refs[1..])
    ensures Total(jobs[refs[0].job := job], cfg) ==
      Total(jobs, cfg) - Weight(jobs[refs[0].job], cfg) + Weight(job, cfg)
  {
    assert IsWork(jobs, refs[0]) && IsServed(job);
    hide ChangedAt, LeftAlone, Total, Weight, IsSettled;
    AllWorkRest(jobs, refs, job);
    TotalUpdate(jobs, refs[0].job, job, cfg);
  }

  lemma HeadIsWork(jobs: seq<Job>, refs: seq<Ref>, cfg: SchedulerConfig, js: map<nat, bool>)
    requires AllLeftAlone(jobs, cfg, js) && AllWork(jobs, refs) && refs != []
    ensures IsWork(jobs, refs[0]) && LeftAlone(jobs[refs[0].job], cfg)
  {
    hide LeftAlone;
    assert IsWork(jobs, refs[0]);
  }

  lemma WorkIsValid(jobs: seq<Job>, refs: seq<Ref>)
    requires AllWork(jobs, refs)
    ensures ValidRefs(jobs, refs) && forall k :: 0 <= k < |refs| ==> !jobs[refs[k].job].purged
  {
    forall k | 0 <= k < |refs| ensures ValidRef(jobs, refs[k]) && !jobs[refs[k].job].purged {
      assert IsWork(jobs, refs[k]);
    }
  }

  lemma RenderingKeepsWork(jobs: seq<Job>, r: Ref, other: Ref)
    requires IsWork(jobs, r) && IsWork(jobs, other)
    ensures IsWork(jobs[r.job := MarkRendering(jobs[r.job], r.pos)], other)
  {
  }

  lemma {:induction false} MarkAllOutcome(
    jobs: seq<Job>, refs: seq<Ref>, batch: seq<Ref>, cfg: SchedulerConfig, js: map<nat, bool>)
    requires cfg.Valid() && AllLeftAlone(jobs, cfg, js) && AllWork(jobs, refs) && AllWork(jobs, batch)
    ensures ValidRefs(jobs, refs)
    ensures
      var b := MarkAllRendering(jobs, refs);
      AllLeftAlone(b, cfg, js) && AllWork(b, batch) && Total(b, cfg) == Total(jobs, cfg)
    decreases |refs|
  {
    WorkIsValid(jobs, refs);
    hide LeftAlone, ChangedAt, Weight, Total, IsSettled, MarkRendering;
    if refs != [] {
      var r := refs[0];
      HeadIsWork(jobs, refs, cfg, js);
      RenderingOutcome(jobs[r.job], r.pos, cfg);
      ChangeOneJob(jobs, refs, MarkRendering(jobs[r.job], r.pos), cfg, js);
      var next := jobs[r.job := MarkRendering(jobs[r.job], r.pos)];
      forall k | 0 <= k < |batch| ensures IsWork(next, batch[k]) {
        assert IsWork(jobs, batch[k]);
        RenderingKeepsWork(jobs, r, batch[k]);
      }
      MarkAllOutcome(next, refs[1..], batch, cfg, js);
    }
  }

  lemma {:induction false} RequeueAllOutcome(jobs: seq<Job>, refs: seq<Ref>, cfg: SchedulerConfig, js: map<nat, bool>)
    requires cfg.Valid() && AllLeftAlone(jobs, cfg, js) && AllWork(jobs, refs)
    ensures ValidRefs(jobs, refs)
    ensures
      var b := RequeueAll(jobs, refs);
      AllLeftAlone(b, cfg, js) && Total(b, cfg) == Total(jobs, cfg)
    decreases |refs|
  {
    WorkIsValid(jobs, refs);
    hide LeftAlone, ChangedAt, Weight, Total, IsSettled, MarkPlanned;
    if refs != [] {
      var r := refs[0];
      HeadIsWork(jobs, refs, cfg, js);
      PlannedOutcome(jobs[r.job], r.pos, cfg);
      ChangeOneJob(jobs, refs, MarkPlanned(jobs[r.job], r.pos), cfg, js);
      RequeueAllOutcome(jobs[r.job := MarkPlanned(jobs[r.job], r.pos)], refs[1..], cfg, js);
    }
  }

  lemma {:induction false} FailAllOutcome(
    jobs: seq<Job>, refs: seq<Ref>, error: string, cfg: SchedulerConfig, js: map<nat, bool>)
    requires cfg.Valid() && AllLeftAlone(jobs, cfg, js) && AllWork(jobs, refs)
    ensures ValidRefs(jobs, refs)
    ensures
      var b := FailAll(jobs, refs, error, cfg.maxAttempts);
      AllLeftAlone(b, cfg, js) && Total(b, cfg) <= Total(jobs, cfg) - |refs|
    decreases |refs|
  {
    WorkIsValid(jobs, refs);
    hide LeftAlone, ChangedAt, Weight, Total, IsSettled, FailOne;
    if refs != [] {
      var r := refs[0];
      HeadIsWork(jobs, refs, cfg, js);
      FailOutcome(jobs[r.job], r.pos, error, cfg);
      ChangeOneJob(jobs, refs, FailOne(jobs[r.job], r.pos, error, cfg.maxAttempts), cfg, js);
      FailAllOutcome(FailIn(jobs, r, error, cfg.maxAttempts), refs[1..], error, cfg, js);
    }
  }

  lemma LandOutcome(jobs: seq<Job>, refs: seq<Ref>, result: Rendered, cfg: SchedulerConfig, js: map<nat, bool>)
    requires cfg.Valid() && AllLeftAlone(jobs, cfg, js) && AllWork(jobs, refs) && refs != []
    ensures ValidRef(jobs, refs[0])
    ensures
      var b := LandOne(jobs, refs[0], result);
      AllLeftAlone(b, cfg, js) && AllWork(b, refs[1..]) && Total(b, cfg) < Total(jobs, cfg)
  {
    hide LeftAlone, ChangedAt, Weight, Total, IsSettled, MarkWritten;
    var r := refs[0];
    HeadIsWork(jobs, refs, cfg, js);
    WrittenOutcome(jobs[r.job], r.pos, result.duration, result.audio, cfg);
    ChangeOneJob(jobs, refs, MarkWritten(jobs[r.job], r.pos, result.duration, result.audio), cfg, js);
  }

  // ---- rounds ----

  /** What the worker reports: audio for a prefix of the batch, or an error. */
  datatype Outcome = Success(durations: seq<real>) | Failure(error: string)

  /** The clock at the start of the tick, the batch, and what comes of it. */
  datatype Choice = Choice(now: real, timeout: real, batch: seq<Ref>, outcome: Outcome)

  ghost function PlanAll(s: System, cfg: SchedulerConfig, n: nat): System {
    if n == 0 then s else Next(PlanAll(s, cfg, n - 1), PlanAhead(n - 1, cfg))
  }

  ghost function LandAll(s: System, n: nat): System
    decreases n
  {
    if n == 0 then s else LandAll(Next(s, Land), n - 1)
  }

  ghost function Expired(s: System, choice: Choice): System { Next(s, ExpireListeners(choice.now, choice.timeout)) }

  ghost function RankedState(s: System, cfg: SchedulerConfig): System {
    Next(PlanAll(s, cfg, |s.jobs|), Rank)
  }

  ghost predicate NothingToRender(s: System) { s.phase.Ranked? && s.phase.refs == [] }

  /** A tick with nobody interfering: expire the listeners that fell silent, plan every job,
      rank, render one batch if there is one, and take in what comes back. */
  ghost function Round(s: System, cfg: SchedulerConfig, choice: Choice): System {
    RoundFrom(RankedState(Expired(s, choice), cfg), cfg, choice)
  }

  ghost function RoundFrom(ranked: System, cfg: SchedulerConfig, choice: Choice): System {
    if NothingToRender(ranked) then Next(ranked, Skip) else
      var flying := Next(ranked, Dispatch(choice.batch));
      match choice.outcome
      case Success(durations) =>
        Next(LandAll(Next(flying, ReturnResults(durations)), |durations|), RequeueLeftovers)
      case Failure(error) => Next(flying, ReturnFailure(error, cfg.maxAttempts))
  }

  /** Any batch the scheduler may dispatch, any number of results, OOM-shrunk or not. */
  ghost predicate IsPossible(s: System, cfg: SchedulerConfig, choice: Choice) {
    IsPossibleFrom(RankedState(Expired(s, choice), cfg), choice)
  }

  ghost predicate IsPossibleFrom(ranked: System, choice: Choice) {
    !NothingToRender(ranked) && ranked.phase.Ranked? ==>
      && CanDispatch(ranked.jobs, ranked.phase.refs, choice.batch)
      && (choice.outcome.Success? ==> 0 < |choice.outcome.durations| <= |choice.batch|)
  }

  ghost predicate Quiescent(s: System, cfg: SchedulerConfig, js: map<nat, bool>) {
    Inv(s) && s.phase.Idle? && AllLeftAlone(s.jobs, cfg, js)
  }

  predicate IsDone(job: Job) { IsServed(job) ==> IsFinished(job) }

  ghost predicate AllDone(s: System) { forall j :: 0 <= j < |s.jobs| ==> IsDone(s.jobs[j]) }

  lemma {:induction false} PlanAllOutcome(s: System, cfg: SchedulerConfig, js: map<nat, bool>, n: nat)
    requires cfg.Valid() && Quiescent(s, cfg, js) && n <= |s.jobs|
    ensures
      var t := PlanAll(s, cfg, n);
      && Quiescent(t, cfg, js) && |t.jobs| == |s.jobs| && Total(t.jobs, cfg) <= Total(s.jobs, cfg)
      && forall j :: 0 <= j < n ==> HasWorkOrDone(t.jobs[j])
  {
    hide Inv, LeftAlone, EnsurePlanned, HasWorkOrDone, Total, Weight, IsSettled, IsServed;
    if n > 0 {
      PlanAllOutcome(s, cfg, js, n - 1);
      var p := PlanAll(s, cfg, n - 1);
      var step := PlanAhead(n - 1, cfg);
      TickKeepsInv(p, step);
      var job := p.jobs[n - 1];
      if Sees(p, n - 1) {
        CursorInText(p, n - 1);
        EnsurePlannedMakesWork(job, cfg);
        TotalUpdate(p.jobs, n - 1, EnsurePlanned(job, cfg), cfg);
      } else {
        assert HasWorkOrDone(job) by { UnseenIsDone(job); }
      }
    }
  }

  lemma UnseenIsDone(job: Job)
    requires !IsVisible(job)
    ensures HasWorkOrDone(job)
  {
  }

  lemma CursorInText(s: System, j: nat)
    requires Inv(s) && Sees(s, j)
    ensures s.jobs[j].cursor <= |s.jobs[j].text|
  {
    assert JobInv(s.jobs[j], Flight(InFlight(s.phase), j));
    hide ChunkStates, DerivedFreshOf, CompletedIsSound, Flight, UniqueTakes, OneLiveTake, PlannedTakesSpeakTheText;
  }

  /** With no batch in flight, unfinished work is work the ranking finds. */
  lemma UnfinishedIsRenderable(s: System, j: nat)
    requires Inv(s) && InFlight(s.phase) == [] && j < |s.jobs| && IsServed(s.jobs[j])
    requires HasUnfinishedChunks(s.jobs[j].chunks)
    ensures RenderableRefs(s.jobs, |s.jobs|) != []
  {
    var job := s.jobs[j];
    assert JobInv(job, Flight([], j));
    var p :| 0 <= p < |job.chunks| && UnfinishedAt(job.chunks, p);
    hide StructureOf, DerivedFreshOf, CompletedIsSound;
    assert ChunkState(job.chunks[p], job.planVersion, false);
    RenderableRefsMembers(s.jobs, |s.jobs|, Ref(j, p));
  }

  lemma DispatchedIsWork(s: System, batch: seq<Ref>)
    requires CanDispatch(s.jobs, RenderableRefs(s.jobs, |s.jobs|), batch)
    ensures AllWork(s.jobs, batch)
  {
    var refs := RenderableRefs(s.jobs, |s.jobs|);
    hide SameGroup;
    forall k | 0 <= k < |batch| ensures IsWork(s.jobs, batch[k]) {
      assert batch[k] in refs;
      RenderableRefsMembers(s.jobs, |s.jobs|, batch[k]);
    }
  }

  lemma LandShape(s: System)
    requires Inv(s) && s.phase.Landing? && s.phase.done < |s.phase.results|
    ensures Next(s, Land) == Tick(s, Land)
    ensures s.phase.done < |s.phase.batch| && ValidRef(s.jobs, s.phase.batch[s.phase.done])
    ensures Next(s, Land) == System(
      LandOne(s.jobs, s.phase.batch[s.phase.done], s.phase.results[s.phase.done]),
      Landing(s.phase.batch, s.phase.results, s.phase.done + 1), s.dispatches)
  {
    hide JobInv, Flight, LandOne, Matches;
    assert InFlight(s.phase)[0] == s.phase.batch[s.phase.done];
  }

  lemma LandStep(s: System, cfg: SchedulerConfig, js: map<nat, bool>)
    requires cfg.Valid() && Inv(s) && s.phase.Landing? && AllLeftAlone(s.jobs, cfg, js)
    requires s.phase.done < |s.phase.results| && AllWork(s.jobs, s.phase.batch[s.phase.done..])
    ensures
      var t := Next(s, Land);
      && Inv(t) && t.phase == Landing(s.phase.batch, s.phase.results, s.phase.done + 1)
      && AllLeftAlone(t.jobs, cfg, js) && AllWork(t.jobs, s.phase.batch[s.phase.done + 1..])
      && |t.jobs| == |s.jobs| && Total(t.jobs, cfg) < Total(s.jobs, cfg)
  {
    LandShape(s);
    hide JobsInv, AllLeftAlone, Total, AllWork, LandOne, Matches, Next;
    TickKeepsInv(s, Land);
    var refs := s.phase.batch[s.phase.done..];
    assert refs[0] == s.phase.batch[s.phase.done] && refs[1..] == s.phase.batch[s.phase.done + 1..];
    LandOutcome(s.jobs, refs, s.phase.results[s.phase.done], cfg, js);
    LandKeepsCount(s.jobs, refs[0], s.phase.results[s.phase.done]);
  }

  lemma {:induction false} LandAllOutcome(s: System, n: nat, cfg: SchedulerConfig, js: map<nat, bool>)
    requires cfg.Valid() && Inv(s) && s.phase.Landing? && AllLeftAlone(s.jobs, cfg, js)
    requires s.phase.done + n <= |s.phase.results| <= |s.phase.batch|
    requires AllWork(s.jobs, s.phase.batch[s.phase.done..])
    ensures
      var t := LandAll(s, n);
      && Inv(t) && t.phase == Landing(s.phase.batch, s.phase.results, s.phase.done + n)
      && AllLeftAlone(t.jobs, cfg, js) && AllWork(t.jobs, s.phase.batch[s.phase.done + n..])
      && |t.jobs| == |s.jobs| && Total(t.jobs, cfg) + n <= Total(s.jobs, cfg)
    decreases n
  {
    hide Inv, AllLeftAlone, Total, AllWork, Next;
    if n > 0 {
      LandStep(s, cfg, js);
      LandAllOutcome(Next(s, Land), n - 1, cfg, js);
    }
  }

  lemma LandKeepsCount(jobs: seq<Job>, r: Ref, result: Rendered)
    requires ValidRef(jobs, r)
    ensures |LandOne(jobs, r, result)| == |jobs|
  {
  }

  lemma NothingLeftMeansDone(s: System, cfg: SchedulerConfig, js: map<nat, bool>)
    requires cfg.Valid() && Quiescent(s, cfg, js) && NothingToRender(RankedState(s, cfg))
    ensures AllDone(PlanAll(s, cfg, |s.jobs|))
  {
    hide Inv, LeftAlone, HasUnfinishedChunks;
    PlanAllOutcome(s, cfg, js, |s.jobs|);
    var p := PlanAll(s, cfg, |s.jobs|);
    forall j: nat | j < |p.jobs| ensures IsDone(p.jobs[j]) {
      assert HasWorkOrDone(p.jobs[j]);
      if IsServed(p.jobs[j]) {
        CompletedIsExhausted(p, j);
        if HasUnfinishedChunks(p.jobs[j].chunks) { UnfinishedIsRenderable(p, j); }
      }
    }
  }

  lemma CompletedIsExhausted(s: System, j: nat)
    requires Inv(s) && j < |s.jobs| && IsServed(s.jobs[j])
    ensures s.jobs[j].status.JobCompleted? ==> Exhausted(s.jobs[j])
  {
    assert JobInv(s.jobs[j], Flight(InFlight(s.phase), j));
    hide Flight, StructureOf, ChunkStates, DerivedFreshOf;
  }

  /** A listener that expires is still served, and neither planned nor rendered for. */
  lemma ExpiryOutcome(s: System, cfg: SchedulerConfig, js: map<nat, bool>, choice: Choice)
    requires Quiescent(s, cfg, js)
    ensures
      var t := Expired(s, choice);
      && Quiescent(t, cfg, js) && |t.jobs| == |s.jobs| && Total(t.jobs, cfg) == Total(s.jobs, cfg)
      && (AllDone(s) ==> AllDone(t))
  {
    hide Inv, LeftAlone, Total, IsServed, IsSettled, IsFinished;
    CommandKeepsInv(s, ExpireListeners(choice.now, choice.timeout));
    var t := Expired(s, choice);
    forall j | 0 <= j < |s.jobs|
      ensures Weight(t.jobs[j], cfg) == Weight(s.jobs[j], cfg)
      ensures LeftAlone(s.jobs[j], cfg) ==> LeftAlone(t.jobs[j], cfg)
      ensures IsServed(t.jobs[j]) == IsServed(s.jobs[j]) && IsSettled(t.jobs[j]) == IsSettled(s.jobs[j])
      ensures IsFinished(t.jobs[j]) == IsFinished(s.jobs[j])
    {
      ExpiredJob(s.jobs[j], cfg, choice.now, choice.timeout);
    }
    SameTotal(s.jobs, t.jobs, cfg);
  }

  lemma ExpiredJob(job: Job, cfg: SchedulerConfig, now: real, timeout: real)
    ensures
      var b := ExpireListener(job, now, timeout);
      && Weight(b, cfg) == Weight(job, cfg) && (LeftAlone(job, cfg) ==> LeftAlone(b, cfg))
      && IsServed(b) == IsServed(job) && IsSettled(b) == IsSettled(job) && IsFinished(b) == IsFinished(job)
  {
    hide Budget, HasUnfinishedChunks;
  }

  lemma {:induction false} SameTotal(a: seq<Job>, b: seq<Job>, cfg: SchedulerConfig)
    requires |a| == |b| && forall j :: 0 <= j < |a| ==> Weight(a[j], cfg) == Weight(b[j], cfg)
    ensures Total(a, cfg) == Total(b, cfg)
    decreases |a|
  {
    hide Weight;
    if a != [] {
      var n := |a| - 1;
      assert forall j :: 0 <= j < n ==> a[..n][j] == a[j] && b[..n][j] == b[j];
      SameTotal(a[..n], b[..n], cfg);
    }
  }

  /** A round either finds every job done or lowers the measure. */
  lemma RoundMakesProgress(s: System, cfg: SchedulerConfig, js: map<nat, bool>, choice: Choice)
    requires cfg.Valid() && Quiescent(s, cfg, js) && IsPossible(s, cfg, choice)
    ensures
      var t := Round(s, cfg, choice);
      && Quiescent(t, cfg, js) && |t.jobs| == |s.jobs|
      && (AllDone(t) || Total(t.jobs, cfg) < Total(s.jobs, cfg))
      && Total(t.jobs, cfg) <= Total(s.jobs, cfg)
  {
    hide AllLeftAlone, Total, JobsInv, AllDone, Next, RoundFrom, RankedState, IsPossibleFrom;
    ExpiryOutcome(s, cfg, js, choice);
    PlannedMakesProgress(Expired(s, choice), cfg, js, choice);
  }

  lemma RankedOutcome(s: System, cfg: SchedulerConfig, js: map<nat, bool>)
    requires cfg.Valid() && Quiescent(s, cfg, js)
    ensures
      var p, ranked := PlanAll(s, cfg, |s.jobs|), RankedState(s, cfg);
      && ranked == p.(phase := Ranked(RenderableRefs(p.jobs, |p.jobs|))) && Inv(ranked) && Quiescent(p, cfg, js)
      && |ranked.jobs| == |s.jobs| && Total(ranked.jobs, cfg) <= Total(s.jobs, cfg)
  {
    hide Inv, AllLeftAlone, Total, PlanAll, HasWorkOrDone, RenderableRefs;
    PlanAllOutcome(s, cfg, js, |s.jobs|);
    TickKeepsInv(PlanAll(s, cfg, |s.jobs|), Rank);
  }

  lemma PlannedMakesProgress(s: System, cfg: SchedulerConfig, js: map<nat, bool>, choice: Choice)
    requires cfg.Valid() && Quiescent(s, cfg, js) && IsPossibleFrom(RankedState(s, cfg), choice)
    ensures
      var t := RoundFrom(RankedState(s, cfg), cfg, choice);
      && Quiescent(t, cfg, js) && |t.jobs| == |s.jobs|
      && (AllDone(t) || Total(t.jobs, cfg) < Total(s.jobs, cfg))
      && Total(t.jobs, cfg) <= Total(s.jobs, cfg)
  {
    hide Inv, AllLeftAlone, Total, PlanAll, RenderableRefs, RankedState, CanDispatch, AllDone;
    RankedOutcome(s, cfg, js);
    var ranked := RankedState(s, cfg);
    if NothingToRender(ranked) {
      NothingLeftMeansDone(s, cfg, js);
      SkipsBack(PlanAll(s, cfg, |s.jobs|), ranked);
      hide Next;
    } else {
      hide Next;
      BatchMakesProgress(ranked, cfg, js, choice);
    }
  }

  lemma SkipsBack(p: System, ranked: System)
    requires p.phase.Idle? && ranked == p.(phase := Ranked(RenderableRefs(p.jobs, |p.jobs|)))
    ensures Next(ranked, Skip) == p
  {
    hide RenderableRefs;
  }

  lemma BatchMakesProgress(ranked: System, cfg: SchedulerConfig, js: map<nat, bool>, choice: Choice)
    requires cfg.Valid() && Inv(ranked) && AllLeftAlone(ranked.jobs, cfg, js)
    requires ranked.phase == Ranked(RenderableRefs(ranked.jobs, |ranked.jobs|))
    requires CanDispatch(ranked.jobs, ranked.phase.refs, choice.batch)
    requires choice.outcome.Success? ==> 0 < |choice.outcome.durations| <= |choice.batch|
    ensures
      var flying := Next(ranked, Dispatch(choice.batch));
      var t := match choice.outcome
        case Success(durations) =>
          Next(LandAll(Next(flying, ReturnResults(durations)), |durations|), RequeueLeftovers)
        case Failure(error) => Next(flying, ReturnFailure(error, cfg.maxAttempts));
      Quiescent(t, cfg, js) && |t.jobs| == |ranked.jobs| && Total(t.jobs, cfg) < Total(ranked.jobs, cfg)
  {
    hide Inv, AllLeftAlone, Total, AllWork, CanDispatch, RenderableRefs, Next;
    DispatchOutcome(ranked, cfg, js, choice.batch);
    var flying := Next(ranked, Dispatch(choice.batch));
    match choice.outcome
    case Success(durations) => SuccessOutcome(flying, cfg, js, durations);
    case Failure(error) => FailureOutcome(flying, cfg, js, error);
  }

  lemma DispatchOutcome(ranked: System, cfg: SchedulerConfig, js: map<nat, bool>, batch: seq<Ref>)
    requires cfg.Valid() && Inv(ranked) && AllLeftAlone(ranked.jobs, cfg, js)
    requires ranked.phase == Ranked(RenderableRefs(ranked.jobs, |ranked.jobs|))
    requires CanDispatch(ranked.jobs, ranked.phase.refs, batch)
    ensures
      var t := Next(ranked, Dispatch(batch));
      && Inv(t) && AllLeftAlone(t.jobs, cfg, js) && AllWork(t.jobs, batch) && batch != []
      && t.phase.OnGpu? && t.phase.batch == batch && |t.phase.spoken| == |batch|
      && |t.jobs| == |ranked.jobs| && Total(t.jobs, cfg) == Total(ranked.jobs, cfg)
  {
    hide LeftAlone, Total, JobsInv, CanDispatch, IsWork, Matches;
    DispatchedIsWork(ranked, batch);
    MarkAllOutcome(ranked.jobs, batch, batch, cfg, js);
    TickKeepsInv(ranked, Dispatch(batch));
    BatchIsNotEmpty(ranked.jobs, ranked.phase.refs, batch);
  }

  lemma SuccessOutcome(flying: System, cfg: SchedulerConfig, js: map<nat, bool>, durations: seq<real>)
    requires cfg.Valid() && Inv(flying) && AllLeftAlone(flying.jobs, cfg, js) && flying.phase.OnGpu?
    requires AllWork(flying.jobs, flying.phase.batch)
    requires 0 < |durations| <= |flying.phase.batch| == |flying.phase.spoken|
    ensures
      var t := Next(LandAll(Next(flying, ReturnResults(durations)), |durations|), RequeueLeftovers);
      Quiescent(t, cfg, js) && |t.jobs| == |flying.jobs| && Total(t.jobs, cfg) < Total(flying.jobs, cfg)
  {
    TickKeepsInv(flying, ReturnResults(durations));
    var back := Next(flying, ReturnResults(durations));
    hide Inv, AllLeftAlone, Total, AllWork;
    assert flying.phase.batch[0..] == flying.phase.batch;
    LandAllOutcome(back, |durations|, cfg, js);
    LeftoversOutcome(LandAll(back, |durations|), cfg, js);
  }

  lemma LeftoversOutcome(s: System, cfg: SchedulerConfig, js: map<nat, bool>)
    requires cfg.Valid() && Inv(s) && AllLeftAlone(s.jobs, cfg, js)
    requires s.phase.Landing? && s.phase.done == |s.phase.results| <= |s.phase.batch|
    requires AllWork(s.jobs, s.phase.batch[s.phase.done..])
    ensures
      var t := Next(s, RequeueLeftovers);
      Quiescent(t, cfg, js) && |t.jobs| == |s.jobs| && Total(t.jobs, cfg) == Total(s.jobs, cfg)
  {
    var rest := s.phase.batch[s.phase.done..];
    hide AllLeftAlone, Total, Inv, AllWork, Next;
    RequeueAllOutcome(s.jobs, rest, cfg, js);
    LeftoversShape(s, cfg);
  }

  /** No job of such a batch was purged, so the leftovers all go back. */
  lemma LeftoversShape(s: System, cfg: SchedulerConfig)
    requires Inv(s) && s.phase.Landing? && s.phase.done == |s.phase.results| <= |s.phase.batch|
    requires AllWork(s.jobs, s.phase.batch[s.phase.done..])
    ensures ValidRefs(s.jobs, s.phase.batch[s.phase.done..])
    ensures Next(s, RequeueLeftovers) ==
      System(RequeueAll(s.jobs, s.phase.batch[s.phase.done..]), Idle, s.dispatches)
    ensures Inv(Next(s, RequeueLeftovers))
  {
    hide Inv, AllWork, RequeueAll;
    WorkIsValid(s.jobs, s.phase.batch[s.phase.done..]);
    TickKeepsInv(s, RequeueLeftovers);
  }

  lemma FailureOutcome(flying: System, cfg: SchedulerConfig, js: map<nat, bool>, error: string)
    requires cfg.Valid() && Inv(flying) && AllLeftAlone(flying.jobs, cfg, js) && flying.phase.OnGpu?
    requires AllWork(flying.jobs, flying.phase.batch) && flying.phase.batch != []
    ensures
      var t := Next(flying, ReturnFailure(error, cfg.maxAttempts));
      Quiescent(t, cfg, js) && |t.jobs| == |flying.jobs| && Total(t.jobs, cfg) < Total(flying.jobs, cfg)
  {
    hide LeftAlone, Total, JobsInv, IsWork, Matches;
    FailAllOutcome(flying.jobs, flying.phase.batch, error, cfg, js);
    TickKeepsInv(flying, ReturnFailure(error, cfg.maxAttempts));
  }

  lemma BatchIsNotEmpty(jobs: seq<Job>, refs: seq<Ref>, batch: seq<Ref>)
    requires CanDispatch(jobs, refs, batch)
    ensures batch != []
  {
  }

  ghost function Rounds(s: System, cfg: SchedulerConfig, choices: seq<Choice>): System
    decreases |choices|
  {
    if choices == [] then s else Rounds(Round(s, cfg, choices[0]), cfg, choices[1..])
  }

  ghost predicate ArePossible(s: System, cfg: SchedulerConfig, choices: seq<Choice>)
    decreases |choices|
  {
    choices != [] ==> IsPossible(s, cfg, choices[0]) && ArePossible(Round(s, cfg, choices[0]), cfg, choices[1..])
  }

  lemma {:induction false} DoneStaysDone(s: System, cfg: SchedulerConfig, n: nat)
    requires cfg.Valid() && AllDone(s) && n <= |s.jobs| && s.phase.Idle?
    ensures PlanAll(s, cfg, n) == s
  {
    hide PlanLoop;
    if n > 0 {
      DoneStaysDone(s, cfg, n - 1);
      assert IsDone(s.jobs[n - 1]);
      assert s.jobs[n - 1 := s.jobs[n - 1]] == s.jobs;
    }
  }

  lemma DoneHasNothingToRender(s: System)
    requires Inv(s) && AllDone(s)
    ensures RenderableRefs(s.jobs, |s.jobs|) == []
  {
    var refs := RenderableRefs(s.jobs, |s.jobs|);
    if refs != [] {
      assert refs[0] in refs;
      RenderableRefsMembers(s.jobs, |s.jobs|, refs[0]);
      var job := s.jobs[refs[0].job];
      assert IsDone(job) && JobInv(job, Flight(InFlight(s.phase), refs[0].job));
      assert UnfinishedAt(job.chunks, refs[0].pos);
      assert false;
    }
  }

  lemma DoneRound(s: System, cfg: SchedulerConfig, js: map<nat, bool>, choice: Choice)
    requires cfg.Valid() && Quiescent(s, cfg, js) && AllDone(s)
    ensures Quiescent(Round(s, cfg, choice), cfg, js) && AllDone(Round(s, cfg, choice))
  {
    hide Inv, AllLeftAlone, AllDone, RenderableRefs, PlanAll, Next, RankedState, Total, Expired;
    ExpiryOutcome(s, cfg, js, choice);
    var e := Expired(s, choice);
    RankedOutcome(e, cfg, js);
    DoneStaysDone(e, cfg, |e.jobs|);
    DoneHasNothingToRender(e);
    SkipsBack(e, RankedState(e, cfg));
  }

  lemma {:induction false} RoundsStayDone(s: System, cfg: SchedulerConfig, js: map<nat, bool>, choices: seq<Choice>)
    requires cfg.Valid() && Quiescent(s, cfg, js) && AllDone(s)
    ensures Quiescent(Rounds(s, cfg, choices), cfg, js) && AllDone(Rounds(s, cfg, choices))
    decreases |choices|
  {
    hide Inv, AllLeftAlone, AllDone, Round;
    if choices != [] {
      DoneRound(s, cfg, js, choices[0]);
      RoundsStayDone(Round(s, cfg, choices[0]), cfg, js, choices[1..]);
    }
  }

  /** In as many rounds as the measure says, every job that is served is done. */
  lemma {:induction false} RoundsFinishEverything(
    s: System, cfg: SchedulerConfig, js: map<nat, bool>, choices: seq<Choice>)
    requires cfg.Valid() && Quiescent(s, cfg, js) && ArePossible(s, cfg, choices)
    requires |choices| > Total(s.jobs, cfg)
    ensures Quiescent(Rounds(s, cfg, choices), cfg, js) && AllDone(Rounds(s, cfg, choices))
    decreases |choices|
  {
    hide Inv, AllLeftAlone, Total, Round, IsPossible, AllDone;
    QuiescentTotal(s, cfg, js);
    var t := Round(s, cfg, choices[0]);
    RoundMakesProgress(s, cfg, js, choices[0]);
    if AllDone(t) {
      RoundsStayDone(t, cfg, js, choices[1..]);
    } else {
      RoundsFinishEverything(t, cfg, js, choices[1..]);
    }
  }

  lemma QuiescentTotal(s: System, cfg: SchedulerConfig, js: map<nat, bool>)
    requires Quiescent(s, cfg, js)
    ensures Total(s.jobs, cfg) >= 0
  {
    hide StructureOf, ChunkStates, DerivedFreshOf, CompletedIsSound, LeftAlone, Total, Flight;
    TotalIsNat(s.jobs, cfg);
  }

  lemma {:induction false} RoundsKeepCount(s: System, cfg: SchedulerConfig, js: map<nat, bool>, choices: seq<Choice>)
    requires cfg.Valid() && Quiescent(s, cfg, js) && ArePossible(s, cfg, choices)
    ensures |Rounds(s, cfg, choices).jobs| == |s.jobs|
    decreases |choices|
  {
    hide Quiescent, Total, Round, IsPossible, AllDone;
    if choices != [] {
      RoundMakesProgress(s, cfg, js, choices[0]);
      RoundsKeepCount(Round(s, cfg, choices[0]), cfg, js, choices[1..]);
    }
  }

  // ---- from any state between two ticks ----

  /** No lookahead cap holds a job that is served. */
  predicate Uncapped(jobs: seq<Job>, cfg: SchedulerConfig) {
    cfg.renderAhead <= 0.0 || forall j :: 0 <= j < |jobs| && IsServed(jobs[j]) ==> jobs[j].renderToEnd
  }

  ghost function Watched(jobs: seq<Job>): (r: map<nat, bool>)
    ensures forall j: nat :: j in r <==> j < |jobs| && IsServed(jobs[j])
    ensures forall j :: j in r ==> r[j] == IsSettled(jobs[j])
  {
    map j: nat | j < |jobs| && IsServed(jobs[j]) :: IsSettled(jobs[j])
  }

  lemma ReachableIsQuiescent(s: System, cfg: SchedulerConfig)
    requires Reachable(s) && s.phase.Idle? && Uncapped(s.jobs, cfg)
    ensures Quiescent(s, cfg, Watched(s.jobs))
  {
    ReachableStatesAreSound(s);
    hide Reachable, StructureOf, DerivedFreshOf, CompletedIsSound, Flight, HasUnfinishedChunks;
    forall j | 0 <= j < |s.jobs| ensures LeftAlone(s.jobs[j], cfg) {
      var job := s.jobs[j];
      if IsServed(job) {
        assert JobInv(job, Flight([], j));
        forall p: nat | p < |job.chunks| ensures IsReady(job.chunks[p], job.planVersion) {
          NotInFlightIsReady(job, Flight([], j), p);
        }
      }
    }
  }

  lemma NotInFlightIsReady(job: Job, flight: set<nat>, p: nat)
    requires ChunkStates(job.chunks, job.planVersion, flight) && p !in flight && p < |job.chunks|
    ensures IsReady(job.chunks[p], job.planVersion)
  {
    assert ChunkState(job.chunks[p], job.planVersion, p in flight);
  }

  /** Left alone, every job completes. From any state between two ticks, after more rounds
      than the measure says, each job that was being served is fully planned with each live
      take written or given up, and it is completed, unless it had been finished already
      without saying so. The batches the scheduler picks, how often rendering fails and how
      small the worker has to make a batch do not matter. */
  lemma LeftAloneEverythingCompletes(s: System, cfg: SchedulerConfig, choices: seq<Choice>, j: nat)
    requires cfg.Valid() && Reachable(s) && s.phase.Idle? && Uncapped(s.jobs, cfg) && ArePossible(s, cfg, choices)
    requires |choices| > Total(s.jobs, cfg) && j < |s.jobs| && IsServed(s.jobs[j])
    ensures
      var t := Rounds(s, cfg, choices);
      && j < |t.jobs| && Exhausted(t.jobs[j])
      && (forall p :: 0 <= p < |t.jobs[j].chunks| && !t.jobs[j].chunks[p].deprecated ==>
           t.jobs[j].chunks[p].status.Written? || t.jobs[j].chunks[p].status.Failed?)
      && (IsSettled(s.jobs[j]) ==> t.jobs[j].status.JobCompleted?)
  {
    var js := Watched(s.jobs);
    ReachableIsQuiescent(s, cfg);
    hide Inv, Total, Reachable, Rounds, ArePossible, LeftAlone, HasUnfinishedChunks;
    RoundsFinishEverything(s, cfg, js, choices);
    RoundsKeepCount(s, cfg, js, choices);
    var t := Rounds(s, cfg, choices);
    assert IsAsWatched(t.jobs[j], js[j]) && IsDone(t.jobs[j]);
    FinishedTakes(t, j);
  }

  lemma FinishedTakes(t: System, j: nat)
    requires Inv(t) && j < |t.jobs| && IsVisible(t.jobs[j]) && !HasUnfinishedChunks(t.jobs[j].chunks)
    ensures forall p :: 0 <= p < |t.jobs[j].chunks| && !t.jobs[j].chunks[p].deprecated ==>
      t.jobs[j].chunks[p].status.Written? || t.jobs[j].chunks[p].status.Failed?
  {
    var job, f := t.jobs[j], Flight(InFlight(t.phase), j);
    assert JobInv(job, f);
    hide Flight, StructureOf, DerivedFreshOf, CompletedIsSound;
    forall p: nat | p < |job.chunks| && !job.chunks[p].deprecated
      ensures job.chunks[p].status.Written? || job.chunks[p].status.Failed?
    {
      assert ChunkState(job.chunks[p], job.planVersion, p in f) && !UnfinishedAt(job.chunks, p);
    }
  }

  /** The bound for one fresh job of `n` characters is `(attempts + 1) * (n + 1)` rounds. */
  lemma FreshJobBound(source: string, model: string, language: string, voice: string, now: real,
                      cfg: SchedulerConfig)
    ensures
      var job := NewJob(source, model, language, voice, now);
      && Total([job], cfg) == (cfg.maxAttempts + 1) * (|job.text| + 1)
      && IsServed(job) && IsSettled(job)
  {
    var job := NewJob(source, model, language, voice, now);
    assert [job][..0] == [];
    assert Total([], cfg) == 0;
  }

  // ---- there is always a way to go on ----

  lemma SomeChoiceIsPossible(s: System, cfg: SchedulerConfig, js: map<nat, bool>) returns (choice: Choice)
    requires cfg.Valid() && Quiescent(s, cfg, js)
    ensures IsPossible(s, cfg, choice)
  {
    hide Inv, AllLeftAlone, Total, PlanAll, RenderableRefs, RankedState, CanDispatch, AllDone, Next, Expired;
    var clock := Choice(0.0, 0.0, [], Failure(""));
    ExpiryOutcome(s, cfg, js, clock);
    var e := Expired(s, clock);
    RankedOutcome(e, cfg, js);
    var ranked := RankedState(e, cfg);
    choice := clock;
    if !NothingToRender(ranked) {
      choice := clock.(batch := [ranked.phase.refs[0]]);
      FirstCanBeDispatched(ranked.jobs);
      SameClock(s, clock, choice);
    }
  }

  lemma SameClock(s: System, a: Choice, b: Choice)
    requires a.now == b.now && a.timeout == b.timeout
    ensures Expired(s, a) == Expired(s, b)
  {
    hide Next;
  }

  lemma FirstCanBeDispatched(jobs: seq<Job>)
    requires RenderableRefs(jobs, |jobs|) != []
    ensures CanDispatch(jobs, RenderableRefs(jobs, |jobs|), [RenderableRefs(jobs, |jobs|)[0]])
  {
    var refs := RenderableRefs(jobs, |jobs|);
    forall k | 0 <= k < |refs| ensures ValidRef(jobs, refs[k]) && IsVisible(jobs[refs[k].job]) {
      assert refs[k] in refs;
      RenderableRefsMembers(jobs, |jobs|, refs[k]);
    }
  }

  /** Any number of rounds can follow one another. */
  lemma {:induction false} PossibleChoicesExist(s: System, cfg: SchedulerConfig, js: map<nat, bool>, n: nat)
    requires cfg.Valid() && Quiescent(s, cfg, js)
    ensures exists choices :: |choices| == n && ArePossible(s, cfg, choices)
    decreases n
  {
    hide Quiescent, IsPossible, Round, AllDone, Total;
    if n == 0 {
      assert ArePossible(s, cfg, []);
    } else {
      var choice := SomeChoiceIsPossible(s, cfg, js);
      RoundMakesProgress(s, cfg, js, choice);
      PossibleChoicesExist(Round(s, cfg, choice), cfg, js, n - 1);
      var rest :| |rest| == n - 1 && ArePossible(Round(s, cfg, choice), cfg, rest);
      var choices := [choice] + rest;
      assert choices[0] == choice && choices[1..] == rest;
      assert ArePossible(s, cfg, choices);
    }
  }
}
