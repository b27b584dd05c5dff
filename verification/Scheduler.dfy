/** The scheduler's loops over the job manager (server/app/scheduler/service.py), each
    proved to take one step of the pipeline. */
module SchedulerLoops {
  import opened Wrappers
  import opened Planner
  import opened JobModel
  import opened JobInvariants
  import opened Pipeline
  import PipelineSafety
  import opened JobManagement
  import opened TakeLife
  import opened PlanningAhead

  /** The count in `_needs_more_planning`, and its two limits. */
  method NeedsMore(job: Job, cfg: SchedulerConfig) returns (more: bool)
    ensures more == NeedsMorePlanning(job, cfg)
    ensures more <==> |Waiting(job)| < cfg.planAhead && !IsFarAhead(job, cfg)
  {
    PlansMoreExactlyWhen(job, cfg);
    hide Waiting, IsFarAhead;
    var activePlanned := 0;
    for p := 0 to |job.chunks|
      invariant activePlanned == PlannedAhead(job.chunks[..p], job.planVersion)
    {
      assert job.chunks[..p + 1][..p] == job.chunks[..p];
      if CountsAsPlanned(job.chunks[p], job.planVersion) { activePlanned := activePlanned + 1; }
    }
    assert job.chunks[..|job.chunks|] == job.chunks;
    if activePlanned >= cfg.planAhead { return false; }
    if cfg.renderAhead > 0.0 && !job.renderToEnd && job.buffered >= cfg.renderAhead { return false; }
    more := true;
  }

  /** `_ensure_planned_chunks` for one job. */
  method PlanJob(manager: JobManager, id: nat, cfg: SchedulerConfig)
    requires manager.Sound() && cfg.Valid() && manager.Sees(id)
    modifies manager
    ensures manager.Sound() && manager.flight == old(manager.flight)
    ensures manager.jobs == old(manager.jobs)[id := EnsurePlanned(old(manager.jobs)[id], cfg)]
  {
    hide JobsInv, PlanNext, NeedsMorePlanning;
    ghost var before := manager.jobs;
    var job := manager.jobs[id];
    assert before[id := job] == before;
    if job.status == JobPaused || job.status == JobCompleted || job.cursor < 0 { return; }
    var more := NeedsMore(job, cfg);
    while more
      invariant manager.Sound() && manager.flight == old(manager.flight)
      invariant id < |manager.jobs| && manager.jobs == before[id := manager.jobs[id]]
      invariant manager.Sees(id) && !manager.jobs[id].status.JobCompleted?
      invariant more == NeedsMorePlanning(manager.jobs[id], cfg)
      invariant PlanLoop(manager.jobs[id], cfg) == PlanLoop(before[id], cfg)
      decreases Unplanned(manager.jobs[id])
    {
      var plan := PlanNextChunk(manager.jobs[id].text, manager.jobs[id].cursor, cfg.planner);
      if plan.None? {
        var _ := manager.FinishPlanning(id, cfg.planner);
        return;
      }
      PlanShrinks(manager.jobs[id], plan.value, cfg);
      var _ := manager.AddPlannedChunk(id, plan.value, cfg.planner);
      more := NeedsMore(manager.jobs[id], cfg);
    }
  }

  lemma PlanShrinks(job: Job, plan: ChunkPlan, cfg: SchedulerConfig)
    requires cfg.Valid() && PlanNext(job.text, job.cursor, cfg.planner) == Some(plan)
    ensures 0 <= Unplanned(AddPlannedChunk(job, plan)) < Unplanned(job)
  {
  }

  /** `_ensure_planned_chunks`. */
  method EnsurePlannedChunks(manager: JobManager, cfg: SchedulerConfig)
    requires manager.Sound() && cfg.Valid()
    modifies manager
    ensures manager.Sound() && manager.flight == old(manager.flight)
    ensures |manager.jobs| == |old(manager.jobs)|
    ensures forall j :: 0 <= j < |manager.jobs| ==>
      manager.jobs[j] == (if IsVisible(old(manager.jobs)[j]) then EnsurePlanned(old(manager.jobs)[j], cfg)
                          else old(manager.jobs)[j])
  {
    hide JobsInv, EnsurePlanned;
    ghost var before := manager.jobs;
    for id := 0 to |manager.jobs|
      invariant manager.Sound() && manager.flight == old(manager.flight) && |manager.jobs| == |before|
      invariant forall j :: id <= j < |before| ==> manager.jobs[j] == before[j]
      invariant forall j :: 0 <= j < id ==>
        manager.jobs[j] == (if IsVisible(before[j]) then EnsurePlanned(before[j], cfg) else before[j])
    {
      if manager.Sees(id) { PlanJob(manager, id, cfg); }
    }
  }

  /** The dispatch loop: every chunk of the batch goes to `Rendering`. */
  method MarkBatch(manager: JobManager, batch: seq<Ref>)
    requires manager.Sound() && manager.flight == [] && ValidRefs(manager.jobs, batch) && DistinctRefs(batch)
    requires forall k :: 0 <= k < |batch| ==>
      !manager.jobs[batch[k].job].purged && ChunkOf(manager.jobs, batch[k]).status.Planned?
    modifies manager
    ensures manager.Sound() && manager.flight == batch
    ensures manager.jobs == MarkAllRendering(old(manager.jobs), batch)
    ensures forall r: Ref :: ValidRef(old(manager.jobs), r) ==>
      DispatchedAt(old(manager.jobs), manager.jobs, batch, r)
  {
    hide JobsInv, MarkRendering, Versioned;
    ghost var before := manager.jobs;
    assert batch[0..] == batch;
    for k := 0 to |batch|
      invariant manager.Sound() && manager.flight == batch[..k]
      invariant ValidRefs(manager.jobs, batch[k..])
      invariant forall l :: 0 <= l < |batch| - k ==>
        !manager.jobs[batch[k..][l].job].purged && ChunkOf(manager.jobs, batch[k..][l]).status.Planned?
      invariant MarkAllRendering(manager.jobs, batch[k..]) == MarkAllRendering(before, batch)
    {
      var rest := batch[k..];
      assert rest[0] == batch[k] && rest[1..] == batch[k + 1..];
      assert batch[..k] + rest == batch;
      PipelineSafety.RestStaysPlanned(manager.jobs, batch[..k], rest);
      assert ValidRef(manager.jobs, rest[0]) && ChunkOf(manager.jobs, rest[0]).status.Planned?;
      var _ := manager.MarkChunkRendering(batch[k]);
      assert batch[..k] + [batch[k]] == batch[..k + 1];
    }
    assert batch[..|batch|] == batch;
    DispatchOfBatch(before, batch);
  }

  /** `_handle_batch_failure`. */
  method HandleBatchFailure(manager: JobManager, batch: seq<Ref>, error: string, maxAttempts: nat)
    requires manager.Sound() && manager.flight == batch
    modifies manager
    ensures manager.Sound() && manager.flight == []
    ensures ValidRefs(old(manager.jobs), batch)
    ensures manager.jobs == FailAll(old(manager.jobs), batch, error, maxAttempts)
    ensures forall r: Ref :: ValidRef(old(manager.jobs), r) ==>
      FailedAt(old(manager.jobs), manager.jobs, batch, r, error, maxAttempts)
  {
    InvMeansOwned(manager.jobs, batch);
    FailureOnBatch(manager.jobs, batch, error, maxAttempts);
    hide JobInv, Flight, FailIn, FailedAt;
    ghost var before := manager.jobs;
    assert batch[0..] == batch;
    for k := 0 to |batch|
      invariant manager.Sound() && manager.flight == batch[k..]
      invariant FailAll(manager.jobs, batch[k..], error, maxAttempts) == FailAll(before, batch, error, maxAttempts)
    {
      assert batch[k..][0] == batch[k] && batch[k..][1..] == batch[k + 1..];
      var _ := manager.FailChunk(batch[k], error, maxAttempts);
    }
  }

  /** The loops that put chunks back untouched. They are not guarded, so a purged job ends
      the tick; `finished` tells whether the whole list was dealt with. */
  method RequeueChunks(manager: JobManager, rest: seq<Ref>) returns (finished: bool)
    requires manager.Sound() && manager.flight == rest
    modifies manager
    ensures manager.Sound() && ValidRefs(old(manager.jobs), rest)
    ensures manager.jobs == RequeueAll(old(manager.jobs), rest)
    ensures finished ==> manager.flight == []
    ensures finished <==> forall k :: 0 <= k < |rest| ==> !old(manager.jobs)[rest[k].job].purged
  {
    hide JobInv, Flight, MarkPlanned, Versioned;
    ghost var before := manager.jobs;
    assert rest[0..] == rest;
    for k := 0 to |rest|
      invariant manager.Sound() && manager.flight == rest[k..] && |manager.jobs| == |before|
      invariant RequeueAll(manager.jobs, rest[k..]) == RequeueAll(before, rest)
      invariant forall j :: 0 <= j < |before| ==> manager.jobs[j].purged == before[j].purged
      invariant forall l :: 0 <= l < k ==> !before[rest[l].job].purged
    {
      assert rest[k..][0] == rest[k] && rest[k..][1..] == rest[k + 1..];
      ghost var jobs := manager.jobs;
      PipelineSafety.HeadInFlight(manager.jobs, rest[k..]);
      PipelineSafety.MarkPlannedFrame(manager.jobs[rest[k].job], rest[k].pos);
      var ok := manager.MarkChunkPlanned(rest[k]);
      if !ok { return false; }
    }
    finished := true;
  }
}
