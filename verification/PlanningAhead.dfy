/** How far a job is planned ahead (server/app/scheduler/service.py,
    `_ensure_planned_chunks` and `_needs_more_planning`). */
module PlanningAhead {
  import opened Wrappers
  import opened Planner
  import opened JobModel
  import opened JobInvariants
  import opened Pipeline

  /** The live takes that wait for the GPU, or are on it, under the current plan. */
  function Waiting(job: Job): set<nat> {
    set p: nat | p < |job.chunks| &&
      !job.chunks[p].deprecated && job.chunks[p].planVersion == job.planVersion &&
      (job.chunks[p].status.Planned? || job.chunks[p].status.Queued? || job.chunks[p].status.Rendering?)
  }

  /** A lookahead is set, the job is not to be rendered to its end, and the listener has as many
      seconds buffered as the lookahead. */
  predicate IsFarAhead(job: Job, cfg: SchedulerConfig) {
    cfg.renderAhead > 0.0 && !job.renderToEnd && job.buffered >= cfg.renderAhead
  }

  function CountedUpTo(chunks: seq<Chunk>, planVersion: nat, n: nat): set<nat>
    requires n <= |chunks|
  {
    set p: nat | p < n && CountsAsPlanned(chunks[p], planVersion)
  }

  lemma {:induction false} CountIsASize(chunks: seq<Chunk>, planVersion: nat)
    ensures PlannedAhead(chunks, planVersion) == |CountedUpTo(chunks, planVersion, |chunks|)|
  {
    if chunks != [] {
      var n := |chunks| - 1;
      CountIsASize(chunks[..n], planVersion);
      var front, all := CountedUpTo(chunks[..n], planVersion, n), CountedUpTo(chunks, planVersion, n + 1);
      assert forall p: nat :: p < n ==> chunks[..n][p] == chunks[p];
      assert all == front + if CountsAsPlanned(chunks[n], planVersion) then {n} else {};
    } else {
      assert CountedUpTo(chunks, planVersion, 0) == {};
    }
  }

  /** More is planned exactly while fewer takes wait than are to be planned ahead and the
      lookahead is not reached. */
  lemma PlansMoreExactlyWhen(job: Job, cfg: SchedulerConfig)
    ensures NeedsMorePlanning(job, cfg) <==> |Waiting(job)| < cfg.planAhead && !IsFarAhead(job, cfg)
  {
    CountIsASize(job.chunks, job.planVersion);
    assert Waiting(job) == CountedUpTo(job.chunks, job.planVersion, |job.chunks|);
  }

  lemma OneMoreWaits(job: Job, plan: ChunkPlan)
    ensures |Waiting(AddPlannedChunk(job, plan))| == |Waiting(job)| + 1
  {
    var b, n := AddPlannedChunk(job, plan), |job.chunks|;
    assert forall p: nat :: p < n ==> b.chunks[p] == job.chunks[p];
    assert b.chunks[n] == PlannedChunk(job, plan);
    assert Waiting(b) == Waiting(job) + {n};
  }

  /** `b` is `job` planned ahead as far as it has to be, and no further. What was planned before
      stays, and the new takes are untried and in the job's voice. */
  ghost predicate IsPlannedAhead(job: Job, b: Job, cfg: SchedulerConfig) {
    && (Exhausted(b) || |Waiting(b)| >= cfg.planAhead || IsFarAhead(job, cfg))
    && (b == job || (|Waiting(job)| < cfg.planAhead && |Waiting(b)| <= cfg.planAhead && !IsFarAhead(job, cfg)))
    && job.chunks <= b.chunks
    && forall p :: |job.chunks| <= p < |b.chunks| ==>
         b.chunks[p].voice == job.voice && b.chunks[p].attempts == 0 && b.chunks[p].status.Planned?
  }

  lemma FurtherAhead(job: Job, plan: ChunkPlan, b: Job, cfg: SchedulerConfig)
    requires |Waiting(job)| < cfg.planAhead && !IsFarAhead(job, cfg)
    requires IsPlannedAhead(AddPlannedChunk(job, plan), b, cfg)
    ensures IsPlannedAhead(job, b, cfg)
  {
    OneMoreWaits(job, plan);
    var n := |job.chunks|;
    assert AddPlannedChunk(job, plan).chunks[n] == b.chunks[n];
    hide Waiting;
  }

  lemma {:induction false} LoopPlansAhead(job: Job, cfg: SchedulerConfig)
    requires cfg.Valid()
    ensures IsPlannedAhead(job, PlanLoop(job, cfg), cfg)
    decreases Unplanned(job)
  {
    hide PlanNext, NeedsMorePlanning;
    PlansMoreExactlyWhen(job, cfg);
    if NeedsMorePlanning(job, cfg) {
      match PlanNext(job.text, job.cursor, cfg.planner) {
        case None =>
          SettleFrame(job.(cursor := -1));
          assert Waiting(FinishPlanning(job)) == Waiting(job);
        case Some(plan) =>
          LoopPlansAhead(AddPlannedChunk(job, plan), cfg);
          FurtherAhead(job, plan, PlanLoop(job, cfg), cfg);
      }
    }
  }

  /** One pass over a job: nothing for a job that is paused, completed or exhausted; any other is
      planned ahead until enough takes wait, the listener is far ahead, or the text is used up. */
  lemma PlansAheadAsFarAsNeeded(job: Job, cfg: SchedulerConfig)
    requires cfg.Valid()
    ensures job.status.JobPaused? || job.status.JobCompleted? || Exhausted(job) ==> EnsurePlanned(job, cfg) == job
    ensures !(job.status.JobPaused? || job.status.JobCompleted?) ==>
      IsPlannedAhead(job, EnsurePlanned(job, cfg), cfg)
  {
    LoopPlansAhead(job, cfg);
  }
}
