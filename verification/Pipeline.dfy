/** The render pipeline as a transition system: user commands interleave with the steps
    of a scheduler tick, which has at most one batch in flight
    (server/app/scheduler/service.py, server/app/jobs/manager.py). */
module Pipeline {
  import opened Wrappers
  import opened Planner
  import opened JobModel
  import opened JobInvariants

  /** A chunk record: a row of the job table and a position in its chunk list. */
  datatype Ref = Ref(job: nat, pos: nat)

  datatype Rendered = Rendered(duration: real, audio: Audio)

  /** Where the tick stands. Between two phases user commands may run. */
  datatype Phase =
    | Idle
    | Ranked(refs: seq<Ref>)
    | OnGpu(batch: seq<Ref>, spoken: seq<Audio>)
    | Landing(batch: seq<Ref>, results: seq<Rendered>, done: nat)

  datatype System = System(jobs: seq<Job>, phase: Phase, dispatches: nat)

  datatype SchedulerConfig = SchedulerConfig(
    planner: PlannerConfig, planAhead: nat, renderAhead: real, maxAttempts: nat)
  {
    predicate Valid() { planner.Valid() && planAhead >= 1 && maxAttempts >= 1 }
  }

  datatype Step =
    | Create(source: string, model: string, language: string, voice: string, now: real)
    | Activate(job: nat, now: real)
    | Pause(job: nat, now: real)
    | Resume(job: nat)
    | Playback(job: nat, position: real, playing: bool, now: real)
    | RenderToEnd(job: nat, enabled: bool)
    | ExpireListeners(now: real, timeout: real)
    | ChangeVoice(job: nat, voice: string, rerender: bool)
    | Reprocess(job: nat, index: nat, newText: Option<string>, newVoice: Option<string>)
    | SwitchTake(job: nat, index: nat, version: nat)
    | Reactivate(job: nat)
    | Trash(job: nat)
    | Restore(job: nat)
    | Purge(job: nat)
    | PlanAhead(job: nat, cfg: SchedulerConfig)
    | Rank
    | Skip
    | Dispatch(batch: seq<Ref>)
    | ReturnResults(durations: seq<real>)
    | ReturnFailure(error: string, maxAttempts: nat)
    | ReturnVramError
    | Land
    | RequeueLeftovers

  // ---- planning ahead ----

  predicate CountsAsPlanned(c: Chunk, planVersion: nat) {
    IsPending(c.status) && c.planVersion == planVersion && !c.deprecated
  }

  function PlannedAhead(chunks: seq<Chunk>, planVersion: nat): nat {
    if chunks == [] then 0 else
      PlannedAhead(chunks[..|chunks| - 1], planVersion) +
      (if CountsAsPlanned(chunks[|chunks| - 1], planVersion) then 1 else 0)
  }

  predicate NeedsMorePlanning(job: Job, cfg: SchedulerConfig) {
    && PlannedAhead(job.chunks, job.planVersion) < cfg.planAhead
    && !(cfg.renderAhead > 0.0 && !job.renderToEnd && job.buffered >= cfg.renderAhead)
  }

  function Unplanned(job: Job): int { if Exhausted(job) then 0 else |job.text| - job.cursor + 1 }

  /** The planning loop of one job. */
  function PlanLoop(job: Job, cfg: SchedulerConfig): Job
    requires cfg.Valid()
    decreases Unplanned(job)
  {
    if !NeedsMorePlanning(job, cfg) then job else
      match PlanNext(job.text, job.cursor, cfg.planner)
      case None => FinishPlanning(job)
      case Some(plan) => PlanLoop(AddPlannedChunk(job, plan), cfg)
  }

  /** `_ensure_planned_chunks` for one job. */
  function EnsurePlanned(job: Job, cfg: SchedulerConfig): Job
    requires cfg.Valid()
  {
    if job.status.JobPaused? || job.status.JobCompleted? || Exhausted(job) then job
    else PlanLoop(job, cfg)
  }

  // ---- ranking ----

  predicate IsVisible(job: Job) { !job.trashed && !job.purged }

  predicate IsRenderable(job: Job, p: nat)
    requires p < |job.chunks|
  {
    && IsVisible(job) && !job.status.JobPaused?
    && job.chunks[p].status.Planned? && job.chunks[p].planVersion == job.planVersion
    && !job.chunks[p].deprecated
  }

  function RenderableOf(job: Job, j: nat, n: nat): seq<Ref>
    requires n <= |job.chunks|
  {
    if n == 0 then []
    else RenderableOf(job, j, n - 1) + (if IsRenderable(job, n - 1) then [Ref(j, n - 1)] else [])
  }

  /** `renderable_chunks` over the first `m` jobs. */
  function RenderableRefs(jobs: seq<Job>, m: nat): seq<Ref>
    requires m <= |jobs|
  {
    if m == 0 then []
    else RenderableRefs(jobs, m - 1) + RenderableOf(jobs[m - 1], m - 1, |jobs[m - 1].chunks|)
  }

  predicate ValidRef(jobs: seq<Job>, r: Ref) { r.job < |jobs| && r.pos < |jobs[r.job].chunks| }

  ghost predicate ValidRefs(jobs: seq<Job>, refs: seq<Ref>) {
    forall k :: 0 <= k < |refs| ==> ValidRef(jobs, refs[k])
  }

  ghost predicate DistinctRefs(refs: seq<Ref>) {
    forall k, l :: 0 <= k < l < |refs| ==> refs[k] != refs[l]
  }

  function ChunkOf(jobs: seq<Job>, r: Ref): Chunk
    requires ValidRef(jobs, r)
  {
    jobs[r.job].chunks[r.pos]
  }

  predicate SameGroup(jobs: seq<Job>, a: Ref, b: Ref)
    requires ValidRef(jobs, a) && ValidRef(jobs, b)
  {
    && jobs[a.job].model == jobs[b.job].model && jobs[a.job].language == jobs[b.job].language
    && ChunkOf(jobs, a).voice == ChunkOf(jobs, b).voice
  }

  /** A batch the scheduler may dispatch out of what it ranked. The user may have acted
      since: looking up a job that left the library ends the tick instead. */
  ghost predicate CanDispatch(jobs: seq<Job>, refs: seq<Ref>, batch: seq<Ref>) {
    && batch != [] && DistinctRefs(batch) && ValidRefs(jobs, refs)
    && (forall k :: 0 <= k < |refs| ==> IsVisible(jobs[refs[k].job]))
    && (forall k :: 0 <= k < |batch| ==> batch[k] in refs)
    && (forall k :: 0 <= k < |batch| ==> SameGroup(jobs, batch[0], batch[k]))
  }

  // ---- what happens to a batch ----

  function MarkAllRendering(jobs: seq<Job>, refs: seq<Ref>): (r: seq<Job>)
    requires ValidRefs(jobs, refs)
    ensures |r| == |jobs| && forall j :: 0 <= j < |jobs| ==> |r[j].chunks| == |jobs[j].chunks|
    decreases |refs|
  {
    if refs == [] then jobs else
      var r := refs[0];
      MarkAllRendering(jobs[r.job := MarkRendering(jobs[r.job], r.pos)], refs[1..])
  }

  /** `mark_chunk_planned` for each chunk. A purged job raises, which ends the loop. */
  function RequeueAll(jobs: seq<Job>, refs: seq<Ref>): (r: seq<Job>)
    requires ValidRefs(jobs, refs)
    ensures |r| == |jobs| && forall j :: 0 <= j < |jobs| ==> |r[j].chunks| == |jobs[j].chunks|
    decreases |refs|
  {
    if refs == [] || jobs[refs[0].job].purged then jobs else
      var r := refs[0];
      RequeueAll(jobs[r.job := MarkPlanned(jobs[r.job], r.pos)], refs[1..])
  }

  function FailOne(job: Job, p: nat, error: string, maxAttempts: nat): (r: Job)
    requires p < |job.chunks|
    ensures |r.chunks| == |job.chunks|
  {
    if job.chunks[p].attempts + 1 >= maxAttempts then MarkFailed(job, p, error)
    else MarkRetry(job, p, error)
  }

  function FailIn(jobs: seq<Job>, r: Ref, error: string, maxAttempts: nat): (b: seq<Job>)
    requires ValidRef(jobs, r)
    ensures |b| == |jobs| && forall j :: 0 <= j < |jobs| ==> |b[j].chunks| == |jobs[j].chunks|
  {
    if jobs[r.job].purged then jobs
    else jobs[r.job := FailOne(jobs[r.job], r.pos, error, maxAttempts)]
  }

  /** `_handle_batch_failure`. Chunks of purged jobs are skipped. */
  function FailAll(jobs: seq<Job>, refs: seq<Ref>, error: string, maxAttempts: nat): (r: seq<Job>)
    requires ValidRefs(jobs, refs)
    ensures |r| == |jobs| && forall j :: 0 <= j < |jobs| ==> |r[j].chunks| == |jobs[j].chunks|
    decreases |refs|
  {
    if refs == [] then jobs else
      FailAll(FailIn(jobs, refs[0], error, maxAttempts), refs[1..], error, maxAttempts)
  }

  function LandOne(jobs: seq<Job>, r: Ref, result: Rendered): seq<Job>
    requires ValidRef(jobs, r)
  {
    if jobs[r.job].purged then jobs
    else jobs[r.job := MarkWritten(jobs[r.job], r.pos, result.duration, result.audio)]
  }

  // ---- one step ----

  function On(s: System, j: nat, job: Job): System
    requires j < |s.jobs|
  {
    s.(jobs := s.jobs[j := job])
  }

  predicate Sees(s: System, j: nat) { j < |s.jobs| && IsVisible(s.jobs[j]) }

  function ExpireAll(jobs: seq<Job>, now: real, timeout: real): seq<Job> {
    seq(|jobs|, j requires 0 <= j < |jobs| =>
      if IsVisible(jobs[j]) then ExpireListener(jobs[j], now, timeout) else jobs[j])
  }

  /** The reprocess request: at most four takes of one index, cut from the live take. */
  function ReprocessChunk(job: Job, i: nat, newText: Option<string>, newVoice: Option<string>): Job {
    var at := ActiveTake(job, i);
    if at.None? || LatestVersion(job.chunks, i) >= 3 then job else
      var live := job.chunks[at.value];
      AddVersionedChunk(job, if newText.Some? then newText.value else live.text, live.charStart, live.charEnd,
                        if newVoice.Some? then newVoice.value else job.voice, i)
  }

  /** A user command; a rejected one changes nothing. */
  function Command(s: System, step: Step): System {
    match step
    case Create(source, model, language, voice, now) =>
      s.(jobs := s.jobs + [NewJob(source, model, language, voice, now)])
    case Activate(j, now) => if Sees(s, j) then On(s, j, ActivateJob(s.jobs[j], now)) else s
    case Pause(j, now) => if Sees(s, j) then On(s, j, PauseJob(s.jobs[j], now)) else s
    case Resume(j) => if Sees(s, j) then On(s, j, ResumeJob(s.jobs[j])) else s
    case Playback(j, position, playing, now) =>
      if Sees(s, j) then On(s, j, UpdatePlayback(s.jobs[j], position, playing, now)) else s
    case RenderToEnd(j, enabled) => if Sees(s, j) then On(s, j, SetRenderToEnd(s.jobs[j], enabled)) else s
    case ExpireListeners(now, timeout) => s.(jobs := ExpireAll(s.jobs, now, timeout))
    case ChangeVoice(j, voice, rerender) =>
      if Sees(s, j) then On(s, j, SetVoice(s.jobs[j], voice, rerender)) else s
    case Reprocess(j, i, newText, newVoice) =>
      if Sees(s, j) then On(s, j, ReprocessChunk(s.jobs[j], i, newText, newVoice)) else s
    case SwitchTake(j, i, v) =>
      if Sees(s, j) && TakePosition(s.jobs[j].chunks, i, v).Some? then On(s, j, SetActiveVersion(s.jobs[j], i, v))
      else s
    case Reactivate(j) => if Sees(s, j) then On(s, j, ReactivateJob(s.jobs[j])) else s
    case Trash(j) => if Sees(s, j) then On(s, j, s.jobs[j].(trashed := true)) else s
    case Restore(j) =>
      if j < |s.jobs| && !s.jobs[j].purged then On(s, j, s.jobs[j].(trashed := false)) else s
    case Purge(j) =>
      if j < |s.jobs| && s.jobs[j].trashed then On(s, j, s.jobs[j].(purged := true)) else s
    case _ => s
  }

  function Speak(jobs: seq<Job>, batch: seq<Ref>, dispatch: nat): seq<Audio>
    requires ValidRefs(jobs, batch)
  {
    seq(|batch|, k requires 0 <= k < |batch| =>
      Audio(ChunkOf(jobs, batch[k]).text, ChunkOf(jobs, batch[k]).voice, dispatch))
  }

  /** The worker hands back one result per chunk of the prefix it managed to render. */
  function Package(spoken: seq<Audio>, durations: seq<real>): seq<Rendered>
    requires |durations| <= |spoken|
  {
    seq(|durations|, k requires 0 <= k < |durations| => Rendered(durations[k], spoken[k]))
  }

  /** A step of the scheduler's tick; one that does not apply here changes nothing. */
  ghost function Tick(s: System, step: Step): System {
    match (step, s.phase)
    case (PlanAhead(j, cfg), Idle) =>
      if Sees(s, j) && cfg.Valid() then On(s, j, EnsurePlanned(s.jobs[j], cfg)) else s
    case (Rank, Idle) => s.(phase := Ranked(RenderableRefs(s.jobs, |s.jobs|)))
    case (Skip, Ranked(_)) => s.(phase := Idle)
    case (Dispatch(batch), Ranked(refs)) =>
      if CanDispatch(s.jobs, refs, batch) then
        System(MarkAllRendering(s.jobs, batch), OnGpu(batch, Speak(s.jobs, batch, s.dispatches)), s.dispatches + 1)
      else s
    case (ReturnResults(durations), OnGpu(batch, spoken)) =>
      if 0 < |durations| <= |spoken| then s.(phase := Landing(batch, Package(spoken, durations), 0)) else s
    case (ReturnFailure(error, maxAttempts), OnGpu(batch, _)) =>
      if ValidRefs(s.jobs, batch) then
        s.(jobs := FailAll(s.jobs, batch, error, maxAttempts), phase := Idle)
      else s
    case (ReturnVramError, OnGpu(batch, _)) =>
      if ValidRefs(s.jobs, batch) then s.(jobs := RequeueAll(s.jobs, batch), phase := Idle) else s
    case (Land, Landing(batch, results, done)) =>
      if done < |results| && done < |batch| && ValidRef(s.jobs, batch[done]) then
        s.(jobs := LandOne(s.jobs, batch[done], results[done]), phase := Landing(batch, results, done + 1))
      else s
    case (RequeueLeftovers, Landing(batch, results, done)) =>
      if done == |results| <= |batch| && ValidRefs(s.jobs, batch[done..]) then
        s.(jobs := RequeueAll(s.jobs, batch[done..]), phase := Idle)
      else s
    case _ => s
  }

  predicate IsTick(step: Step) {
    || step.PlanAhead? || step.Rank? || step.Skip? || step.Dispatch? || step.ReturnResults?
    || step.ReturnFailure? || step.ReturnVramError? || step.Land? || step.RequeueLeftovers?
  }

  ghost function Next(s: System, step: Step): System {
    if IsTick(step) then Tick(s, step) else Command(s, step)
  }

  ghost function Run(s: System, steps: seq<Step>): System
    decreases |steps|
  {
    if steps == [] then s else Run(Next(s, steps[0]), steps[1..])
  }

  const Empty := System([], Idle, 0)

  // ---- the system invariant ----

  /** The chunks the batch on the GPU still owns. */
  function InFlight(phase: Phase): seq<Ref> {
    match phase
    case OnGpu(batch, _) => batch
    case Landing(batch, _, done) => if done <= |batch| then batch[done..] else []
    case _ => []
  }

  function Flight(refs: seq<Ref>, j: nat): set<nat> {
    set k | 0 <= k < |refs| && refs[k].job == j :: refs[k].pos
  }

  /** Every job that still exists satisfies the job invariant, with the chunks of `refs`
      in flight. */
  ghost predicate JobsInv(jobs: seq<Job>, refs: seq<Ref>) {
    && ValidRefs(jobs, refs) && DistinctRefs(refs)
    && forall j: nat :: j < |jobs| && !jobs[j].purged ==> JobInv(jobs[j], Flight(refs, j))
  }

  /** `audio` is the chunk's own text in the chunk's own voice. */
  ghost predicate Matches(jobs: seq<Job>, r: Ref, audio: Audio) {
    ValidRef(jobs, r) && (!jobs[r.job].purged ==>
      audio.text == ChunkOf(jobs, r).text && audio.voice == ChunkOf(jobs, r).voice)
  }

  ghost predicate PhaseInv(jobs: seq<Job>, phase: Phase) {
    match phase
    case Idle => true
    case Ranked(refs) => ValidRefs(jobs, refs) && forall k :: 0 <= k < |refs| ==>
      !jobs[refs[k].job].purged ==> ChunkOf(jobs, refs[k]).status.Planned?
    case OnGpu(batch, spoken) => |spoken| == |batch| && forall k :: 0 <= k < |batch| ==>
      Matches(jobs, batch[k], spoken[k])
    case Landing(batch, results, done) => done <= |results| <= |batch| && forall k :: done <= k < |results| ==>
      Matches(jobs, batch[k], results[k].audio)
  }

  ghost predicate Inv(s: System) {
    JobsInv(s.jobs, InFlight(s.phase)) && PhaseInv(s.jobs, s.phase)
  }
}
