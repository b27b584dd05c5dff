/** Jobs and chunk takes (server/app/jobs/models.py), and what each command of the job
    manager does to one job (server/app/jobs/manager.py). Every function here is the
    specification that a method of `JobManager` is proved against. */
module JobModel {
  import opened Wrappers
  import opened Planner
  import N = Normalize

  datatype JobStatus = JobQueued | JobRendering | JobPaused | JobPlaying | JobCompleted | JobFailed

  datatype ChunkStatus =
    Planned | Queued | Rendering | Written | Stale | Failed | Reprocessing | MaxRetriesExceeded

  /** Rendered audio, identified by what was spoken, by whom, and in which dispatch. */
  datatype Audio = Audio(text: string, voice: string, dispatch: nat)

  datatype Chunk = Chunk(
    index: nat, version: nat, text: string, voice: string, planVersion: nat,
    charStart: nat, charEnd: nat, status: ChunkStatus, startSeconds: real, duration: real,
    segment: Option<Audio>, error: Option<string>, deprecated: bool, reprocessing: bool,
    attempts: nat)

  /** `cursor` is `planner_cursor.offset`: negative once planning is exhausted.
      `trashed` is a set `deleted_at`; a purged row is gone for every command. */
  datatype Job = Job(
    text: string, model: string, language: string, voice: string, submitted: real,
    trashed: bool, purged: bool,
    planVersion: nat, audioEpoch: nat, status: JobStatus, listening: bool, renderToEnd: bool,
    cursor: int, chunks: seq<Chunk>, nextIndex: nat, active: map<nat, nat>,
    buffered: real, completedSeconds: real, writtenCount: nat, contiguous: real,
    currentTime: real, isPlaying: bool, lastEvent: real)

  predicate IsPending(s: ChunkStatus) { s.Planned? || s.Queued? || s.Rendering? }

  predicate IsUnfinished(s: ChunkStatus) { IsPending(s) || s.Reprocessing? }

  /** `_REVOICEABLE_STATUSES`. */
  predicate IsRevoiceable(s: ChunkStatus) { !s.Written? && !s.Rendering? }

  predicate IsTerminal(s: JobStatus) { s.JobCompleted? || s.JobFailed? }

  predicate Exhausted(job: Job) { job.cursor < 0 }

  predicate UnfinishedAt(chunks: seq<Chunk>, p: nat)
    requires p < |chunks|
  {
    !chunks[p].deprecated && IsUnfinished(chunks[p].status)
  }

  predicate HasUnfinishedChunks(chunks: seq<Chunk>) {
    exists p :: 0 <= p < |chunks| && UnfinishedAt(chunks, p)
  }

  // ---- lookups ----

  /** Position of the live take of `i`: the first record of that index not superseded. */
  function LivePosition(chunks: seq<Chunk>, i: nat): (r: Option<nat>)
    ensures r.Some? ==> r.value < |chunks| && chunks[r.value].index == i && !chunks[r.value].deprecated
    ensures forall p :: 0 <= p < |chunks| && chunks[p].index == i && !chunks[p].deprecated ==>
      r.Some? && r.value <= p
  {
    if chunks == [] then None
    else if chunks[0].index == i && !chunks[0].deprecated then Some(0)
    else match LivePosition(chunks[1..], i)
      case None => None
      case Some(p) => Some(p + 1)
  }

  /** Position of take `v` of index `i`. */
  function TakePosition(chunks: seq<Chunk>, i: nat, v: nat): (r: Option<nat>)
    ensures r.Some? ==> r.value < |chunks| && chunks[r.value].index == i && chunks[r.value].version == v
    ensures forall p :: 0 <= p < |chunks| && chunks[p].index == i && chunks[p].version == v ==>
      r.Some? && r.value <= p
  {
    if chunks == [] then None
    else if chunks[0].index == i && chunks[0].version == v then Some(0)
    else match TakePosition(chunks[1..], i, v)
      case None => None
      case Some(p) => Some(p + 1)
  }

  /** `active_chunk`: the record of the version the active map names. */
  function ActiveTake(job: Job, i: nat): Option<nat> {
    if i in job.active then TakePosition(job.chunks, i, job.active[i]) else None
  }

  /** `get_latest_chunk_version`, -1 when the index is absent. */
  function LatestVersion(chunks: seq<Chunk>, i: nat): (v: int)
    ensures v >= -1
    ensures forall p :: 0 <= p < |chunks| && chunks[p].index == i ==> chunks[p].version <= v
  {
    if chunks == [] then -1 else
      var v := LatestVersion(chunks[1..], i);
      if chunks[0].index == i && chunks[0].version > v then chunks[0].version else v
  }

  // ---- the timeline, defined index by index ----

  predicate WrittenAt(chunks: seq<Chunk>, i: nat) {
    LivePosition(chunks, i).Some? && chunks[LivePosition(chunks, i).value].status.Written?
  }

  function DurationAt(chunks: seq<Chunk>, i: nat): real {
    if WrittenAt(chunks, i) then chunks[LivePosition(chunks, i).value].duration else 0.0
  }

  /** Where index `i` starts: the written seconds of all smaller indexes. */
  function StartAt(chunks: seq<Chunk>, i: nat): real {
    if i == 0 then 0.0 else StartAt(chunks, i - 1) + DurationAt(chunks, i - 1)
  }

  function WrittenBelow(chunks: seq<Chunk>, n: nat): nat {
    if n == 0 then 0 else WrittenBelow(chunks, n - 1) + (if WrittenAt(chunks, n - 1) then 1 else 0)
  }

  /** No hole among the first `n` indexes. */
  predicate NoHoleBelow(chunks: seq<Chunk>, n: nat) {
    forall i :: 0 <= i < n ==> WrittenAt(chunks, i)
  }

  /** Seconds that can be played from index 0 without meeting a hole. */
  function PlayableBelow(chunks: seq<Chunk>, n: nat): real {
    if n == 0 then 0.0
    else PlayableBelow(chunks, n - 1) + (if NoHoleBelow(chunks, n) then DurationAt(chunks, n - 1) else 0.0)
  }

  function Max(a: real, b: real): real { if a >= b then a else b }

  function Placed(chunks: seq<Chunk>, c: Chunk): Chunk {
    if !c.deprecated && c.status.Written? then c.(startSeconds := StartAt(chunks, c.index)) else c
  }

  /** `_refresh_derived`: cached values become what the timeline says they are. */
  function RefreshDerived(job: Job): Job {
    var contiguous := PlayableBelow(job.chunks, job.nextIndex);
    job.(chunks := seq(|job.chunks|, p requires 0 <= p < |job.chunks| => Placed(job.chunks, job.chunks[p])),
         writtenCount := WrittenBelow(job.chunks, job.nextIndex),
         contiguous := contiguous,
         buffered := Max(0.0, contiguous - job.currentTime),
         completedSeconds := Max(job.completedSeconds, job.currentTime))
  }

  /** `_settle_status`. */
  function SettleStatus(job: Job): Job {
    if job.status.JobPaused? || IsTerminal(job.status) then job
    else if Exhausted(job) && !HasUnfinishedChunks(job.chunks) then
      job.(status := JobCompleted, listening := false)
    else job.(status := if job.listening then JobPlaying else JobQueued)
  }

  // ---- listening and lifecycle ----

  function NewJob(source: string, model: string, language: string, voice: string, now: real): Job {
    Job(N.NormalizeSourceText(source), model, language, voice, now, false, false,
        1, 0, JobQueued, false, false, 0, [], 0, map[], 0.0, 0.0, 0, 0.0, 0.0, false, now)
  }

  function ActivateJob(job: Job, now: real): Job {
    var j := job.(listening := true, lastEvent := now);
    if IsTerminal(job.status) then j else j.(isPlaying := true, status := JobPlaying)
  }

  function PauseJob(job: Job, now: real): Job {
    var j := job.(listening := false, isPlaying := false, lastEvent := now);
    if IsTerminal(job.status) then j else j.(status := JobPaused)
  }

  function ResumeJob(job: Job): Job {
    if job.status.JobCompleted? then job else job.(status := JobQueued)
  }

  function UpdatePlayback(job: Job, position: real, playing: bool, now: real): Job {
    if IsTerminal(job.status) then job.(listening := playing, lastEvent := now) else
      var j := job.(currentTime := position, isPlaying := playing, lastEvent := now,
                    completedSeconds := Max(job.completedSeconds, position),
                    buffered := Max(0.0, job.contiguous - position));
      if playing && !job.status.JobPaused? then j.(listening := true, status := JobPlaying) else j
  }

  function SetRenderToEnd(job: Job, enabled: bool): Job { job.(renderToEnd := enabled) }

  /** One job of `expire_stale_listeners`. */
  function ExpireListener(job: Job, now: real, timeout: real): Job {
    if timeout <= 0.0 || !job.listening || now - job.lastEvent <= timeout then job
    else job.(listening := false, status := if job.status.JobPlaying? then JobQueued else job.status)
  }

  function ReactivateJob(job: Job): Job {
    if IsTerminal(job.status) then job.(status := JobQueued, listening := false, isPlaying := false)
    else job
  }

  // ---- voices ----

  /** `_apply_voice`: back in the queue, under the job's voice, with nothing rendered. */
  function ApplyVoice(c: Chunk, voice: string, planVersion: nat): Chunk {
    c.(voice := voice, planVersion := planVersion, status := Planned, attempts := 0, error := None,
       reprocessing := false, duration := 0.0, startSeconds := 0.0, segment := None)
  }

  predicate IsRequeuedBy(c: Chunk, rerender: bool) {
    !c.deprecated && !c.status.Rendering? && (rerender || IsRevoiceable(c.status))
  }

  function Revoice(c: Chunk, voice: string, planVersion: nat, rerender: bool): Chunk {
    if IsRequeuedBy(c, rerender) then ApplyVoice(c, voice, planVersion)
    else if !c.deprecated && c.status.Rendering? && !rerender then c.(planVersion := planVersion)
    else c
  }

  /** `set_voice` up to the point where the derived values are refreshed. */
  function Revoiced(job: Job, voice: string, rerender: bool): Job {
    var version := job.planVersion + 1;
    var j := job.(voice := voice, planVersion := version,
                  chunks := seq(|job.chunks|, p requires 0 <= p < |job.chunks| =>
                    Revoice(job.chunks[p], voice, version, rerender)));
    if rerender then
      j.(audioEpoch := job.audioEpoch + 1, completedSeconds := 0.0, currentTime := 0.0, isPlaying := false)
    else j
  }

  /** A finished job with work to redo leaves its terminal state. */
  function Reopened(job: Job): Job {
    if IsTerminal(job.status) then job.(status := JobQueued) else job
  }

  predicate AnyRequeued(chunks: seq<Chunk>, rerender: bool) {
    exists p :: 0 <= p < |chunks| && IsRequeuedBy(chunks[p], rerender)
  }

  function SetVoice(job: Job, voice: string, rerender: bool): Job {
    if job.voice == voice && !rerender then job else
      var j := Revoiced(job, voice, rerender);
      if rerender || AnyRequeued(job.chunks, rerender) then SettleStatus(RefreshDerived(Reopened(j)))
      else RefreshDerived(j)
  }

  // ---- planning ----

  function PlannedChunk(job: Job, plan: ChunkPlan): Chunk {
    Chunk(job.nextIndex, 0, plan.text, job.voice, job.planVersion, plan.charStart, plan.charEnd,
          Planned, 0.0, 0.0, None, None, false, false, 0)
  }

  function AddPlannedChunk(job: Job, plan: ChunkPlan): Job {
    job.(chunks := job.chunks + [PlannedChunk(job, plan)],
         nextIndex := job.nextIndex + 1,
         active := job.active[job.nextIndex := 0],
         cursor := if plan.charEnd >= |job.text| then -1 else plan.charEnd)
  }

  function FinishPlanning(job: Job): Job { SettleStatus(job.(cursor := -1)) }

  // ---- what becomes of a chunk ----

  /** `_requeue_superseded_chunk` applies: the plan moved on while it was in flight. */
  predicate IsSuperseded(job: Job, c: Chunk) { !c.deprecated && c.planVersion != job.planVersion }

  function OrSuperseded(job: Job, c: Chunk): Chunk {
    if IsSuperseded(job, c) then ApplyVoice(c, job.voice, job.planVersion) else c
  }

  function Put(job: Job, p: nat, c: Chunk): Job
    requires p < |job.chunks|
  {
    job.(chunks := job.chunks[p := c])
  }

  function MarkRendering(job: Job, p: nat): Job
    requires p < |job.chunks|
  {
    var j := Put(job, p, job.chunks[p].(status := Rendering));
    if job.status.JobPaused? then j else j.(status := JobRendering)
  }

  function RequeueAs(job: Job, p: nat, c: Chunk): Job
    requires p < |job.chunks|
  {
    SettleStatus(Put(job, p, OrSuperseded(job, c.(status := Planned))))
  }

  function MarkPlanned(job: Job, p: nat): Job
    requires p < |job.chunks|
  {
    RequeueAs(job, p, job.chunks[p])
  }

  /** A failed attempt is counted. */
  function Charged(c: Chunk, error: string): Chunk { c.(attempts := c.attempts + 1, error := Some(error)) }

  function MarkRetry(job: Job, p: nat, error: string): Job
    requires p < |job.chunks|
  {
    RequeueAs(job, p, Charged(job.chunks[p], error))
  }

  function MarkFailed(job: Job, p: nat, error: string): Job
    requires p < |job.chunks|
  {
    var c := job.chunks[p].(status := Failed, error := Some(error));
    SettleStatus(RefreshDerived(Put(job, p, OrSuperseded(job, c))))
  }

  function MarkWritten(job: Job, p: nat, duration: real, audio: Audio): Job
    requires p < |job.chunks|
  {
    var c := job.chunks[p];
    if IsSuperseded(job, c) then Put(job, p, ApplyVoice(c, job.voice, job.planVersion))
    else
      var written := c.(status := Written, duration := duration, segment := Some(audio), error := None);
      SettleStatus(RefreshDerived(Put(job, p, written)))
  }

  // ---- takes ----

  function Activated(c: Chunk, i: nat, v: nat): Chunk {
    if c.index == i then c.(deprecated := c.version != v) else c
  }

  function ActivatedAll(chunks: seq<Chunk>, i: nat, v: nat): seq<Chunk> {
    seq(|chunks|, p requires 0 <= p < |chunks| => Activated(chunks[p], i, v))
  }

  /** `activate_chunk_version`, for a version that exists. */
  function ActivateVersion(job: Job, i: nat, v: nat): Job {
    job.(chunks := ActivatedAll(job.chunks, i, v),
         active := job.active[i := v])
  }

  function VersionedChunk(job: Job, text: string, start: nat, end: nat, voice: string, i: nat): Chunk {
    Chunk(i, LatestVersion(job.chunks, i) + 1, text, voice, job.planVersion, start, end,
          Planned, 0.0, 0.0, None, None, false, true, 0)
  }

  /** `add_versioned_chunk`, for an index that has an active take. */
  function AddVersionedChunk(job: Job, text: string, start: nat, end: nat, voice: string, i: nat): Job {
    var c := VersionedChunk(job, text, start, end, voice, i);
    var j := ReactivateJob(job);
    SettleStatus(RefreshDerived(ActivateVersion(j.(chunks := j.chunks + [c]), i, c.version)))
  }

  /** `set_active_chunk_version`, for a version that exists. */
  function SetActiveVersion(job: Job, i: nat, v: nat): Job {
    var j := ActivateVersion(job, i, v);
    SettleStatus(RefreshDerived(j.(audioEpoch := j.audioEpoch + 1)))
  }
}
