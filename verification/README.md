# ReadFlow: a verified model

ReadFlow reads long texts aloud. A server cuts a text into chunks, a scheduler renders them in batches on one
GPU, and a browser player streams the audio while the rest is still being rendered. Texts live in a library of
folders with a trash. This project models the parts of it that keep state, in Dafny, and proves what they promise.

`dafny verify dfyconfig.toml` checks the whole project.

## How it is put together

The files follow the program.

- **Text.** `Text`, `Normalize` (`normalize_source_text`) and `Planner` (`ChunkPlanner`).
- **Jobs.** `JobModel` holds the jobs, their chunk takes, and what each command makes of a job, as functions.
  `JobManager` (module `JobManagement`) is the class that edits the job table in place; each of its methods is
  proved to make exactly the change that the function describes, on any take and any span. `Valid` is what no call
  breaks: the takes of a job differ in index or version. `Sound` is the invariant of `JobInvariants`, and each
  method says when it keeps that. `TakeEffects` says, field by field, what each command makes of each take.
- **The render pipeline.** `Pipeline` is the transition system: one job table, at most one batch in flight, the
  steps of a scheduler tick, and every user command, in any interleaving. A step that does not apply changes
  nothing. `AnyRun` is the part of the invariant that every step keeps, and `PipelineSafety` the whole of it, for
  the steps that keep it; `PipelineTheorems` shows that there are no others, and with `PipelineHistory`,
  `FullRerender` and `Completion` says what follows. "Any run" means any sequence of steps from the empty server, a
  "sound run" one without the two kinds of step that `StepIsSoundExactlyWhen` names. `PipelineWitnesses` runs into
  both of them. `TakeLife` is the list of all the ways in which one step can change a take, and what follows for
  attempts and versions; `VoiceChanges`, `Listeners` and `PlanningAhead` are the life of a voice change, what
  listeners do and what a pause means, and how far a job is planned. `Scheduler`
  (module `SchedulerLoops`) and `Worker` are the loops around it.
- **Choosing a batch.** `DispatchOrder` orders the chunks, `Residency` and `ResidencyRuns` decide which model and
  voice keep the GPU, `BatchSelection` sizes the batch and hands it to the pipeline. `Sorting` is shared.
- **The library.** `Forest` and `SiblingOrder` are parent pointers and manual positions; `LibraryModel` the
  commands as functions on the tables; `LibraryTree` the tree helpers; `LibraryService` (module `LibraryCommands`)
  the class whose methods run the commands; `TrashInvariants`, `TrashRoundTrip`, `UndoDelete` and
  `LibraryTheorems` what they promise, and `LibraryEffects` which rows each command takes along.
- **The player.** `AppendQueue`: the window, the queue, the append loop and eviction, as an event system, with the
  class `StreamPlayer` that runs it.

Ids of jobs, folders and trash entries are numbers that are never given out twice. Failures the program signals
with an exception are outcomes here. A `flight` field of the job manager names the chunks that the batch on the
GPU still owns; it is ghost, and exists to say what may be rendering.

## Where the code and its documentation differ

The model follows the code. Each of these is stated as a lemma.

- *Residency.* The configuration promises a model `model_residency_batches` batches before another may have the
  GPU (`server/app/core/config.py:82-86`). The scheduler announces its state between counting a batch and loading
  its model (`server/app/scheduler/service.py:780-788`), and announcing synchronises residency with the model that
  is loaded, which is still the old one. So a batch that loads its model counts for neither window: two models
  take turns in blocks of `model_residency_batches + 1` (`ResidencyRuns.TurnsFromColdStart`), which no contested
  model exceeds (`ResidencyRuns.NoLongerRun`), and a voice can lose the GPU after one batch
  (`ResidencyRuns.LoadingBatchIsNotCounted`, `ResidencyRuns.VoiceCanBeLeftAtOnce`; exactly when, in
  `ResidencyRuns.OpenVoiceLeftExactlyWhen`).
- *Nothing is left rendering.* The two loops that put chunks back untouched stop at the first purged job
  (`server/app/scheduler/service.py:804-805`, `server/app/scheduler/service.py:853-854`), so chunks behind it stay
  `RENDERING`. `PipelineTheorems.RequeueStrandsExactlyWhen` says exactly when, and
  `PipelineWitnesses.StrandingHappens` is a run that gets there. Results that are written and batches that fail
  are guarded against this, and need no condition.
- *A full re-render is consistent* (`server/app/jobs/manager.py:257-276`), unless a second, partial voice change
  follows before the batch in flight is back: that one pins the chunk to the newest plan, and the audio from
  before both commands is kept (`FullRerender.LateAudioIsKeptExactlyWhen`).
- *Take switches.* `set_active_chunk_version` accepts any take. One that waits under an outdated plan is never
  picked again, and an unfinished one in a completed job leaves the job completed.
  `JobInvariants.SwitchIsSoundExactlyWhen` gives the exact condition, which every rendered take meets, and
  `PipelineWitnesses.ForgottenTakeHappens` a run after which such a take is live.
- *Reprocessing.* The request handler's comment speaks of three attempts (`server/app/api/router.py:317`); the
  check lets an index have four takes, the original included (`TakeLife.AtMostFourTakes`).
- *Restoring appends* (`server/app/library/service.py:442-443`) to a parent that is live when the request comes
  in. Under a parent that comes back in the same request, positions are counted from 0, whatever its own children
  bring back (`LibraryTheorems.RestoredParentCountsFromZero`), so an entry can come back in front
  (`LibraryTheorems.RestoredChildCanComeFirst`). `TrashRoundTrip.RestoreAppendsExactlyWhen` says when it does not.
- *The append queue* stops for good when a fill finds a chunk while an eviction holds the lock: the loop is not
  started then, and later fills wait for the queue to be empty (`AppendQueue.StallsExactlyWhen`,
  `AppendQueue.StalledForGood`, `AppendQueue.StallHappens`).
- *The planner's window* is exact at every offset, not only where a chunk can start
  (`Planner.BoundedWindowRefinesWhole`). Starting on a word is needed for progress instead
  (`Planner.PlanNextAdvances`, `Planner.WhitespaceOffsetCanStop`).

## Model

| member | source | states |
|---|---|---|
| Normalize.NormalizedIsCanonical | server/app/chunking/normalize.py:9-29 | Whatever the input, the result has no carriage return, no tab, no two adjacent spaces, no three adjacent newlines, and neither starts nor ends with whitespace |
| Normalize.NormalizeIsIdempotent | server/app/chunking/normalize.py:9-29 | A second pass changes nothing, and the canonical texts are exactly the fixed points |
| Normalize.NormalizeKeepsSpokenText | server/app/chunking/normalize.py:9-29 | Normalising touches whitespace only: every other character survives, in order |
| Normalize.NormalizeKeepsTheLayout | server/app/chunking/normalize.py:9-29 | It keeps the words and how far apart they are: what was separated by a space, a line end or a blank line, of whatever kind, still is, and nothing else is |
| Planner.BoundedWindowRefinesWhole | server/app/chunking/planner.py:41-66 | On every text, at every offset, the planner that looks at a bounded window plans exactly what one that looks at the whole remainder would |
| Planner.PlanNextAdvances | server/app/chunking/planner.py:41-66 | From a word, planning stops only at the end; otherwise it advances, its chunk is a non-empty piece of the text within the limit, only whitespace lies between the chunk and the next offset, and that is again a word or the end |
| Planner.PlanNextChunk | server/app/chunking/planner.py:41-66 | `plan_next` as it runs, with its loop over trailing whitespace, computes that plan |
| Planner.FindBoundaryIn | server/app/chunking/planner.py:68-91 | The first of paragraph, sentence and clause end that leaves enough text, else the last space, else the limit |
| Planner.CutsAtTheBestBoundary | server/app/chunking/planner.py:68-91 | A short window is taken whole; otherwise, within the limit, the last paragraph end is the cut if any leaves enough text, else the last sentence end, else the last clause end, else the last inner space, else the limit |
| Planner.FindLastBoundary | server/app/chunking/planner.py:93-97 | The loop over the matches returns the end of the last one |
| Planner.NormalizedStartsOnWord | server/app/jobs/manager.py:100-132 | A new job's text starts on a word, or is empty: planning can begin |
| Planner.WhitespaceOffsetCanStop | server/app/chunking/planner.py:48-54 | From an offset inside a long whitespace run the planner can give up with text left |
| JobManagement.ActiveChunks | server/app/jobs/models.py:179-184 | The live takes, sorted by index: one for each planned index, each at its own place |
| JobManagement.AnyUnfinished | server/app/jobs/models.py:196-208 | Whether some live take still has work ahead of it |
| JobManagement.Latest | server/app/jobs/models.py:210-212 | The highest version of an index, or -1 |
| JobManagement.ActivateTake | server/app/jobs/models.py:214-240 | Among the takes of one index exactly the chosen version stays live, and the active map names it; an unknown version changes nothing |
| JobManagement.Refresh | server/app/jobs/manager.py:512-540 | The pass with running totals computes what the timeline defines: where each written take starts, how many are written, and how much can be played without a hole |
| JobInvariants.SettleEstablishes | server/app/jobs/manager.py:490-510 | Settling the status of a job whose takes and totals are in order gives the whole job invariant |
| TakeEffects.SettlesTo | server/app/jobs/manager.py:490-510 | A job that is neither paused nor finished completes if and only if its text is used up and no live take is still to be dealt with; otherwise it is playing or queued, as somebody listens or not |
| JobManagement.RevoiceChunks | server/app/jobs/manager.py:282-303 | The loop of a voice change treats each take as `IsAfterVoiceChange` says, field by field, and reports whether any went back to the queue |
| JobManagement.JobManager.CreateJob | server/app/jobs/manager.py:100-132 | A new row with normalised text and an empty plan; the table stays sound |
| JobManagement.JobManager.PauseJob | server/app/jobs/manager.py:156-166 | Pausing stops the listener, leaves terminal jobs terminal, and keeps the invariant |
| Listeners.PausedJobsWait | server/app/jobs/manager.py:156-166 | Pausing a job of which nothing is ranked: along any run in which nobody activates or resumes it, it stays paused and no take of it goes to the GPU |
| PipelineTheorems.WakingPutsTakesOnOffer | server/app/jobs/manager.py:138-176 | In a sound run, activating or resuming a job that is not finished puts all its waiting live takes on offer |
| JobManagement.JobManager.UpdatePlayback | server/app/jobs/manager.py:178-215 | The new position, and a buffer that is again what is playable ahead of it |
| Listeners.PlaybackIsNoted | server/app/jobs/manager.py:178-215 | The position, the furthest position and the seconds left before the first hole; playing shows unless the job is paused; a finished job only notes that somebody listens |
| JobManagement.JobManager.ExpireStaleListeners | server/app/jobs/manager.py:231-255 | One pass that drops exactly the visible listeners that were silent for too long |
| Listeners.ListenerExpiresExactlyWhen | server/app/jobs/manager.py:231-255 | A listener is dropped if and only if there is one, a timeout is set, and it was silent for longer; a playing job is then queued |
| JobManagement.JobManager.SetVoice | server/app/jobs/manager.py:257-334 | The voice change, partial or full, on every take, with re-opening, refreshed totals and settled status |
| TakeEffects.VoiceChangeOnTakes | server/app/jobs/manager.py:257-334 | Take by take: what is neither on the GPU nor, in a partial change, written, waits in the new voice under the next plan with no attempt counted; a take on the GPU keeps voice, text and status, and only a partial change pins it to that plan; in a partial change recordings only move on the timeline; superseded takes stay as they are |
| TakeEffects.VoiceChangeOnStatus | server/app/jobs/manager.py:318-330 | A finished job opens again if there is something to redo, a paused one stays paused, and with nothing to redo the status stands |
| TakeEffects.RerenderStartsOver | server/app/jobs/manager.py:304-316 | A full re-render takes the listener back to the start |
| VoiceChanges.VoiceChangeTakesEffect | server/app/jobs/manager.py:257-347 | After any run and a change of voice, along any run without another one, a take switch or a reprocess in its own voice, every live take that is not on the GPU has the new voice, except what a partial change found written or on the GPU, which keeps the voice it had |
| JobManagement.JobManager.AddPlannedChunk | server/app/jobs/manager.py:349-378 | Any span becomes the live take of the next index, and the cursor moves behind it or is exhausted; the table stays sound if it is the span that the planner yields for an unfinished job |
| JobManagement.JobManager.FinishPlanning | server/app/jobs/manager.py:380-388 | Planning ends, wherever it stands, and the status is settled; the table stays sound if the planner has nothing left |
| JobManagement.JobManager.MarkChunkRendering | server/app/jobs/manager.py:390-399 | Any take and, unless it is paused, its job are rendering; the batch owns the take; the table stays sound if the take was planned |
| JobManagement.JobManager.MarkChunkPlanned | server/app/jobs/manager.py:401-437 | The take waits again, with everything it had, or starts over in the job's voice if its plan was superseded; the other takes are kept; a purged job is reported; the table stays sound if the batch owned the take |
| TakeLife.ReturnOfBatch | server/app/scheduler/service.py:850-854 | Of the takes that are put back, exactly those up to the first purged job are returned so; every other take is kept |
| JobManagement.JobManager.MarkChunkWritten | server/app/jobs/manager.py:439-467 | The take holds the result, or starts over in the job's voice if its plan was superseded; the other takes are kept; the table stays sound if the batch owned the take and the result speaks it |
| JobManagement.JobManager.FailChunk | server/app/jobs/manager.py:411-488 | The take waits again with one more attempt counted while that leaves the budget unspent, and fails otherwise; it starts over in the job's voice if its plan was superseded; the other takes are kept; the table stays sound if the batch owned the take |
| TakeLife.FailedTakesAreSpent | server/app/scheduler/service.py:857-874 | Over any run in which failed batches count against one budget, a take that failed has spent it, and none has more attempts counted |
| JobManagement.JobManager.ReprocessChunk | server/app/jobs/manager.py:594-639 | A further take of the live take's span, unless there are four; otherwise nothing changes |
| TakeEffects.ReprocessAddsATake | server/app/api/router.py:317-345 | The request is refused for an index without a live take or with a version 3; otherwise the take of the next version is added, untried, live and under the current plan, with the live take's span, the text asked for or else the live take's, and the voice asked for or else the job's; the other takes of the index are set aside with all they hold |
| TakeEffects.ReprocessRevives | server/app/jobs/manager.py:614-639 | A finished job is queued again and nobody listens to it; a paused one stays paused |
| TakeLife.AtMostFourTakes | server/app/api/router.py:317-345 | After any run no index has more than four takes |
| JobManagement.JobManager.SetActiveChunkVersion | server/app/jobs/manager.py:641-661 | The switch to any take, under a new audio epoch; the table stays sound if and only if the take can go live |
| TakeEffects.SwitchOnTakes | server/app/jobs/manager.py:641-661 | Exactly the chosen version of the index is live afterwards, and every take keeps what it holds |
| JobManagement.JobManager.RenderableChunks | server/app/jobs/manager.py:558-577 | The live planned takes under the current plan of jobs that are neither paused nor trashed, in table order |
| BatchSelection.RenderableInTableOrder | server/app/jobs/manager.py:558-577 | By job, and within a job by place, none twice |
| JobInvariants.SetVoiceKeepsInv | server/app/jobs/manager.py:257-347 | A voice change at any moment, also with takes in flight, keeps the whole job invariant |
| JobInvariants.MarkWrittenKeepsInv | server/app/jobs/manager.py:439-467 | A result that arrives keeps it, whether it is stored or superseded |
| JobInvariants.AddVersionedKeepsInv | server/app/jobs/manager.py:594-639 | A reprocess keeps it, also on a completed job |
| JobInvariants.SwitchIsSoundExactlyWhen | server/app/jobs/manager.py:641-661 | A take switch keeps it if and only if the take is not waiting under an outdated plan and is not unfinished in a completed job |
| AnyRun.AfterAnyRun | server/app/scheduler/service.py:272-308 | After any interleaving of commands and scheduler steps, with no condition on either: every unpurged job has distinct takes, one live take for each index, current cached values and audio of its own, and what is in flight is rendering |
| TakeLife.TakesChangeOnlySo | server/app/scheduler/service.py:735-874 | After any run, in any further step, a take changes only as that step may change it: text, span, index and version never do, only a waiting take is dispatched, only one that is rendering comes back, only a voice change moves voice and plan, and whatever is added is untried and under the current plan |
| PipelineTheorems.StepIsSoundExactlyWhen | server/app/scheduler/service.py:735-874 | One step keeps the whole invariant, in which also nothing else is rendering, every planned take is renderable and completed jobs are done, if and only if it neither switches to a take that cannot go live nor puts a batch back past a purged job |
| PipelineTheorems.RunIsSoundExactlyWhen | server/app/scheduler/service.py:272-308 | A run stays sound from end to end if and only if no step of it does one of those two things |
| PipelineTheorems.NothingIsStuck | server/app/scheduler/service.py:784-874 | In every state of a sound run a take is rendering if and only if the batch in flight still owns it; with no batch no job is rendering |
| PipelineTheorems.RequeueStrandsExactlyWhen | server/app/scheduler/service.py:795-806 | Putting a batch back strands a chunk if and only if a purged job's chunk stands before one of a job that exists |
| PipelineWitnesses.StrandingHappens | server/app/scheduler/service.py:795-806 | A run from the empty server that strands one: two jobs share a batch, the first is purged, the model does not fit |
| PipelineWitnesses.ForgottenTakeHappens | server/app/jobs/manager.py:641-661 | A run from the empty server after which a live planned take of a visible, queued job is never on offer: reprocess, partial voice change, switch back |
| PipelineTheorems.OneLiveTakePerIndex | server/app/jobs/models.py:214-240 | After any run each planned index has exactly one live take, the one that the active map names |
| PipelineTheorems.LiveTakesTileTheText | server/app/jobs/manager.py:349-378 | After any run the live takes tile the text up to the cursor, and all of it once planning is exhausted |
| PipelineTheorems.PlannedTakesAreRenderable | server/app/jobs/manager.py:558-577 | In a sound run a live planned take is on offer exactly when its job is visible and not paused: no take waits under an old plan |
| PipelineTheorems.WholeSourceIsSpoken | server/app/jobs/manager.py:349-388 | After any run a fully planned job whose takes were never reworded speaks every non-blank character of the submitted source, in order |
| PipelineTheorems.CompletedJobsAreDone | server/app/jobs/manager.py:490-510 | In a sound run a completed job is fully planned with each live take written or failed |
| PipelineTheorems.WrittenAudioIsItsOwn | server/app/jobs/manager.py:439-467 | After any run a take is written exactly when it has audio, and that audio is the take's own text in its own voice |
| PipelineTheorems.CachedValuesAreCurrent | server/app/jobs/manager.py:512-540 | After any run the cached count, playable seconds, buffer and start times are what recomputing them gives |
| PipelineTheorems.StartsOneByOne | server/app/jobs/manager.py:512-540 | The first index starts at 0, and each next one where the one before it starts, later by the seconds of that one's live recording if it has one |
| PipelineTheorems.PlaybackReachesTheFirstHole | server/app/jobs/manager.py:512-540 | After any run the count is the number of indexes with a recording, and what can be played reaches exactly to where the first index without one starts |
| PipelineHistory.AddressNamesOneRecording | server/app/schemas/api.py:356-366 | Over any run whatever, index, version and audio epoch name at most one recording: in two states with the same epoch, a take written in the first is written in the second, with the same audio |
| FullRerender.RerenderIsConsistent | server/app/jobs/manager.py:257-347 | After any run and a full re-render, along any run without a further voice change or take switch on the job, each live written take has the job's voice, the current plan, and audio dispatched after the command |
| FullRerender.LateAudioIsKeptExactlyWhen | server/app/jobs/manager.py:282-303 | With a partial change following before the batch is back, the old audio is kept if and only if the second voice differs |
| Completion.RoundMakesProgress | server/app/scheduler/service.py:288-308 | A tick left alone, with the expiry of silent listeners that begins it, either finds every job done or lowers the measure of unplanned text and attempts left |
| Completion.LeftAloneEverythingCompletes | server/app/scheduler/service.py:272-308 | From any idle state of a sound run, left alone for more rounds than the measure says, every served job is exhausted with each live take written or failed, and completed if its status was settled at the start, whatever batches are picked, whoever falls silent, however often rendering fails, and however small batches get |
| Completion.PossibleChoicesExist | server/app/scheduler/service.py:288-308 | From such a state rounds can follow one another for any length: there is always a batch the tick may pick, or nothing is left to pick |
| Completion.ReachableIsQuiescent | server/app/scheduler/service.py:272-308 | Every idle state that a sound run reaches, without a lookahead cap, is one in which all unfinished work of served jobs is still on offer or unplanned |
| Completion.FreshJobBound | server/app/scheduler/service.py:399-434 | A fresh job is served and settled, and its bound is (attempts + 1) * (characters + 1) rounds |
| Worker.RenderBatch | server/app/synthesis/worker.py:64-155 | A non-empty batch is packaged if and only if for some h the first h attempts, on the batch halved 0 to h - 1 times, each ran out of memory on more than one chunk, and attempt h spoke as many chunks as it was given; the results are then that attempt's; the memory error is raised if and only if every attempt down to a single chunk ran out; any other error is that of the first attempt that did not run out |
| Worker.PackageChunks | server/app/synthesis/worker.py:105-133 | One result for each chunk, in order |
| Worker.HalvingGetsThere | server/app/synthesis/worker.py:135-155 | When exactly the batches of up to some size fit, one of them is rendered, and at least half of what would have fit |
| Worker.PackagedIsAReturn | server/app/synthesis/worker.py:64-103 | Packaged results speak a non-empty prefix of the batch, result i chunk i, and are a return that the pipeline knows |
| SchedulerLoops.NeedsMore | server/app/scheduler/service.py:414-434 | True if and only if fewer live takes wait under the current plan than are to be planned ahead, and no lookahead is reached |
| PlanningAhead.PlansAheadAsFarAsNeeded | server/app/scheduler/service.py:399-412 | A job that is not paused or completed is planned until enough takes wait, the listener is far ahead, or the text is used up, and no further; what was planned stays |
| SchedulerLoops.EnsurePlannedChunks | server/app/scheduler/service.py:399-412 | Every visible job is planned ahead, by repeated planning steps that end |
| SchedulerLoops.MarkBatch | server/app/scheduler/service.py:781-785 | Exactly the takes of the batch are marked, and the table is sound with the batch in flight |
| SchedulerLoops.HandleBatchFailure | server/app/scheduler/service.py:857-874 | Each take of the batch whose job exists waits again with one more attempt counted, fails if that spends the budget, or starts over if its plan was superseded; every other take is kept, and nothing stays in flight |
| SchedulerLoops.RequeueChunks | server/app/scheduler/service.py:850-854 | The chunks go back one by one up to the first purged job; all of them do if and only if there is none |
| DispatchOrder.OrderedForDispatch | server/app/scheduler/service.py:456-518 | The dictionaries, ordinals and sorts compute the dispatch list |
| DispatchOrder.DispatchIsAPermutation | server/app/scheduler/service.py:456-518 | The list holds each chunk exactly once |
| DispatchOrder.GroupsAreServedOneByOne | server/app/scheduler/service.py:456-518 | The chunks of one group are contiguous |
| DispatchOrder.BetterGroupsGoFirst | server/app/scheduler/service.py:502-518 | A group that is served earlier has a chunk whose job goes before that of every chunk of the later one, by band, submission time and id |
| DispatchOrder.EqualGroupsKeepTheirOrder | server/app/scheduler/service.py:502-518 | Of two groups that are equally good the one that comes up first in the table is served first |
| DispatchOrder.UrgentJobsGoFirst | server/app/scheduler/service.py:481-517 | Inside a group the smaller band goes first; in one band the smaller ordinal; with equal ordinals the job submitted first, then the smaller id |
| DispatchOrder.OrdinalsFollowTheIndexes | server/app/scheduler/service.py:478-485 | The ordinals number a job's chunks from 0, by index |
| DispatchOrder.JobsKeepTheirOrder | server/app/scheduler/service.py:472-500 | One job's chunks in one group are in index order |
| DispatchOrder.TurnsAreFair | server/app/scheduler/service.py:456-518 | For two jobs of one band whose chunks share a group, no prefix of the list serves one of them two chunks more than the other while both still have chunks waiting |
| ResidencyRuns.SyncStaysCounted | server/app/scheduler/service.py:616-632 | Synchronising never makes the two counters claim more than the last consecutive batches on record: what it drops it drops to zero |
| Residency.ResidencyTracker.ChooseGroupKey | server/app/scheduler/service.py:634-692 | After synchronising, the loops that sort the groups by model make the choice that `ChooseKey` defines |
| ResidencyRuns.NoteStaysCounted | server/app/scheduler/service.py:694-707 | Nor does counting a batch: model and voice are credited with consecutive batches of their own only |
| ResidencyRuns.ModelLeftExactlyWhen | server/app/scheduler/service.py:634-692 | The loaded model, still on offer, is left if and only if its window has run out, it has no chunk of band 0, and another model is on offer |
| ResidencyRuns.UrgentModelGoesNext | server/app/scheduler/service.py:634-692 | A model that is left gives way to one with a listener about to run dry, if there is one |
| ResidencyRuns.NextModelIsTheBest | server/app/scheduler/service.py:634-692 | With no model on record or on offer the best group decides; when a model is left, the next is that of the best group among the other models, or among the other urgent ones if there are any |
| BatchSelection.UrgentModelsAre | server/app/scheduler/service.py:634-660 | A model is urgent if and only if it has a chunk whose job is in band 0 |
| ResidencyRuns.FirstGroupOfTheVoice | server/app/scheduler/service.py:676-692 | Of the chosen model's groups it is the first in the voice on record, or the first that is not |
| ResidencyRuns.VoiceLeftExactlyWhen | server/app/scheduler/service.py:634-692 | A voice on record, still on offer in the chosen model, is left if and only if its window has run out and the model has another voice |
| ResidencyRuns.ModelIsKeptForItsWindow | server/app/scheduler/service.py:634-707 | Along any run a loaded model that still has work is left only after at least its window of consecutive batches, and only without a chunk of band 0 |
| ResidencyRuns.VoiceIsKeptForItsWindow | server/app/scheduler/service.py:634-707 | Along any run a voice on record that still has work is left only after at least its window of consecutive batches on it |
| ResidencyRuns.VoiceHasItsWindow | server/app/scheduler/service.py:634-707 | While one model has the GPU to itself and several of its voices have work, a voice on record has exactly its window of batches in a row, and then another voice follows |
| ResidencyRuns.LoadingBatchIsNotCounted | server/app/scheduler/service.py:780-788 | A batch that had to load its model counts for neither window and drops the voice on record; any other batch counts for both |
| ResidencyRuns.VoiceCanBeLeftAtOnce | server/app/scheduler/service.py:780-788 | A run in which a voice loses the GPU after one batch, with its window open and work left |
| ResidencyRuns.OpenVoiceLeftExactlyWhen | server/app/scheduler/service.py:634-707 | Along any run the voice of the last batch, still on offer in the chosen model and with its window open, is left if and only if synchronising has dropped it from the record and the first group of that model is another voice |
| ResidencyRuns.RunIsBounded | server/app/scheduler/service.py:616-707 | From any state, while another model is offered, none of the model in question is urgent, loads succeed and nothing unloads it, at most the window plus one batches of one model run in a row |
| ResidencyRuns.NoLongerRun | server/app/scheduler/service.py:616-707 | So in the history of any run no stretch like that holds more than the window plus one batches of a model in a row |
| ResidencyRuns.TurnsFromColdStart | server/app/scheduler/service.py:616-707 | And it does hold that many: from a cold start two models that both always have work that nobody waits for take turns in blocks of exactly the window plus one |
| BatchSelection.ChooseBatchSize | server/app/scheduler/service.py:945-976 | A single chunk, or a candidate size that fits budget, free memory and queue; with the candidates in falling order, the largest that does |
| BatchSelection.UsableExactlyWhen | server/app/scheduler/service.py:953-976 | A size is usable if and only if there are as many chunks and so many are expected to stay within the budget and within the memory that is free; while the cost of a chunk is unknown, if the budget is not used up |
| BatchSelection.SelectNextBatch | server/app/scheduler/service.py:709-733 | The first chunks of the chosen group in dispatch order, as many as the batch size says, and none exactly when nothing is ranked |
| BatchSelection.SelectionCanBeDispatched | server/app/scheduler/service.py:605-614 | Such a selection is a batch the pipeline may dispatch, also when commands ran since the ranking, as long as no ranked job left the library |
| Forest.HangingStaysAcyclic | server/app/library/tree.py:82-91 | Re-hanging rows under a row that lies below none of them makes no cycle |
| SiblingOrder.ReindexKeepsOrder | server/app/library/service.py:216-240 | Re-indexing keeps the order under every parent and numbers the chosen ones 0, 1, and so on |
| SiblingOrder.PlacedInOrder | server/app/library/service.py:198-209 | Rows placed at the next free positions stand behind the others, in the order of the request |
| LibraryTree.DescendantFolderIds | server/app/library/tree.py:66-79 | On any table the worklist ends and finds exactly the folders that reach the root by parent pointers |
| LibraryTree.MoveIsAcyclic | server/app/library/tree.py:82-91 | A move passes exactly when its destination lies below nothing that it moves |
| LibraryTree.HasSelectedAncestor | server/app/library/service.py:595-607 | The walk up finds a selected folder exactly when there is one above |
| LibraryTree.FolderPathUp | server/app/library/tree.py:49-63 | The path follows the pointers without repeating a folder, on any table; in a forest it goes all the way up |
| LibraryTree.NormalizeOrder | server/app/library/tree.py:94-109 | A requested order is accepted exactly when it names each child once |
| LibraryTree.SubtreeCounts | server/app/library/tree.py:117-142 | The memoised recursive counts end on any table, and in a forest give each live folder the number of live jobs below it |
| LibraryTree.CountsAgreeWithWorklist | server/app/library/tree.py:66-79 | Those are the live jobs whose folder the worklist finds |
| LibraryCommands.ReindexOne | server/app/library/service.py:216-240 | The loop over the sorted siblings numbers them without gaps |
| LibraryCommands.LibraryService.CreateFolder | server/app/library/service.py:71-86 | A folder at the end of a live parent; an unknown parent changes nothing |
| LibraryCommands.LibraryService.CreateJob | server/app/jobs/manager.py:100-132 | A job at the end of a live parent; an unknown parent changes nothing |
| LibraryEffects.CreatedStandsLast | server/app/library/service.py:71-86 | A new folder or job stands last under its parent, and nothing else changes |
| LibraryCommands.LibraryService.Reorder | server/app/library/service.py:108-140 | The requested order becomes the positions, or the request is refused and nothing changes |
| LibraryCommands.LibraryService.Move | server/app/library/service.py:142-214 | The outermost items of the selection move to the destination; refused and unknown requests change nothing |
| LibraryEffects.MoveIsAcceptedExactlyWhen | server/app/library/service.py:142-196 | A move is accepted if and only if it names only live folders and jobs, and its destination is the top level or a live folder that is not selected nor below a selected one |
| LibraryEffects.MoveTakesTheSelection | server/app/library/service.py:142-214 | Every selected folder and job is under the destination afterwards, except what a selected folder takes along; that, and whatever is not selected, keeps its parent; nothing enters or leaves the trash |
| LibraryCommands.LibraryService.Delete | server/app/library/service.py:244-333 | One trash entry for each outermost item of the selection, in the order they were trashed |
| LibraryEffects.DeleteTakesTheSelection | server/app/library/service.py:244-333 | A folder goes into the trash if and only if it is selected or below a selected one, a job if and only if it is selected or in such a folder; other rows do not change |
| LibraryCommands.LibraryService.DeleteFolderOnly | server/app/library/service.py:335-393 | The contents move up, then the folder goes alone |
| LibraryCommands.LibraryService.Restore | server/app/library/service.py:399-515 | Each named entry once, all validated before anything changes |
| LibraryEffects.RestoreBringsBack | server/app/library/service.py:399-515 | Exactly the rows with the tags of the named entries are live again, each under its old parent or at the top level if that is not there; the entries are gone |
| LibraryEffects.RestoredParentsAreDense | server/app/library/service.py:500-515 | Every parent that an entry comes back to is numbered without gaps |
| LibraryCommands.LibraryService.Purge | server/app/library/service.py:517-553 | The named entries, or all of them, go for good with the rows they own; the dropped jobs are reported |
| LibraryEffects.PurgeTakesTheEntries | server/app/library/service.py:517-553 | Exactly the named entries and the rows with their tags are gone |
| LibraryTheorems.LibraryStaysAForest | server/app/library/service.py:142-553 | After any run of commands: no row, live or trashed, lies below itself; live rows have live parents; a row is trashed exactly when it carries the tag of an existing entry |
| LibraryTheorems.JobsAreConserved | server/app/library/service.py:244-553 | No command but creating and purging makes or loses a job |
| LibraryTheorems.MoveKeepsOrder | server/app/library/service.py:142-240 | After the move of any selection every parent involved is numbered without gaps, the destination has its old order followed by the moved items in request order (an item named twice counts where it is named last), other orders lose only the moved items, and nested items keep their parent; a rejected move changes nothing |
| LibraryTheorems.ReorderTakesEffect | server/app/library/service.py:108-140 | The requested order is the manual order afterwards, and no other parent's order changes |
| LibraryTheorems.FolderOnlyKeepsContents | server/app/library/service.py:335-393 | The folder's contents follow, in their order, what was in its parent; nothing but the folder is gone |
| LibraryTheorems.RestoredParentCountsFromZero | server/app/library/service.py:440-453 | Under a parent that comes back in the same request positions start at 0 |
| LibraryTheorems.RestoredChildCanComeFirst | server/app/library/service.py:440-453 | Two folders deleted apart and restored together that change places |
| TrashRoundTrip.RestoreAppends | server/app/library/service.py:442-515 | Under a live parent restored rows are appended in the order of the request |
| TrashRoundTrip.RestoreAppendsExactlyWhen | server/app/library/service.py:440-515 | Under a parent that comes back in the same request they are appended to its own children if and only if each of those stands before the place that the restored row gets in a count from 0 |
| UndoDelete.DeleteKeepsInv | server/app/library/service.py:244-333 | Deleting outermost items keeps the library's invariant |
| LibraryTheorems.DeletedSelectionComesBack | server/app/library/service.py:399-515 | Delete any selection, nested or with repetitions, and restore the entries that made, named in any order and any number of times: the same live rows under the same parents, and the trash as it was |
| LibraryTheorems.DeletedSelectionKeepsOrder | server/app/library/service.py:399-515 | Inside what was deleted the order is the old one; elsewhere the restored rows follow those that stayed |
| AppendQueue.EvictionStaysBehindPlayhead | web/src/lib/media-window.ts:105-115 | Eviction removes a range from the start that ends behind the playhead by the margin, and only if it frees something |
| AppendQueue.SeekIsServed | web/src/lib/media-window.ts:62-95 | A seek to audio that is not buffered asks for a fill, and the window reaches past its target |
| AppendQueue.NextKeepsInv | web/src/lib/media-source.ts:606-814 | Every event keeps the queue invariant: fills, ticks, appends, failures, quota retries, evictions and longer manifests |
| AppendQueue.AppendedThenQueuedIsAPrefix | web/src/lib/media-source.ts:659-809 | After any run, appended followed by queued is what the manifest has to play up to the cursor: no chunk with a segment skipped, repeated or reordered |
| AppendQueue.RecoversOncePerChunk | web/src/lib/media-source.ts:697-708 | Room is made at most once for each chunk |
| AppendQueue.StalledForGood | web/src/lib/media-source.ts:748-809 | A queue that no loop works on stays as it is |
| AppendQueue.StallsExactlyWhen | web/src/lib/media-source.ts:606-809 | The queue stalls if and only if a fill that is due finds an eviction holding the lock while a chunk with a segment is left inside the window |
| AppendQueue.StallHappens | web/src/lib/media-source.ts:606-814 | A run of five events that stalls the queue |
| AppendQueue.StreamPlayer.FillAppendWindow | web/src/lib/media-source.ts:748-809 | The scan over the manifest queues the chunks inside the window that are neither appended nor pending, and starts the loop if the lock is free |
| AppendQueue.FillTakesWhatIsNear | web/src/lib/media-source.ts:748-809 | A fill does something if and only if nothing is queued, no failure is waited out, and a seek waits or less than 210 seconds are ahead; it then moves the cursor to the first chunk beyond 240 seconds and the seek, queues exactly the chunks with a segment that it passes, and starts the loop if the lock is free |
| AppendQueue.EvictionStartsExactlyWhen | web/src/lib/media-source.ts:606-631 | Eviction takes the lock if and only if that is free, the buffer is idle, and more than 120 seconds of played audio lie behind the playhead |
| AppendQueue.MaintainKeepsInv | web/src/lib/media-source.ts:811-814 | A maintenance pass, whatever the lock allows of it, keeps the queue, the cursor and the set of pending chunks in agreement |
| AppendQueue.StreamPlayer.OnAppended | web/src/lib/media-source.ts:673-692 | The chunk leaves the queue, and the loop goes on or ends |
| AppendQueue.AppendMovesOn | web/src/lib/media-source.ts:673-692 | The head is appended, a back-off is lifted, and the loop goes on with the rest of the queue, else with what a fill finds, else ends |
| AppendQueue.StreamPlayer.OnFailed | web/src/lib/media-source.ts:693-728 | Room is made if and only if the buffer was full for the first time for this chunk, is idle, and more than ten seconds of played audio can go; otherwise the queue is dropped, the cursor is back at the chunk, and fills wait three seconds |
| AppendQueue.QuotaMakesRoomExactlyWhen | web/src/lib/media-source.ts:633-728 | The same of the event, and: when room is made, queue, cursor and back-off stay, and once it is there the chunk is tried again at once |
| AppendQueue.StreamPlayer.OnRoomFreed | web/src/lib/media-source.ts:641-657 | The chunk that did not fit is pending again and tried once more |

## Left out

- PipelineTheorems.NothingIsStuck: speaks of sound runs; it is false after the two kinds of step that StepIsSoundExactlyWhen names, as StrandingHappens shows.
- PipelineTheorems.PlannedTakesAreRenderable: speaks of sound runs; ForgottenTakeHappens is one that is not.
- PipelineTheorems.CompletedJobsAreDone: speaks of sound runs; a switch to an unfinished take of a completed job breaks it, as SwitchIsSoundExactlyWhen says.
- Completion.LeftAloneEverythingCompletes: starts from a state of a sound run and assumes no command, no load error for want of VRAM, memory below the limits, and no lookahead cap on the job; a tick that memory keeps from dispatching is the step `Skip`.
- ResidencyRuns.VoiceIsKeptForItsWindow: says nothing of a voice whose record was dropped by a batch that loaded a model; LoadingBatchIsNotCounted says when that is, and OpenVoiceLeftExactlyWhen when such a voice is left.
- ResidencyRuns.TurnsFromColdStart: speaks of runs in which nothing unloads the model in between and every load succeeds; RunIsBounded and NoLongerRun give the bound from any state.
- AppendQueue.AppendedThenQueuedIsAPrefix: speaks of one stream whose manifest grows at the end, in index order.
- The hard delete of a job that bypasses the trash, renaming, and listing, which change one row or none. Names and titles appear as the rank that breaks ties of position.
- Memory readings and the learned cost of a chunk are inputs; how they are measured, averaged and warned about is not part of this model.
- The recovery policy that unloads a model or resets the provider when dispatch is blocked: the model that is loaded changes by an `Outside` event instead.
- A model loaded or evicted by an administrator in the middle of a batch.
- The priority band of a job is an input to ordering and residency; the thresholds on the buffer and the queue of what is up next are not modelled.
- Durations, positions and memory are reals or integers; rounding of floating point is not modelled. The chunk limit is any bound that is at least the target.
- Regular expressions: the planner's three patterns appear as what they match, and whitespace as the characters that Python counts as such.
- The provider is any function of the attempt and of what it is asked to speak, and a timeout is one of its errors; a cancelled batch ends the model's run.
- Timestamps other than submission time and last sign of life, progress records, user scoping, web sockets, telemetry, the queue view and the web server.
- Audio files, segments and waveform peaks: a recording is what was spoken, by whom, and in which dispatch.
- In the player: the initialisation segment, playback state and errors shown, autoplay, and a loop that outlives the change of its stream.
- Sets that the library goes through in no order of their own are gone through by id; `DeleteAll` in `LibraryTheorems` allows every order.
