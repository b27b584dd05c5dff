/** Safety of the render pipeline over whole runs: any interleaving of user commands
    with the steps of the scheduler. */
module PipelineSafety {
  import opened Wrappers
  import opened Planner
  import opened JobModel
  import opened JobInvariants
  import opened Pipeline

  // ---- ranking ----

  lemma {:induction false} RenderableOfMembers(job: Job, j: nat, n: nat, r: Ref)
    requires n <= |job.chunks|
    ensures r in RenderableOf(job, j, n) <==> r.job == j && r.pos < n && IsRenderable(job, r.pos)
  {
    if n > 0 { RenderableOfMembers(job, j, n - 1, r); }
  }

  /** Ranking sees exactly the renderable chunks. */
  lemma {:induction false} RenderableRefsMembers(jobs: seq<Job>, m: nat, r: Ref)
    requires m <= |jobs|
    ensures r in RenderableRefs(jobs, m) <==>
      r.job < m && r.pos < |jobs[r.job].chunks| && IsRenderable(jobs[r.job], r.pos)
  {
    if m > 0 {
      RenderableRefsMembers(jobs, m - 1, r);
      RenderableOfMembers(jobs[m - 1], m - 1, |jobs[m - 1].chunks|, r);
    }
  }

  // ---- lifting from one job to the table ----

  lemma ReplaceJob(jobs: seq<Job>, refs: seq<Ref>, j: nat, job: Job)
    requires JobsInv(jobs, refs) && j < |jobs| && |jobs[j].chunks| <= |job.chunks|
    requires !job.purged ==> JobInv(job, Flight(refs, j))
    ensures JobsInv(jobs[j := job], refs)
  {
    hide JobInv, Flight;
    var b := jobs[j := job];
    assert forall k :: 0 <= k < |refs| ==> ValidRef(jobs, refs[k]) ==> ValidRef(b, refs[k]);
  }

  lemma FlightPositions(jobs: seq<Job>, refs: seq<Ref>, j: nat, p: nat)
    ensures p in Flight(refs, j) <==> Ref(j, p) in refs
  {
    if Ref(j, p) in refs {
      var k :| 0 <= k < |refs| && refs[k] == Ref(j, p);
      assert refs[k].job == j && refs[k].pos == p;
    }
  }

  /** The head of a batch leaves its own job's flight, and no other's. */
  lemma FlightTail(refs: seq<Ref>, j: nat)
    requires refs != [] && DistinctRefs(refs)
    ensures Flight(refs[1..], j) == if refs[0].job == j then Flight(refs, j) - {refs[0].pos} else Flight(refs, j)
    ensures refs[0].pos in Flight(refs, refs[0].job)
  {
    var t := refs[1..];
    forall p: nat
      ensures p in Flight(t, j) <==> Ref(j, p) in t
      ensures p in Flight(refs, j) <==> Ref(j, p) in refs
    {
      FlightPositions([], t, j, p);
      FlightPositions([], refs, j, p);
    }
    FlightPositions([], refs, refs[0].job, refs[0].pos);
    assert forall r :: r in refs <==> r == refs[0] || r in t;
    assert refs[0] !in t;
  }

  lemma FlightAppend(refs: seq<Ref>, r: Ref, j: nat)
    ensures Flight(refs + [r], j) == if r.job == j then Flight(refs, j) + {r.pos} else Flight(refs, j)
  {
    var t := refs + [r];
    forall p: nat
      ensures p in Flight(t, j) <==> Ref(j, p) in t
      ensures p in Flight(refs, j) <==> Ref(j, p) in refs
    {
      FlightPositions([], t, j, p);
      FlightPositions([], refs, j, p);
    }
  }

  /** The first chunk of `refs` has been dealt with: its job no longer owns it. */
  lemma DropHead(jobs: seq<Job>, refs: seq<Ref>, job: Job)
    requires JobsInv(jobs, refs) && refs != []
    requires |job.chunks| == |jobs[refs[0].job].chunks|
    requires !job.purged ==> JobInv(job, Flight(refs, refs[0].job) - {refs[0].pos})
    ensures JobsInv(jobs[refs[0].job := job], refs[1..])
  {
    hide JobInv, Flight;
    var b := jobs[refs[0].job := job];
    forall j: nat { FlightTail(refs, j); }
    assert forall k :: 0 <= k < |refs| ==> ValidRef(jobs, refs[k]);
    assert forall k :: 0 <= k < |refs| - 1 ==> refs[1..][k] == refs[k + 1];
  }

  lemma HeadInFlight(jobs: seq<Job>, refs: seq<Ref>)
    requires JobsInv(jobs, refs) && refs != []
    ensures ValidRef(jobs, refs[0]) && refs[0].pos in Flight(refs, refs[0].job)
    ensures !jobs[refs[0].job].purged ==> JobInv(jobs[refs[0].job], Flight(refs, refs[0].job))
  {
    hide JobInv;
    FlightTail(refs, refs[0].job);
    assert ValidRef(jobs, refs[0]);
  }

  /** A purged job owns nothing, so its chunk can simply be dropped. */
  lemma DropPurgedHead(jobs: seq<Job>, refs: seq<Ref>)
    requires JobsInv(jobs, refs) && refs != [] && jobs[refs[0].job].purged
    ensures JobsInv(jobs, refs[1..])
  {
    hide JobInv;
    HeadInFlight(jobs, refs);
    DropHead(jobs, refs, jobs[refs[0].job]);
    assert jobs[refs[0].job := jobs[refs[0].job]] == jobs;
  }

  // ---- batches ----

  lemma {:induction false} MarkAllKeepsInv(jobs: seq<Job>, marked: seq<Ref>, refs: seq<Ref>)
    requires JobsInv(jobs, marked) && ValidRefs(jobs, refs) && DistinctRefs(marked + refs)
    requires forall k :: 0 <= k < |refs| ==> !jobs[refs[k].job].purged && ChunkOf(jobs, refs[k]).status.Planned?
    ensures JobsInv(MarkAllRendering(jobs, refs), marked + refs)
    decreases |refs|
  {
    if refs == [] {
      assert marked + refs == marked;
    } else {
      var r := refs[0];
      assert (marked + [r]) + refs[1..] == marked + refs;
      DistinctPrefix(marked + [r], refs[1..]);
      MarkOneKeepsInv(jobs, marked, r);
      RestStaysPlanned(jobs, marked, refs);
      hide MarkRendering, JobsInv, ChunkOf, DistinctRefs;
      MarkAllKeepsInv(jobs[r.job := MarkRendering(jobs[r.job], r.pos)], marked + [r], refs[1..]);
    }
  }

  lemma MarkOneKeepsInv(jobs: seq<Job>, marked: seq<Ref>, r: Ref)
    requires JobsInv(jobs, marked) && ValidRef(jobs, r) && DistinctRefs(marked + [r])
    requires !jobs[r.job].purged && ChunkOf(jobs, r).status.Planned?
    ensures JobsInv(jobs[r.job := MarkRendering(jobs[r.job], r.pos)], marked + [r])
  {
    hide JobInv, Flight, MarkRendering, DistinctRefs, ValidRefs;
    var job := jobs[r.job];
    MarkRenderingKeepsInv(job, Flight(marked, r.job), r.pos);
    MarkRenderingKeepsWords(job, r.pos);
    MarkHeadKeepsInv(jobs, marked, r, MarkRendering(job, r.pos));
  }

  lemma DistinctPrefix(a: seq<Ref>, b: seq<Ref>)
    requires DistinctRefs(a + b)
    ensures DistinctRefs(a) && forall k, l :: 0 <= k < |a| && 0 <= l < |b| ==> a[k] != b[l]
  {
    var c := a + b;
    assert forall k :: 0 <= k < |a| ==> c[k] == a[k];
    assert forall l :: 0 <= l < |b| ==> c[|a| + l] == b[l];
  }

  lemma RestStaysPlanned(jobs: seq<Job>, marked: seq<Ref>, refs: seq<Ref>)
    requires ValidRefs(jobs, refs) && refs != [] && DistinctRefs(marked + refs)
    requires forall k :: 0 <= k < |refs| ==> !jobs[refs[k].job].purged && ChunkOf(jobs, refs[k]).status.Planned?
    ensures
      var next := jobs[refs[0].job := MarkRendering(jobs[refs[0].job], refs[0].pos)];
      ValidRefs(next, refs[1..]) && forall k :: 0 <= k < |refs| - 1 ==>
        !next[refs[1..][k].job].purged && ChunkOf(next, refs[1..][k]).status.Planned?
  {
    var r := refs[0];
    var next := jobs[r.job := MarkRendering(jobs[r.job], r.pos)];
    assert (marked + [r]) + refs[1..] == marked + refs;
    DistinctPrefix(marked + [r], refs[1..]);
    assert (marked + [r])[|marked|] == r;
    forall k | 0 <= k < |refs| - 1
      ensures ValidRef(next, refs[1..][k])
      ensures !next[refs[1..][k].job].purged && ChunkOf(next, refs[1..][k]).status.Planned?
    {
      assert refs[1..][k] == refs[k + 1] && refs[k + 1] != r;
      assert ValidRef(jobs, refs[k + 1]);
    }
  }

  lemma MarkHeadKeepsInv(jobs: seq<Job>, marked: seq<Ref>, r: Ref, job: Job)
    requires JobsInv(jobs, marked) && ValidRef(jobs, r) && DistinctRefs(marked + [r])
    requires |job.chunks| == |jobs[r.job].chunks| && JobInv(job, Flight(marked, r.job) + {r.pos})
    ensures JobsInv(jobs[r.job := job], marked + [r])
  {
    hide JobInv, Flight;
    forall j: nat { FlightAppend(marked, r, j); }
  }

  /** No chunk of a purged job stands before a chunk of a job that still exists. */
  ghost predicate RequeueCompletes(jobs: seq<Job>, refs: seq<Ref>)
    requires ValidRefs(jobs, refs)
  {
    forall k, l :: 0 <= k < l < |refs| && jobs[refs[k].job].purged ==> jobs[refs[l].job].purged
  }

  lemma {:induction false} PurgedRefsOwnNothing(jobs: seq<Job>, refs: seq<Ref>)
    requires JobsInv(jobs, refs)
    requires forall k :: 0 <= k < |refs| ==> jobs[refs[k].job].purged
    ensures JobsInv(jobs, [])
    decreases |refs|
  {
    if refs != [] {
      DropPurgedHead(jobs, refs);
      hide JobInv;
      PurgedRefsOwnNothing(jobs, refs[1..]);
    }
  }

  lemma {:induction false} RequeueAllKeepsInv(jobs: seq<Job>, refs: seq<Ref>)
    requires JobsInv(jobs, refs) && RequeueCompletes(jobs, refs)
    ensures JobsInv(RequeueAll(jobs, refs), [])
    decreases |refs|
  {
    hide JobInv, Flight, MarkPlanned;
    if refs == [] {
    } else if jobs[refs[0].job].purged {
      PurgedRefsOwnNothing(jobs, refs);
    } else {
      var r := refs[0];
      var job := jobs[r.job];
      HeadInFlight(jobs, refs);
      MarkPlannedKeepsInv(job, Flight(refs, r.job), r.pos);
      MarkPlannedFrame(job, r.pos);
      DropHead(jobs, refs, MarkPlanned(job, r.pos));
      RequeueAllKeepsInv(jobs[r.job := MarkPlanned(job, r.pos)], refs[1..]);
    }
  }

  lemma MarkPlannedFrame(job: Job, p: nat)
    requires p < |job.chunks|
    ensures MarkPlanned(job, p).purged == job.purged && |MarkPlanned(job, p).chunks| == |job.chunks|
  {
  }

  lemma FailOneKeepsInv(job: Job, flight: set<nat>, p: nat, error: string, maxAttempts: nat)
    requires JobInv(job, flight) && p in flight && p < |job.chunks|
    ensures JobInv(FailOne(job, p, error, maxAttempts), flight - {p})
    ensures |FailOne(job, p, error, maxAttempts).chunks| == |job.chunks|
  {
    hide JobInv;
    if job.chunks[p].attempts + 1 >= maxAttempts { MarkFailedKeepsInv(job, flight, p, error); }
    else { MarkRetryKeepsInv(job, flight, p, error); }
  }

  lemma {:induction false} FailAllKeepsInv(jobs: seq<Job>, refs: seq<Ref>, error: string, maxAttempts: nat)
    requires JobsInv(jobs, refs)
    ensures JobsInv(FailAll(jobs, refs, error, maxAttempts), [])
    decreases |refs|
  {
    hide JobInv, Flight, FailOne;
    if refs == [] {
    } else if jobs[refs[0].job].purged {
      DropPurgedHead(jobs, refs);
      FailAllKeepsInv(jobs, refs[1..], error, maxAttempts);
    } else {
      var r := refs[0];
      var job := jobs[r.job];
      HeadInFlight(jobs, refs);
      FailOneKeepsInv(job, Flight(refs, r.job), r.pos, error, maxAttempts);
      DropHead(jobs, refs, FailOne(job, r.pos, error, maxAttempts));
      FailAllKeepsInv(jobs[r.job := FailOne(job, r.pos, error, maxAttempts)], refs[1..], error, maxAttempts);
    }
  }

  lemma LandOneKeepsInv(jobs: seq<Job>, refs: seq<Ref>, result: Rendered)
    requires JobsInv(jobs, refs) && refs != [] && Matches(jobs, refs[0], result.audio)
    ensures JobsInv(LandOne(jobs, refs[0], result), refs[1..])
  {
    hide JobInv, Flight, MarkWritten;
    var r := refs[0];
    HeadInFlight(jobs, refs);
    if jobs[r.job].purged {
      DropPurgedHead(jobs, refs);
    } else {
      MarkWrittenKeepsInv(jobs[r.job], Flight(refs, r.job), r.pos, result.duration, result.audio);
      MarkWrittenFrame(jobs[r.job], r.pos, result.duration, result.audio);
      DropHead(jobs, refs, MarkWritten(jobs[r.job], r.pos, result.duration, result.audio));
    }
  }

  // ---- what commands leave alone ----

  /** Chunks keep their text; one in flight stays in flight under its voice; one waiting
      in the queue stays in the queue. */
  ghost predicate LeavesInFlightAlone(a: Job, b: Job) {
    && (a.purged ==> b.purged) && |a.chunks| <= |b.chunks|
    && forall p :: 0 <= p < |a.chunks| ==>
         && b.chunks[p].text == a.chunks[p].text
         && (a.chunks[p].status.Rendering? ==> b.chunks[p].status.Rendering? && b.chunks[p].voice == a.chunks[p].voice)
         && (a.chunks[p].status.Planned? ==> b.chunks[p].status.Planned?)
  }

  lemma RefreshedAndSettledFrame(job: Job)
    ensures SameButPlace(job.chunks, SettleStatus(RefreshDerived(job)).chunks)
    ensures SettleStatus(RefreshDerived(job)).purged == job.purged
  {
    RefreshFrame(job);
    SettleFrame(RefreshDerived(job));
  }

  lemma MarkWrittenFrame(job: Job, p: nat, duration: real, audio: Audio)
    requires p < |job.chunks|
    ensures |MarkWritten(job, p, duration, audio).chunks| == |job.chunks|
    ensures MarkWritten(job, p, duration, audio).purged == job.purged
    ensures forall q :: 0 <= q < |job.chunks| ==>
      MarkWritten(job, p, duration, audio).chunks[q].text == job.chunks[q].text
    ensures forall q :: 0 <= q < |job.chunks| && q != p ==>
      MarkWritten(job, p, duration, audio).chunks[q].voice == job.chunks[q].voice
  {
    var written := job.chunks[p].(status := Written, duration := duration, segment := Some(audio), error := None);
    RefreshedAndSettledFrame(Put(job, p, written));
    hide RefreshDerived, SettleStatus;
  }

  lemma ReprocessKeeps(job: Job, flight: set<nat>, i: nat, newText: Option<string>, newVoice: Option<string>)
    requires JobInv(job, flight)
    ensures JobInv(ReprocessChunk(job, i, newText, newVoice), flight)
    ensures LeavesInFlightAlone(job, ReprocessChunk(job, i, newText, newVoice))
  {
    hide JobInv, LatestVersion, LivePosition, TakePosition;
    var at := ActiveTake(job, i);
    if at.Some? && LatestVersion(job.chunks, i) < 3 {
      var live := job.chunks[at.value];
      var text := if newText.Some? then newText.value else live.text;
      var voice := if newVoice.Some? then newVoice.value else job.voice;
      AddVersionedKeepsInv(job, flight, text, voice, i);
      hide AddVersionedChunk;
    }
    ReprocessFrame(job, i, newText, newVoice);
  }

  lemma ReprocessFrame(job: Job, i: nat, newText: Option<string>, newVoice: Option<string>)
    ensures LeavesInFlightAlone(job, ReprocessChunk(job, i, newText, newVoice))
  {
    hide LatestVersion, TakePosition, AddVersionedChunk;
    var at := ActiveTake(job, i);
    if at.Some? && LatestVersion(job.chunks, i) < 3 {
      var live := job.chunks[at.value];
      var text := if newText.Some? then newText.value else live.text;
      var voice := if newVoice.Some? then newVoice.value else job.voice;
      AddVersionedFrame(job, text, live.charStart, live.charEnd, voice, i);
    }
  }

  lemma AddVersionedFrame(job: Job, text: string, start: nat, end: nat, voice: string, i: nat)
    ensures LeavesInFlightAlone(job, AddVersionedChunk(job, text, start, end, voice, i))
  {
    hide LatestVersion;
    var c := VersionedChunk(job, text, start, end, voice, i);
    var j := ReactivateJob(job);
    var a := ActivateVersion(j.(chunks := j.chunks + [c]), i, c.version);
    RefreshedAndSettledFrame(a);
    hide RefreshDerived, SettleStatus;
    assert forall p :: 0 <= p < |job.chunks| ==> a.chunks[p] == Activated(job.chunks[p], i, c.version);
  }

  /** The job a command works on. */
  predicate Targets(step: Step, j: nat) {
    match step
    case Activate(k, _) => k == j
    case Pause(k, _) => k == j
    case Resume(k) => k == j
    case Playback(k, _, _, _) => k == j
    case RenderToEnd(k, _) => k == j
    case ChangeVoice(k, _, _) => k == j
    case Reprocess(k, _, _, _) => k == j
    case SwitchTake(k, _, _) => k == j
    case Reactivate(k) => k == j
    case Trash(k) => k == j
    case Restore(k) => k == j
    case Purge(k) => k == j
    case ExpireListeners(_, _) => true
    case _ => false
  }

  /** What a run may not do. A take switch must pick a take that can go live (a rendered
      one always can), and when chunks go back to the queue untouched, no job may have been
      purged out of the batch ahead of a job that still exists. */
  ghost predicate Allowed(s: System, step: Step) {
    match (step, s.phase)
    case (SwitchTake(j, i, v), _) => Sees(s, j) ==>
      var at := TakePosition(s.jobs[j].chunks, i, v);
      at.Some? ==> CanGoLive(s.jobs[j], s.jobs[j].chunks[at.value])
    case (ReturnVramError, OnGpu(batch, _)) => ValidRefs(s.jobs, batch) ==> RequeueCompletes(s.jobs, batch)
    case (RequeueLeftovers, Landing(batch, results, done)) =>
      done == |results| <= |batch| && ValidRefs(s.jobs, batch[done..]) ==> RequeueCompletes(s.jobs, batch[done..])
    case _ => true
  }

  lemma CommandOnJob(s: System, step: Step, j: nat)
    requires Inv(s) && Allowed(s, step) && !IsTick(step) && j < |s.jobs|
    ensures j < |Command(s, step).jobs| && LeavesInFlightAlone(s.jobs[j], Command(s, step).jobs[j])
    ensures !Command(s, step).jobs[j].purged ==> JobInv(Command(s, step).jobs[j], Flight(InFlight(s.phase), j))
  {
    var f := Flight(InFlight(s.phase), j);
    hide JobInv, Flight, SetVoice, SetActiveVersion, ReprocessChunk, TakePosition;
    if IsListenerCommand(step) {
      ListenerCommandOnJob(s, step, j);
    } else if Targets(step, j) && !s.jobs[j].purged {
      var job := s.jobs[j];
      match step
      case ChangeVoice(_, voice, rerender) =>
        SetVoiceKeepsInv(job, f, voice, rerender);
        SetVoiceFrame(job, voice, rerender);
      case Reprocess(_, i, t, v) => ReprocessKeeps(job, f, i, t, v);
      case SwitchTake(_, i, v) =>
        if Sees(s, j) && TakePosition(job.chunks, i, v).Some? {
          SetActiveVersionKeepsInv(job, f, i, v);
          SwitchFrame(job, i, v);
        }
      case Trash(_) => FlagsKeepInv(job, f, true, job.purged);
      case Restore(_) => FlagsKeepInv(job, f, false, job.purged);
      case _ =>
    }
  }

  predicate IsListenerCommand(step: Step) {
    || step.Activate? || step.Pause? || step.Resume? || step.Playback? || step.RenderToEnd?
    || step.Reactivate? || step.ExpireListeners?
  }

  lemma ListenerCommandOnJob(s: System, step: Step, j: nat)
    requires Inv(s) && IsListenerCommand(step) && j < |s.jobs|
    ensures j < |Command(s, step).jobs| && LeavesInFlightAlone(s.jobs[j], Command(s, step).jobs[j])
    ensures !Command(s, step).jobs[j].purged ==> JobInv(Command(s, step).jobs[j], Flight(InFlight(s.phase), j))
  {
    var f := Flight(InFlight(s.phase), j);
    hide JobInv, Flight, Max;
    if Targets(step, j) && !s.jobs[j].purged {
      var job := s.jobs[j];
      match step
      case Activate(_, now) => ListenerCommandsKeepInv(job, f, now, 0.0, false);
      case Pause(_, now) => ListenerCommandsKeepInv(job, f, now, 0.0, false);
      case Resume(_) => ListenerCommandsKeepInv(job, f, 0.0, 0.0, false);
      case Playback(_, position, playing, now) => UpdatePlaybackKeepsInv(job, f, position, playing, now);
      case RenderToEnd(_, on) => ListenerCommandsKeepInv(job, f, 0.0, 0.0, on);
      case Reactivate(_) => ListenerCommandsKeepInv(job, f, 0.0, 0.0, false);
      case ExpireListeners(now, timeout) => ListenerCommandsKeepInv(job, f, now, timeout, false);
    }
  }

  lemma FlagsKeepInv(job: Job, flight: set<nat>, trashed: bool, purged: bool)
    requires JobInv(job, flight)
    ensures JobInv(job.(trashed := trashed, purged := purged), flight)
    ensures JobInv(job.(trashed := trashed), flight)
  {
    hide StructureOf, ChunkStates, DerivedFreshOf, AwaitsSettling, HasUnfinishedChunks;
  }

  lemma SetVoiceFrame(job: Job, voice: string, rerender: bool)
    ensures LeavesInFlightAlone(job, SetVoice(job, voice, rerender))
  {
    hide RefreshDerived, SettleStatus, Revoiced, AnyRequeued, LeavesInFlightAlone;
    var r := Revoiced(job, voice, rerender);
    RevoicedFrame(job, voice, rerender);
    RefreshedAndSettledFrame(Reopened(r));
    RefreshFrame(r);
    MovedOnlyInPlace(job, r, RefreshDerived(r));
    MovedOnlyInPlace(job, r, SettleStatus(RefreshDerived(Reopened(r))));
    UnchangedLeavesInFlightAlone(job);
  }

  lemma UnchangedLeavesInFlightAlone(job: Job)
    ensures LeavesInFlightAlone(job, job)
  {
  }

  lemma MovedOnlyInPlace(job: Job, a: Job, b: Job)
    requires LeavesInFlightAlone(job, a) && SameButPlace(a.chunks, b.chunks) && b.purged == a.purged
    ensures LeavesInFlightAlone(job, b)
  {
  }

  lemma RevoicedFrame(job: Job, voice: string, rerender: bool)
    ensures LeavesInFlightAlone(job, Revoiced(job, voice, rerender))
  {
  }

  lemma SwitchFrame(job: Job, i: nat, v: nat)
    ensures LeavesInFlightAlone(job, SetActiveVersion(job, i, v))
  {
    hide RefreshDerived, SettleStatus;
    var j := ActivateVersion(job, i, v);
    RefreshedAndSettledFrame(j.(audioEpoch := j.audioEpoch + 1));
    assert forall p :: 0 <= p < |job.chunks| ==> j.chunks[p] == Activated(job.chunks[p], i, v);
    hide ActivatedAll;
  }

  lemma CommandKeepsInv(s: System, step: Step)
    requires Inv(s) && Allowed(s, step) && !IsTick(step)
    ensures Inv(Command(s, step))
  {
    hide JobInv, Flight, Command, Allowed, LeavesInFlightAlone;
    var t := Command(s, step);
    CommandKeepsPhase(s, step);
    forall j: nat | j < |s.jobs|
      ensures j < |t.jobs| && LeavesInFlightAlone(s.jobs[j], t.jobs[j])
      ensures !t.jobs[j].purged ==> JobInv(t.jobs[j], Flight(InFlight(s.phase), j))
    {
      CommandOnJob(s, step, j);
    }
    CreatedJobInv(s, step);
    PhaseSurvives(s, t.jobs);
  }

  lemma CommandKeepsPhase(s: System, step: Step)
    ensures Command(s, step).phase == s.phase && Command(s, step).dispatches == s.dispatches
    ensures |s.jobs| <= |Command(s, step).jobs|
  {
    hide SetVoice, SetActiveVersion, ReprocessChunk, TakePosition;
  }

  lemma CreatedJobInv(s: System, step: Step)
    requires Inv(s) && !IsTick(step)
    ensures forall j: nat :: |s.jobs| <= j < |Command(s, step).jobs| ==>
      JobInv(Command(s, step).jobs[j], Flight(InFlight(s.phase), j))
  {
    hide JobInv, NewJob, SetVoice, SetActiveVersion, ReprocessChunk, TakePosition;
    match step
    case Create(source, model, language, voice, now) =>
      NewJobInv(source, model, language, voice, now);
      NothingInFlightBeyond(s.jobs, InFlight(s.phase), |s.jobs|);
    case _ =>
  }

  lemma NothingInFlightBeyond(jobs: seq<Job>, refs: seq<Ref>, j: nat)
    requires ValidRefs(jobs, refs) && j >= |jobs|
    ensures Flight(refs, j) == {}
  {
    assert forall k :: 0 <= k < |refs| ==> ValidRef(jobs, refs[k]);
  }

  /** What the tick holds on to survives every command. */
  lemma PhaseSurvives(s: System, jobs: seq<Job>)
    requires Inv(s) && |s.jobs| <= |jobs|
    requires forall j: nat :: j < |s.jobs| ==> LeavesInFlightAlone(s.jobs[j], jobs[j])
    ensures PhaseInv(jobs, s.phase) && ValidRefs(jobs, InFlight(s.phase))
  {
    hide JobInv, Flight, LeavesInFlightAlone, Matches;
    var refs := InFlight(s.phase);
    forall k | 0 <= k < |refs| ensures ValidRef(jobs, refs[k]) {
      assert ValidRef(s.jobs, refs[k]);
      RefSurvives(s.jobs, jobs, refs[k]);
    }
    match s.phase {
      case Idle =>
      case Ranked(ranked) =>
        forall k | 0 <= k < |ranked|
          ensures ValidRef(jobs, ranked[k])
          ensures !jobs[ranked[k].job].purged ==> ChunkOf(jobs, ranked[k]).status.Planned?
        {
          assert ValidRef(s.jobs, ranked[k]);
          RefSurvives(s.jobs, jobs, ranked[k]);
        }
      case OnGpu(batch, spoken) =>
        forall k | 0 <= k < |batch| ensures Matches(jobs, batch[k], spoken[k]) {
          MatchSurvives(s.jobs, jobs, refs, k, spoken[k]);
        }
      case Landing(batch, results, done) =>
        forall k | done <= k < |results| ensures Matches(jobs, batch[k], results[k].audio) {
          assert refs[k - done] == batch[k];
          MatchSurvives(s.jobs, jobs, refs, k - done, results[k].audio);
        }
    }
  }

  lemma RefSurvives(a: seq<Job>, b: seq<Job>, r: Ref)
    requires ValidRef(a, r) && |a| <= |b| && LeavesInFlightAlone(a[r.job], b[r.job])
    ensures ValidRef(b, r) && (a[r.job].purged ==> b[r.job].purged)
    ensures ChunkOf(a, r).status.Planned? ==> ChunkOf(b, r).status.Planned?
    ensures ChunkOf(b, r).text == ChunkOf(a, r).text
    ensures ChunkOf(a, r).status.Rendering? ==> ChunkOf(b, r).voice == ChunkOf(a, r).voice
  {
  }

  lemma MatchSurvives(a: seq<Job>, b: seq<Job>, refs: seq<Ref>, k: nat, audio: Audio)
    requires JobsInv(a, refs) && k < |refs| && Matches(a, refs[k], audio) && |a| <= |b|
    requires LeavesInFlightAlone(a[refs[k].job], b[refs[k].job])
    ensures Matches(b, refs[k], audio)
  {
    hide JobsInv, LeavesInFlightAlone;
    RefSurvives(a, b, refs[k]);
    if !a[refs[k].job].purged { RefIsRendering(a, refs, k); }
  }

  lemma RefIsRendering(jobs: seq<Job>, refs: seq<Ref>, k: nat)
    requires JobsInv(jobs, refs) && k < |refs| && !jobs[refs[k].job].purged
    ensures ChunkOf(jobs, refs[k]).status.Rendering?
  {
    var r := refs[k];
    FlightPositions(jobs, refs, r.job, r.pos);
    hide Flight;
    assert ValidRef(jobs, r);
    InFlightIsUnwritten(jobs[r.job], Flight(refs, r.job), r.pos);
  }

  // ---- the steps of a tick ----

  lemma {:induction false} PlanLoopKeepsInv(job: Job, flight: set<nat>, cfg: SchedulerConfig)
    requires cfg.Valid() && JobInv(job, flight) && !job.status.JobCompleted?
    ensures JobInv(PlanLoop(job, cfg), flight)
    ensures |PlanLoop(job, cfg).chunks| >= |job.chunks| && PlanLoop(job, cfg).purged == job.purged
    decreases Unplanned(job)
  {
    hide JobInv, PlanNext, NeedsMorePlanning;
    if NeedsMorePlanning(job, cfg) {
      match PlanNext(job.text, job.cursor, cfg.planner) {
        case None =>
          FinishPlanningKeepsInv(job, flight, cfg.planner);
          SettleFrame(job.(cursor := -1));
        case Some(plan) =>
          AddPlannedKeepsInv(job, flight, plan, cfg.planner);
          PlanLoopKeepsInv(AddPlannedChunk(job, plan), flight, cfg);
      }
    }
  }

  lemma PlanAheadKeepsInv(s: System, j: nat, cfg: SchedulerConfig)
    requires Inv(s) && s.phase.Idle? && Sees(s, j) && cfg.Valid()
    ensures Inv(On(s, j, EnsurePlanned(s.jobs[j], cfg)))
  {
    hide JobInv, PlanLoop, Flight;
    var job := s.jobs[j];
    if !job.status.JobPaused? && !job.status.JobCompleted? && !Exhausted(job) {
      PlanLoopKeepsInv(job, Flight([], j), cfg);
    }
    ReplaceJob(s.jobs, [], j, EnsurePlanned(job, cfg));
  }

  lemma RankKeepsInv(s: System)
    requires Inv(s) && s.phase.Idle?
    ensures Inv(Tick(s, Rank))
  {
    hide JobInv, Flight;
    var refs := RenderableRefs(s.jobs, |s.jobs|);
    forall k | 0 <= k < |refs| ensures ValidRef(s.jobs, refs[k]) && ChunkOf(s.jobs, refs[k]).status.Planned? {
      assert refs[k] in refs;
      RenderableRefsMembers(s.jobs, |s.jobs|, refs[k]);
    }
  }

  lemma DispatchKeepsInv(s: System, batch: seq<Ref>)
    requires Inv(s) && s.phase.Ranked? && CanDispatch(s.jobs, s.phase.refs, batch)
    ensures Inv(Tick(s, Dispatch(batch)))
  {
    hide JobInv, Flight, IsVisible, SameGroup, MarkAllRendering, Matches;
    var refs := s.phase.refs;
    forall k | 0 <= k < |batch|
      ensures ValidRef(s.jobs, batch[k]) && !s.jobs[batch[k].job].purged
      ensures ChunkOf(s.jobs, batch[k]).status.Planned?
    {
      var l :| 0 <= l < |refs| && refs[l] == batch[k];
      assert IsVisible(s.jobs[refs[l].job]);
      VisibleIsNotPurged(s.jobs[refs[l].job]);
    }
    assert [] + batch == batch;
    MarkAllKeepsInv(s.jobs, [], batch);
    SpokenMatches(s.jobs, batch, s.dispatches);
  }

  lemma SpokenMatches(jobs: seq<Job>, batch: seq<Ref>, dispatch: nat)
    requires ValidRefs(jobs, batch)
    ensures forall k :: 0 <= k < |batch| ==>
      Matches(MarkAllRendering(jobs, batch), batch[k], Speak(jobs, batch, dispatch)[k])
  {
    MarkAllKeepsWords(jobs, batch);
    hide MarkAllRendering;
    forall k | 0 <= k < |batch|
      ensures Matches(MarkAllRendering(jobs, batch), batch[k], Speak(jobs, batch, dispatch)[k])
    {
      assert ValidRef(jobs, batch[k]);
    }
  }

  ghost predicate SameWords(a: Job, b: Job) {
    |a.chunks| == |b.chunks| && forall p :: 0 <= p < |a.chunks| ==>
      b.chunks[p].text == a.chunks[p].text && b.chunks[p].voice == a.chunks[p].voice
  }

  lemma MarkRenderingKeepsWords(job: Job, p: nat)
    requires p < |job.chunks|
    ensures SameWords(job, MarkRendering(job, p))
  {
  }

  lemma VisibleIsNotPurged(job: Job)
    requires IsVisible(job)
    ensures !job.purged
  {
  }

  lemma {:induction false} MarkAllKeepsWords(jobs: seq<Job>, refs: seq<Ref>)
    requires ValidRefs(jobs, refs)
    ensures forall j :: 0 <= j < |jobs| ==> SameWords(jobs[j], MarkAllRendering(jobs, refs)[j])
    decreases |refs|
  {
    hide MarkRendering;
    if refs != [] {
      var r := refs[0];
      var next := jobs[r.job := MarkRendering(jobs[r.job], r.pos)];
      MarkRenderingKeepsWords(jobs[r.job], r.pos);
      MarkAllKeepsWords(next, refs[1..]);
      forall j | 0 <= j < |jobs| ensures SameWords(jobs[j], MarkAllRendering(jobs, refs)[j]) {
        assert SameWords(jobs[j], next[j]) && SameWords(next[j], MarkAllRendering(jobs, refs)[j]);
      }
    }
  }

  lemma LandKeepsInv(s: System)
    requires Inv(s) && s.phase.Landing? && s.phase.done < |s.phase.results|
    ensures Inv(Tick(s, Land))
  {
    hide JobInv, Flight;
    var (batch, results, done) := (s.phase.batch, s.phase.results, s.phase.done);
    var refs := batch[done..];
    assert refs[0] == batch[done] && refs[1..] == batch[done + 1..];
    assert Matches(s.jobs, batch[done], results[done].audio);
    LandOneKeepsInv(s.jobs, refs, results[done]);
    forall k | done + 1 <= k < |results|
      ensures Matches(LandOne(s.jobs, batch[done], results[done]), batch[k], results[k].audio)
    {
      assert refs[k - done] == batch[k] && refs[0] != refs[k - done];
      assert Matches(s.jobs, batch[k], results[k].audio);
      if !s.jobs[batch[done].job].purged {
        MarkWrittenFrame(s.jobs[batch[done].job], batch[done].pos, results[done].duration, results[done].audio);
        hide MarkWritten;
      }
    }
  }

  lemma ReturnResultsKeepsInv(s: System, durations: seq<real>)
    requires Inv(s) && s.phase.OnGpu? && 0 < |durations| <= |s.phase.spoken|
    ensures Inv(Tick(s, ReturnResults(durations)))
  {
    hide JobInv, Flight;
    var batch := s.phase.batch;
    assert batch[0..] == batch;
  }

  lemma TickKeepsInv(s: System, step: Step)
    requires Inv(s) && Allowed(s, step) && IsTick(step)
    ensures Inv(Tick(s, step))
  {
    hide JobInv, Flight, EnsurePlanned, CanDispatch, Speak, Matches, LandOne;
    match (step, s.phase)
    case (PlanAhead(j, cfg), Idle) =>
      if Sees(s, j) && cfg.Valid() { PlanAheadKeepsInv(s, j, cfg); }
    case (Rank, Idle) => RankKeepsInv(s);
    case (Dispatch(batch), Ranked(refs)) =>
      if CanDispatch(s.jobs, refs, batch) { DispatchKeepsInv(s, batch); }
    case (ReturnResults(durations), OnGpu(_, spoken)) =>
      if 0 < |durations| <= |spoken| { ReturnResultsKeepsInv(s, durations); }
    case (ReturnFailure(error, maxAttempts), OnGpu(batch, _)) =>
      FailAllKeepsInv(s.jobs, batch, error, maxAttempts);
    case (ReturnVramError, OnGpu(batch, _)) => RequeueAllKeepsInv(s.jobs, batch);
    case (Land, Landing(_, results, done)) => if done < |results| { LandKeepsInv(s); }
    case (RequeueLeftovers, Landing(batch, results, done)) =>
      if done == |results| { RequeueAllKeepsInv(s.jobs, batch[done..]); }
    case _ =>
  }

  // ---- whole runs ----

  /** Every step of the run is allowed where it is taken. */
  ghost predicate AllowedRun(s: System, steps: seq<Step>)
    decreases |steps|
  {
    steps != [] ==> Allowed(s, steps[0]) && AllowedRun(Next(s, steps[0]), steps[1..])
  }

  lemma {:induction false} RunKeepsInv(s: System, steps: seq<Step>)
    requires Inv(s) && AllowedRun(s, steps)
    ensures Inv(Run(s, steps))
    decreases |steps|
  {
    hide Inv;
    if steps != [] {
      if IsTick(steps[0]) { TickKeepsInv(s, steps[0]); } else { CommandKeepsInv(s, steps[0]); }
      RunKeepsInv(Next(s, steps[0]), steps[1..]);
    }
  }

  ghost predicate Reachable(s: System) {
    exists steps :: AllowedRun(Empty, steps) && Run(Empty, steps) == s
  }

  /** Main invariant: it holds in every state the pipeline can reach. */
  lemma ReachableStatesAreSound(s: System)
    requires Reachable(s)
    ensures Inv(s)
  {
    var steps :| AllowedRun(Empty, steps) && Run(Empty, steps) == s;
    RunKeepsInv(Empty, steps);
  }
}
