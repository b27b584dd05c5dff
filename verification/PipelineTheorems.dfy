/** What the pipeline invariant means for a listener, and what it takes to break it. */
module PipelineTheorems {
  import opened Wrappers
  import opened Text
  import N = Normalize
  import opened JobModel
  import opened JobInvariants
  import opened Pipeline
  import opened PipelineSafety
  import opened AnyRun

  lemma ReachableJobsAreSound(s: System, j: nat)
    requires Reachable(s) && j < |s.jobs| && !s.jobs[j].purged
    ensures JobInv(s.jobs[j], Flight(InFlight(s.phase), j))
  {
    hide Reachable, JobInv;
    ReachableStatesAreSound(s);
  }

  // ---- nothing gets stuck ----

  /** Outside a batch no chunk and no job is rendering; during one, the chunks that are
      rendering are exactly those the batch has not dealt with yet. */
  lemma NothingIsStuck(s: System, j: nat)
    requires Reachable(s) && j < |s.jobs| && !s.jobs[j].purged
    ensures forall p: nat :: p < |s.jobs[j].chunks| ==>
      (s.jobs[j].chunks[p].status.Rendering? <==> Ref(j, p) in InFlight(s.phase))
    ensures InFlight(s.phase) == [] ==> !s.jobs[j].status.JobRendering?
  {
    ReachableJobsAreSound(s, j);
    var refs := InFlight(s.phase);
    var f := Flight(refs, j);
    hide Reachable, StructureOf, DerivedFreshOf, CompletedIsSound;
    forall p: nat | p < |s.jobs[j].chunks|
      ensures s.jobs[j].chunks[p].status.Rendering? <==> Ref(j, p) in refs
    {
      FlightPositions(s.jobs, refs, j, p);
      assert ChunkState(s.jobs[j].chunks[p], s.jobs[j].planVersion, p in f);
    }
  }

  ghost predicate LeftRendering(jobs: seq<Job>, refs: seq<Ref>) {
    exists k :: 0 <= k < |refs| && IsLeftRendering(jobs, refs[k])
  }

  predicate IsLeftRendering(jobs: seq<Job>, r: Ref) {
    ValidRef(jobs, r) && !jobs[r.job].purged && ChunkOf(jobs, r).status.Rendering?
  }

  /** Putting a batch back leaves a chunk of an existing job rendering for good exactly when
      a purged job's chunk stands before one: the loop ends at the first purged job. */
  lemma RequeueStrandsExactlyWhen(jobs: seq<Job>, refs: seq<Ref>)
    requires JobsInv(jobs, refs)
    ensures LeftRendering(RequeueAll(jobs, refs), refs) <==> !RequeueCompletes(jobs, refs)
  {
    hide JobInv;
    if RequeueCompletes(jobs, refs) {
      RequeueAllKeepsInv(jobs, refs);
      forall k | 0 <= k < |refs| ensures !IsLeftRendering(RequeueAll(jobs, refs), refs[k]) {
        NotInFlight(RequeueAll(jobs, refs), refs[k]);
      }
    } else {
      RequeueStrands(jobs, refs);
    }
  }

  lemma NotInFlight(jobs: seq<Job>, r: Ref)
    requires JobsInv(jobs, [])
    ensures !IsLeftRendering(jobs, r)
  {
    if ValidRef(jobs, r) && !jobs[r.job].purged {
      assert JobInv(jobs[r.job], Flight([], r.job));
      hide StructureOf, DerivedFreshOf, CompletedIsSound;
      assert ChunkState(jobs[r.job].chunks[r.pos], jobs[r.job].planVersion, false);
    }
  }

  lemma {:induction false} RequeueStrands(jobs: seq<Job>, refs: seq<Ref>)
    requires JobsInv(jobs, refs) && !RequeueCompletes(jobs, refs)
    ensures LeftRendering(RequeueAll(jobs, refs), refs)
    decreases |refs|
  {
    hide JobInv, Flight, MarkPlanned;
    var k, l :| 0 <= k < l < |refs| && jobs[refs[k].job].purged && !jobs[refs[l].job].purged;
    if jobs[refs[0].job].purged {
      RefIsRendering(jobs, refs, l);
      assert IsLeftRendering(jobs, refs[l]);
    } else {
      var r := refs[0];
      HeadInFlight(jobs, refs);
      MarkPlannedKeepsInv(jobs[r.job], Flight(refs, r.job), r.pos);
      MarkPlannedFrame(jobs[r.job], r.pos);
      var next := jobs[r.job := MarkPlanned(jobs[r.job], r.pos)];
      DropHead(jobs, refs, MarkPlanned(jobs[r.job], r.pos));
      assert refs[1..][k - 1] == refs[k] && refs[1..][l - 1] == refs[l];
      RequeueStrands(next, refs[1..]);
      var m :| 0 <= m < |refs| - 1 && IsLeftRendering(RequeueAll(next, refs[1..]), refs[1..][m]);
      assert refs[1..][m] == refs[m + 1];
    }
  }

  // ---- what a run must not do ----

  /** The steps that `Allowed` excludes are exactly those that break the invariant. */
  lemma StepIsSoundExactlyWhen(s: System, step: Step)
    requires Inv(s)
    ensures Inv(Next(s, step)) <==> Allowed(s, step)
  {
    hide JobInv, Flight, RequeueCompletes, CanGoLive, TakePosition, SetActiveVersion;
    if Allowed(s, step) {
      hide Inv, Next, Allowed;
      if IsTick(step) { TickKeepsInv(s, step); } else { CommandKeepsInv(s, step); }
    } else {
      match step
      case SwitchTake(j, i, v) => BadSwitch(s, j, i, v);
      case ReturnVramError => BadRequeue(s, s.phase.batch);
      case RequeueLeftovers => BadRequeue(s, s.phase.batch[s.phase.done..]);
    }
  }

  lemma BadSwitch(s: System, j: nat, i: nat, v: nat)
    requires Inv(s) && !Allowed(s, SwitchTake(j, i, v))
    ensures !Inv(Command(s, SwitchTake(j, i, v)))
  {
    hide JobInv, Flight, TakePosition, SetActiveVersion, CanGoLive;
    assert JobInv(s.jobs[j], Flight(InFlight(s.phase), j));
    SwitchIsSoundExactlyWhen(s.jobs[j], Flight(InFlight(s.phase), j), i, v);
    var t := Command(s, SwitchTake(j, i, v));
    assert t.jobs[j] == SetActiveVersion(s.jobs[j], i, v) && t.phase == s.phase;
    SwitchStaysUnpurged(s.jobs[j], i, v);
  }

  lemma SwitchStaysUnpurged(job: Job, i: nat, v: nat)
    ensures SetActiveVersion(job, i, v).purged == job.purged
  {
    hide RefreshDerived, SettleStatus;
    var j := ActivateVersion(job, i, v);
    RefreshedAndSettledFrame(j.(audioEpoch := j.audioEpoch + 1));
  }

  lemma BadRequeue(s: System, refs: seq<Ref>)
    requires JobsInv(s.jobs, refs) && !RequeueCompletes(s.jobs, refs)
    ensures !JobsInv(RequeueAll(s.jobs, refs), [])
  {
    hide JobInv, RequeueCompletes;
    RequeueStrandsExactlyWhen(s.jobs, refs);
    var next := RequeueAll(s.jobs, refs);
    var k :| 0 <= k < |refs| && IsLeftRendering(next, refs[k]);
    if JobsInv(next, []) { NotInFlight(next, refs[k]); }
  }

  ghost predicate SoundThroughout(s: System, steps: seq<Step>)
    decreases |steps|
  {
    Inv(s) && (steps != [] ==> SoundThroughout(Next(s, steps[0]), steps[1..]))
  }

  /** So the runs that stay sound from one end to the other are exactly the allowed ones. */
  lemma {:induction false} RunIsSoundExactlyWhen(s: System, steps: seq<Step>)
    requires Inv(s)
    ensures SoundThroughout(s, steps) <==> AllowedRun(s, steps)
    decreases |steps|
  {
    hide Inv, Next, Allowed;
    if steps != [] {
      StepIsSoundExactlyWhen(s, steps[0]);
      if Allowed(s, steps[0]) { RunIsSoundExactlyWhen(Next(s, steps[0]), steps[1..]); }
    }
  }

  // ---- no text is dropped ----

  function LiveTake(job: Job, i: nat): Chunk
    requires LivePosition(job.chunks, i).Some?
  {
    job.chunks[LivePosition(job.chunks, i).value]
  }

  /** Each planned index has exactly one live take, the one the active map names. */
  lemma OneLiveTakePerIndex(steps: seq<Step>, j: nat)
    requires j < |Run(Empty, steps).jobs|
    ensures
      var job := Run(Empty, steps).jobs[j];
      && (forall i: nat :: i < job.nextIndex ==> LivePosition(job.chunks, i).Some?)
      && (forall i: nat :: i < job.nextIndex ==> ActiveTake(job, i) == LivePosition(job.chunks, i))
      && (forall p: nat :: p < |job.chunks| && !job.chunks[p].deprecated ==>
           job.chunks[p].index < job.nextIndex && LivePosition(job.chunks, job.chunks[p].index) == Some(p))
  {
    hide Run, StructureOf, AreRecords, DerivedFreshOf, ActiveTake;
    JobAfterAnyRun(steps, j);
    var job := Run(Empty, steps).jobs[j];
    LiveTakeIsUnique(job);
    forall i: nat { ActiveTakeIsLive(job, i); }
  }

  lemma LiveTakeIsUnique(job: Job)
    requires Structure(job)
    ensures forall i: nat :: i < job.nextIndex ==> LivePosition(job.chunks, i).Some?
    ensures forall p: nat :: p < |job.chunks| && !job.chunks[p].deprecated ==>
      job.chunks[p].index < job.nextIndex && LivePosition(job.chunks, job.chunks[p].index) == Some(p)
  {
    hide SpansTile, PlannedTakesSpeakTheText;
  }

  predicate StartsWhereLastEnded(job: Job, i: nat)
    requires LivePosition(job.chunks, i).Some? && (i > 0 ==> LivePosition(job.chunks, i - 1).Some?)
  {
    LiveTake(job, i).charStart == if i == 0 then 0 else LiveTake(job, i - 1).charEnd
  }

  /** The live takes tile the text up to the cursor, which is all of it once planning is
      exhausted. */
  lemma LiveTakesTileTheText(steps: seq<Step>, j: nat)
    requires j < |Run(Empty, steps).jobs|
    ensures
      var job := Run(Empty, steps).jobs[j];
      && (forall i: nat :: i < job.nextIndex ==> LivePosition(job.chunks, i).Some?)
      && (forall i: nat :: i < job.nextIndex ==> StartsWhereLastEnded(job, i))
      && (if job.nextIndex > 0 then LiveTake(job, job.nextIndex - 1).charEnd else 0) == CursorEnd(job)
      && (Exhausted(job) ==> CursorEnd(job) == |job.text|)
  {
    hide Run;
    OneLiveTakePerIndex(steps, j);
    JobAfterAnyRun(steps, j);
    TakesTile(Run(Empty, steps).jobs[j]);
  }

  lemma TakesTile(job: Job)
    requires Coherent(job)
    requires forall i: nat :: i < job.nextIndex ==> LivePosition(job.chunks, i).Some?
    ensures forall i: nat :: i < job.nextIndex ==> StartsWhereLastEnded(job, i)
    ensures (if job.nextIndex > 0 then LiveTake(job, job.nextIndex - 1).charEnd else 0) == CursorEnd(job)
    ensures Exhausted(job) ==> CursorEnd(job) == |job.text|
  {
    hide DerivedFresh, PlannedTakesSpeakTheText, OneLiveTake, AreRecords, IsSpace;
    forall i: nat | i < job.nextIndex ensures StartsWhereLastEnded(job, i) {
      assert LiveTake(job, i).index == i;
      if i > 0 { assert Follows(LiveTake(job, i - 1), LiveTake(job, i)); }
    }
  }

  /** A live planned chunk waits for nothing but a visible, unpaused job. */
  lemma PlannedTakesAreRenderable(s: System, j: nat, p: nat)
    requires Reachable(s) && j < |s.jobs| && !s.jobs[j].purged && p < |s.jobs[j].chunks|
    requires !s.jobs[j].chunks[p].deprecated && s.jobs[j].chunks[p].status.Planned?
    ensures Ref(j, p) in RenderableRefs(s.jobs, |s.jobs|) <==>
      IsVisible(s.jobs[j]) && !s.jobs[j].status.JobPaused?
  {
    ReachableJobsAreSound(s, j);
    var job := s.jobs[j];
    var f := Flight(InFlight(s.phase), j);
    hide Reachable, Flight, DerivedFreshOf, CompletedIsSound, StructureOf;
    assert ChunkState(job.chunks[p], job.planVersion, p in f);
    RenderableRefsMembers(s.jobs, |s.jobs|, Ref(j, p));
  }

  /** Waking a job up, by listening to it or by resuming it, puts its waiting takes on offer. */
  lemma WakingPutsTakesOnOffer(s: System, j: nat, p: nat, step: Step)
    requires Reachable(s) && Sees(s, j) && !IsTerminal(s.jobs[j].status) && p < |s.jobs[j].chunks|
    requires (step.Activate? || step.Resume?) && step.job == j
    ensures
      var t := Next(s, step);
      && |t.jobs| == |s.jobs| && t.jobs[j].chunks == s.jobs[j].chunks
      && (!t.jobs[j].chunks[p].deprecated && t.jobs[j].chunks[p].status.Planned? ==>
           Ref(j, p) in RenderableRefs(t.jobs, |t.jobs|))
  {
    ReachableJobsAreSound(s, j);
    var job := s.jobs[j];
    var f := Flight(InFlight(s.phase), j);
    hide Reachable, Flight, DerivedFreshOf, CompletedIsSound, StructureOf;
    assert ChunkState(job.chunks[p], job.planVersion, p in f);
    var t := Next(s, step);
    assert t.jobs[j].planVersion == job.planVersion && !t.jobs[j].status.JobPaused?;
    RenderableRefsMembers(t.jobs, |t.jobs|, Ref(j, p));
  }

  function SpokenText(job: Job, n: nat): string
    requires forall i: nat :: i < n ==> LivePosition(job.chunks, i).Some?
  {
    if n == 0 then [] else SpokenText(job, n - 1) + LiveTake(job, n - 1).text
  }

  /** What the live takes of a job say, one index after the other. */
  lemma {:induction false} LiveTakesSpeakThePrefix(steps: seq<Step>, j: nat, n: nat)
    requires j < |Run(Empty, steps).jobs| && n <= Run(Empty, steps).jobs[j].nextIndex
    requires
      var job := Run(Empty, steps).jobs[j];
      && (forall i: nat :: i < job.nextIndex ==> LivePosition(job.chunks, i).Some?)
      && (forall i: nat :: i < n ==> LiveTake(job, i).version == 0)
    ensures
      var job := Run(Empty, steps).jobs[j];
      var end := if n == 0 then 0 else LiveTake(job, n - 1).charEnd;
      end <= |job.text| && Squeeze(SpokenText(job, n)) == Squeeze(job.text[..end])
    decreases n
  {
    hide IsSpace, Squeeze, Run, LivePosition;
    if n > 0 {
      LiveTakesSpeakThePrefix(steps, j, n - 1);
      LiveTakesTileTheText(steps, j);
      var job := Run(Empty, steps).jobs[j];
      var start := if n == 1 then 0 else LiveTake(job, n - 2).charEnd;
      var live := LiveTake(job, n - 1);
      assert StartsWhereLastEnded(job, n - 1);
      JobAfterAnyRun(steps, j);
      LiveTakeSpeaks(job, n - 1);
      SqueezeExtend(job.text, start, live.charEnd, SpokenText(job, n - 1), live.text);
    }
  }

  lemma SqueezeExtend(text: string, a: nat, b: nat, spoken: string, next: string)
    requires a <= b <= |text|
    requires Squeeze(spoken) == Squeeze(text[..a]) && Squeeze(next) == Squeeze(text[a..b])
    ensures Squeeze(spoken + next) == Squeeze(text[..b])
  {
    assert text[..b] == text[..a] + text[a..b];
    SqueezeConcat(text[..a], text[a..b]);
    SqueezeConcat(spoken, next);
  }

  lemma LiveTakeSpeaks(job: Job, i: nat)
    requires Coherent(job) && LivePosition(job.chunks, i).Some? && LiveTake(job, i).version == 0
    ensures SpeaksItsSpan(LiveTake(job, i), job.text)
  {
    hide SpeaksItsSpan, OneLiveTake, UniqueTakes, SpansTile, AreRecords, DerivedFresh;
  }

  /** A fully planned job whose takes were never reworded speaks every character of the
      submitted source, in order, whitespace aside. */
  lemma WholeSourceIsSpoken(steps: seq<Step>, j: nat, source: string)
    requires j < |Run(Empty, steps).jobs|
    requires
      var job := Run(Empty, steps).jobs[j];
      && Exhausted(job) && job.text == N.NormalizeSourceText(source)
      && forall p :: 0 <= p < |job.chunks| && !job.chunks[p].deprecated ==> job.chunks[p].version == 0
    ensures
      var job := Run(Empty, steps).jobs[j];
      && (forall i: nat :: i < job.nextIndex ==> LivePosition(job.chunks, i).Some?)
      && Squeeze(SpokenText(job, job.nextIndex)) == Squeeze(source)
  {
    hide Run, Squeeze, N.NormalizeSourceText;
    var job := Run(Empty, steps).jobs[j];
    LiveTakesTileTheText(steps, j);
    LiveTakesSpeakThePrefix(steps, j, job.nextIndex);
    assert job.text[..|job.text|] == job.text;
    N.NormalizeKeepsSpokenText(source);
  }

  // ---- completion and cached values ----

  /** A completed job is done: fully planned, each live take written or given up. */
  lemma CompletedJobsAreDone(s: System, j: nat)
    requires Reachable(s) && j < |s.jobs| && !s.jobs[j].purged
    ensures s.jobs[j].status.JobCompleted? ==> Exhausted(s.jobs[j])
    ensures s.jobs[j].status.JobCompleted? ==> forall p :: 0 <= p < |s.jobs[j].chunks| ==>
      var c := s.jobs[j].chunks[p]; !c.deprecated ==> c.status.Written? || c.status.Failed?
  {
    ReachableJobsAreSound(s, j);
    var job := s.jobs[j];
    var f := Flight(InFlight(s.phase), j);
    hide Reachable, Flight, StructureOf, DerivedFreshOf;
    forall p: nat | p < |job.chunks|
      ensures ChunkState(job.chunks[p], job.planVersion, p in f)
      ensures job.status.JobCompleted? && !job.chunks[p].deprecated ==>
        job.chunks[p].status.Written? || job.chunks[p].status.Failed?
    {
      if job.status.JobCompleted? { assert !UnfinishedAt(job.chunks, p); }
    }
  }

  /** Whatever is written is the take's own text in the take's own voice. */
  lemma WrittenAudioIsItsOwn(steps: seq<Step>, j: nat, p: nat)
    requires j < |Run(Empty, steps).jobs| && p < |Run(Empty, steps).jobs[j].chunks|
    ensures
      var c := Run(Empty, steps).jobs[j].chunks[p];
      && (c.status.Written? <==> c.segment.Some?)
      && (c.status.Written? ==> c.segment.value.text == c.text && c.segment.value.voice == c.voice)
  {
    hide Run, Structure, DerivedFresh;
    JobAfterAnyRun(steps, j);
    assert IsRecord(Run(Empty, steps).jobs[j].chunks[p], Run(Empty, steps).jobs[j].planVersion);
  }

  /** After any command sequence the cached values are what recomputing them would give. */
  lemma CachedValuesAreCurrent(steps: seq<Step>, j: nat)
    requires j < |Run(Empty, steps).jobs|
    ensures
      var job := Run(Empty, steps).jobs[j];
      && job.writtenCount == WrittenBelow(job.chunks, job.nextIndex)
      && job.contiguous == PlayableBelow(job.chunks, job.nextIndex)
      && job.buffered == Max(0.0, job.contiguous - job.currentTime)
      && (forall p :: 0 <= p < |job.chunks| && !job.chunks[p].deprecated && job.chunks[p].status.Written? ==>
           job.chunks[p].startSeconds == StartAt(job.chunks, job.chunks[p].index))
  {
    hide Run, Coherent, StartAt, WrittenBelow, PlayableBelow;
    JobAfterAnyRun(steps, j);
    CoherentMeansCurrent(Run(Empty, steps).jobs[j]);
  }

  /** Index `i` has a live take, and that is written. */
  ghost predicate IsRecorded(chunks: seq<Chunk>, i: nat) {
    exists p: nat :: p < |chunks| && IsRecordingOf(chunks[p], i)
  }

  predicate IsRecordingOf(c: Chunk, i: nat) { c.index == i && !c.deprecated && c.status.Written? }

  ghost predicate HasOneLiveTake(chunks: seq<Chunk>) {
    forall p, q :: 0 <= p < q < |chunks| && !chunks[p].deprecated && !chunks[q].deprecated ==>
      chunks[p].index != chunks[q].index
  }

  lemma RecordedMeansWritten(chunks: seq<Chunk>, i: nat)
    requires HasOneLiveTake(chunks)
    ensures WrittenAt(chunks, i) <==> IsRecorded(chunks, i)
    ensures forall p: nat :: p < |chunks| && IsRecordingOf(chunks[p], i) ==> DurationAt(chunks, i) == chunks[p].duration
  {
    var at := LivePosition(chunks, i);
    hide LivePosition;
    if at.Some? && chunks[at.value].status.Written? { assert IsRecordingOf(chunks[at.value], i); }
    forall p: nat | p < |chunks| && IsRecordingOf(chunks[p], i) ensures at == Some(p) {
      assert at.Some? && at.value <= p;
    }
  }

  /** On the timeline an index starts where the one before it starts, and later by the seconds of
      that one's recording if it has one. */
  lemma StartsOneByOne(chunks: seq<Chunk>, i: nat)
    requires HasOneLiveTake(chunks)
    ensures StartAt(chunks, 0) == 0.0
    ensures forall p: nat :: p < |chunks| && IsRecordingOf(chunks[p], i) ==>
      StartAt(chunks, i + 1) == StartAt(chunks, i) + chunks[p].duration
    ensures !IsRecorded(chunks, i) ==> StartAt(chunks, i + 1) == StartAt(chunks, i)
  {
    RecordedMeansWritten(chunks, i);
    assert StartAt(chunks, i + 1) == StartAt(chunks, i) + DurationAt(chunks, i);
    hide HasOneLiveTake, LivePosition, StartAt;
  }

  ghost function RecordedBelow(chunks: seq<Chunk>, n: nat): set<nat> {
    set i: nat | i < n && IsRecorded(chunks, i)
  }

  lemma OneMoreRecorded(chunks: seq<Chunk>, n: nat)
    ensures |RecordedBelow(chunks, n + 1)| == |RecordedBelow(chunks, n)| + if IsRecorded(chunks, n) then 1 else 0
  {
    hide IsRecorded;
    assert RecordedBelow(chunks, n + 1) == RecordedBelow(chunks, n) + if IsRecorded(chunks, n) then {n} else {};
  }

  /** The count is that of the recorded indexes. */
  lemma {:induction false} CountsTheRecorded(chunks: seq<Chunk>, n: nat)
    requires HasOneLiveTake(chunks)
    ensures WrittenBelow(chunks, n) == |RecordedBelow(chunks, n)|
  {
    hide HasOneLiveTake, WrittenAt, IsRecorded;
    if n == 0 {
      assert RecordedBelow(chunks, 0) == {};
    } else {
      CountsTheRecorded(chunks, n - 1);
      RecordedMeansWritten(chunks, n - 1);
      OneMoreRecorded(chunks, n - 1);
      hide RecordedBelow;
    }
  }

  lemma NoHoleExactlyWhen(chunks: seq<Chunk>, n: nat, hole: nat)
    requires HasOneLiveTake(chunks) && hole <= n && (hole < n ==> !IsRecorded(chunks, hole))
    requires forall i: nat :: i < hole ==> IsRecorded(chunks, i)
    ensures NoHoleBelow(chunks, n) <==> hole == n
  {
    forall i: nat ensures WrittenAt(chunks, i) <==> IsRecorded(chunks, i) { RecordedMeansWritten(chunks, i); }
    hide HasOneLiveTake, WrittenAt, IsRecorded;
  }

  /** What can be played reaches to where the first index without a recording starts. */
  lemma {:induction false} PlaysToTheFirstHole(chunks: seq<Chunk>, n: nat, hole: nat)
    requires HasOneLiveTake(chunks) && hole <= n && (hole < n ==> !IsRecorded(chunks, hole))
    requires forall i: nat :: i < hole ==> IsRecorded(chunks, i)
    ensures PlayableBelow(chunks, n) == StartAt(chunks, hole)
  {
    if n > 0 {
      NoHoleExactlyWhen(chunks, n, hole);
      hide HasOneLiveTake, NoHoleBelow, IsRecorded, DurationAt;
      PlaysToTheFirstHole(chunks, n - 1, if hole == n then n - 1 else hole);
    }
  }

  /** After any run the cached values say, in terms of the takes, how many indexes have a
      recording, and how far playback gets before the first index that has none. */
  lemma PlaybackReachesTheFirstHole(steps: seq<Step>, j: nat, hole: nat)
    requires j < |Run(Empty, steps).jobs| && hole <= Run(Empty, steps).jobs[j].nextIndex
    requires forall i: nat :: i < hole ==> IsRecorded(Run(Empty, steps).jobs[j].chunks, i)
    requires hole < Run(Empty, steps).jobs[j].nextIndex ==> !IsRecorded(Run(Empty, steps).jobs[j].chunks, hole)
    ensures
      var job := Run(Empty, steps).jobs[j];
      && job.contiguous == StartAt(job.chunks, hole)
      && job.writtenCount == |RecordedBelow(job.chunks, job.nextIndex)|
  {
    JobAfterAnyRun(steps, j);
    var job := Run(Empty, steps).jobs[j];
    hide Run;
    LiveTakesDiffer(job);
    CoherentMeansCurrent(job);
    hide Coherent, HasOneLiveTake, StartAt, WrittenBelow, PlayableBelow, IsRecorded;
    PlaysToTheFirstHole(job.chunks, job.nextIndex, hole);
    CountsTheRecorded(job.chunks, job.nextIndex);
  }

  lemma LiveTakesDiffer(job: Job)
    requires Coherent(job)
    ensures HasOneLiveTake(job.chunks)
  {
    hide DerivedFresh, AreRecords, SpansTile, PlannedTakesSpeakTheText, LivePosition;
  }

  lemma CoherentMeansCurrent(job: Job)
    requires Coherent(job)
    ensures job.writtenCount == WrittenBelow(job.chunks, job.nextIndex)
    ensures job.contiguous == PlayableBelow(job.chunks, job.nextIndex)
    ensures job.buffered == Max(0.0, job.contiguous - job.currentTime)
    ensures forall p :: 0 <= p < |job.chunks| && !job.chunks[p].deprecated && job.chunks[p].status.Written? ==>
      job.chunks[p].startSeconds == StartAt(job.chunks, job.chunks[p].index)
  {
    hide Structure, AreRecords, StartAt, WrittenBelow, PlayableBelow;
  }
}
