/** Runs from an empty table that do what the exact conditions warn of. */
module PipelineWitnesses {
  import opened Wrappers
  import opened Planner
  import N = Normalize
  import opened JobModel
  import opened JobInvariants
  import opened Pipeline
  import opened PipelineSafety
  import opened PipelineTheorems

  const CONFIG := SchedulerConfig(PlannerConfig(1, 1, 40), 1, 0.0, 1)

  function Fresh(): Job { NewJob("a", "model", "language", "anna", 0.0) }

  /** A job of one letter, planned. */
  function OneChunk(): Job { AddPlannedChunk(Fresh(), ChunkPlan("a", 0, 1)) }

  const CREATION := Create("a", "model", "language", "anna", 0.0)

  lemma FreshText()
    ensures Fresh().text == "a"
  {
    N.CanonicalIsFixed("a");
  }

  lemma OnePlan()
    ensures PlanNext("a", 0, CONFIG.planner) == Some(ChunkPlan("a", 0, 1))
  {
    PlanNextAdvances("a", 0, CONFIG.planner);
    hide PlanNext;
    var plan := PlanNext("a", 0, CONFIG.planner).value;
    assert "a"[0..1] == "a";
    assert |plan.text| == 1 && plan.charEnd == 1;
  }

  lemma PlanningMakesOneChunk()
    ensures EnsurePlanned(Fresh(), CONFIG) == OneChunk()
    ensures OneChunk() == Fresh().(chunks := [PlannedChunk(Fresh(), ChunkPlan("a", 0, 1))], nextIndex := 1,
                                   active := map[0 := 0], cursor := -1)
  {
    FreshText();
    OnePlan();
    hide PlanNext;
    assert OneChunk().chunks == [PlannedChunk(Fresh(), ChunkPlan("a", 0, 1))];
    assert OneChunk().active == map[0 := 0];
    assert !NeedsMorePlanning(OneChunk(), CONFIG) by { assert OneChunk().chunks[..0] == []; }
    assert NeedsMorePlanning(Fresh(), CONFIG);
    hide NeedsMorePlanning;
    assert PlanLoop(OneChunk(), CONFIG) == OneChunk();
  }

  lemma Onward(s: System, step: Step, next: System, rest: seq<Step>, t: System)
    requires Next(s, step) == next && Run(next, rest) == t
    ensures Run(s, [step] + rest) == t
  {
    assert ([step] + rest)[1..] == rest;
    hide Next;
  }

  lemma Creates(jobs: seq<Job>)
    ensures Next(System(jobs, Idle, 0), CREATION) == System(jobs + [Fresh()], Idle, 0)
  {
    hide NewJob;
  }

  lemma Plans(s: System, j: nat)
    requires s.phase.Idle? && j < |s.jobs| && s.jobs[j] == Fresh()
    ensures Next(s, PlanAhead(j, CONFIG)) == On(s, j, OneChunk())
  {
    hide EnsurePlanned, OneChunk, Fresh;
    PlanningMakesOneChunk();
    FreshIsVisible();
  }

  lemma FreshIsVisible()
    ensures IsVisible(Fresh())
  {
  }

  // ---- a chunk left rendering ----

  const BOTH := [Ref(0, 0), Ref(1, 0)]

  function TwoJobs(a: Job, b: Job, phase: Phase, dispatches: nat): System { System([a, b], phase, dispatches) }

  lemma BothAreRanked()
    ensures RenderableRefs([OneChunk(), OneChunk()], 2) == BOTH
  {
    PlanningMakesOneChunk();
    var jobs := [OneChunk(), OneChunk()];
    assert RenderableOf(jobs[0], 0, 1) == [Ref(0, 0)];
    assert RenderableOf(jobs[1], 1, 1) == [Ref(1, 0)];
    assert RenderableRefs(jobs, 0) == [];
    assert RenderableRefs(jobs, 1) == [Ref(0, 0)];
  }

  lemma BothCanBeDispatched()
    ensures CanDispatch([OneChunk(), OneChunk()], BOTH, BOTH)
  {
    hide OneChunk;
    FirstOfTwo();
  }

  function OnTheGpu(): Job { MarkRendering(OneChunk(), 0) }

  lemma BothAreMarked()
    ensures ValidRefs([OneChunk(), OneChunk()], BOTH)
    ensures MarkAllRendering([OneChunk(), OneChunk()], BOTH) == [OnTheGpu(), OnTheGpu()]
  {
    PlanningMakesOneChunk();
    hide MarkRendering;
    var jobs := [OneChunk(), OneChunk()];
    var next := [OnTheGpu(), OneChunk()];
    assert jobs[0 := OnTheGpu()] == next;
    assert next[1 := OnTheGpu()] == [OnTheGpu(), OnTheGpu()];
    assert BOTH[1..] == [Ref(1, 0)] && BOTH[1..][1..] == [];
    SizeOnTheGpu();
    assert MarkAllRendering(next, [Ref(1, 0)]) == MarkAllRendering([OnTheGpu(), OnTheGpu()], []);
  }

  lemma SizeOnTheGpu()
    ensures |OnTheGpu().chunks| == 1 && OnTheGpu().chunks[0].status.Rendering? && IsVisible(OnTheGpu())
  {
    PlanningMakesOneChunk();
  }

  function Gone(): Job { OnTheGpu().(trashed := true, purged := true) }

  function Spoken(): seq<Audio> { [Audio("a", "anna", 0), Audio("a", "anna", 0)] }

  function Flying(a: Job): System { TwoJobs(a, OnTheGpu(), OnGpu(BOTH, Spoken()), 1) }

  lemma BothAreSpoken()
    ensures ValidRefs([OneChunk(), OneChunk()], BOTH)
    ensures Speak([OneChunk(), OneChunk()], BOTH, 0) == Spoken()
  {
    hide OneChunk;
    FirstOfTwo();
  }

  lemma DispatchesBoth()
    ensures Next(TwoJobs(OneChunk(), OneChunk(), Ranked(BOTH), 0), Dispatch(BOTH)) == Flying(OnTheGpu())
  {
    BothAreSpoken();
    BothAreMarked();
    BothCanBeDispatched();
    hide CanDispatch, MarkAllRendering, Speak, OneChunk, OnTheGpu;
  }

  function Stranded(): System { TwoJobs(Gone(), OnTheGpu(), Idle, 1) }

  lemma PurgedInFlight()
    ensures Run(Flying(OnTheGpu()), [Trash(0)] + ([Purge(0)] + ([ReturnVramError] + []))) == Stranded()
  {
    SizeOnTheGpu();
    var job := OnTheGpu();
    hide OnTheGpu, Run;
    var trashed := job.(trashed := true);
    assert [job, job][0 := trashed] == [trashed, job];
    assert [trashed, job][0 := Gone()] == [Gone(), job];
    assert RequeueAll([Gone(), job], BOTH) == [Gone(), job];
    assert Next(Flying(job), Trash(0)) == Flying(trashed);
    assert Next(Flying(trashed), Purge(0)) == Flying(Gone());
    assert Next(Flying(Gone()), ReturnVramError) == Stranded();
    hide Next;
    RunNothing(Stranded());
    Onward(Flying(Gone()), ReturnVramError, Stranded(), [], Stranded());
    Onward(Flying(trashed), Purge(0), Flying(Gone()), [ReturnVramError] + [], Stranded());
    Onward(Flying(job), Trash(0), Flying(trashed), [Purge(0)] + ([ReturnVramError] + []), Stranded());
  }

  lemma RunNothing(s: System)
    ensures Run(s, []) == s
  {
  }

  lemma DispatchedAndPurged()
    ensures Run(TwoJobs(OneChunk(), OneChunk(), Idle, 0), StrandingTail()) == Stranded()
  {
    PurgedInFlight();
    DispatchesBoth();
    BothAreRanked();
    hide Run, Next, OneChunk, OnTheGpu, RenderableRefs, Stranded, Flying;
    var ranked := TwoJobs(OneChunk(), OneChunk(), Ranked(BOTH), 0);
    var tail := [Trash(0)] + ([Purge(0)] + ([ReturnVramError] + []));
    Onward(ranked, Dispatch(BOTH), Flying(OnTheGpu()), tail, Stranded());
    Ranks(TwoJobs(OneChunk(), OneChunk(), Idle, 0));
    Onward(TwoJobs(OneChunk(), OneChunk(), Idle, 0), Rank, ranked, [Dispatch(BOTH)] + tail, Stranded());
  }

  lemma Ranks(s: System)
    requires s.phase.Idle?
    ensures Next(s, Rank) == s.(phase := Ranked(RenderableRefs(s.jobs, |s.jobs|)))
  {
    hide RenderableRefs;
  }

  function StrandingTail(): seq<Step> {
    [Rank] + ([Dispatch(BOTH)] + ([Trash(0)] + ([Purge(0)] + ([ReturnVramError] + []))))
  }

  /** Two jobs share a batch, the first is purged while it is on the GPU, and the model does
      not fit: the tick is over, and the second job's chunk is still rendering. */
  lemma StrandingHappens()
    ensures
      var plans := [PlanAhead(0, CONFIG)] + ([PlanAhead(1, CONFIG)] + StrandingTail());
      var s := Run(Empty, [CREATION] + ([CREATION] + plans));
      && s.phase.Idle? && |s.jobs| == 2 && IsVisible(s.jobs[1])
      && |s.jobs[1].chunks| == 1 && s.jobs[1].chunks[0].status.Rendering?
  {
    SizeOnTheGpu();
    DispatchedAndPurged();
    hide Run, Next, OneChunk, OnTheGpu, Fresh, StrandingTail;
    var none, one, two := Empty, System([Fresh()], Idle, 0), TwoJobs(Fresh(), Fresh(), Idle, 0);
    Creates([]);
    Creates([Fresh()]);
    Plans(two, 0);
    Plans(TwoJobs(OneChunk(), Fresh(), Idle, 0), 1);
    assert [] + [Fresh()] == [Fresh()] && [Fresh()] + [Fresh()] == [Fresh(), Fresh()];
    assert [Fresh(), Fresh()][0 := OneChunk()] == [OneChunk(), Fresh()];
    assert [OneChunk(), Fresh()][1 := OneChunk()] == [OneChunk(), OneChunk()];
    var planned := TwoJobs(OneChunk(), OneChunk(), Idle, 0);
    Onward(TwoJobs(OneChunk(), Fresh(), Idle, 0), PlanAhead(1, CONFIG), planned, StrandingTail(), Stranded());
    var last := [PlanAhead(1, CONFIG)] + StrandingTail();
    Onward(two, PlanAhead(0, CONFIG), TwoJobs(OneChunk(), Fresh(), Idle, 0), last, Stranded());
    Onward(one, CREATION, two, [PlanAhead(0, CONFIG)] + last, Stranded());
    Onward(none, CREATION, one, [CREATION] + ([PlanAhead(0, CONFIG)] + last), Stranded());
  }

  // ---- a take nobody picks ----

  function Reworded(): Job { ReprocessChunk(OneChunk(), 0, None, None) }

  function InBertsVoice(): Job { SetVoice(Reworded(), "bert", false) }

  function SwitchedBack(): Job { SetActiveVersion(InBertsVoice(), 0, 0) }

  /** The first take is planned; the second, if it is `live`, as well. */
  ghost predicate TwoTakes(job: Job, planVersion: nat) {
    && |job.chunks| == 2 && job.planVersion == planVersion && IsVisible(job) && job.status.JobQueued? && !job.listening
    && job.chunks[0].index == 0 && job.chunks[0].version == 0
    && job.chunks[0].status.Planned? && job.chunks[0].planVersion == 1
    && job.chunks[1].index == 0 && job.chunks[1].version == 1
    && job.chunks[1].status.Planned? && job.chunks[1].planVersion == planVersion
  }

  /** A queued job is still queued once its values are refreshed and its status settled. */
  lemma StaysQueued(job: Job, p: nat)
    requires job.status.JobQueued? && !job.listening && p < |job.chunks| && UnfinishedAt(job.chunks, p)
    ensures
      var b := SettleStatus(RefreshDerived(job));
      && b.status.JobQueued? && !b.listening && b.planVersion == job.planVersion && b.voice == job.voice
      && b.trashed == job.trashed && b.purged == job.purged && SameButPlace(job.chunks, b.chunks)
  {
    RefreshFrame(job);
    hide RefreshDerived;
    assert UnfinishedAt(RefreshDerived(job).chunks, p);
  }

  lemma OneTake()
    ensures TakePosition(OneChunk().chunks, 0, 0) == Some(0) && LatestVersion(OneChunk().chunks, 0) == 0
    ensures OneChunk().active == map[0 := 0] && OneChunk().chunks == [PlannedChunk(Fresh(), ChunkPlan("a", 0, 1))]
  {
    PlanningMakesOneChunk();
    hide OneChunk;
    assert OneChunk().chunks[1..] == [];
  }

  lemma RewordedTakes()
    ensures TwoTakes(Reworded(), 1) && Reworded().voice == "anna"
    ensures Reworded().chunks[0].deprecated && !Reworded().chunks[1].deprecated
  {
    hide OneChunk, RefreshDerived, SettleStatus, TakePosition, LatestVersion;
    SecondTake();
    RewordingAddsTake();
    hide WithSecondTake;
    StaysQueued(WithSecondTake(), 1);
  }

  /** The second take of the one chunk. */
  function NextTake(): Chunk
    requires |OneChunk().chunks| == 1
  {
    var live := OneChunk().chunks[0];
    VersionedChunk(OneChunk(), live.text, live.charStart, live.charEnd, OneChunk().voice, 0)
  }

  /** The job with its second take, before values are refreshed. */
  function WithSecondTake(): Job
    requires |OneChunk().chunks| == 1
  {
    ActivateVersion(ReactivateJob(OneChunk()).(chunks := OneChunk().chunks + [NextTake()]), 0, NextTake().version)
  }

  lemma FirstOfTwo()
    ensures |OneChunk().chunks| == 1 && IsVisible(OneChunk())
    ensures
      var job, c := OneChunk(), OneChunk().chunks[0];
      && job.status.JobQueued? && !job.listening && job.planVersion == 1 && job.voice == "anna"
      && c.index == 0 && c.version == 0 && c.status.Planned? && c.planVersion == 1
      && c.text == "a" && c.voice == "anna"
  {
    PlanningMakesOneChunk();
  }

  lemma SecondTake()
    ensures |OneChunk().chunks| == 1 && TwoTakes(WithSecondTake(), 1) && WithSecondTake().voice == "anna"
    ensures WithSecondTake().chunks[0].deprecated && !WithSecondTake().chunks[1].deprecated
  {
    hide OneChunk, LatestVersion, Fresh, PlannedChunk;
    OneTake();
    FirstOfTwo();
    var job := OneChunk();
    assert job.chunks + [NextTake()] == [job.chunks[0], NextTake()];
    assert WithSecondTake().chunks == [Activated(job.chunks[0], 0, 1), Activated(NextTake(), 0, 1)];
  }

  lemma RewordingAddsTake()
    ensures |OneChunk().chunks| == 1 && Reworded() == SettleStatus(RefreshDerived(WithSecondTake()))
  {
    hide OneChunk, RefreshDerived, SettleStatus, TakePosition, LatestVersion, Fresh, PlannedChunk, ActivateVersion;
    OneTake();
  }

  lemma RevoicedTakes()
    ensures TwoTakes(InBertsVoice(), 2) && InBertsVoice().chunks[0].deprecated && !InBertsVoice().chunks[1].deprecated
  {
    RewordedTakes();
    var job := Reworded();
    hide Reworded, RefreshDerived, SettleStatus;
    var r := Reopened(Revoiced(job, "bert", false));
    assert IsRequeuedBy(job.chunks[1], false);
    StaysQueued(r, 1);
  }

  lemma SwitchedTakes()
    ensures TwoTakes(SwitchedBack(), 2) && !SwitchedBack().chunks[0].deprecated && SwitchedBack().chunks[1].deprecated
  {
    RevoicedTakes();
    var job := InBertsVoice();
    hide InBertsVoice, RefreshDerived, SettleStatus;
    var j := ActivateVersion(job, 0, 0);
    var a := j.(audioEpoch := j.audioEpoch + 1);
    assert a.chunks == [Activated(job.chunks[0], 0, 0), Activated(job.chunks[1], 0, 0)];
    StaysQueued(a, 0);
  }

  lemma FirstTake(job: Job)
    requires TwoTakes(job, 2)
    ensures TakePosition(job.chunks, 0, 0) == Some(0)
  {
  }

  lemma NothingRanked(job: Job)
    requires TwoTakes(job, 2) && job.chunks[1].deprecated
    ensures RenderableRefs([job], 1) == []
  {
    assert !IsRenderable(job, 0) && !IsRenderable(job, 1);
    assert RenderableOf(job, 0, 0) == [];
    assert RenderableOf(job, 0, 1) == [];
    assert RenderableOf(job, 0, 2) == [];
    assert RenderableRefs([job], 0) == [];
  }

  lemma CommandOnOne(job: Job)
    requires IsVisible(job)
    ensures Next(System([job], Idle, 0), Reprocess(0, 0, None, None)) ==
      System([ReprocessChunk(job, 0, None, None)], Idle, 0)
    ensures Next(System([job], Idle, 0), ChangeVoice(0, "bert", false)) ==
      System([SetVoice(job, "bert", false)], Idle, 0)
    ensures TakePosition(job.chunks, 0, 0).Some? ==>
      Next(System([job], Idle, 0), SwitchTake(0, 0, 0)) == System([SetActiveVersion(job, 0, 0)], Idle, 0)
  {
    hide ReprocessChunk, SetVoice, SetActiveVersion, TakePosition;
    assert forall b: Job :: [job][0 := b] == [b];
  }

  lemma Rewords()
    ensures Next(System([OneChunk()], Idle, 0), Reprocess(0, 0, None, None)) == System([Reworded()], Idle, 0)
  {
    PlanningMakesOneChunk();
    assert IsVisible(OneChunk());
    hide OneChunk, ReprocessChunk, Next;
    CommandOnOne(OneChunk());
  }

  lemma Revoices()
    ensures Next(System([Reworded()], Idle, 0), ChangeVoice(0, "bert", false)) == System([InBertsVoice()], Idle, 0)
  {
    RewordedTakes();
    hide Reworded, SetVoice, Next;
    CommandOnOne(Reworded());
  }

  lemma SwitchesBack()
    ensures Next(System([InBertsVoice()], Idle, 0), SwitchTake(0, 0, 0)) == System([SwitchedBack()], Idle, 0)
  {
    RevoicedTakes();
    FirstTake(InBertsVoice());
    hide InBertsVoice, SetActiveVersion, TakePosition, Next;
    CommandOnOne(InBertsVoice());
  }

  /** Reprocess a chunk, change the voice, and go back to the first take: it is live and
      planned, its job is visible and queued, and ranking finds nothing to render. */
  lemma ForgottenTakeHappens()
    ensures
      var s := Run(Empty, [CREATION] + ([PlanAhead(0, CONFIG)] + SwitchSteps()));
      && s.phase.Idle? && |s.jobs| == 1 && IsVisible(s.jobs[0]) && s.jobs[0].status.JobQueued?
      && |s.jobs[0].chunks| == 2 && s.jobs[0].chunks[0].status.Planned? && !s.jobs[0].chunks[0].deprecated
      && RenderableRefs(s.jobs, 1) == []
  {
    SwitchedTakes();
    NothingRanked(SwitchedBack());
    SwitchedFromEmpty();
    hide Run, SwitchedBack, RenderableRefs, SwitchSteps;
  }

  lemma SwitchedFromEmpty()
    ensures Run(Empty, [CREATION] + ([PlanAhead(0, CONFIG)] + SwitchSteps())) == System([SwitchedBack()], Idle, 0)
  {
    hide Run, Next, OneChunk, Fresh, SwitchedBack, SwitchSteps;
    OneSwitched();
    var one, two, last := System([Fresh()], Idle, 0), System([OneChunk()], Idle, 0), System([SwitchedBack()], Idle, 0);
    Creates([]);
    Plans(one, 0);
    assert [] + [Fresh()] == [Fresh()] && [Fresh()][0 := OneChunk()] == [OneChunk()];
    Onward(one, PlanAhead(0, CONFIG), two, SwitchSteps(), last);
    Onward(Empty, CREATION, one, [PlanAhead(0, CONFIG)] + SwitchSteps(), last);
  }

  function SwitchSteps(): seq<Step> {
    [Reprocess(0, 0, None, None)] + ([ChangeVoice(0, "bert", false)] + ([SwitchTake(0, 0, 0)] + []))
  }

  lemma OneSwitched()
    ensures Run(System([OneChunk()], Idle, 0), SwitchSteps()) == System([SwitchedBack()], Idle, 0)
  {
    hide Run, Next, OneChunk, Reworded, InBertsVoice, SwitchedBack;
    var a, b := System([OneChunk()], Idle, 0), System([Reworded()], Idle, 0);
    var c, d := System([InBertsVoice()], Idle, 0), System([SwitchedBack()], Idle, 0);
    Rewords();
    Revoices();
    SwitchesBack();
    RunNothing(d);
    Onward(c, SwitchTake(0, 0, 0), d, [], d);
    Onward(b, ChangeVoice(0, "bert", false), c, [SwitchTake(0, 0, 0)] + [], d);
    Onward(a, Reprocess(0, 0, None, None), b, [ChangeVoice(0, "bert", false)] + ([SwitchTake(0, 0, 0)] + []), d);
  }
}
