/** Residency over whole runs: when a model or a voice is left, and for how long it is
    kept. */
module ResidencyRuns {
  import opened Wrappers
  import opened DispatchOrder
  import opened Residency

  /** One batch as it was dispatched. */
  datatype Entry = Entry(model: string, voice: string)

  /** The scheduler's residency, the model that is loaded, and the batches so far. */
  datatype Gpu = Gpu(resident: Resident, loaded: Option<string>, history: seq<Entry>)

  const Cold := Gpu(Nobody, None, [])

  /** A batch out of the groups on offer, with the models that have a chunk of band 0;
      `loads` says whether its model can be loaded if it is not. `Outside`: the loaded
      model changes by other means. `Snapshot`: somebody asks what is resident. */
  datatype Event =
    | Batch(keys: seq<Group>, urgent: set<string>, loads: bool)
    | Outside(loaded: Option<string>)
    | Snapshot

  function Synced(gpu: Gpu): Resident { Sync(gpu.resident, gpu.loaded) }

  function Chosen(gpu: Gpu, e: Event, w: Windows): Group
    requires e.Batch? && e.keys != []
  {
    ChooseKey(Synced(gpu), e.keys, e.urgent, w)
  }

  /** A batch: choose, note, tell the world (which syncs again, with the old model still
      loaded), render, and sync at the end of the tick. */
  function Step(gpu: Gpu, e: Event, w: Windows): Gpu {
    match e
    case Batch(keys, urgent, loads) =>
      if keys == [] then gpu else
        var g := Chosen(gpu, e, w);
        var noted := Sync(Note(Synced(gpu), g.model, g.voice), gpu.loaded);
        var loaded := if gpu.loaded == Some(g.model) || loads then Some(g.model) else None;
        Gpu(Sync(noted, loaded), loaded, gpu.history + [Entry(g.model, g.voice)])
    case Outside(loaded) => gpu.(loaded := loaded)
    case Snapshot => gpu.(resident := Synced(gpu))
  }

  function Replay(gpu: Gpu, events: seq<Event>, w: Windows): Gpu
    decreases |events|
  {
    if events == [] then gpu else Replay(Step(gpu, events[0], w), events[1..], w)
  }

  // ---- what the counters count ----

  ghost predicate LastWereOnModel(h: seq<Entry>, n: nat, model: Option<string>) {
    n <= |h| && forall k :: |h| - n <= k < |h| ==> Some(h[k].model) == model
  }

  ghost predicate LastWereOnVoice(h: seq<Entry>, n: nat, model: Option<string>, voice: Option<string>) {
    LastWereOnModel(h, n, model) && forall k :: |h| - n <= k < |h| ==> Some(h[k].voice) == voice
  }

  ghost predicate Counted(r: Resident, h: seq<Entry>) {
    LastWereOnModel(h, r.onModel, r.model) && LastWereOnVoice(h, r.onVoice, r.model, r.voice)
  }

  lemma SyncStaysCounted(r: Resident, h: seq<Entry>, loaded: Option<string>)
    requires Counted(r, h)
    ensures Counted(Sync(r, loaded), h)
  {
  }

  lemma NoteStaysCounted(r: Resident, h: seq<Entry>, model: string, voice: string)
    requires Counted(r, h)
    ensures Counted(Note(r, model, voice), h + [Entry(model, voice)])
  {
  }

  lemma StepStaysCounted(gpu: Gpu, e: Event, w: Windows)
    requires Counted(gpu.resident, gpu.history)
    ensures Counted(Step(gpu, e, w).resident, Step(gpu, e, w).history)
  {
    hide Counted, ChooseKey, Sync, Note;
    SyncStaysCounted(gpu.resident, gpu.history, gpu.loaded);
    if e.Batch? && e.keys != [] {
      var g := Chosen(gpu, e, w);
      var r, h := Note(Synced(gpu), g.model, g.voice), gpu.history + [Entry(g.model, g.voice)];
      NoteStaysCounted(Synced(gpu), gpu.history, g.model, g.voice);
      SyncStaysCounted(r, h, gpu.loaded);
      SyncStaysCounted(Sync(r, gpu.loaded), h, Step(gpu, e, w).loaded);
    }
  }

  lemma {:induction false} ReplayStaysCounted(gpu: Gpu, events: seq<Event>, w: Windows)
    requires Counted(gpu.resident, gpu.history)
    ensures Counted(Replay(gpu, events, w).resident, Replay(gpu, events, w).history)
    decreases |events|
  {
    hide Counted;
    if events != [] {
      StepStaysCounted(gpu, events[0], w);
      ReplayStaysCounted(Step(gpu, events[0], w), events[1..], w);
    }
  }

  // ---- leaving a model ----

  lemma OthersOffered(keys: seq<Group>, model: string)
    ensures Others(ModelOrder(keys), model) != [] <==> exists m :: Offers(keys, m) && m != model
  {
    hide ModelOrder, Others, Offers;
    var others := Others(ModelOrder(keys), model);
    if others != [] { assert others[0] in others; assert Offers(keys, others[0]); }
    if m :| Offers(keys, m) && m != model { assert m in others; }
  }

  /** The loaded model, still on offer, is left exactly when its window has run out, no
      listener of its own is about to run dry, and another model is on offer. */
  lemma ModelLeftExactlyWhen(r: Resident, keys: seq<Group>, urgent: set<string>, w: Windows)
    requires keys != [] && r.model.Some? && Offers(keys, r.model.value)
    ensures ChosenModel(r, keys, urgent, w) != r.model.value <==>
      && r.model.value !in urgent && r.onModel >= w.model
      && exists m :: Offers(keys, m) && m != r.model.value
  {
    hide ModelOrder, Others, Among, Offers, Eligible;
    var m := r.model.value;
    OthersOffered(keys, m);
    var order := ModelOrder(keys);
    assert m in order;
    EligibleWhileOffered(r, order, urgent, w);
  }

  lemma EligibleWhileOffered(r: Resident, order: seq<string>, urgent: set<string>, w: Windows)
    requires r.model.Some? && r.model.value in order
    ensures Eligible(r, order, urgent, w)[0] != r.model.value <==>
      r.model.value !in urgent && r.onModel >= w.model && Others(order, r.model.value) != []
  {
    hide Others, Among;
    var others := Others(order, r.model.value);
    var other := Among(others, urgent);
    if others != [] { assert others[0] in others; }
    if other != [] { assert other[0] in other; }
  }

  /** A model being left gives way to a listener about to run dry, if there is one. */
  lemma UrgentModelGoesNext(r: Resident, keys: seq<Group>, urgent: set<string>, w: Windows)
    requires keys != [] && r.model.Some? && Offers(keys, r.model.value)
    requires ChosenModel(r, keys, urgent, w) != r.model.value
    requires exists m :: Offers(keys, m) && m in urgent
    ensures ChosenModel(r, keys, urgent, w) in urgent
  {
    ModelLeftExactlyWhen(r, keys, urgent, w);
    var order := ModelOrder(keys);
    var others := Others(order, r.model.value);
    var other := Among(others, urgent);
    hide ModelOrder, Others, Among, Offers;
    var m :| Offers(keys, m) && m in urgent;
    assert m in other;
    assert other[0] in other;
  }

  /** Along any run, a loaded model that still has work is left only after at least
      `model_residency_batches` batches in a row, all on it, and only when it has no chunk
      of band 0. */
  lemma ModelIsKeptForItsWindow(events: seq<Event>, e: Event, w: Windows)
    requires e.Batch? && e.keys != []
    ensures
      var gpu := Replay(Cold, events, w);
      var left := gpu.loaded;
      left.Some? && Offers(e.keys, left.value) && Chosen(gpu, e, w).model != left.value ==>
        && left.value !in e.urgent && LastWereOnModel(gpu.history, w.model, left)
  {
    hide Counted, ChooseKey, Offers, ChosenModel;
    var gpu := Replay(Cold, events, w);
    ColdIsCounted();
    ReplayStaysCounted(Cold, events, w);
    SyncStaysCounted(gpu.resident, gpu.history, gpu.loaded);
    if gpu.loaded.Some? && Offers(e.keys, gpu.loaded.value) {
      ModelLeftExactlyWhen(Synced(gpu), e.keys, e.urgent, w);
      CountedOnModel(Synced(gpu), gpu.history, w.model);
    }
  }

  lemma ColdIsCounted()
    ensures Counted(Cold.resident, Cold.history)
  {
  }

  lemma CountedOnModel(r: Resident, h: seq<Entry>, n: nat)
    requires Counted(r, h)
    ensures n <= r.onModel ==> LastWereOnModel(h, n, r.model)
    ensures n <= r.onVoice ==> LastWereOnVoice(h, n, r.model, r.voice)
  {
  }

  // ---- which group comes next ----

  /** Some group is of model `m`, and in front of it stand only groups of the models `better`. */
  ghost predicate HasGroupAfter(keys: seq<Group>, m: string, better: seq<string>) {
    exists k: nat :: k < |keys| && keys[k].model == m && forall l :: 0 <= l < k ==> keys[l].model in better
  }

  lemma {:induction false} FirstOfModel(keys: seq<Group>, b: nat)
    requires b < |ModelOrder(keys)|
    ensures HasGroupAfter(keys, ModelOrder(keys)[b], ModelOrder(keys)[..b])
  {
    var front, order := keys[..|keys| - 1], ModelOrder(keys);
    var before := ModelOrder(front);
    if b < |before| {
      FirstOfModel(front, b);
      assert order[b] == before[b] && order[..b] == before[..b];
      hide ModelOrder;
      var k: nat :| k < |front| && front[k].model == before[b] &&
                    forall l :: 0 <= l < k ==> front[l].model in before[..b];
      assert keys[k].model == before[b] && forall l :: 0 <= l < k ==> keys[l] == front[l];
    } else {
      assert keys[|keys| - 1].model == order[b] && order[..b] == before;
      forall l | 0 <= l < |front| ensures keys[l].model in before {
        assert keys[l] == front[l] && Offers(front, front[l].model);
      }
    }
  }

  /** `m` is on the list, and only `skipped` models stand in front of it. */
  ghost predicate ComesAfterOnly(order: seq<string>, m: string, skipped: set<string>) {
    exists b: nat :: b < |order| && order[b] == m && forall a :: 0 <= a < b ==> order[a] in skipped
  }

  lemma StillComesAfterOnly(order: seq<string>, m: string, skipped: set<string>)
    requires order != [] && ComesAfterOnly(order[..|order| - 1], m, skipped)
    ensures ComesAfterOnly(order, m, skipped)
  {
    var front := order[..|order| - 1];
    var b: nat :| b < |front| && front[b] == m && forall a :: 0 <= a < b ==> front[a] in skipped;
    assert order[b] == m && forall a :: 0 <= a < b ==> order[a] == front[a];
  }

  lemma LastComesAfterOnly(order: seq<string>, skipped: set<string>)
    requires order != [] && forall m :: m in order[..|order| - 1] ==> m in skipped
    ensures ComesAfterOnly(order, order[|order| - 1], skipped)
  {
    forall a | 0 <= a < |order| - 1 ensures order[a] in skipped {
      assert order[..|order| - 1][a] == order[a];
    }
  }

  lemma {:induction false} FirstOther(order: seq<string>, left: string)
    requires Others(order, left) != []
    ensures ComesAfterOnly(order, Others(order, left)[0], {left})
  {
    var front := order[..|order| - 1];
    if Others(front, left) != [] {
      FirstOther(front, left);
      StillComesAfterOnly(order, Others(front, left)[0], {left});
    } else {
      assert forall m :: m in front ==> m !in Others(front, left);
      LastComesAfterOnly(order, {left});
    }
  }

  /** A model that may take over from `left`: another one, and an urgent one if there is any. */
  ghost predicate MayFollow(keys: seq<Group>, m: string, left: string, urgent: set<string>) {
    m != left && ((exists n :: Offers(keys, n) && n != left && n in urgent) ==> m in urgent)
  }

  /** Some group of `m` stands in front of all groups of other models that may follow. */
  ghost predicate IsBestToFollow(keys: seq<Group>, m: string, left: string, urgent: set<string>) {
    && MayFollow(keys, m, left, urgent)
    && exists k: nat :: k < |keys| && keys[k].model == m &&
                        forall l :: 0 <= l < k ==> !MayFollow(keys, keys[l].model, left, urgent)
  }

  /** Which model the GPU turns to: with none on record, or none of its groups on offer, that of
      the best group; when a model is left, that of the best group of those that may follow. */
  lemma NextModelIsTheBest(r: Resident, keys: seq<Group>, urgent: set<string>, w: Windows)
    requires keys != []
    ensures r.model.None? || !Offers(keys, r.model.value) ==> ChosenModel(r, keys, urgent, w) == keys[0].model
    ensures r.model.Some? && Offers(keys, r.model.value) && ChosenModel(r, keys, urgent, w) != r.model.value ==>
      IsBestToFollow(keys, ChosenModel(r, keys, urgent, w), r.model.value, urgent)
  {
    var order := ModelOrder(keys);
    if r.model.None? || !Offers(keys, r.model.value) {
      assert Offers(keys, keys[0].model);
      FirstOfModel(keys, 0);
    } else if ChosenModel(r, keys, urgent, w) != r.model.value {
      var others := Others(order, r.model.value);
      hide ModelOrder, Others, Among;
      if Among(others, urgent) != [] {
        FirstUrgentFollows(keys, r.model.value, urgent);
      } else {
        FirstOtherFollows(keys, r.model.value, urgent);
      }
    }
  }

  lemma NoneUrgent(keys: seq<Group>, left: string, urgent: set<string>)
    ensures Among(Others(ModelOrder(keys), left), urgent) == [] <==>
      !exists n :: Offers(keys, n) && n != left && n in urgent
  {
    var a := Among(Others(ModelOrder(keys), left), urgent);
    hide ModelOrder, Others, Among, Offers;
    if a != [] { assert a[0] in a; }
    if n :| Offers(keys, n) && n != left && n in urgent { assert n in a; }
  }

  lemma FirstToFollow(keys: seq<Group>, m: string, left: string, urgent: set<string>, skipped: set<string>)
    requires MayFollow(keys, m, left, urgent) && ComesAfterOnly(ModelOrder(keys), m, skipped)
    requires forall n :: n in skipped ==> !MayFollow(keys, n, left, urgent)
    ensures IsBestToFollow(keys, m, left, urgent)
  {
    var order := ModelOrder(keys);
    var b: nat :| b < |order| && order[b] == m && forall a :: 0 <= a < b ==> order[a] in skipped;
    FirstOfModel(keys, b);
    hide ModelOrder, MayFollow, ComesAfterOnly;
    var better := order[..b];
    assert HasGroupAfter(keys, m, better);
    var k: nat :| k < |keys| && keys[k].model == m && forall l :: 0 <= l < k ==> keys[l].model in better;
    forall l | 0 <= l < k ensures !MayFollow(keys, keys[l].model, left, urgent) {
      assert keys[l].model in better;
      var a :| 0 <= a < |better| && better[a] == keys[l].model;
      assert better[a] == order[a];
    }
  }

  lemma FirstOtherFollows(keys: seq<Group>, left: string, urgent: set<string>)
    requires Others(ModelOrder(keys), left) != [] && Among(Others(ModelOrder(keys), left), urgent) == []
    ensures IsBestToFollow(keys, Others(ModelOrder(keys), left)[0], left, urgent)
  {
    NoneUrgent(keys, left, urgent);
    var others := Others(ModelOrder(keys), left);
    FirstOther(ModelOrder(keys), left);
    hide ModelOrder, Others, Among, ComesAfterOnly;
    assert others[0] in others;
    FirstToFollow(keys, others[0], left, urgent, {left});
  }

  lemma FirstUrgentFollows(keys: seq<Group>, left: string, urgent: set<string>)
    requires Among(Others(ModelOrder(keys), left), urgent) != []
    ensures IsBestToFollow(keys, Among(Others(ModelOrder(keys), left), urgent)[0], left, urgent)
  {
    NoneUrgent(keys, left, urgent);
    var others := Others(ModelOrder(keys), left);
    var m := Among(others, urgent)[0];
    var skipped := set n | n in ModelOrder(keys) && (n == left || n !in urgent);
    FirstUrgentOther(ModelOrder(keys), left, urgent, skipped);
    assert m in Among(others, urgent);
    hide ModelOrder, Others, Among, ComesAfterOnly;
    FirstToFollow(keys, m, left, urgent, skipped);
  }

  lemma {:induction false} FirstUrgentOther(order: seq<string>, left: string, urgent: set<string>, skipped: set<string>)
    requires Among(Others(order, left), urgent) != []
    requires forall n :: n in order && (n == left || n !in urgent) ==> n in skipped
    ensures ComesAfterOnly(order, Among(Others(order, left), urgent)[0], skipped)
  {
    var front, last := order[..|order| - 1], order[|order| - 1];
    AmongConcat(Others(front, left), if last != left then [last] else [], urgent);
    assert Others(order, left) == Others(front, left) + if last != left then [last] else [];
    hide Others, Among, ComesAfterOnly;
    if Among(Others(front, left), urgent) != [] {
      FirstUrgentOther(front, left, urgent, skipped);
      StillComesAfterOnly(order, Among(Others(front, left), urgent)[0], skipped);
    } else {
      assert forall n :: n in front ==> n in order && n !in Among(Others(front, left), urgent);
      LastComesAfterOnly(order, skipped);
    }
  }

  lemma AmongConcat(a: seq<string>, b: seq<string>, models: set<string>)
    requires |b| <= 1
    ensures Among(a + b, models) == Among(a, models) + (if b != [] && b[0] in models then b else [])
  {
    if b == [] { assert a + b == a; } else { assert (a + b)[..|a + b| - 1] == a; }
  }

  // ---- leaving a voice ----

  predicate Has(keys: seq<Group>, model: string, voice: string) {
    exists k :: 0 <= k < |keys| && keys[k].model == model && keys[k].voice == voice
  }

  lemma VoicesOffered(keys: seq<Group>, model: string, voice: string)
    ensures WithVoice(OfModel(keys, model), Some(voice)) != [] <==> Has(keys, model, voice)
    ensures WithoutVoice(OfModel(keys, model), Some(voice)) != [] <==>
      exists v :: Has(keys, model, v) && v != voice
  {
    var a, b := WithVoice(OfModel(keys, model), Some(voice)), WithoutVoice(OfModel(keys, model), Some(voice));
    hide WithVoice, WithoutVoice, OfModel;
    if a != [] {
      assert a[0] in a;
      var k :| 0 <= k < |keys| && keys[k] == a[0];
    }
    if Has(keys, model, voice) {
      var k :| 0 <= k < |keys| && keys[k].model == model && keys[k].voice == voice;
      assert keys[k] in a;
    }
    if b != [] {
      assert b[0] in b;
      var k :| 0 <= k < |keys| && keys[k] == b[0];
      assert Has(keys, model, keys[k].voice);
    }
    if v :| Has(keys, model, v) && v != voice {
      var k :| 0 <= k < |keys| && keys[k].model == model && keys[k].voice == v;
      assert keys[k] in b;
    }
  }

  /** A voice on record, still on offer in the chosen model, is left exactly when its own
      window has run out and the model has another voice on offer. */
  lemma VoiceLeftExactlyWhen(r: Resident, keys: seq<Group>, urgent: set<string>, w: Windows)
    requires keys != [] && r.voice.Some? && Has(keys, ChosenModel(r, keys, urgent, w), r.voice.value)
    ensures
      var m := ChosenModel(r, keys, urgent, w);
      ChooseKey(r, keys, urgent, w).voice != r.voice.value <==>
        r.onVoice >= w.voice && exists v :: Has(keys, m, v) && v != r.voice.value
  {
    var m := ChosenModel(r, keys, urgent, w);
    VoicesOffered(keys, m, r.voice.value);
    var mine := OfModel(keys, m);
    var same, other := WithVoice(mine, r.voice), WithoutVoice(mine, r.voice);
    hide WithVoice, WithoutVoice, OfModel, ChosenModel, Has;
    assert same[0] in same;
    if other != [] { assert other[0] in other; }
  }

  /** With no voice on record the choice falls on the best group of the model. */
  lemma NoVoiceMeansBestGroup(r: Resident, keys: seq<Group>, urgent: set<string>, w: Windows)
    requires keys != [] && r.voice.None?
    ensures OfModel(keys, ChosenModel(r, keys, urgent, w)) != []
    ensures ChooseKey(r, keys, urgent, w) == OfModel(keys, ChosenModel(r, keys, urgent, w))[0]
  {
    var m := ChosenModel(r, keys, urgent, w);
    assert OfModel(keys, m) != [] by {
      var k :| 0 <= k < |keys| && keys[k].model == m;
      assert keys[k] in OfModel(keys, m);
    }
    AllWithoutNone(OfModel(keys, m));
  }

  lemma {:induction false} AllWithoutNone(keys: seq<Group>)
    ensures WithoutVoice(keys, None) == keys
  {
    if keys != [] {
      AllWithoutNone(keys[..|keys| - 1]);
      WithoutNoneStep(keys);
      FrontAndLast(keys);
      hide WithoutVoice;
    }
  }

  lemma FrontAndLast(keys: seq<Group>)
    requires keys != []
    ensures keys[..|keys| - 1] + [keys[|keys| - 1]] == keys
  {
  }

  lemma {:induction false} WithoutNoneStep(keys: seq<Group>)
    requires keys != []
    ensures WithoutVoice(keys, None) == WithoutVoice(keys[..|keys| - 1], None) + [keys[|keys| - 1]]
  {
  }

  /** Which of the chosen model's groups it is: the first that speaks in the voice on record if the
      choice falls on that voice, and the first that does not if it falls on another. */
  lemma FirstGroupOfTheVoice(r: Resident, keys: seq<Group>, urgent: set<string>, w: Windows)
    requires keys != []
    ensures
      var g := ChooseKey(r, keys, urgent, w);
      exists k: nat :: k < |keys| && keys[k] == g &&
        forall l :: 0 <= l < k && keys[l].model == g.model ==>
          ((Some(keys[l].voice) == r.voice) <==> (Some(g.voice) != r.voice))
  {
    var m := ChosenModel(r, keys, urgent, w);
    var mine, g := OfModel(keys, m), ChooseKey(r, keys, urgent, w);
    var same, other := WithVoice(mine, r.voice), WithoutVoice(mine, r.voice);
    hide ChosenModel, OfModel, WithVoice, WithoutVoice;
    assert g in mine;
    if Some(g.voice) == r.voice { assert g in same; } else { assert g in other; }
    FirstInSight(keys, m, r.voice);
    if other == [] { NothingElse(mine, r.voice); }
  }

  /** `g` is the first group of model `m` that speaks in `voice`, or that does not. */
  ghost predicate IsFirstIn(keys: seq<Group>, g: Group, m: string, voice: Option<string>, inVoice: bool) {
    exists k: nat :: k < |keys| && keys[k] == g &&
      forall l :: 0 <= l < k && keys[l].model == m ==> (Some(keys[l].voice) == voice) != inVoice
  }

  lemma FilterStep(keys: seq<Group>, m: string, voice: Option<string>)
    requires keys != []
    ensures
      var last, mine := keys[|keys| - 1], OfModel(keys[..|keys| - 1], m);
      && WithVoice(OfModel(keys, m), voice) ==
         WithVoice(mine, voice) + (if last.model == m && Some(last.voice) == voice then [last] else [])
      && WithoutVoice(OfModel(keys, m), voice) ==
         WithoutVoice(mine, voice) + (if last.model == m && Some(last.voice) != voice then [last] else [])
  {
    var last, mine := keys[|keys| - 1], OfModel(keys[..|keys| - 1], m);
    assert OfModel(keys, m) == mine + if last.model == m then [last] else [];
    VoiceStep(mine, last, voice);
    hide OfModel, WithVoice, WithoutVoice;
  }

  lemma VoiceStep(mine: seq<Group>, g: Group, voice: Option<string>)
    ensures WithVoice(mine + [g], voice) == WithVoice(mine, voice) + (if Some(g.voice) == voice then [g] else [])
    ensures WithoutVoice(mine + [g], voice) == WithoutVoice(mine, voice) + (if Some(g.voice) != voice then [g] else [])
    ensures mine + [] == mine
  {
    assert (mine + [g])[..|mine|] == mine;
  }

  lemma FirstStaysFirst(keys: seq<Group>, g: Group, m: string, voice: Option<string>, inVoice: bool)
    requires keys != [] && IsFirstIn(keys[..|keys| - 1], g, m, voice, inVoice)
    ensures IsFirstIn(keys, g, m, voice, inVoice)
  {
    var front := keys[..|keys| - 1];
    var k: nat :| k < |front| && front[k] == g &&
      forall l :: 0 <= l < k && front[l].model == m ==> (Some(front[l].voice) == voice) != inVoice;
    assert keys[k] == g && forall l :: 0 <= l < k ==> keys[l] == front[l];
  }

  /** Filtering keeps the order, so what comes out first came first. */
  lemma {:induction false} FirstInSight(keys: seq<Group>, m: string, voice: Option<string>)
    ensures
      var a, b := WithVoice(OfModel(keys, m), voice), WithoutVoice(OfModel(keys, m), voice);
      && (a != [] ==> IsFirstIn(keys, a[0], m, voice, true)) && (b != [] ==> IsFirstIn(keys, b[0], m, voice, false))
  {
    if keys != [] {
      var front, last := keys[..|keys| - 1], keys[|keys| - 1];
      FirstInSight(front, m, voice);
      FilterStep(keys, m, voice);
      FirstLast(keys, m, voice);
      var a, b := WithVoice(OfModel(front, m), voice), WithoutVoice(OfModel(front, m), voice);
      hide OfModel, WithVoice, WithoutVoice, IsFirstIn;
      if a != [] { FirstStaysFirst(keys, a[0], m, voice, true); }
      if b != [] { FirstStaysFirst(keys, b[0], m, voice, false); }
    }
  }

  lemma FirstLast(keys: seq<Group>, m: string, voice: Option<string>)
    requires keys != []
    ensures
      var front, last := keys[..|keys| - 1], keys[|keys| - 1];
      && (WithVoice(OfModel(front, m), voice) == [] ==> IsFirstIn(keys, last, m, voice, true))
      && (WithoutVoice(OfModel(front, m), voice) == [] ==> IsFirstIn(keys, last, m, voice, false))
  {
    var front, mine := keys[..|keys| - 1], OfModel(keys[..|keys| - 1], m);
    hide OfModel, WithVoice, WithoutVoice;
    assert forall l :: 0 <= l < |front| && keys[l].model == m ==> keys[l] == front[l] && front[l] in mine;
    assert forall g :: g in mine && WithVoice(mine, voice) == [] ==> g !in WithVoice(mine, voice);
    assert forall g :: g in mine && WithoutVoice(mine, voice) == [] ==> g !in WithoutVoice(mine, voice);
    assert keys[|keys| - 1] == keys[|front|];
  }

  lemma NothingElse(mine: seq<Group>, voice: Option<string>)
    requires WithoutVoice(mine, voice) == []
    ensures WithVoice(mine, voice) == mine
  {
  }

  /** Along any run, a voice that still has work in the chosen model is left only after at
      least `voice_residency_batches` batches in a row on it, unless the record of it was
      dropped. */
  lemma VoiceIsKeptForItsWindow(events: seq<Event>, e: Event, w: Windows)
    requires e.Batch? && e.keys != []
    ensures
      var gpu := Replay(Cold, events, w);
      var r := Synced(gpu);
      var g := Chosen(gpu, e, w);
      r.voice.Some? && Has(e.keys, g.model, r.voice.value) && g.voice != r.voice.value ==>
        LastWereOnVoice(gpu.history, w.voice, r.model, r.voice)
  {
    hide Counted, Has;
    var gpu := Replay(Cold, events, w);
    ColdIsCounted();
    ReplayStaysCounted(Cold, events, w);
    SyncStaysCounted(gpu.resident, gpu.history, gpu.loaded);
    var r := Synced(gpu);
    var g := Chosen(gpu, e, w);
    hide Sync;
    if r.voice.Some? && Has(e.keys, g.model, r.voice.value) {
      VoiceLeftExactlyWhen(r, e.keys, e.urgent, w);
      CountedOnModel(r, gpu.history, w.voice);
    }
    hide ChooseKey;
  }

  predicate RecordsBatches(r: Resident) { r.voice.Some? ==> r.onVoice >= 1 }

  lemma {:induction false} ReplayRecordsBatches(gpu: Gpu, events: seq<Event>, w: Windows)
    requires RecordsBatches(gpu.resident)
    ensures RecordsBatches(Synced(Replay(gpu, events, w)))
    decreases |events|
  {
    hide Chosen;
    if events != [] { ReplayRecordsBatches(Step(gpu, events[0], w), events[1..], w); }
  }

  /** The voice of the last batch has not had its window yet. */
  ghost predicate IsOpen(h: seq<Entry>, w: Windows)
    requires h != []
  {
    !LastWereOnVoice(h, w.voice, Some(h[|h| - 1].model), Some(h[|h| - 1].voice))
  }

  /** Along any run: a voice that just had a batch, still has work in the chosen model, and
      has its window open, is left exactly when there is no voice on record and the best
      group of that model is another voice's. */
  lemma OpenVoiceLeftExactlyWhen(events: seq<Event>, e: Event, w: Windows)
    requires Replay(Cold, events, w).history != [] && e.Batch? && e.keys != []
    requires
      var gpu := Replay(Cold, events, w);
      && Has(e.keys, Chosen(gpu, e, w).model, gpu.history[|gpu.history| - 1].voice) && IsOpen(gpu.history, w)
    ensures
      var gpu := Replay(Cold, events, w);
      var voice, mine := gpu.history[|gpu.history| - 1].voice, OfModel(e.keys, Chosen(gpu, e, w).model);
      && mine != []
      && (Chosen(gpu, e, w).voice != voice <==> Synced(gpu).voice.None? && mine[0].voice != voice)
  {
    hide Counted, Has, Replay, OfModel, ChosenModel, Sync;
    var gpu := Replay(Cold, events, w);
    ColdIsCounted();
    ReplayStaysCounted(Cold, events, w);
    ReplayRecordsBatches(Cold, events, w);
    SyncStaysCounted(gpu.resident, gpu.history, gpu.loaded);
    var r, h := Synced(gpu), gpu.history;
    HasMeansOfModel(e.keys, ChosenModel(r, e.keys, e.urgent, w), h[|h| - 1].voice);
    if r.voice.None? {
      NoVoiceMeansBestGroup(r, e.keys, e.urgent, w);
      hide ChooseKey;
    } else {
      RecordIsOpen(r, h, w);
      hide ChooseKey;
      VoiceLeftExactlyWhen(r, e.keys, e.urgent, w);
    }
  }

  lemma HasMeansOfModel(keys: seq<Group>, model: string, voice: string)
    requires Has(keys, model, voice)
    ensures OfModel(keys, model) != []
  {
    var k :| 0 <= k < |keys| && keys[k].model == model && keys[k].voice == voice;
    assert keys[k] in OfModel(keys, model);
  }

  lemma RecordIsOpen(r: Resident, h: seq<Entry>, w: Windows)
    requires Counted(r, h) && RecordsBatches(r) && r.voice.Some? && h != [] && IsOpen(h, w)
    ensures r.voice == Some(h[|h| - 1].voice) && r.onVoice < w.voice
  {
    var n := |h|;
    assert Some(h[n - 1].voice) == r.voice && Some(h[n - 1].model) == r.model;
  }

  /** The record of the voice is dropped exactly by the batches that had to load their
      model: such a batch counts for neither window. Any other batch counts for both. */
  lemma LoadingBatchIsNotCounted(gpu: Gpu, e: Event, w: Windows)
    requires e.Batch? && e.keys != []
    ensures
      var g, after := Chosen(gpu, e, w), Step(gpu, e, w);
      && after.resident.model == after.loaded
      && (gpu.loaded != Some(g.model) ==> after.resident == Resident(after.loaded, None, 0, 0))
      && (gpu.loaded == Some(g.model) ==> after.resident == Note(Synced(gpu), g.model, g.voice)
                                          && after.resident.voice == Some(g.voice))
  {
    hide ChooseKey;
  }

  /** So a voice can lose the GPU after a single batch with work left and its window open. */
  lemma VoiceCanBeLeftAtOnce()
    ensures
      var w := Windows(10, 3);
      var anna, bert := Group("m", "en", "anna"), Group("m", "en", "bert");
      var after := Replay(Cold, [Batch([anna, bert], {}, true)], w);
      && after.history == [Entry("m", "anna")]
      && Chosen(after, Batch([bert, anna], {}, true), w) == bert
  {
    var w := Windows(10, 3);
    var anna, bert := Group("m", "en", "anna"), Group("m", "en", "bert");
    BothOfModel(anna, bert);
    BothOfModel(bert, anna);
    var first := Batch([anna, bert], {}, true);
    NoVoiceMeansBestGroup(Nobody, first.keys, {}, w);
    OneModelOffered(Nobody, first.keys, w, anna, bert);
    var after := Step(Cold, first, w);
    assert Replay(Cold, [first], w) == after;
    NoVoiceMeansBestGroup(Synced(after), [bert, anna], {}, w);
    OneModelOffered(Synced(after), [bert, anna], w, bert, anna);
    hide ChooseKey;
  }

  lemma BothOfModel(a: Group, b: Group)
    requires a.model == b.model
    ensures OfModel([a, b], a.model) == [a, b]
  {
    assert [a, b][..1] == [a] && [a][..0] == [];
    assert OfModel([a], a.model) == [a];
  }

  lemma OneModelOffered(r: Resident, keys: seq<Group>, w: Windows, a: Group, b: Group)
    requires keys == [a, b] && a.model == b.model
    ensures ChosenModel(r, keys, {}, w) == a.model
  {
    hide ChosenModel;
  }

  // ---- two models taking turns ----

  /** Both models have work that nobody is waiting for; whatever must be loaded loads. */
  ghost predicate BothWaiting(e: Event, a: string, b: string) {
    e.Snapshot? ||
    (e.Batch? && e.loads && e.urgent == {} && Offers(e.keys, a) && Offers(e.keys, b)
     && forall m :: Offers(e.keys, m) ==> m == a || m == b)
  }

  /** The best group of the first batch is one of model `a`. */
  predicate Opens(events: seq<Event>, a: string) {
    events == [] || (if events[0].Batch? then events[0].keys != [] && events[0].keys[0].model == a
                     else Opens(events[1..], a))
  }

  function BatchesIn(events: seq<Event>): nat {
    if events == [] then 0 else (if events[0].Batch? then 1 else 0) + BatchesIn(events[1..])
  }

  // ---- a voice has its window, and no more ----

  /** Only one model has work, in `voice` and in some other voice. */
  ghost predicate IsSharedBy(e: Event, model: string, voice: string) {
    && e.Batch? && (forall k :: 0 <= k < |e.keys| ==> e.keys[k].model == model)
    && Has(e.keys, model, voice) && exists v :: Has(e.keys, model, v) && v != voice
  }

  /** The model is loaded and on record, and the last `n` batches on record were in `voice`. */
  predicate IsOnVoice(gpu: Gpu, model: string, voice: string, n: nat) {
    && gpu.loaded == Some(model) && gpu.resident.model == Some(model)
    && gpu.resident.voice == Some(voice) && gpu.resident.onVoice == n
  }

  lemma OneBatchOnVoice(gpu: Gpu, e: Event, w: Windows, model: string, voice: string, n: nat)
    requires IsOnVoice(gpu, model, voice, n) && IsSharedBy(e, model, voice)
    ensures Chosen(gpu, e, w).model == model
    ensures n < w.voice ==> Chosen(gpu, e, w).voice == voice && IsOnVoice(Step(gpu, e, w), model, voice, n + 1)
    ensures n >= w.voice ==>
      Chosen(gpu, e, w).voice != voice && IsOnVoice(Step(gpu, e, w), model, Chosen(gpu, e, w).voice, 1)
  {
    var r := Synced(gpu);
    var m := ChosenModel(r, e.keys, e.urgent, w);
    assert Offers(e.keys, m);
    hide ChosenModel;
    VoiceLeftExactlyWhen(r, e.keys, e.urgent, w);
    hide ChooseKey, Has;
  }

  /** While one model has the GPU to itself and two of its voices or more have work, a voice on
      record has the GPU for exactly as many batches in a row as its window says: `n` so far
      are followed by the rest of the window, and the batch after that is another voice's. */
  lemma {:induction false} VoiceHasItsWindow(gpu: Gpu, events: seq<Event>, w: Windows, model: string, voice: string,
                                             n: nat)
    requires IsOnVoice(gpu, model, voice, n) && n <= w.voice && |events| == w.voice - n + 1
    requires forall k :: 0 <= k < |events| ==> IsSharedBy(events[k], model, voice)
    ensures
      var h := Replay(gpu, events, w).history;
      && |h| == |gpu.history| + |events| && gpu.history <= h
      && (forall k :: |gpu.history| <= k < |h| - 1 ==> h[k] == Entry(model, voice))
      && h[|h| - 1].model == model && h[|h| - 1].voice != voice
    decreases |events|
  {
    hide IsOnVoice, IsSharedBy, Chosen;
    var e := events[0];
    OneBatchOnVoice(gpu, e, w, model, voice, n);
    StepRecords(gpu, e, w, model, voice);
    hide Step;
    if n < w.voice {
      VoiceHasItsWindow(Step(gpu, e, w), events[1..], w, model, voice, n + 1);
    } else {
      assert events[1..] == [];
    }
  }

  lemma StepRecords(gpu: Gpu, e: Event, w: Windows, model: string, voice: string)
    requires IsSharedBy(e, model, voice)
    ensures e.Batch? && e.keys != []
    ensures Step(gpu, e, w).history == gpu.history + [Entry(Chosen(gpu, e, w).model, Chosen(gpu, e, w).voice)]
  {
    hide ChooseKey;
  }

  /** The model of batch `k` when `a` goes first: blocks of `n + 1` batches in turn. */
  function TurnOf(k: nat, n: nat, a: string, b: string): string {
    if k / (n + 1) % 2 == 0 then a else b
  }

  /** Where in its block batch `k` stands. */
  function PlaceInBlock(k: nat, n: nat): nat { k % (n + 1) }

  lemma NextTurn(k: nat, n: nat)
    ensures k % (n + 1) < n ==> (k + 1) / (n + 1) == k / (n + 1) && (k + 1) % (n + 1) == k % (n + 1) + 1
    ensures k % (n + 1) == n ==> (k + 1) / (n + 1) == k / (n + 1) + 1 && (k + 1) % (n + 1) == 0
  {
    var m, q, r := n + 1, k / (n + 1), k % (n + 1);
    assert k == m * q + r;
    if r < n {
      DivisionIsUnique(k + 1, m, q, r + 1);
    } else {
      assert m * (q + 1) == m * q + m;
      DivisionIsUnique(k + 1, m, q + 1, 0);
    }
  }

  lemma DivisionIsUnique(k: nat, m: nat, q: nat, r: nat)
    requires m > 0 && k == m * q + r && r < m
    ensures k / m == q && k % m == r
  {
    var p, s := k / m, k % m;
    assert k == m * p + s && 0 <= s < m;
    TimesKeepsOrder(m, p + 1, q);
    TimesKeepsOrder(m, q + 1, p);
  }

  lemma TimesKeepsOrder(m: nat, x: nat, y: nat)
    ensures x <= y ==> m * x <= m * y
    ensures m * (x + 1) == m * x + m
  {
  }

  /** After batch `k`, the counter stands at the batch's place in its block. */
  ghost predicate TakesTurns(gpu: Gpu, w: Windows, a: string, b: string) {
    var n := |gpu.history|;
    && (forall k :: 0 <= k < n ==> gpu.history[k].model == TurnOf(k, w.model, a, b))
    && gpu.resident.model == gpu.loaded
    && (n == 0 ==> gpu == Cold)
    && (n > 0 ==>
        gpu.loaded == Some(TurnOf(n - 1, w.model, a, b)) && gpu.resident.onModel == PlaceInBlock(n - 1, w.model))
  }

  lemma TurnStep(gpu: Gpu, e: Event, w: Windows, a: string, b: string)
    requires TakesTurns(gpu, w, a, b) && BothWaiting(e, a, b) && a != b
    requires e.Batch? && e.keys != [] && (gpu.history == [] ==> e.keys[0].model == a)
    ensures TakesTurns(Step(gpu, e, w), w, a, b)
  {
    hide ChooseKey, TurnOf, TakesTurns, Offers;
    if gpu.history == [] {
      FirstTurn(gpu, e, w, a, b);
    } else {
      ChosenTurn(gpu, e, w, a, b);
      CountedTurn(gpu, e, w, a, b);
    }
  }

  lemma FirstTurn(gpu: Gpu, e: Event, w: Windows, a: string, b: string)
    requires TakesTurns(gpu, w, a, b) && gpu.history == []
    requires e.Batch? && e.loads && e.keys != [] && e.keys[0].model == a
    ensures TakesTurns(Step(gpu, e, w), w, a, b)
  {
    hide ChooseKey, ChosenModel, TurnOf, PlaceInBlock, Step, Offers;
    FirstIsBest(e.keys, e.urgent, w);
    TurnZero(w.model, a, b);
    AfterLoadedBatch(gpu, e, w);
    assert Chosen(gpu, e, w).model == a;
    hide Chosen, Synced;
  }

  lemma TurnZero(n: nat, a: string, b: string)
    ensures TurnOf(0, n, a, b) == a && PlaceInBlock(0, n) == 0
  {
  }

  lemma AfterLoadedBatch(gpu: Gpu, e: Event, w: Windows)
    requires e.Batch? && e.keys != [] && e.loads && gpu.resident.model == gpu.loaded
    ensures
      var g, after := Chosen(gpu, e, w), Step(gpu, e, w);
      && after.loaded == Some(g.model) == after.resident.model
      && after.history == gpu.history + [Entry(g.model, g.voice)]
      && after.resident.onModel == if gpu.loaded == Some(g.model) then gpu.resident.onModel + 1 else 0
  {
    hide ChooseKey;
  }

  /** The rule for leaving a model, read as a rule for turns. */
  lemma ChosenTurn(gpu: Gpu, e: Event, w: Windows, a: string, b: string)
    requires TakesTurns(gpu, w, a, b) && BothWaiting(e, a, b) && a != b
    requires gpu.history != [] && e.Batch? && e.keys != []
    ensures Chosen(gpu, e, w).model == TurnOf(|gpu.history|, w.model, a, b)
  {
    hide ChooseKey, ChosenModel, Offers;
    var n := |gpu.history|;
    OtherTurn(n, w.model, a, b);
    hide TurnOf, PlaceInBlock;
    ModelLeftExactlyWhen(Synced(gpu), e.keys, e.urgent, w);
    assert exists m :: Offers(e.keys, m) && Some(m) != gpu.loaded;
  }

  lemma CountedTurn(gpu: Gpu, e: Event, w: Windows, a: string, b: string)
    requires TakesTurns(gpu, w, a, b) && a != b
    requires gpu.history != [] && e.Batch? && e.loads && e.keys != []
    requires Chosen(gpu, e, w).model == TurnOf(|gpu.history|, w.model, a, b)
    ensures TakesTurns(Step(gpu, e, w), w, a, b)
  {
    var n := |gpu.history|;
    hide Chosen, TurnOf, PlaceInBlock, Offers, Step;
    PlaceByTurn(n, w.model, a, b);
    AfterLoadedBatch(gpu, e, w);
  }

  lemma PlaceByTurn(n: nat, window: nat, a: string, b: string)
    requires n > 0 && a != b
    ensures PlaceInBlock(n, window) ==
      if Some(TurnOf(n - 1, window, a, b)) == Some(TurnOf(n, window, a, b)) then PlaceInBlock(n - 1, window) + 1 else 0
  {
    OtherTurn(n, window, a, b);
    hide TurnOf, PlaceInBlock;
  }

  lemma OtherTurn(n: nat, window: nat, a: string, b: string)
    requires n > 0 && a != b
    ensures PlaceInBlock(n - 1, window) <= window
    ensures PlaceInBlock(n - 1, window) < window ==>
      && TurnOf(n, window, a, b) == TurnOf(n - 1, window, a, b)
      && PlaceInBlock(n, window) == PlaceInBlock(n - 1, window) + 1
    ensures PlaceInBlock(n - 1, window) == window ==>
      && TurnOf(n, window, a, b) == (if TurnOf(n - 1, window, a, b) == a then b else a)
      && PlaceInBlock(n, window) == 0
    ensures TurnOf(n - 1, window, a, b) == a || TurnOf(n - 1, window, a, b) == b
  {
    NextTurn(n - 1, window);
  }

  lemma FirstIsBest(keys: seq<Group>, urgent: set<string>, w: Windows)
    requires keys != []
    ensures ChosenModel(Nobody, keys, urgent, w) == keys[0].model
  {
    FirstModel(keys);
  }

  lemma {:induction false} FirstModel(keys: seq<Group>)
    requires keys != []
    ensures ModelOrder(keys) != [] && ModelOrder(keys)[0] == keys[0].model
  {
    if |keys| == 1 {
      assert ModelOrder(keys[..0]) == [];
    } else {
      FirstModel(keys[..|keys| - 1]);
    }
  }

  /** With two models that both always have work, nobody waiting for it and nothing
      unloaded in between, they take turns in blocks of exactly
      `model_residency_batches + 1` batches. */
  lemma {:induction false} ModelsTakeTurns(gpu: Gpu, events: seq<Event>, w: Windows, a: string, b: string)
    requires TakesTurns(gpu, w, a, b) && a != b
    requires forall k :: 0 <= k < |events| ==> BothWaiting(events[k], a, b)
    requires gpu.history == [] ==> Opens(events, a)
    ensures TakesTurns(Replay(gpu, events, w), w, a, b)
    ensures |Replay(gpu, events, w).history| == |gpu.history| + BatchesIn(events)
    decreases |events|
  {
    hide TakesTurns, BothWaiting, ChooseKey;
    if events != [] {
      assert BothWaiting(events[0], a, b);
      if events[0].Batch? {
        assert events[0].keys != [] by { WaitingMeansKeys(events[0], a, b); }
        TurnStep(gpu, events[0], w, a, b);
      } else {
        SnapshotChangesNothing(gpu, events[0], w, a, b);
      }
      ModelsTakeTurns(Step(gpu, events[0], w), events[1..], w, a, b);
    }
  }

  lemma WaitingMeansKeys(e: Event, a: string, b: string)
    requires BothWaiting(e, a, b) && e.Batch?
    ensures e.keys != []
  {
  }

  lemma SnapshotChangesNothing(gpu: Gpu, e: Event, w: Windows, a: string, b: string)
    requires TakesTurns(gpu, w, a, b) && BothWaiting(e, a, b) && !e.Batch?
    ensures Step(gpu, e, w) == gpu
  {
  }

  /** From a cold start: batch `k` goes to the model whose turn it is. */
  lemma TurnsFromColdStart(events: seq<Event>, w: Windows, a: string, b: string, k: nat)
    requires a != b && k < BatchesIn(events)
    requires forall i :: 0 <= i < |events| ==> BothWaiting(events[i], a, b)
    requires Opens(events, a)
    ensures k < |Replay(Cold, events, w).history|
    ensures Replay(Cold, events, w).history[k].model == TurnOf(k, w.model, a, b)
  {
    ModelsTakeTurns(Cold, events, w, a, b);
  }

  // ---- no run of one model is longer, wherever it starts ----

  /** Another model has work, nobody is waiting for `model`, and what must be loaded loads. */
  ghost predicate IsContested(e: Event, model: string) {
    e.Snapshot? ||
    (e.Batch? && e.loads && model !in e.urgent && exists m :: Offers(e.keys, m) && m != model)
  }

  ghost predicate AllContested(events: seq<Event>, model: string) {
    forall i :: 0 <= i < |events| ==> IsContested(events[i], model)
  }

  /** Of the batches of `events`, every one went to `model`. */
  ghost predicate AllWentTo(gpu: Gpu, events: seq<Event>, w: Windows, model: string) {
    LastWereOnModel(Replay(gpu, events, w).history, BatchesIn(events), Some(model))
  }

  predicate IsSettledOn(gpu: Gpu, model: string) { gpu.loaded == Some(model) && gpu.resident.model == Some(model) }

  lemma ContestedHasKeys(e: Event, model: string)
    requires IsContested(e, model) && e.Batch?
    ensures e.keys != []
  {
  }

  lemma {:induction false} HistoryGrows(gpu: Gpu, events: seq<Event>, w: Windows, model: string)
    requires AllContested(events, model)
    ensures |Replay(gpu, events, w).history| == |gpu.history| + BatchesIn(events)
    ensures gpu.history <= Replay(gpu, events, w).history
    decreases |events|
  {
    hide IsContested, Chosen, Note, Sync;
    if events != [] {
      assert IsContested(events[0], model);
      if events[0].Batch? { ContestedHasKeys(events[0], model); }
      NotOutside(events[0], model);
      HistoryGrows(Step(gpu, events[0], w), events[1..], w, model);
    }
  }

  lemma NotOutside(e: Event, model: string)
    requires IsContested(e, model)
    ensures !e.Outside?
  {
  }

  /** If the batches of `events` all went to `model`, so did the first, and the rest did. */
  lemma FirstWentTo(gpu: Gpu, events: seq<Event>, w: Windows, model: string)
    requires events != [] && AllContested(events, model) && AllWentTo(gpu, events, w, model)
    ensures AllWentTo(Step(gpu, events[0], w), events[1..], w, model)
    ensures events[0].Batch? ==> events[0].keys != [] && Chosen(gpu, events[0], w).model == model
  {
    hide IsContested, Chosen, Note, Sync;
    assert IsContested(events[0], model);
    var next := Step(gpu, events[0], w);
    HistoryGrows(next, events[1..], w, model);
    if events[0].Batch? {
      ContestedHasKeys(events[0], model);
      var h := Replay(next, events[1..], w).history;
      assert h[|gpu.history|] == next.history[|gpu.history|];
    }
  }

  /** A settled model gets a batch only while its window is open. */
  lemma StaysInWindow(gpu: Gpu, e: Event, w: Windows, model: string)
    requires IsSettledOn(gpu, model) && IsContested(e, model) && e.Batch? && e.keys != []
    requires Chosen(gpu, e, w).model == model
    ensures IsSettledOn(Step(gpu, e, w), model)
    ensures Step(gpu, e, w).resident.onModel == gpu.resident.onModel + 1 <= w.model
  {
    hide ChooseKey, ChosenModel, Offers;
    AfterLoadedBatch(gpu, e, w);
    hide Step;
    var k :| 0 <= k < |e.keys| && e.keys[k] == Chosen(gpu, e, w);
    OffersOwn(e.keys, k);
    ModelLeftExactlyWhen(Synced(gpu), e.keys, e.urgent, w);
  }

  lemma OffersOwn(keys: seq<Group>, k: nat)
    requires k < |keys|
    ensures Offers(keys, keys[k].model)
  {
  }

  lemma {:induction false} SettledRunIsBounded(gpu: Gpu, events: seq<Event>, w: Windows, model: string)
    requires IsSettledOn(gpu, model) && AllContested(events, model) && AllWentTo(gpu, events, w, model)
    ensures BatchesIn(events) > 0 ==> gpu.resident.onModel + BatchesIn(events) <= w.model
    decreases |events|
  {
    hide IsContested, AllWentTo, Step, Chosen;
    if events != [] {
      assert IsContested(events[0], model);
      FirstWentTo(gpu, events, w, model);
      if events[0].Batch? { StaysInWindow(gpu, events[0], w, model); } else { SnapshotStays(gpu, events[0], w, model); }
      SettledRunIsBounded(Step(gpu, events[0], w), events[1..], w, model);
    }
  }

  lemma SnapshotStays(gpu: Gpu, e: Event, w: Windows, model: string)
    requires IsSettledOn(gpu, model) && IsContested(e, model) && !e.Batch?
    ensures Step(gpu, e, w) == gpu
  {
  }

  lemma BatchSettles(gpu: Gpu, e: Event, w: Windows, model: string)
    requires IsContested(e, model) && e.Batch? && e.keys != [] && Chosen(gpu, e, w).model == model
    ensures IsSettledOn(Step(gpu, e, w), model)
  {
    hide ChooseKey;
  }

  /** From any state whatever: while another model has work and nobody waits for this one,
      no more than `model_residency_batches + 1` batches in a row go to it. */
  lemma {:induction false} RunIsBounded(gpu: Gpu, events: seq<Event>, w: Windows, model: string)
    requires AllContested(events, model) && AllWentTo(gpu, events, w, model)
    ensures BatchesIn(events) <= w.model + 1
    decreases |events|
  {
    hide IsContested, AllWentTo, Step, Chosen;
    if events != [] {
      assert IsContested(events[0], model);
      FirstWentTo(gpu, events, w, model);
      var next := Step(gpu, events[0], w);
      if events[0].Batch? {
        BatchSettles(gpu, events[0], w, model);
        SettledRunIsBounded(next, events[1..], w, model);
      } else {
        RunIsBounded(next, events[1..], w, model);
      }
    }
  }

  lemma {:induction false} ReplayInParts(gpu: Gpu, a: seq<Event>, b: seq<Event>, w: Windows)
    ensures Replay(gpu, a + b, w) == Replay(Replay(gpu, a, w), b, w)
    ensures BatchesIn(a + b) == BatchesIn(a) + BatchesIn(b)
    decreases |a|
  {
    if a == [] {
      assert a + b == b;
    } else {
      assert (a + b)[0] == a[0] && (a + b)[1..] == a[1..] + b;
      ReplayInParts(Step(gpu, a[0], w), a[1..], b, w);
    }
  }

  /** The events up to the `n`th batch. */
  function UpToBatch(events: seq<Event>, n: nat): (k: nat)
    requires n <= BatchesIn(events)
    ensures k <= |events| && BatchesIn(events[..k]) == n
  {
    if n == 0 then 0
    else
      var k := UpToBatch(events[1..], n - (if events[0].Batch? then 1 else 0));
      assert events[..k + 1][1..] == events[1..][..k];
      k + 1
  }

  /** In the history of any run: a stretch in which `model` is contested holds no more than
      `model_residency_batches + 1` batches of it in a row. */
  lemma NoLongerRun(before: seq<Event>, stretch: seq<Event>, w: Windows, model: string, i: nat, n: nat)
    requires AllContested(stretch, model)
    requires
      var start, h := |Replay(Cold, before, w).history|, Replay(Cold, before + stretch, w).history;
      start <= i && i + n <= |h| && forall k :: i <= k < i + n ==> h[k].model == model
    ensures n <= w.model + 1
  {
    var gpu := Replay(Cold, before, w);
    ReplayInParts(Cold, before, stretch, w);
    HistoryGrows(gpu, stretch, w, model);
    var to := UpToBatch(stretch, i + n - |gpu.history|);
    var inner := stretch[..to];
    assert stretch == inner + stretch[to..];
    ReplayInParts(gpu, inner, stretch[to..], w);
    HistoryGrows(gpu, inner, w, model);
    HistoryGrows(Replay(gpu, inner, w), stretch[to..], w, model);
    var from := UpToBatch(inner, i - |gpu.history|);
    assert inner == inner[..from] + inner[from..];
    ReplayInParts(gpu, inner[..from], inner[from..], w);
    hide Replay, BatchesIn, UpToBatch, IsContested;
    RunIsBounded(Replay(gpu, inner[..from], w), inner[from..], w, model);
  }
}
